/**
 Browser binding: what a session rests on, in every run of the world.
 */
module Bindings {
  import opened Clocks
  import opened Options
  import opened Cookies
  import opened Flows
  import opened Handlers
  import opened Jars
  import opened Worlds

  // ---- what every step keeps ------------------------------------------------------------

  /** If `v` was sealed at all, it was sealed for `c`. */
  ghost predicate OwnValue(starts: map<string, Start>, c: Client, v: string) { v in starts ==> starts[v].client == c }

  ghost predicate JarKept(starts: map<string, Start>, c: Client, jar: Jar) {
    PlainJar(jar) && forall k :: k in jar ==> OwnValue(starts, c, jar[k].value)
  }

  /** An honest browser only holds sealed values that were sealed for it. */
  ghost predicate JarsKept(w: World) {
    forall c :: c in w.jars && c != ADVERSARY ==> JarKept(w.starts, c, w.jars[c])
  }

  /** Sign-ins were started in the past, and every return path stored is an acceptable one. */
  ghost predicate StartsKept(w: World) {
    forall v :: v in w.starts ==> w.starts[v].at <= w.now && 1 < |v| && Acceptable(w.starts[v].flow.returnTo)
  }

  /** And so an honest request only carries such values. */
  ghost predicate RequestKept(starts: map<string, Start>, f: Flight) {
    f.client != ADVERSARY ==> WellSent(f.groups) && forall p :: p in Flatten(f.groups) ==>
        OwnValue(starts, f.client, p.1)
  }

  /** A flow opened at `at` was sealed for this state, recently, and for this browser if it is honest. */
  ghost predicate OpeningKept(starts: map<string, Start>, f: Flight, open: Opening, at: nat) {
    f.request.CallbackRequest? &&
    (open.Some? ==>
       && !Incomplete(f.request.cq) && open.value.0 in starts
       && (var s := starts[open.value.0];
           && s.flow == open.value.1 && s.state == f.request.cq.state.value
           && s.at <= at < s.at + FLOW_TTL * 1000
           && (f.client != ADVERSARY ==> s.client == f.client)))
  }

  /** A cookie to be set is of URL-safe text, and no value sealed for another browser. */
  ghost predicate SafeCookie(starts: map<string, Start>, c: Client, s: SetCookie) {
    s.maxAge > 0 ==> AllUrlSafe(s.name) && AllUrlSafe(s.value) && OwnValue(starts, c, s.value)
  }

  ghost predicate StageKept(starts: map<string, Start>, now: nat, f: Flight) {
    match f.stage
    case Sent => true
    case Opened(open, at) => at <= now && OpeningKept(starts, f, open, at)
    case Decided(open, at, env) =>
      && at <= now && OpeningKept(starts, f, open, at)
      && (env.id.Some? ==> AllUrlSafe(env.id.value) && env.id.value !in starts)
    case Served(cookies) => forall s :: s in cookies ==> SafeCookie(starts, f.client, s)
  }

  ghost predicate FlightKept(starts: map<string, Start>, now: nat, f: Flight) {
    RequestKept(starts, f) && StageKept(starts, now, f)
  }

  ghost predicate FlightsKept(w: World) { forall r :: r in w.flights ==> FlightKept(w.starts, w.now, w.flights[r]) }

  /** What a session rests on. */
  ghost predicate Bound(starts: map<string, Start>, c: Note)
    requires c.Stored?
  {
    c.value in starts &&
    var s := starts[c.value];
    && s.state == c.state && (c.client != ADVERSARY ==> s.client == c.client)
    && s.at <= c.openedAt < s.at + FLOW_TTL * 1000 && c.openedAt <= c.at
    && c.token.nonce == s.flow.nonce && c.signed
    && c.grant.challenge == S256(s.flow.verifier) && c.grant.nonce == s.flow.nonce
    && c.grant.sub == c.token.identity.sub
  }

  ghost predicate LogBound(w: World) { forall i :: 0 <= i < |w.log| && w.log[i].Stored? ==> Bound(w.starts, w.log[i]) }

  ghost predicate Inv(w: World) { JarsKept(w) && StartsKept(w) && FlightsKept(w) && LogBound(w) }

  // ---- sending --------------------------------------------------------------------------

  lemma SentIsKept(w: World, c: Client, groups: seq<seq<Pair>>, f: Flight)
    requires JarsKept(w) && (c != ADVERSARY ==> Carries(groups, JarOf(w, c), w.now))
    requires f.client == c && f.groups == groups
    ensures RequestKept(w.starts, f)
  {
    if c != ADVERSARY { CarriedIsWellSent(groups, JarOf(w, c), w.now); }
  }

  // ---- answers --------------------------------------------------------------------------

  lemma {:induction false} ClearsDoNotSet(held: seq<Held>)
    ensures forall s :: s in ClearsOf(held) ==> s.maxAge == 0
  {
    if held != [] { ClearsDoNotSet(held[1..]); }
  }

  lemma LoginSetsOneCookie(n: Names, vault: Vault, headers: seq<string>, q: LoginQuery, up: bool, sealed: bool,
                           m: Minted)
    ensures forall s :: s in LoginResponse(n, vault, headers, q, up, sealed, m).cookies && s.maxAge > 0 ==>
              up && sealed && s == FlowCookie(n, m)
  {
    ClearsDoNotSet(Pruned(n, vault, headers));
  }

  lemma CallbackSetsSafeCookies(n: Names, headers: seq<string>, q: CallbackQuery, open: Opening, env: Environment)
    requires env.id.Some? ==> AllUrlSafe(env.id.value)
    ensures forall s :: s in Decide(n, headers, q, open, env).response.cookies && s.maxAge > 0 ==>
              && AllUrlSafe(s.name) && AllUrlSafe(s.value)
              && (s.value == "1" || (env.id.Some? && s.value == env.id.value))
  {
    CallbackCookies(n, headers, q, open, env);
    UrlSafeNames(n, "");
    if Decide(n, headers, q, open, env).created.Some? { CreatedFromOpenFlow(n, headers, q, open, env); }
  }

  /** What an answer sets, when it arrives. */
  lemma AnswerIsSafe(w: World, f: Flight)
    requires StartsKept(w) && FlightKept(w.starts, w.now, f)
    ensures forall s :: s in AnswerCookies(w.n, f) ==> SafeCookie(w.starts, f.client, s)
  {
    if f.stage.Decided? && f.request.CallbackRequest? {
      CallbackSetsSafeCookies(w.n, Headers(f), f.request.cq, f.stage.open, f.stage.env);
    }
  }

  lemma TakenIsKept(starts: map<string, Start>, c: Client, jar: Jar, cookies: seq<SetCookie>, now: nat)
    requires JarKept(starts, c, jar) && forall s :: s in cookies ==> SafeCookie(starts, c, s)
    ensures JarKept(starts, c, TakeAll(jar, cookies, now))
  {
    var after := TakeAll(jar, cookies, now);
    TakeAllKeepsPlain(jar, cookies, now);
    forall k | k in after ensures OwnValue(starts, c, after[k].value) { WhereFrom(jar, cookies, now, k); }
  }

  lemma JarAnsweredKeeps(w: World, c: Client, jar: Jar)
    requires Inv(w) && (c != ADVERSARY ==> JarKept(w.starts, c, jar))
    ensures Inv(w.(jars := w.jars[c := jar]))
  {}

  lemma ArrivalKeeps(w: World, r: RequestId)
    requires Inv(w) && r in w.flights
    ensures Inv(Delivered(w, r))
  {
    var f := w.flights[r];
    var jar := TakeAll(JarOf(w, f.client), AnswerCookies(w.n, f), w.now);
    AnswerIsSafe(w, f);
    if f.client != ADVERSARY { TakenIsKept(w.starts, f.client, JarOf(w, f.client), AnswerCookies(w.n, f), w.now); }
    JarAnsweredKeeps(w, f.client, jar);
    var w' := w.(jars := w.jars[f.client := jar]);
    LostKeeps(w', r);
    NoStoredNote(w, f);
    LoggedKeeps(w'.(flights := w'.flights - {r}), Delivered(w, r), ArrivalNotes(w, f));
  }

  lemma NoStoredNote(w: World, f: Flight)
    ensures forall note :: note in ArrivalNotes(w, f) ==> !note.Stored?
  {}

  // ---- starting a sign-in ---------------------------------------------------------------

  /** A value nobody has seen changes nothing for anybody else. */
  lemma UnseenIsNobodys(w: World, v: string, s: Start)
    requires JarsKept(w) && FlightsKept(w) && Unseen(w, v)
    ensures JarsKept(w.(starts := w.starts[v := s])) && FlightsKept(w.(starts := w.starts[v := s]))
  {
    var starts := w.starts[v := s];
    forall c | c in w.jars && c != ADVERSARY ensures JarKept(starts, c, w.jars[c]) {}
    forall r | r in w.flights ensures FlightKept(starts, w.now, w.flights[r]) { UnseenInFlight(w, w.flights[r], v, s); }
  }

  lemma UnseenInFlight(w: World, f: Flight, v: string, s: Start)
    requires FlightKept(w.starts, w.now, f) && v !in ValuesIn(f) && v !in w.starts
    ensures FlightKept(w.starts[v := s], w.now, f)
  {
    forall p | p in Flatten(f.groups) ensures p.1 != v { assert p.1 in SentValues(f.groups); }
    if f.stage.Served? {
      forall c | c in f.stage.cookies ensures c.value != v { assert c.value in SetValues(f.stage.cookies); }
    }
  }

  lemma ReachedKeeps(w: World, r: RequestId, stage: Stage)
    requires Inv(w) && r in w.flights && StageKept(w.starts, w.now, w.flights[r].(stage := stage))
    ensures Inv(Reached(w, r, stage))
  {
    var w' := Reached(w, r, stage);
    forall q | q in w'.flights ensures FlightKept(w'.starts, w'.now, w'.flights[q]) {}
  }

  lemma StartedKeeps(w: World, v: string, s: Start)
    requires Inv(w) && Unseen(w, v) && 1 < |v| && s.at == w.now && Acceptable(s.flow.returnTo)
    ensures Inv(w.(starts := w.starts[v := s]))
  {
    UnseenIsNobodys(w, v, s);
    NotesStayBound(w, v, s);
  }

  lemma NotesStayBound(w: World, v: string, s: Start)
    requires Inv(w) && v !in w.starts
    ensures forall i :: 0 <= i < |w.log| && w.log[i].Stored? ==> Bound(w.starts[v := s], w.log[i])
  {}

  lemma LoginIsSafe(w: World, f: Flight, up: bool, sealed: bool, m: Minted, starts: map<string, Start>)
    requires ValidState(m.state) && AllUrlSafe(m.value) && f.request.LoginRequest?
    requires up && sealed ==> OwnValue(starts, f.client, m.value)
    ensures forall s :: s in LoginResponse(w.n, VaultOf(w), Headers(f), f.request.lq, up, sealed, m).cookies ==>
              SafeCookie(starts, f.client, s)
  {
    LoginSetsOneCookie(w.n, VaultOf(w), Headers(f), f.request.lq, up, sealed, m);
    UrlSafeNames(w.n, m.state);
  }

  lemma LoginServedKeeps(w: World, r: RequestId, up: bool, sealed: bool, m: Minted)
    requires Inv(w) && Enabled(w, ServeLogin(r, up, sealed, m))
    ensures Inv(LoginServed(w, r, up, sealed, m))
  {
    var f := w.flights[r];
    var cookies := LoginResponse(w.n, VaultOf(w), Headers(f), f.request.lq, up, sealed, m).cookies;
    if up && sealed {
      var s := Start(f.client, m.state, StartedFlow(f.request.lq, m.verifier, m.nonce), w.now);
      SafeReturnToIsFixed(f.request.lq.returnTo);
      StartedKeeps(w, m.value, s);
      var w' := w.(starts := w.starts[m.value := s]);
      LoginIsSafe(w, f, up, sealed, m, w'.starts);
      ReachedKeeps(w', r, Served(cookies));
      assert LoginServed(w, r, up, sealed, m) == Reached(w', r, Served(cookies));
    } else {
      LoginIsSafe(w, f, up, sealed, m, w.starts);
      ReachedKeeps(w, r, Served(cookies));
    }
  }

  // ---- opening a flow -------------------------------------------------------------------

  /** An opened flow was sealed for this browser and this state, and recently. */
  lemma OpenedIsOurs(w: World, f: Flight)
    requires StartsKept(w) && RequestKept(w.starts, f) && f.request.CallbackRequest?
    ensures OpeningKept(w.starts, f, OpenFor(w.n, VaultOf(w), Headers(f), f.request.cq, w.now / 1000), w.now)
  {
    var q := f.request.cq;
    var open := OpenFor(w.n, VaultOf(w), Headers(f), q, w.now / 1000);
    if open.Some? {
      if f.client != ADVERSARY { ReadFromGroups(f.groups, w.n.Flow(q.state.value)); }
      OpenedIsYoung(w, open.value.0, w.starts[open.value.0]);
    }
  }

  lemma OpenedIsYoung(w: World, value: string, s: Start)
    requires s.at <= w.now && SaturatingSub(w.now / 1000, s.at / 1000) < FLOW_TTL
    ensures w.now < s.at + FLOW_TTL * 1000
  {}

  lemma OpenedKeeps(w: World, r: RequestId)
    requires Inv(w) && Enabled(w, OpenCallback(r))
    ensures Inv(CallbackOpened(w, r))
  {
    var f := w.flights[r];
    OpenedIsOurs(w, f);
    ReachedKeeps(w, r, Opened(OpenFor(w.n, VaultOf(w), Headers(f), f.request.cq, w.now / 1000), w.now));
  }

  // ---- finishing a sign-in --------------------------------------------------------------

  /** A created session leaves one record, of its own callback. */
  lemma StoredIsNoted(w: World, r: RequestId, env: Environment, victim: Option<string>)
    requires Enabled(w, FinishCallback(r, env, victim))
    requires OutcomeOf(w.n, w.flights[r], w.flights[r].stage.open, env).created.Some?
    ensures var f := w.flights[r];
            var q, open := f.request.cq, f.stage.open;
            && !Incomplete(q) && open.Some? && env.exchange.Token? && env.id.Some? && q.code.value in w.grants
            && env.exchange.token.nonce == open.value.1.nonce
            && (env.exchange.verifies || env.exchange.again == Some(true))
            && StoredNotes(w, f, env) == [Stored(f.client, w.now, f.stage.openedAt, q.state.value, open.value.0,
                                                 env.exchange.token, true, w.grants[q.code.value], env.id.value)]
  {
    var f := w.flights[r];
    CreatedExactly(w.n, Headers(f), f.request.cq, f.stage.open, env);
    CreatedFromOpenFlow(w.n, Headers(f), f.request.cq, f.stage.open, env);
    CreatedWasExchanged(w.n, Headers(f), f.request.cq, f.stage.open, env);
  }

  lemma CreatedWasExchanged(n: Names, headers: seq<string>, q: CallbackQuery, open: Opening, env: Environment)
    requires Decide(n, headers, q, open, env).created.Some?
    ensures Exchanged(q, open, env)
  {}

  lemma NoteIsBound(w: World, r: RequestId, env: Environment, victim: Option<string>)
    requires Enabled(w, FinishCallback(r, env, victim)) && FlightKept(w.starts, w.now, w.flights[r])
    ensures forall note :: note in StoredNotes(w, w.flights[r], env) ==> note.Stored? && Bound(w.starts, note)
  {
    var f := w.flights[r];
    if OutcomeOf(w.n, f, f.stage.open, env).created.Some? {
      StoredIsNoted(w, r, env, victim);
      GrantIsBound(w, f, env);
    }
  }

  lemma GrantIsBound(w: World, f: Flight, env: Environment)
    requires StageKept(w.starts, w.now, f) && f.stage.Opened? && f.stage.open.Some? && f.request.CallbackRequest?
    requires Exchanged(f.request.cq, f.stage.open, env) && ProviderAllows(w, f.request.cq, f.stage.open, env)
    requires env.id.Some? && env.exchange.token.nonce == f.stage.open.value.1.nonce
    ensures Bound(w.starts, Stored(f.client, w.now, f.stage.openedAt, f.request.cq.state.value, f.stage.open.value.0,
                                   env.exchange.token, true, w.grants[f.request.cq.code.value], env.id.value))
  {}

  lemma FinishedFromMoved(w: World, r: RequestId, env: Environment, victim: Option<string>)
    requires r in w.flights && w.flights[r].request.CallbackRequest? && w.flights[r].stage.Opened?
    ensures var f, w' := w.flights[r], CallbackFinished(w, r, env, victim);
            var moved := Reached(w, r, Decided(f.stage.open, f.stage.openedAt, env));
            && w'.log == moved.log + StoredNotes(w, f, env)
            && w'.jars == moved.jars && w'.starts == moved.starts && w'.flights == moved.flights && w'.now == moved.now
  {}

  lemma FinishedKeeps(w: World, r: RequestId, env: Environment, victim: Option<string>)
    requires Inv(w) && Enabled(w, FinishCallback(r, env, victim))
    ensures Inv(CallbackFinished(w, r, env, victim))
  {
    var f := w.flights[r];
    NoteIsBound(w, r, env, victim);
    ReachedKeeps(w, r, Decided(f.stage.open, f.stage.openedAt, env));
    var moved := Reached(w, r, Decided(f.stage.open, f.stage.openedAt, env));
    FinishedFromMoved(w, r, env, victim);
    LoggedKeeps(moved, CallbackFinished(w, r, env, victim), StoredNotes(w, f, env));
  }

  lemma LoggedKeeps(w: World, w': World, notes: seq<Note>)
    requires Inv(w) && w'.log == w.log + notes
    requires w'.jars == w.jars && w'.starts == w.starts && w'.flights == w.flights && w'.now == w.now
    requires forall note :: note in notes && note.Stored? ==> Bound(w.starts, note)
    ensures Inv(w')
  {
    forall i | 0 <= i < |w'.log| && w'.log[i].Stored? ensures Bound(w'.starts, w'.log[i]) {
      if i < |w.log| { assert w'.log[i] == w.log[i]; } else { assert w'.log[i] in notes; }
    }
  }

  lemma LogoutKeeps(w: World, r: RequestId)
    requires Inv(w) && r in w.flights
    ensures Inv(LogoutServed(w, r))
  {
    var w' := Reached(w, r, Served([Clear(w.n.Session())]));
    ReachedKeeps(w, r, Served([Clear(w.n.Session())]));
    LoggedKeeps(w', LogoutServed(w, r), LogoutNotes(w, w.flights[r]));
  }

  lemma LostKeeps(w: World, r: RequestId)
    requires Inv(w)
    ensures Inv(w.(flights := w.flights - {r}))
  {}

  lemma MeKeeps(w: World, r: RequestId)
    requires Inv(w) && r in w.flights
    ensures Inv(MeServed(w, r))
  {
    LostKeeps(w, r);
    LoggedKeeps(w.(flights := w.flights - {r}), MeServed(w, r), [MeNote(w, w.flights[r])]);
  }

  // ---- every run ------------------------------------------------------------------------

  lemma SendKeeps(w: World, a: Action)
    requires Inv(w) && a.Send? && Enabled(w, a)
    ensures Inv(Step(w, a))
  {
    SentIsKept(w, a.client, a.groups, Step(w, a).flights[a.r]);
  }

  lemma PassKeeps(w: World, dt: nat)
    requires Inv(w)
    ensures Inv(w.(now := w.now + dt))
  {
    var w' := w.(now := w.now + dt);
    forall r | r in w.flights ensures FlightKept(w'.starts, w'.now, w'.flights[r]) {}
  }

  lemma ApprovedKeeps(w: World, code: string, grant: Grant)
    requires Inv(w)
    ensures Inv(w.(grants := w.grants[code := grant]))
  {
    assert w.log + [] == w.log;
    LoggedKeeps(w, w.(grants := w.grants[code := grant]), []);
  }

  lemma ServingKeeps(w: World, a: Action)
    requires Inv(w) && Enabled(w, a) && IsServing(a)
    ensures Inv(Step(w, a))
  {
    match a
    case ServeLogin(r, up, sealed, m) => LoginServedKeeps(w, r, up, sealed, m);
    case OpenCallback(r) => OpenedKeeps(w, r);
    case FinishCallback(r, env, victim) => FinishedKeeps(w, r, env, victim);
    case ServeLogout(r) => LogoutKeeps(w, r);
    case _ =>
  }

  lemma BrowserKeeps(w: World, a: Action)
    requires Inv(w) && Enabled(w, a) && (a.Send? || a.Arrive? || a.Lose? || a.ServeMe?)
    ensures Inv(Step(w, a))
  {
    match a
    case Send(_, _, _, _) => SendKeeps(w, a);
    case Arrive(r) => ArrivalKeeps(w, r);
    case Lose(r) => LostKeeps(w, r);
    case ServeMe(r) => MeKeeps(w, r);
    case _ =>
  }

  lemma SurroundingsKeep(w: World, a: Action)
    requires Inv(w) && (a.Pass? || a.Tamper? || a.Approve?) && Enabled(w, a)
    ensures Inv(Step(w, a))
  {
    match a
    case Pass(dt) => PassKeeps(w, dt);
    case Tamper(jar) => JarAnsweredKeeps(w, ADVERSARY, jar);
    case Approve(code, grant) => ApprovedKeeps(w, code, grant);
    case _ =>
  }

  lemma StepKeeps(w: World, a: Action)
    requires Inv(w)
    ensures Inv(Step(w, a))
  {
    if !Enabled(w, a) {
      assert Step(w, a) == w;
    } else if IsServing(a) {
      ServingKeeps(w, a);
    } else if a.Pass? || a.Tamper? || a.Approve? {
      SurroundingsKeep(w, a);
    } else {
      BrowserKeeps(w, a);
    }
  }

  lemma {:induction false} RunIsBound(w: World, acts: seq<Action>)
    requires Inv(w)
    ensures Inv(Run(w, acts))
    decreases acts
  {
    if acts != [] {
      StepKeeps(w, acts[0]);
      RunIsBound(Step(w, acts[0]), acts[1..]);
    }
  }

  // ---- the main results -----------------------------------------------------------------

  /**
   Browser binding. In every run, whatever codes, states and cookies callbacks present and
   however requests and answers overtake each other: a session is created for an honest browser
   only if the flow it opened was sealed by a `/auth/login` answered to that browser, for that
   state, less than `FLOW_TTL` before it was opened, and the user it signs in authorized a
   request with that flow's challenge and nonce, which the ID token carries under a signature
   that verified.
   */
  lemma BrowserBinding(w: World, acts: seq<Action>, i: nat)
    requires Initial(w)
    requires i < |Run(w, acts).log| && Run(w, acts).log[i].Stored? && Run(w, acts).log[i].client != ADVERSARY
    ensures var w', c := Run(w, acts), Run(w, acts).log[i];
            && c.value in w'.starts
            && (var s := w'.starts[c.value];
                && s.client == c.client && s.state == c.state
                && s.at <= c.openedAt < s.at + 1_800_000 && c.openedAt <= c.at
                && c.token.nonce == s.flow.nonce && c.signed
                && c.grant == Grant(S256(s.flow.verifier), s.flow.nonce, c.token.identity.sub))
  {
    RunIsBound(w, acts);
    assert Bound(Run(w, acts).starts, Run(w, acts).log[i]);
  }

  /** And no session is created without such a record. */
  lemma EverySessionIsRecorded(w: World, r: RequestId, env: Environment, victim: Option<string>)
    requires Enabled(w, FinishCallback(r, env, victim))
    ensures var f := w.flights[r];
            var notes := StoredNotes(w, f, env);
            && CallbackFinished(w, r, env, victim).log == w.log + notes
            && (OutcomeOf(w.n, f, f.stage.open, env).created.Some? ==>
                  && |notes| == 1 && notes[0].Stored? && notes[0].client == f.client && notes[0].at == w.now
                  && env.id == Some(notes[0].id) && env.exchange.Token? && notes[0].token == env.exchange.token
                  && (notes[0].signed <==> env.exchange.verifies || env.exchange.again == Some(true)))
  {
    if OutcomeOf(w.n, w.flights[r], w.flights[r].stage.open, env).created.Some? { StoredIsNoted(w, r, env, victim); }
  }

  /**
   A restart keeps its meaning, in every run: when a callback with an open flow restarts, the
   query it redirects to starts a sign-in for the same path, and a step-up exactly if this was.
   */
  lemma RestartKeepsMeaning(w: World, acts: seq<Action>, r: RequestId, f: Flight, env: Environment)
    requires Initial(w) && r in Run(w, acts).flights && f == Run(w, acts).flights[r]
    requires f.request.CallbackRequest? && f.stage.Opened? && f.stage.open.Some?
    requires OutcomeOf(w.n, f, f.stage.open, env).kind.Restart?
    ensures var again := Some(AgainOf(f.stage.open.value.1));
            && OutcomeOf(w.n, f, f.stage.open, env).response.location == LoginAgain(again)
            && IsRead(again) && Resumes(again, f.stage.open.value.1)
  {
    RunIsBound(w, acts);
    OpenedIsAcceptable(Run(w, acts), f);
    RestartCarriesFlow(w.n, Headers(f), f.request.cq, f.stage.open, env);
    AgainKeepsMeaning(f.stage.open.value.1);
  }

  lemma OpenedIsAcceptable(w: World, f: Flight)
    requires StartsKept(w) && FlightKept(w.starts, w.now, f) && f.stage.Opened? && f.stage.open.Some?
    ensures Acceptable(f.stage.open.value.1.returnTo)
  {}

  lemma RestartCarriesFlow(n: Names, headers: seq<string>, q: CallbackQuery, open: Opening, env: Environment)
    requires open.Some? && Decide(n, headers, q, open, env).kind.Restart?
    ensures Decide(n, headers, q, open, env).response.location == LoginAgain(Some(AgainOf(open.value.1)))
  {}
}
