/**
 That honest sign-ins get through: from `/auth/login` to `/auth/me`, in the world where others,
 and the browser itself, do anything else in between.
 */
module SignIns {
  import opened Clocks
  import opened Options
  import opened Cookies
  import opened Flows
  import opened Handlers
  import opened Jars
  import opened Worlds
  import opened Bindings
  import opened Loops
  import opened Seats
  import Sessions

  // ---- what nobody can take away --------------------------------------------------------

  /** What was sealed stays sealed, and a code is granted once. */
  ghost predicate Lasts(w: World, w': World, value: string, code: string, grant: Grant) {
    && w'.n == w.n && w'.limits == w.limits && w.now <= w'.now
    && (value in w.starts ==> value in w'.starts && w'.starts[value] == w.starts[value])
    && (Granted(w, code, grant) ==> Granted(w', code, grant))
  }

  ghost predicate Granted(w: World, code: string, grant: Grant) {
    (code in w.grants || code in w.spent) && (code in w.grants ==> w.grants[code] == grant)
  }

  lemma StepKeepsStart(w: World, a: Action, value: string)
    requires value in w.starts
    ensures value in Step(w, a).starts && Step(w, a).starts[value] == w.starts[value]
  {}

  lemma StepKeepsGrant(w: World, a: Action, code: string, grant: Grant)
    requires Granted(w, code, grant)
    ensures Granted(Step(w, a), code, grant)
  {}

  lemma StepLasts(w: World, a: Action, value: string, code: string, grant: Grant)
    ensures Lasts(w, Step(w, a), value, code, grant)
  {
    LogStep(w, a);
    if value in w.starts { StepKeepsStart(w, a, value); }
    if Granted(w, code, grant) { StepKeepsGrant(w, a, code, grant); }
  }

  lemma {:induction false} RunLasts(w: World, acts: seq<Action>, value: string, code: string, grant: Grant)
    ensures Lasts(w, Run(w, acts), value, code, grant)
    decreases acts
  {
    if acts != [] {
      StepLasts(w, acts[0], value, code, grant);
      RunLasts(Step(w, acts[0]), acts[1..], value, code, grant);
    }
  }

  // ---- opening one's own flow -----------------------------------------------------------

  lemma ReadFlowOpens(n: Names, vault: Vault, headers: seq<string>, state: string, value: string, flow: Flow,
                      issued: nat, now: nat)
    requires ValidState(state) && Read(headers, n.Flow(state)) == Some(value)
    requires value in vault && vault[value] == Sealed(state, flow, issued) && SaturatingSub(now, issued) < FLOW_TTL
    ensures OpenFlow(n, vault, headers, state, now) == Some((value, flow))
  {}

  lemma YoungToTheSecond(at: nat, now: nat)
    requires at <= now <= at + (FLOW_TTL - 1) * 1000
    ensures SaturatingSub(now / 1000, at / 1000) < FLOW_TTL
  {}

  /** The browser holds the flow, readably, and a second or more of its lifetime is left. */
  ghost predicate HoldsFlow(w: World, c: Client, state: string, value: string) {
    var jar := JarOf(w, c);
    && PlainJar(jar) && ReadableJar(jar) && ValidState(state)
    && w.n.Flow(state) in Live(jar, w.now) && jar[w.n.Flow(state)].value == value
    && value in w.starts && w.starts[value].state == state
    && w.starts[value].at <= w.now <= w.starts[value].at + (FLOW_TTL - 1) * 1000
  }

  /** The browser that sends its flow's cookie in time has it opened. */
  lemma OwnFlowOpens(w: World, c: Client, groups: seq<seq<Pair>>, state: string, value: string)
    requires HoldsFlow(w, c, state, value) && Carries(groups, JarOf(w, c), w.now)
    ensures OpenFlow(w.n, VaultOf(w), PrintAll(groups), state, w.now / 1000) == Some((value, w.starts[value].flow))
  {
    ReadWholeJar(groups, JarOf(w, c), w.now, w.n.Flow(state));
    var s := w.starts[value];
    YoungToTheSecond(s.at, w.now);
    ReadFlowOpens(w.n, VaultOf(w), PrintAll(groups), state, value, s.flow, s.at / 1000, w.now / 1000);
  }

  // ---- coming back with a code ----------------------------------------------------------

  function Back(code: string, state: string): CallbackQuery { CallbackQuery(Some(code), Some(state), None) }

  /** The provider is up, exchanges the code for a token of this flow, and an id can be minted. */
  ghost predicate Favourable(w: World, env: Environment, flow: Flow, sub: string) {
    && env.up && env.id.Some? && AllUrlSafe(env.id.value) && Unseen(w, env.id.value)
    && env.ttlSecs == w.limits.ttl / 1000
    && env.exchange.Token? && env.exchange.token.nonce == flow.nonce && env.exchange.token.identity.sub == sub
    && (env.exchange.verifies || env.exchange.again == Some(true))
  }

  /** A request's values were in its browser's jar, so sending it makes no new text old. */
  lemma StillUnseen(w: World, f: Flight, r: RequestId, v: string)
    requires Unseen(w, v) && Carries(f.groups, JarOf(w, f.client), w.now) && (f.stage.Sent? || f.stage.Opened?)
    ensures Unseen(w.(flights := w.flights[r := f]), v)
  {
    var w' := w.(flights := w.flights[r := f]);
    forall q | q in w'.flights ensures v !in ValuesIn(w'.flights[q]) {
      if q == r {
        forall p | p in Flatten(f.groups) ensures p.1 != v { assert p.0 in JarOf(w, f.client); }
      }
    }
  }

  function SentBack(w: World, c: Client, groups: seq<seq<Pair>>, q: CallbackQuery): Flight {
    Flight(c, groups, CallbackRequest(q), w.now, |w.log|, Sent)
  }

  lemma SendSteps(w: World, r: RequestId, c: Client, groups: seq<seq<Pair>>, request: Request)
    requires r !in w.flights && Carries(groups, JarOf(w, c), w.now)
    ensures Step(w, Send(r, c, groups, request))
         == w.(flights := w.flights[r := Flight(c, groups, request, w.now, |w.log|, Sent)])
  {}

  lemma OpenSteps(w: World, r: RequestId, code: string, state: string, value: string, flow: Flow)
    requires r in w.flights && w.flights[r].stage.Sent? && w.flights[r].request == CallbackRequest(Back(code, state))
    requires OpenFlow(w.n, VaultOf(w), Headers(w.flights[r]), state, w.now / 1000) == Some((value, flow))
    ensures Step(w, OpenCallback(r))
         == w.(flights := w.flights[r := w.flights[r].(stage := Opened(Some((value, flow)), w.now))])
  {}

  /** The session of a sign-in whose cookie can be set. */
  function CreatedBy(n: Names, headers: seq<string>, env: Environment): Created
    requires env.id.Some? && env.exchange.Token?
  {
    Created(env.id.value, env.exchange.token, Read(headers, n.Session()), false)
  }

  /** The finishing step is possible, and decides for a sign-in. */
  lemma FinishIsEnabled(w: World, r: RequestId, code: string, state: string, value: string, flow: Flow, sub: string,
                        env: Environment, victim: Option<string>)
    requires r in w.flights && w.flights[r].request == CallbackRequest(Back(code, state))
    requires w.flights[r].stage == Opened(Some((value, flow)), w.now) && Favourable(w, env, flow, sub)
    requires code in w.grants && w.grants[code] == Grant(S256(flow.verifier), flow.nonce, sub)
    requires MayEvict(w, CreatedBy(w.n, Headers(w.flights[r]), env), victim)
    ensures Enabled(w, FinishCallback(r, env, victim))
    ensures var o := OutcomeOf(w.n, w.flights[r], w.flights[r].stage.open, env);
            && o.kind.Complete? && o.response.location == Path(flow.returnTo)
            && o.created == Some(CreatedBy(w.n, Headers(w.flights[r]), env))
  {
    OpenFlowCompletes(w.n, Headers(w.flights[r]), code, state, Some((value, flow)), env);
  }

  /** An eviction can always be decided. */
  lemma SomeVictim(w: World, c: Created) returns (victim: Option<string>)
    ensures MayEvict(w, c, victim)
  {
    var held := Sessions.Swept(w.limits, w.store, w.now).held;
    var among := Sessions.Candidates(w.limits, held, c.token.identity.sub);
    if among == {} {
      victim := None;
    } else {
      var k := Sessions.OldestExists(held, among);
      victim := Some(k);
    }
  }

  /** The browser after a sign-in: at its path, with the session's cookie, and on record. */
  ghost predicate SignedInAs(w: World, c: Client, id: string, token: IdToken) {
    && SeatOf(w.log, c) == Some(id)
    && (w.limits.ttl >= 1000 ==>
          && w.n.Session() in JarOf(w, c)
          && JarOf(w, c)[w.n.Session()] == Cookie(id, w.now + 1000 * (w.limits.ttl / 1000)))
    && id in w.store.held && w.store.held[id].identity == token.identity && w.store.held[id].created == w.now
  }

  /** What a completed sign-in leaves in its browser's jar. */
  lemma CompletedTaken(n: Names, jar: Jar, headers: seq<string>, q: CallbackQuery, open: Opening, env: Environment,
                       now: nat)
    requires var o := Decide(n, headers, q, open, env); o.kind.Complete? && o.created.Some?
    ensures var o := Decide(n, headers, q, open, env);
            env.ttlSecs > 0 ==>
              var after := TakeAll(jar, o.response.cookies, now);
              n.Session() in after && after[n.Session()] == Cookie(o.created.value.id, now + 1000 * env.ttlSecs)
  {
    var o := Decide(n, headers, q, open, env);
    CallbackCookies(n, headers, q, open, env);
    NamesAreDistinct(n, if q.state.Some? then q.state.value else "", "");
    TakenOnce(jar, o.response.cookies, now, SessionCookie(n, o.created.value.id, env.ttlSecs));
  }

  lemma ArrivalSignsIn(w: World, r: RequestId, id: string, token: IdToken)
    requires Enabled(w, Arrive(r)) && w.flights[r].stage.Decided?
    requires w.flights[r].stage.env.ttlSecs == w.limits.ttl / 1000
    requires var o := OutcomeOf(w.n, w.flights[r], w.flights[r].stage.open, w.flights[r].stage.env);
             o.kind.Complete? && o.created.Some? && o.created.value.id == id
    requires id in w.store.held && w.store.held[id].identity == token.identity && w.store.held[id].created == w.now
    ensures SignedInAs(Delivered(w, r), w.flights[r].client, id, token)
  {
    var f := w.flights[r];
    CompletedTaken(w.n, JarOf(w, f.client), Headers(f), f.request.cq, f.stage.open, f.stage.env, w.now);
    assert ArrivalNotes(w, f) == [SignedIn(f.client, w.now, id)];
    SeatOfAppend(w.log, SignedIn(f.client, w.now, id), f.client);
  }

  lemma FinishStores(w: World, r: RequestId, env: Environment, victim: Option<string>, c: Created)
    requires Enabled(w, FinishCallback(r, env, victim)) && !c.withdrawn && c.retired != Some(c.id)
    requires OutcomeOf(w.n, w.flights[r], w.flights[r].stage.open, env).created == Some(c)
    ensures var w' := Step(w, FinishCallback(r, env, victim));
            && c.id in w'.store.held && w'.store.held[c.id].identity == c.token.identity
            && w'.store.held[c.id].created == w.now
            && w'.now == w.now && w'.n == w.n && w'.limits == w.limits
            && var f := w.flights[r];
               w'.flights == w.flights[r := f.(stage := Decided(f.stage.open, f.stage.openedAt, env))]
  {}

  /** The id a request brings is not the one just minted. */
  lemma OldIsNotNew(w: World, r: RequestId, id: string)
    requires Unseen(w, id) && r in w.flights && WellSent(w.flights[r].groups)
    ensures Read(Headers(w.flights[r]), w.n.Session()) != Some(id)
  {
    var f := w.flights[r];
    if Read(Headers(f), w.n.Session()).Some? {
      ReadFromGroups(f.groups, w.n.Session());
      assert Read(Headers(f), w.n.Session()).value in SentValues(f.groups);
      assert id !in ValuesIn(f);
    }
  }

  /** From sending the callback to its answer. */
  function Return(r: RequestId, c: Client, groups: seq<seq<Pair>>, q: CallbackQuery, env: Environment,
                  victim: Option<string>): seq<Action> {
    [Send(r, c, groups, CallbackRequest(q)), OpenCallback(r), FinishCallback(r, env, victim), Arrive(r)]
  }

  lemma RunFour(w: World, acts: seq<Action>)
    requires |acts| == 4
    ensures Run(w, acts) == Step(Step(Step(Step(w, acts[0]), acts[1]), acts[2]), acts[3])
  {
    var w1 := Step(w, acts[0]);
    var w2 := Step(w1, acts[1]);
    var w3 := Step(w2, acts[2]);
    assert acts[1..][1..] == acts[2..] && acts[2..][1..] == acts[3..] && acts[3..][1..] == [];
    assert Run(w1, acts[1..]) == Run(w2, acts[2..]);
    assert Run(w2, acts[2..]) == Run(w3, acts[3..]);
    assert Run(w3, acts[3..]) == Step(w3, acts[3]);
  }

  /** The store a sign-in would go to, if the browser came back now. */
  ghost predicate CanEvict(w: World, groups: seq<seq<Pair>>, env: Environment, victim: Option<string>) {
    env.id.Some? && env.exchange.Token? && MayEvict(w, CreatedBy(w.n, PrintAll(groups), env), victim)
  }

  /** A callback that has opened its flow. */
  function OpenedBack(w: World, c: Client, groups: seq<seq<Pair>>, q: CallbackQuery, open: Opening): Flight {
    SentBack(w, c, groups, q).(stage := Opened(open, w.now))
  }

  lemma SameVault(w: World, w': World)
    requires w'.starts == w.starts
    ensures VaultOf(w') == VaultOf(w)
  {}

  lemma SetTwice(flights: map<RequestId, Flight>, r: RequestId, f: Flight, g: Flight)
    ensures flights[r := f][r := g] == flights[r := g]
  {}

  lemma ReturnOpens(w: World, r: RequestId, c: Client, groups: seq<seq<Pair>>, code: string, state: string,
                    value: string)
    requires r !in w.flights && HoldsFlow(w, c, state, value) && Carries(groups, JarOf(w, c), w.now)
    ensures var q, open := Back(code, state), Some((value, w.starts[value].flow));
            Step(Step(w, Send(r, c, groups, CallbackRequest(q))), OpenCallback(r)) ==
              w.(flights := w.flights[r := OpenedBack(w, c, groups, q, open)])
  {
    var q, flow := Back(code, state), w.starts[value].flow;
    SendSteps(w, r, c, groups, CallbackRequest(q));
    OwnFlowOpens(w, c, groups, state, value);
    var w1 := w.(flights := w.flights[r := SentBack(w, c, groups, q)]);
    SameVault(w, w1);
    OpenSteps(w1, r, code, state, value, flow);
    SetTwice(w.flights, r, SentBack(w, c, groups, q), OpenedBack(w, c, groups, q, Some((value, flow))));
  }

  lemma FavourableStill(w: World, r: RequestId, f: Flight, env: Environment, flow: Flow, sub: string)
    requires Favourable(w, env, flow, sub) && Carries(f.groups, JarOf(w, f.client), w.now) && f.stage.Opened?
    ensures Favourable(w.(flights := w.flights[r := f]), env, flow, sub)
  {
    StillUnseen(w, f, r, env.id.value);
  }

  /** A browser that holds its flow comes back with a code granted for it. */
  lemma ReturnCompletes(w: World, r: RequestId, c: Client, groups: seq<seq<Pair>>, code: string, state: string,
                        value: string, sub: string, env: Environment, victim: Option<string>)
    requires r !in w.flights && HoldsFlow(w, c, state, value) && Carries(groups, JarOf(w, c), w.now)
    requires var flow := w.starts[value].flow;
             code in w.grants && w.grants[code] == Grant(S256(flow.verifier), flow.nonce, sub)
    requires Favourable(w, env, w.starts[value].flow, sub) && CanEvict(w, groups, env, victim)
    ensures var q := Back(code, state);
            var o := Decide(w.n, PrintAll(groups), q, Some((value, w.starts[value].flow)), env);
            && o.kind.Complete? && o.response.location == Path(w.starts[value].flow.returnTo)
            && SignedInAs(Run(w, Return(r, c, groups, q, env, victim)), c, env.id.value, env.exchange.token)
  {
    var q, flow := Back(code, state), w.starts[value].flow;
    var f := OpenedBack(w, c, groups, q, Some((value, flow)));
    var w2 := w.(flights := w.flights[r := f]);
    ReturnOpens(w, r, c, groups, code, state, value);
    FavourableStill(w, r, f, env, flow, sub);
    FinishIsEnabled(w2, r, code, state, value, flow, sub, env, victim);
    CarriedIsWellSent(groups, JarOf(w, c), w.now);
    OldIsNotNew(w2, r, env.id.value);
    FinishSignsIn(w2, r, env, victim);
    RunFour(w, Return(r, c, groups, q, env, victim));
  }

  lemma FinishSignsIn(w: World, r: RequestId, env: Environment, victim: Option<string>)
    requires Enabled(w, FinishCallback(r, env, victim)) && env.id.Some? && env.exchange.Token?
    requires var o := OutcomeOf(w.n, w.flights[r], w.flights[r].stage.open, env);
             && o.kind.Complete? && o.created.Some? && !o.created.value.withdrawn
             && o.created.value.id == env.id.value && o.created.value.token == env.exchange.token
             && o.created.value.retired != Some(env.id.value)
    ensures var w' := Step(Step(w, FinishCallback(r, env, victim)), Arrive(r));
            SignedInAs(w', w.flights[r].client, env.id.value, env.exchange.token)
  {
    var created := OutcomeOf(w.n, w.flights[r], w.flights[r].stage.open, env).created.value;
    FinishStores(w, r, env, victim, created);
    var w1 := Step(w, FinishCallback(r, env, victim));
    ArrivalSignsIn(w1, r, env.id.value, env.exchange.token);
  }

  // ---- a whole sign-in ------------------------------------------------------------------

  /** The sign-in the server starts, as the redirect describes it to the provider. */
  function Asked(w: World, r: RequestId, m: Minted): (location: Location)
    requires r in w.flights && w.flights[r].request.LoginRequest? && AllUrlSafe(m.state) && AllUrlSafe(m.value)
    ensures location.Authorize?
  {
    LoginAlwaysSets(w.n, VaultOf(w), Headers(w.flights[r]), w.flights[r].request.lq, m);
    LoginResponse(w.n, VaultOf(w), Headers(w.flights[r]), w.flights[r].request.lq, true, true, m).location
  }

  /** After the server started a sign-in, a user granted it, and `acts` passed. */
  ghost function Later(w: World, r: RequestId, m: Minted, code: string, sub: string, acts: seq<Action>): World
    requires Enabled(w, ServeLogin(r, true, true, m))
  {
    var asked := Asked(w, r, m);
    Run(Step(Step(w, ServeLogin(r, true, true, m)), Approve(code, Grant(asked.challenge, asked.nonce, sub))), acts)
  }

  lemma StartIsSealed(w: World, r: RequestId, m: Minted)
    requires Enabled(w, ServeLogin(r, true, true, m))
    ensures var flow := StartedFlow(w.flights[r].request.lq, m.verifier, m.nonce);
            var w1 := Step(w, ServeLogin(r, true, true, m));
            && w1.n == w.n && w1.limits == w.limits && w1.now == w.now && w1.grants == w.grants && w1.spent == w.spent
            && m.value in w1.starts && w1.starts[m.value] == Start(w.flights[r].client, m.state, flow, w.now)
  {
    assert Step(w, ServeLogin(r, true, true, m)) == LoginServed(w, r, true, true, m);
  }

  /** The sign-in is sealed, and then granted as the redirect asked. */
  lemma StartIsGranted(w: World, r: RequestId, m: Minted, code: string, sub: string)
    requires Enabled(w, ServeLogin(r, true, true, m)) && code !in w.grants && code !in w.spent
    ensures var grant := Grant(S256(m.verifier), m.nonce, sub);
            var flow := StartedFlow(w.flights[r].request.lq, m.verifier, m.nonce);
            var w2 := Step(Step(w, ServeLogin(r, true, true, m)), Approve(code, grant));
            && w2.n == w.n && w2.limits == w.limits && w2.now == w.now && Granted(w2, code, grant)
            && m.value in w2.starts && w2.starts[m.value] == Start(w.flights[r].client, m.state, flow, w.now)
  {
    StartIsSealed(w, r, m);
  }

  lemma StartLasts(w: World, r: RequestId, m: Minted, code: string, sub: string, acts: seq<Action>)
    requires Enabled(w, ServeLogin(r, true, true, m)) && code !in w.grants && code !in w.spent
    ensures var w' := Later(w, r, m, code, sub, acts);
            var flow := StartedFlow(w.flights[r].request.lq, m.verifier, m.nonce);
            && w'.n == w.n && w'.limits == w.limits && w.now <= w'.now
            && m.value in w'.starts && w'.starts[m.value] == Start(w.flights[r].client, m.state, flow, w.now)
            && (code in w'.grants ==> w'.grants[code] == Grant(S256(m.verifier), m.nonce, sub))
  {
    LoginAlwaysSets(w.n, VaultOf(w), Headers(w.flights[r]), w.flights[r].request.lq, m);
    StartIsGranted(w, r, m, code, sub);
    var grant := Grant(S256(m.verifier), m.nonce, sub);
    RunLasts(Step(Step(w, ServeLogin(r, true, true, m)), Approve(code, grant)), acts, m.value, code, grant);
  }

  /**
   A whole sign-in. The server starts one for an honest browser; a user grants what the redirect
   asked for; then everybody, that browser included, does anything at all. If the browser still
   holds the flow, up to a second before `FLOW_TTL`, and the code is still unspent, its coming
   back signs it in as that user, at the path it asked for, if that may be honoured. The redirect
   demanded credentials just if the request was a step-up.
   */
  lemma SignInCompletes(w: World, r: RequestId, m: Minted, code: string, sub: string, acts: seq<Action>,
                        back: RequestId, groups: seq<seq<Pair>>, env: Environment, victim: Option<string>)
    requires Enabled(w, ServeLogin(r, true, true, m)) && code !in w.grants && code !in w.spent
    requires var w', c := Later(w, r, m, code, sub, acts), w.flights[r].client;
             && back !in w'.flights && code in w'.grants && w'.now <= w.now + (FLOW_TTL - 1) * 1000
             && PlainJar(JarOf(w', c)) && ReadableJar(JarOf(w', c)) && Carries(groups, JarOf(w', c), w'.now)
             && w.n.Flow(m.state) in Live(JarOf(w', c), w'.now) && JarOf(w', c)[w.n.Flow(m.state)].value == m.value
             && Favourable(w', env, StartedFlow(w.flights[r].request.lq, m.verifier, m.nonce), sub)
             && CanEvict(w', groups, env, victim)
    ensures Asked(w, r, m).stepUp <==> w.flights[r].request.lq.stepUp == Some("1")
    ensures var w', c, lq := Later(w, r, m, code, sub, acts), w.flights[r].client, w.flights[r].request.lq;
            var q, open := Back(code, Asked(w, r, m).state), Some((m.value, StartedFlow(lq, m.verifier, m.nonce)));
            var o := Decide(w.n, PrintAll(groups), q, open, env);
            && o.kind.Complete? && o.response.location == Path(Destination(lq.returnTo))
            && SignedInAs(Run(w', Return(back, c, groups, q, env, victim)), c, env.id.value, env.exchange.token)
  {
    var w', c := Later(w, r, m, code, sub, acts), w.flights[r].client;
    StartLasts(w, r, m, code, sub, acts);
    LoginAlwaysSets(w.n, VaultOf(w), Headers(w.flights[r]), w.flights[r].request.lq, m);
    ReturnCompletes(w', back, c, groups, code, m.state, m.value, sub, env, victim);
    DestinationIsSafe(w.flights[r].request.lq.returnTo);
  }

  /** Where a request asked to land: at its path, if that may be honoured. */
  function Destination(asked: Option<string>): string {
    match asked case None => "/" case Some(p) => if Honoured(p) then p else "/"
  }

  lemma DestinationIsSafe(asked: Option<string>)
    ensures SafeReturnTo(asked) == Destination(asked)
  {
    ReturnToIsExact(if asked.Some? then asked.value else "");
  }

  /** The store holds that session, created less than the lifetime ago. */
  predicate HeldLive(w: World, id: string) {
    id in w.store.held && Elapsed(w.now, w.store.held[id].created) < w.limits.ttl
  }

  lemma MeReads(w: World, r: RequestId, id: string)
    requires r in w.flights && w.flights[r].request.MeRequest? && w.flights[r].stage.Sent?
    requires Read(Headers(w.flights[r]), w.n.Session()) == Some(id)
    ensures Step(w, ServeMe(r)).log == w.log + [Told(w.flights[r].client, w.now, w.flights[r].since,
              if HeldLive(w, id) then Some(w.store.held[id].identity) else None)]
  {
    assert Step(w, ServeMe(r)) == MeServed(w, r);
  }

  /** And `/auth/me` tells a browser whose session is held and within its lifetime who it is. */
  lemma SignedInIsTold(w: World, r: RequestId, c: Client, groups: seq<seq<Pair>>, id: string)
    requires PlainJar(JarOf(w, c)) && ReadableJar(JarOf(w, c)) && Carries(groups, JarOf(w, c), w.now)
    requires r !in w.flights && w.n.Session() in Live(JarOf(w, c), w.now) && JarOf(w, c)[w.n.Session()].value == id
    ensures var w1 := Step(w, Send(r, c, groups, MeRequest));
            Step(w1, ServeMe(r)).log == w.log + [Told(c, w.now, |w.log|,
              if HeldLive(w, id) then Some(w.store.held[id].identity) else None)]
  {
    SendSteps(w, r, c, groups, MeRequest);
    ReadWholeJar(groups, JarOf(w, c), w.now, w.n.Session());
    MeReads(w.(flights := w.flights[r := Flight(c, groups, MeRequest, w.now, |w.log|, Sent)]), r, id);
  }
}
