/**
 Redirect loops: when a browser that keeps failing to sign in is sent round again, and when it
 is refused.
 */
module Loops {
  import opened Options
  import opened Cookies
  import opened Flows
  import opened Handlers
  import opened Jars
  import opened Worlds
  import opened Bindings

  // ---- the restarts of a browser --------------------------------------------------------

  /** The last restart of a browser since its last completed sign-in. */
  function LastRestart(log: seq<Note>, c: Client): Option<nat> {
    if log == [] then None
    else
      var last := log[|log| - 1];
      if last.SignedIn? && last.client == c then None
      else if last.Restarted? && last.client == c then Some(last.at)
      else LastRestart(log[..|log| - 1], c)
  }

  ghost predicate IsSignIn(log: seq<Note>, c: Client, k: nat) { k < |log| && log[k].SignedIn? && log[k].client == c }

  ghost predicate IsRestart(log: seq<Note>, c: Client, i: nat) { i < |log| && log[i].Restarted? && log[i].client == c }

  ghost predicate SignInBetween(log: seq<Note>, c: Client, i: nat, j: nat) {
    exists k: nat :: i < k < j && IsSignIn(log, c, k)
  }

  /** Two restarts with no completed sign-in between them are `RETRY_TTL` apart. */
  ghost predicate RestartsApart(log: seq<Note>, c: Client) {
    forall i: nat, j: nat :: i < j && IsRestart(log, c, i) && IsRestart(log, c, j) && !SignInBetween(log, c, i, j) ==>
      log[i].at + RETRY_TTL * 1000 <= log[j].at
  }

  ghost predicate LogTimely(w: World) {
    && (forall i :: 0 <= i < |w.log| ==> w.log[i].at <= w.now)
    && (forall i, j :: 0 <= i < j < |w.log| ==> w.log[i].at <= w.log[j].at)
  }

  predicate RecentRestart(w: World, c: Client) {
    LastRestart(w.log, c).Some? && w.now < LastRestart(w.log, c).value + RETRY_TTL * 1000
  }

  /**
   A callback that failed: its flow did not open, the provider was down, the exchange failed or
   the token did not verify.
   */
  predicate Failed(f: Flight) {
    f.request.CallbackRequest? && f.stage.Decided? && Fails(f.request.cq, f.stage.open, f.stage.env)
  }

  /**
   If a failed callback is answered soon after a restart of its browser, it had brought the
   marker, when it was sent, in a header the server can read.
   */
  ghost predicate Shows(w: World, a: Action, c: Client) {
    a.Arrive? && Enabled(w, a) && w.flights[a.r].client == c && Failed(w.flights[a.r]) && RecentRestart(w, c) ==>
      Seen(w.flights[a.r].groups, w.n.Retry())
  }

  ghost predicate AlwaysShows(w: World, acts: seq<Action>, c: Client)
    decreases acts
  {
    acts == [] || (Shows(w, acts[0], c) && AlwaysShows(Step(w, acts[0]), acts[1..], c))
  }

  // ---- how the log grows ----------------------------------------------------------------

  lemma {:induction false} LastRestartIsLatest(log: seq<Note>, c: Client, i: nat)
    requires forall i, j :: 0 <= i < j < |log| ==> log[i].at <= log[j].at
    requires IsRestart(log, c, i) && !SignInBetween(log, c, i, |log|)
    ensures LastRestart(log, c).Some? && log[i].at <= LastRestart(log, c).value
  {
    var last := |log| - 1;
    if i < last && !(log[last].Restarted? && log[last].client == c) {
      var rest := log[..last];
      assert !IsSignIn(log, c, last);
      forall k: nat | i < k < last ensures !IsSignIn(rest, c, k) {
        assert IsSignIn(log, c, k) <==> IsSignIn(rest, c, k);
      }
      LastRestartIsLatest(rest, c, i);
    }
  }

  lemma {:induction false} LastRestartIsLogged(log: seq<Note>, c: Client) returns (i: nat)
    requires LastRestart(log, c).Some?
    ensures IsRestart(log, c, i) && log[i].at == LastRestart(log, c).value && !SignInBetween(log, c, i, |log|)
  {
    var last := |log| - 1;
    i := last;
    if !(log[last].Restarted? && log[last].client == c) {
      i := LastRestartIsLogged(log[..last], c);
      forall k: nat | i < k < |log| ensures !IsSignIn(log, c, k) {
        if k < last { assert IsSignIn(log[..last], c, k) <==> IsSignIn(log, c, k); }
      }
    }
  }

  lemma LastRestartAppend(log: seq<Note>, note: Note, c: Client)
    ensures LastRestart(log + [note], c) ==
              if note.SignedIn? && note.client == c then None
              else if note.Restarted? && note.client == c then Some(note.at)
              else LastRestart(log, c)
  {
    assert (log + [note])[..|log|] == log;
  }

  lemma AppendedBetween(log: seq<Note>, note: Note, c: Client, i: nat, j: nat)
    requires j <= |log|
    ensures SignInBetween(log + [note], c, i, j) <==> SignInBetween(log, c, i, j)
  {
    forall k: nat | i < k < j ensures IsSignIn(log + [note], c, k) <==> IsSignIn(log, c, k) {}
  }

  lemma GrownKeepsPrefix(log: seq<Note>, note: Note, c: Client)
    requires RestartsApart(log + [note], c)
    ensures RestartsApart(log, c)
  {
    var grown := log + [note];
    forall i: nat, j: nat | i < j && IsRestart(log, c, i) && IsRestart(log, c, j) && !SignInBetween(log, c, i, j)
      ensures log[i].at + RETRY_TTL * 1000 <= log[j].at
    {
      AppendedBetween(log, note, c, i, j);
      assert grown[i] == log[i] && grown[j] == log[j];
      assert IsRestart(grown, c, i) && IsRestart(grown, c, j);
    }
  }

  /** If one more note is not a restart too soon, the restarts stay apart. */
  lemma GrownStaysApart(w: World, note: Note, c: Client)
    requires LogTimely(w) && note.at == w.now && RestartsApart(w.log, c)
    requires note.Restarted? && note.client == c ==> !RecentRestart(w, c)
    ensures RestartsApart(w.log + [note], c)
  {
    var log, last := w.log + [note], |w.log|;
    forall i: nat, j: nat | i < j && IsRestart(log, c, i) && IsRestart(log, c, j) && !SignInBetween(log, c, i, j)
      ensures log[i].at + RETRY_TTL * 1000 <= log[j].at
    {
      AppendedBetween(w.log, note, c, i, j);
      assert log[i] == w.log[i] && IsRestart(w.log, c, i);
      if j < last {
        assert log[j] == w.log[j] && IsRestart(w.log, c, j);
      } else {
        LastRestartIsLatest(w.log, c, i);
      }
    }
  }

  lemma TooSoonIsNotApart(w: World, note: Note, c: Client)
    requires note.at == w.now && note.Restarted? && note.client == c && RecentRestart(w, c)
    ensures !RestartsApart(w.log + [note], c)
  {
    var log := w.log + [note];
    var i := LastRestartIsLogged(w.log, c);
    AppendedBetween(w.log, note, c, i, |w.log|);
    assert log[i] == w.log[i] && IsRestart(log, c, i) && IsRestart(log, c, |w.log|);
  }

  /** What one more note means for the spacing of a browser's restarts. */
  lemma LogGrows(w: World, c: Client, note: Note)
    requires LogTimely(w) && note.at == w.now
    ensures RestartsApart(w.log + [note], c) <==>
              RestartsApart(w.log, c) && (note.Restarted? && note.client == c ==> !RecentRestart(w, c))
  {
    if RestartsApart(w.log + [note], c) {
      GrownKeepsPrefix(w.log, note, c);
      if note.Restarted? && note.client == c && RecentRestart(w, c) { TooSoonIsNotApart(w, note, c); }
    } else if RestartsApart(w.log, c) && (note.Restarted? && note.client == c ==> !RecentRestart(w, c)) {
      GrownStaysApart(w, note, c);
    }
  }

  lemma StepKeepsLogTimely(w: World, a: Action)
    requires LogTimely(w)
    ensures LogTimely(Step(w, a))
  {
    LogStep(w, a);
    if Enabled(w, a) { assert forall note :: note in NotesOf(w, a) ==> note.at == w.now; }
  }

  // ---- the exact condition --------------------------------------------------------------

  /** An answer restarts its browser exactly if it failed and the server saw no marker. */
  lemma RestartsIffUnseen(w: World, f: Flight)
    requires RequestKept(w.starts, f) && f.client != ADVERSARY
    ensures (exists note :: note in ArrivalNotes(w, f) && note.Restarted?) <==>
        Failed(f) && !Seen(f.groups, w.n.Retry())
    ensures forall note :: note in ArrivalNotes(w, f) && note.Restarted? ==> note == Restarted(f.client, w.now)
  {
    if f.request.CallbackRequest? && f.stage.Decided? {
      FailureIsRestartOrRefusal(w.n, Headers(f), f.request.cq, f.stage.open, f.stage.env);
      ReadExactly(f.groups, w.n.Retry());
      var o := OutcomeOf(w.n, f, f.stage.open, f.stage.env);
      if o.kind.Restart? { assert Restarted(f.client, w.now) in ArrivalNotes(w, f); }
    }
  }

  lemma ArrivalIsOfItsClient(w: World, f: Flight)
    ensures forall note :: note in ArrivalNotes(w, f) ==> (note.Restarted? || note.SignedIn? || note.SignedOut?) ==>
        note.client == f.client
  {}

  lemma OnlyArrivalsRestart(w: World, a: Action)
    requires Enabled(w, a) && !a.Arrive?
    ensures forall note ::
        note in NotesOf(w, a) ==> !note.Restarted? && !note.SignedIn? && !note.SignedOut? && !note.Refused?
  {}

  predicate RestartOf(notes: seq<Note>, c: Client) { notes != [] && notes[0].Restarted? && notes[0].client == c }

  lemma NotesGrow(w: World, notes: seq<Note>, c: Client)
    requires LogTimely(w) && |notes| <= 1 && forall note :: note in notes ==> note.at == w.now
    ensures RestartsApart(w.log + notes, c) <==>
        RestartsApart(w.log, c) && (RestartOf(notes, c) ==> !RecentRestart(w, c))
  {
    if notes == [] {
      assert w.log + notes == w.log;
    } else {
      assert notes == [notes[0]];
      LogGrows(w, c, notes[0]);
    }
  }

  /** A step breaks the spacing exactly if it is such an answer, too soon, and the marker unseen. */
  lemma StepIsExact(w: World, a: Action, c: Client)
    requires Inv(w) && LogTimely(w) && c != ADVERSARY
    ensures RestartsApart(Step(w, a).log, c) <==> RestartsApart(w.log, c) && Shows(w, a, c)
  {
    LogStep(w, a);
    if Enabled(w, a) {
      NotesGrow(w, NotesOf(w, a), c);
      if a.Arrive? {
        ArrivalIsExact(w, a.r, c);
      } else {
        OnlyArrivalsRestart(w, a);
        assert !RestartOf(NotesOf(w, a), c);
      }
    }
  }

  lemma ArrivalIsExact(w: World, r: RequestId, c: Client)
    requires Inv(w) && c != ADVERSARY && Enabled(w, Arrive(r))
    ensures var notes := ArrivalNotes(w, w.flights[r]);
            Shows(w, Arrive(r), c) <==> (RestartOf(notes, c) ==> !RecentRestart(w, c))
  {
    var f := w.flights[r];
    ArrivalIsOfItsClient(w, f);
    if f.client == c {
      assert FlightKept(w.starts, w.now, f);
      RestartsIffUnseen(w, f);
      OneNote(w, f);
    }
  }

  lemma OneNote(w: World, f: Flight)
    ensures |ArrivalNotes(w, f)| <= 1
    ensures (exists note :: note in ArrivalNotes(w, f) && note.Restarted?) <==>
        ArrivalNotes(w, f) != [] && ArrivalNotes(w, f)[0].Restarted?
  {
    var notes := ArrivalNotes(w, f);
    if notes != [] {
      assert notes[0] in notes;
      assert forall note :: note in notes ==> note == notes[0];
    }
  }

  lemma {:induction false} RunIsExact(w: World, acts: seq<Action>, c: Client)
    requires Inv(w) && LogTimely(w) && c != ADVERSARY
    ensures RestartsApart(Run(w, acts).log, c) <==> RestartsApart(w.log, c) && AlwaysShows(w, acts, c)
    decreases acts
  {
    if acts != [] {
      StepKeeps(w, acts[0]);
      StepKeepsLogTimely(w, acts[0]);
      StepIsExact(w, acts[0], c);
      RunIsExact(Step(w, acts[0]), acts[1..], c);
    }
  }

  /**
   When there is no redirect loop. In every run, however requests and answers overtake each
   other, the restarts that reach an honest browser with no completed sign-in between them are
   `RETRY_TTL` apart if and only if every failed callback answered within that time of one had
   been sent with the marker in a header the server can read.
   */
  lemma RestartsApartExactly(w: World, acts: seq<Action>, c: Client)
    requires Initial(w) && c != ADVERSARY
    ensures RestartsApart(Run(w, acts).log, c) <==> AlwaysShows(w, acts, c)
  {
    RunIsExact(w, acts, c);
  }

  // ---- one callback at a time -----------------------------------------------------------

  predicate IsCallbackOf(f: Flight, c: Client) { f.client == c && f.request.CallbackRequest? }

  /** A browser sends a callback only when it has none on its way. */
  ghost predicate Waits(w: World, a: Action, c: Client) {
    a.Send? && a.client == c && a.request.CallbackRequest? && Enabled(w, a) ==>
      forall r :: r in w.flights ==> !IsCallbackOf(w.flights[r], c)
  }

  ghost predicate AlwaysWaits(w: World, acts: seq<Action>, c: Client)
    decreases acts
  {
    acts == [] || (Waits(w, acts[0], c) && AlwaysWaits(Step(w, acts[0]), acts[1..], c))
  }

  /** While a restart is recent, the browser holds the marker it was given then. */
  ghost predicate MarkerKept(w: World, c: Client) {
    var jar, last := JarOf(w, c), LastRestart(w.log, c);
    && PlainJar(jar) && ReadableJar(jar)
    && (last.Some? ==>
        last.value <= w.now && w.n.Retry() in jar && jar[w.n.Retry()].expires == last.value + RETRY_TTL * 1000)
  }

  /** Its one callback brings the marker, if it was sent while a restart was recent. */
  ghost predicate Brings(w: World, c: Client, f: Flight) {
    && f.sentAt <= w.now
    && (LastRestart(w.log, c).Some? && f.sentAt < LastRestart(w.log, c).value + RETRY_TTL * 1000 ==>
        Seen(f.groups, w.n.Retry()))
  }

  ghost predicate CallbackKept(w: World, c: Client) {
    && (forall r, q ::
          r in w.flights && q in w.flights && IsCallbackOf(w.flights[r], c) && IsCallbackOf(w.flights[q], c) ==> r == q)
    && (forall r :: r in w.flights && IsCallbackOf(w.flights[r], c) ==> Brings(w, c, w.flights[r]))
  }

  /** The other answers leave the marker alone. */
  ghost predicate NoMarkerSet(n: Names, f: Flight) {
    f.stage.Served? ==> forall s :: s in f.stage.cookies ==> s.name != n.Retry()
  }

  ghost predicate ServedKept(w: World) { forall r :: r in w.flights ==> NoMarkerSet(w.n, w.flights[r]) }

  ghost predicate Patient(w: World, c: Client) { Inv(w) && MarkerKept(w, c) && CallbackKept(w, c) && ServedKept(w) }

  // what the answers set

  /** Pruning clears flow cookies and nothing else. */
  lemma OnlyFlowsCleared(n: Names, vault: Vault, pairs: seq<Pair>)
    ensures forall s :: s in ClearsOf(Dropped(HeldFlows(n, vault, pairs))) ==> IsFlowName(n, s.name)
  {
    var held := HeldFlows(n, vault, pairs);
    HeldNames(n, vault, pairs);
    KeptOrDropped(held);
    ClearedNames(Dropped(held));
  }

  lemma {:induction false} ClearedNames(held: seq<Held>)
    ensures forall s :: s in ClearsOf(held) ==> s.name in NamesOf(held)
  {
    if held != [] {
      ClearedNames(held[1..]);
      assert held == [held[0]] + held[1..];
    }
  }

  lemma LoginSetsNoMarker(n: Names, vault: Vault, headers: seq<string>, q: LoginQuery, up: bool, sealed: bool,
                          m: Minted)
    ensures forall s :: s in LoginResponse(n, vault, headers, q, up, sealed, m).cookies ==> s.name != n.Retry()
  {
    OnlyFlowsCleared(n, vault, Pairs(headers));
    NamesAreDistinct(n, m.state, m.state);
  }

  lemma ReachedKeepsServed(w: World, r: RequestId, stage: Stage)
    requires ServedKept(w) && r in w.flights && NoMarkerSet(w.n, w.flights[r].(stage := stage))
    ensures ServedKept(Reached(w, r, stage))
  {}

  lemma LoginKeepsServed(w: World, r: RequestId, up: bool, sealed: bool, m: Minted)
    requires ServedKept(w) && Enabled(w, ServeLogin(r, up, sealed, m))
    ensures ServedKept(LoginServed(w, r, up, sealed, m))
  {
    var f := w.flights[r];
    LoginSetsNoMarker(w.n, VaultOf(w), Headers(f), f.request.lq, up, sealed, m);
    ReachedKeepsServed(w, r, Served(LoginResponse(w.n, VaultOf(w), Headers(f), f.request.lq, up, sealed, m).cookies));
  }

  lemma LogoutKeepsServed(w: World, r: RequestId)
    requires ServedKept(w) && r in w.flights
    ensures ServedKept(LogoutServed(w, r))
  {
    NamesAreDistinct(w.n, "", "");
    ReachedKeepsServed(w, r, Served([Clear(w.n.Session())]));
  }

  lemma OpenedKeepsServed(w: World, r: RequestId)
    requires ServedKept(w) && r in w.flights && w.flights[r].request.CallbackRequest?
    ensures ServedKept(CallbackOpened(w, r))
  {
    var f := w.flights[r];
    ReachedKeepsServed(w, r, Opened(OpenFor(w.n, VaultOf(w), Headers(f), f.request.cq, w.now / 1000), w.now));
  }

  lemma FinishedKeepsServed(w: World, r: RequestId, env: Environment, victim: Option<string>)
    requires ServedKept(w) && r in w.flights && w.flights[r].request.CallbackRequest? && w.flights[r].stage.Opened?
    ensures ServedKept(CallbackFinished(w, r, env, victim))
  {
    ReachedKeepsServed(w, r, Decided(w.flights[r].stage.open, w.flights[r].stage.openedAt, env));
  }

  lemma StepKeepsServed(w: World, a: Action)
    requires ServedKept(w)
    ensures ServedKept(Step(w, a))
  {
    if Enabled(w, a) && IsServing(a) { ServingKeepsServed(w, a); }
  }

  lemma ServingKeepsServed(w: World, a: Action)
    requires ServedKept(w) && Enabled(w, a) && IsServing(a)
    ensures ServedKept(Step(w, a))
  {
    match a
    case ServeLogin(r, up, sealed, m) => LoginKeepsServed(w, r, up, sealed, m);
    case ServeLogout(r) => LogoutKeepsServed(w, r);
    case OpenCallback(r) => OpenedKeepsServed(w, r);
    case FinishCallback(r, env, victim) => FinishedKeepsServed(w, r, env, victim);
    case _ =>
  }

  /** If only one of several Set-Cookies names a cookie, that one decides it. */
  lemma {:induction false} TakenOnce(jar: Jar, cs: seq<SetCookie>, now: nat, c: SetCookie)
    requires c in cs && forall d :: d in cs && d.name == c.name ==> d == c
    ensures c.maxAge == 0 ==> c.name !in TakeAll(jar, cs, now)
    ensures c.maxAge > 0 ==>
        c.name in TakeAll(jar, cs, now) && TakeAll(jar, cs, now)[c.name] == Cookie(c.value, now + 1000 * c.maxAge)
    decreases cs
  {
    if c in cs[1..] {
      TakenOnce(Take(jar, cs[0], now), cs[1..], now, c);
    } else {
      Untouched(Take(jar, cs[0], now), cs[1..], now, c.name);
    }
  }

  /** What a callback's cookies do to the marker: a restart sets it, a sign-in clears it. */
  lemma MarkerAfterCallback(n: Names, jar: Jar, headers: seq<string>, q: CallbackQuery, open: Opening, env: Environment,
                            now: nat)
    ensures var o := Decide(n, headers, q, open, env);
            var after := TakeAll(jar, o.response.cookies, now);
            && (o.kind.Restart? ==> n.Retry() in after && after[n.Retry()].expires == now + RETRY_TTL * 1000)
            && (o.kind.Complete? ==> n.Retry() !in after)
            && (o.kind.Refuse? || o.kind.Other? ==>
                  && (n.Retry() in after <==> n.Retry() in jar)
                  && (n.Retry() in jar ==> after[n.Retry()] == jar[n.Retry()]))
  {
    var o := Decide(n, headers, q, open, env);
    var cs := o.response.cookies;
    CallbackCookies(n, headers, q, open, env);
    NamesAreDistinct(n, if q.state.Some? then q.state.value else "", "");
    if o.kind.Restart? {
      TakenOnce(jar, cs, now, RetryCookie(n));
    } else if o.kind.Complete? {
      TakenOnce(jar, cs, now, Clear(n.Retry()));
    } else {
      Untouched(jar, cs, now, n.Retry());
    }
  }

  // what a step does to the marker

  lemma AnswerKeepsReadable(w: World, f: Flight)
    requires StartsKept(w) && FlightKept(w.starts, w.now, f)
    requires PlainJar(JarOf(w, f.client)) && ReadableJar(JarOf(w, f.client))
    ensures var jar := TakeAll(JarOf(w, f.client), AnswerCookies(w.n, f), w.now);
            PlainJar(jar) && ReadableJar(jar)
  {
    AnswerIsSafe(w, f);
    TakeAllKeepsPlain(JarOf(w, f.client), AnswerCookies(w.n, f), w.now);
  }

  lemma NotesOnMarker(log: seq<Note>, notes: seq<Note>, c: Client)
    requires |notes| <= 1
    ensures LastRestart(log + notes, c) ==
              if notes != [] && notes[0].SignedIn? && notes[0].client == c then None
              else if RestartOf(notes, c) then Some(notes[0].at)
              else LastRestart(log, c)
  {
    if notes == [] {
      assert log + notes == log;
    } else {
      assert notes == [notes[0]];
      LastRestartAppend(log, notes[0], c);
    }
  }

  lemma SameKeepsMarker(w: World, w': World, c: Client)
    requires MarkerKept(w, c) && w'.n == w.n && w.now <= w'.now
    requires JarOf(w', c) == JarOf(w, c) && LastRestart(w'.log, c) == LastRestart(w.log, c)
    ensures MarkerKept(w', c)
  {}

  lemma OtherArrival(w: World, f: Flight, c: Client)
    requires f.client != c
    ensures LastRestart(w.log + ArrivalNotes(w, f), c) == LastRestart(w.log, c)
  {
    ArrivalIsOfItsClient(w, f);
    OneNote(w, f);
    NotesOnMarker(w.log, ArrivalNotes(w, f), c);
  }

  lemma ServedArrivalKeepsMarker(w: World, r: RequestId)
    requires Inv(w) && ServedKept(w) && r in w.flights && w.flights[r].stage.Served?
    requires MarkerKept(w, w.flights[r].client)
    ensures MarkerKept(Delivered(w, r), w.flights[r].client)
  {
    var f := w.flights[r];
    assert FlightKept(w.starts, w.now, f) && NoMarkerSet(w.n, f);
    AnswerKeepsReadable(w, f);
    Untouched(JarOf(w, f.client), f.stage.cookies, w.now, w.n.Retry());
    OneNote(w, f);
    NotesOnMarker(w.log, ArrivalNotes(w, f), f.client);
  }

  lemma DecidedNotes(w: World, f: Flight)
    requires f.stage.Decided? && f.request.CallbackRequest?
    ensures var kind := OutcomeOf(w.n, f, f.stage.open, f.stage.env).kind;
            LastRestart(w.log + ArrivalNotes(w, f), f.client) ==
              if kind.Restart? then Some(w.now) else if kind.Complete? then None else LastRestart(w.log, f.client)
  {
    CallbackCookies(w.n, Headers(f), f.request.cq, f.stage.open, f.stage.env);
    OneNote(w, f);
    NotesOnMarker(w.log, ArrivalNotes(w, f), f.client);
  }

  lemma DecidedArrivalKeepsMarker(w: World, r: RequestId)
    requires Inv(w) && r in w.flights && w.flights[r].stage.Decided? && w.flights[r].request.CallbackRequest?
    requires MarkerKept(w, w.flights[r].client)
    ensures MarkerKept(Delivered(w, r), w.flights[r].client)
  {
    var f := w.flights[r];
    assert FlightKept(w.starts, w.now, f);
    AnswerKeepsReadable(w, f);
    DecidedNotes(w, f);
    MarkerAfterCallback(w.n, JarOf(w, f.client), Headers(f), f.request.cq, f.stage.open, f.stage.env, w.now);
  }

  lemma ArrivalKeepsMarker(w: World, r: RequestId, c: Client)
    requires Patient(w, c) && Enabled(w, Arrive(r))
    ensures MarkerKept(Delivered(w, r), c)
    ensures w.flights[r].client != c ==> LastRestart(Delivered(w, r).log, c) == LastRestart(w.log, c)
  {
    if w.flights[r].client != c {
      OtherArrival(w, w.flights[r], c);
      SameKeepsMarker(w, Delivered(w, r), c);
    } else if w.flights[r].stage.Served? {
      ServedArrivalKeepsMarker(w, r);
    } else {
      DecidedArrivalKeepsMarker(w, r);
    }
  }

  lemma QuietKeepsRestart(w: World, a: Action, c: Client)
    requires Enabled(w, a) && !a.Arrive?
    ensures LastRestart(Step(w, a).log, c) == LastRestart(w.log, c)
  {
    LogStep(w, a);
    OnlyArrivalsRestart(w, a);
    NotesOnMarker(w.log, NotesOf(w, a), c);
  }

  lemma StepKeepsMarker(w: World, a: Action, c: Client)
    requires Patient(w, c) && c != ADVERSARY
    ensures MarkerKept(Step(w, a), c)
    ensures !(a.Arrive? && Enabled(w, a) && w.flights[a.r].client == c) ==>
              LastRestart(Step(w, a).log, c) == LastRestart(w.log, c)
  {
    if Enabled(w, a) && a.Arrive? {
      ArrivalKeepsMarker(w, a.r, c);
    } else if Enabled(w, a) {
      LogStep(w, a);
      QuietKeepsRestart(w, a, c);
      OnlyArrivalsAnswer(w, a, c);
      SameKeepsMarker(w, Step(w, a), c);
    }
  }

  // what a step does to the callback on its way

  lemma SentBrings(w: World, c: Client, f: Flight)
    requires MarkerKept(w, c) && Carries(f.groups, JarOf(w, c), w.now) && f.sentAt == w.now
    ensures Brings(w, c, f)
  {
    if RecentRestart(w, c) {
      ReadWholeJar(f.groups, JarOf(w, c), w.now, w.n.Retry());
      CarriedIsWellSent(f.groups, JarOf(w, c), w.now);
      ReadExactly(f.groups, w.n.Retry());
    }
  }

  ghost predicate SendsCallback(a: Action, c: Client, r: RequestId) {
    a.Send? && a.r == r && a.client == c && a.request.CallbackRequest?
  }

  lemma CallbackOrigin(w: World, a: Action, c: Client, r: RequestId)
    requires Enabled(w, a) && r in Step(w, a).flights && IsCallbackOf(Step(w, a).flights[r], c)
    ensures SendsCallback(a, c, r) || (r in w.flights && IsCallbackOf(w.flights[r], c))
  {
    FlightOrigin(w, a, r);
  }

  lemma StepKeepsOne(w: World, a: Action, c: Client, r: RequestId, q: RequestId)
    requires CallbackKept(w, c) && Waits(w, a, c) && Enabled(w, a)
    requires r in Step(w, a).flights && q in Step(w, a).flights
    requires IsCallbackOf(Step(w, a).flights[r], c) && IsCallbackOf(Step(w, a).flights[q], c)
    ensures r == q
  {
    CallbackOrigin(w, a, c, r);
    CallbackOrigin(w, a, c, q);
  }

  lemma SendingBrings(w: World, a: Action, c: Client)
    requires MarkerKept(w, c) && c != ADVERSARY && a.Send? && a.client == c && Enabled(w, a)
    ensures Brings(Step(w, a), c, Step(w, a).flights[a.r])
  {
    SentBrings(w, c, Flight(c, a.groups, a.request, w.now, |w.log|, Sent));
  }

  lemma BringsStays(w: World, w': World, c: Client, f: Flight, f': Flight)
    requires Brings(w, c, f) && SameRequest(f, f') && w'.n == w.n && w.now <= w'.now
    requires LastRestart(w'.log, c) == LastRestart(w.log, c)
    ensures Brings(w', c, f')
  {}

  lemma StepKeepsBrings(w: World, a: Action, c: Client, r: RequestId)
    requires Patient(w, c) && c != ADVERSARY && Waits(w, a, c) && Enabled(w, a)
    requires r in Step(w, a).flights && IsCallbackOf(Step(w, a).flights[r], c)
    ensures Brings(Step(w, a), c, Step(w, a).flights[r])
  {
    FlightOrigin(w, a, r);
    if a.Send? && r == a.r {
      SendingBrings(w, a, c);
    } else {
      LogStep(w, a);
      StepKeepsMarker(w, a, c);
      if a.Arrive? && w.flights[a.r].client == c { OtherAnswer(w, a.r, r, c); }
      BringsStays(w, Step(w, a), c, w.flights[r], Step(w, a).flights[r]);
    }
  }

  lemma StepKeepsCallback(w: World, a: Action, c: Client)
    requires Patient(w, c) && c != ADVERSARY && Waits(w, a, c)
    ensures CallbackKept(Step(w, a), c)
  {
    LogStep(w, a);
    if Enabled(w, a) {
      var w' := Step(w, a);
      forall r | r in w'.flights && IsCallbackOf(w'.flights[r], c) ensures Brings(w', c, w'.flights[r]) {
        StepKeepsBrings(w, a, c, r);
      }
      forall r, q |
        r in w'.flights && q in w'.flights && IsCallbackOf(w'.flights[r], c) && IsCallbackOf(w'.flights[q], c)
        ensures r == q
      {
        StepKeepsOne(w, a, c, r, q);
      }
    }
  }

  /** With its one callback still on its way, the answer to something else restarts nobody. */
  lemma OtherAnswer(w: World, r: RequestId, q: RequestId, c: Client)
    requires CallbackKept(w, c) && r in w.flights && q in w.flights && r != q
    requires w.flights[r].client == c && IsCallbackOf(w.flights[q], c)
    ensures LastRestart(w.log + ArrivalNotes(w, w.flights[r]), c) == LastRestart(w.log, c)
  {
    assert !w.flights[r].request.CallbackRequest?;
    OneNote(w, w.flights[r]);
    NotesOnMarker(w.log, ArrivalNotes(w, w.flights[r]), c);
  }

  lemma PatientShows(w: World, a: Action, c: Client)
    requires Patient(w, c)
    ensures Shows(w, a, c)
  {
    if a.Arrive? && Enabled(w, a) && IsCallbackOf(w.flights[a.r], c) { assert Brings(w, c, w.flights[a.r]); }
  }

  lemma {:induction false} PatientAlwaysShows(w: World, acts: seq<Action>, c: Client)
    requires Patient(w, c) && c != ADVERSARY && AlwaysWaits(w, acts, c)
    ensures AlwaysShows(w, acts, c)
    decreases acts
  {
    if acts != [] {
      PatientShows(w, acts[0], c);
      StepKeeps(w, acts[0]);
      StepKeepsMarker(w, acts[0], c);
      StepKeepsCallback(w, acts[0], c);
      StepKeepsServed(w, acts[0]);
      PatientAlwaysShows(Step(w, acts[0]), acts[1..], c);
    }
  }

  /**
   No redirect loop. A browser whose jar starts out readable, and that has one callback on its
   way at a time, is in no run restarted twice within five minutes without having signed in
   between, whatever else it and the others do.
   */
  lemma NoRedirectLoop(w: World, acts: seq<Action>, c: Client, i: nat, j: nat)
    requires Initial(w) && c != ADVERSARY && ReadableJar(JarOf(w, c)) && AlwaysWaits(w, acts, c)
    requires i < j && IsRestart(Run(w, acts).log, c, i) && IsRestart(Run(w, acts).log, c, j)
    requires !SignInBetween(Run(w, acts).log, c, i, j)
    ensures Run(w, acts).log[i].at + 300_000 <= Run(w, acts).log[j].at
  {
    PatientAlwaysShows(w, acts, c);
    RestartsApartExactly(w, acts, c);
  }
}
