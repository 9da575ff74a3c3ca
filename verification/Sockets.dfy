/**
 Who owns a tunnel socket, after `src/wg/forward.rs`: the stack task, the acceptor and any
 number of streams share one socket set in which touching an absent handle is a panic.

 The machine interleaves their atomic sections (each is one critical section of the
 `sockets` mutex, or a message between tasks). A freed handle may be given out again at
 once. An action that is not enabled changes nothing. Times are milliseconds.
 */
module Sockets {
  import opened Clocks
  import opened Options

  const MAX_SOCKETS: nat := 128
  const ABANDONED_GRACE: nat := 30_000
  const FIRST_PORT: nat := 49_152
  const LAST_PORT: nat := 65_535

  type Handle = nat

  /** The acceptor handles one loopback connection at a time. */
  datatype Acceptor = Accepting | Asked | Given(handle: Handle) | Refused

  /** The connect attempt that opened a socket, the local port it took, and when. */
  datatype Origin = Origin(attempt: nat, port: nat, bornAt: nat)

  datatype State = State(
    now: nat,
    closed: map<Handle, bool>,
    handles: seq<Handle>,
    abandoned: map<Handle, nat>,
    acceptor: Acceptor,
    streams: set<Handle>,
    nextPort: nat,
    attempts: nat,
    origins: map<Handle, Origin>)

  const INIT := State(0, map[], [], map[], Accepting, {}, FIRST_PORT, 0, map[])

  datatype Action =
    | Pass(dt: nat)
    | Poll(states: map<Handle, bool>)
    | Reap
    | Accept
    | Serve(handle: Handle, connects: bool, closed: bool)
    | Collect
    | Touch(handle: Handle, closed: bool)
    | Drop(handle: Handle, closed: bool)

  // ---- the atomic sections -----------------------------------------------------------

  /** A reap pass keeps a socket that has an owner, or is still closing within its grace. */
  predicate Kept(s: State, h: Handle)
    requires h in s.closed
  {
    h !in s.abandoned || (!s.closed[h] && Elapsed(s.now, s.abandoned[h]) < ABANDONED_GRACE)
  }

  function KeptOf(s: State, hs: seq<Handle>): seq<Handle>
    requires forall h :: h in hs ==> h in s.closed
  {
    if hs == [] then []
    else KeptOf(s, hs[..|hs| - 1]) + (if Kept(s, hs[|hs| - 1]) then [hs[|hs| - 1]] else [])
  }

  function Only<V>(m: map<Handle, V>, hs: seq<Handle>): map<Handle, V> { map h | h in m && h in hs :: m[h] }

  function Reaped(s: State): State
    requires forall h :: h in s.handles ==> h in s.closed
  {
    var kept := KeptOf(s, s.handles);
    s.(handles := kept, closed := Only(s.closed, kept), abandoned := Only(s.abandoned, kept),
        origins := Only(s.origins, kept))
  }

  /** `checked_add` past the last port starts over at the first. */
  function PortAfter(port: nat): nat { if port + 1 <= LAST_PORT then port + 1 else FIRST_PORT }

  function Served(s: State, h: Handle, connects: bool, closed: bool): State {
    if |s.handles| >= MAX_SOCKETS then s.(acceptor := Refused)
    else
      var tried := s.(nextPort := PortAfter(s.nextPort), attempts := s.attempts + 1);
      if !connects then tried.(acceptor := Refused)
      else tried.(
        closed := s.closed[h := closed],
        handles := s.handles + [h],
        acceptor := Given(h),
        origins := s.origins[h := Origin(s.attempts, s.nextPort, s.now)])
  }

  function Touched(s: State, h: Handle, closed: bool): State { s.(closed := s.closed[h := closed]) }

  function Dropped(s: State, h: Handle, closed: bool): State {
    Touched(s, h, closed).(abandoned := s.abandoned[h := s.now], streams := s.streams - {h})
  }

  /** What the socket set can be asked; the set itself gives out only handles it does not hold. */
  predicate Enabled(s: State, a: Action) {
    match a
    case Pass(_) => true
    case Poll(states) => states.Keys == s.closed.Keys
    case Reap => forall h :: h in s.handles ==> h in s.closed
    case Accept => s.acceptor == Accepting
    case Serve(h, _, _) => s.acceptor == Asked && h !in s.closed
    case Collect => s.acceptor.Given? || s.acceptor.Refused?
    case Touch(h, _) => h in s.streams
    case Drop(h, _) => h in s.streams
  }

  function Step(s: State, a: Action): State {
    if !Enabled(s, a) then s
    else
      match a
      case Pass(dt) => s.(now := s.now + dt)
      case Poll(states) => s.(closed := states)
      case Reap => Reaped(s)
      case Accept => s.(acceptor := Asked)
      case Serve(h, connects, closed) => Served(s, h, connects, closed)
      case Collect => s.(streams := s.streams + InTransit(s), acceptor := Accepting)
      case Touch(h, closed) => Touched(s, h, closed)
      case Drop(h, closed) => Dropped(s, h, closed)
  }

  /** The handles an action looks up in the socket set: absent ones would panic. */
  function Lookups(s: State, a: Action): set<Handle> {
    match a
    case Reap => set h | h in s.handles && h in s.abandoned
    case Touch(h, _) => if h in s.streams then {h} else {}
    case Drop(h, _) => if h in s.streams then {h} else {}
    case _ => {}
  }

  function Run(s: State, acts: seq<Action>): State
    decreases acts
  {
    if acts == [] then s else Run(Step(s, acts[0]), acts[1..])
  }

  // ---- what every step keeps -----------------------------------------------------------

  function InTransit(s: State): set<Handle> { if s.acceptor.Given? then {s.acceptor.handle} else {} }

  ghost predicate NoDuplicates(hs: seq<Handle>) { forall i, j :: 0 <= i < j < |hs| ==> hs[i] != hs[j] }

  /** The stack task's list is exactly the socket set, and bounded. */
  ghost predicate Listed(s: State) {
    && NoDuplicates(s.handles)
    && (forall h :: h in s.handles <==> h in s.closed)
    && |s.handles| <= MAX_SOCKETS
  }

  /** Each socket has one owner: on its way to the acceptor, in a stream, or abandoned. */
  ghost predicate Owned(s: State) {
    && InTransit(s) + s.streams + s.abandoned.Keys == s.closed.Keys
    && InTransit(s) !! s.streams !! s.abandoned.Keys
  }

  function PortOf(attempt: nat): nat { FIRST_PORT + attempt % (LAST_PORT + 1 - FIRST_PORT) }

  /** Each socket comes from an attempt of its own, and has its port. */
  ghost predicate Attempted(origins: map<Handle, Origin>, attempts: nat) {
    && (forall h :: h in origins ==> origins[h].attempt < attempts && origins[h].port == PortOf(origins[h].attempt))
    && (forall h, k :: h in origins && k in origins && h != k ==> origins[h].attempt != origins[k].attempt)
  }

  ghost predicate Numbered(s: State) {
    s.origins.Keys == s.closed.Keys && s.nextPort == PortOf(s.attempts) && Attempted(s.origins, s.attempts)
  }

  /** A socket was abandoned after it was opened: no mark outlives the socket it was made for. */
  ghost predicate Timed(s: State) {
    && (forall h :: h in s.origins ==> s.origins[h].bornAt <= s.now)
    && (forall h :: h in s.abandoned ==> h in s.origins && s.origins[h].bornAt <= s.abandoned[h] <= s.now)
  }

  ghost predicate Inv(s: State) { Listed(s) && Owned(s) && Numbered(s) && Timed(s) }

  lemma {:induction false} KeptOfIsFilter(s: State, hs: seq<Handle>)
    requires NoDuplicates(hs) && forall h :: h in hs ==> h in s.closed
    ensures forall h :: h in KeptOf(s, hs) <==> h in hs && Kept(s, h)
    ensures NoDuplicates(KeptOf(s, hs)) && |KeptOf(s, hs)| <= |hs|
  {
    if hs != [] {
      var rest, last := hs[..|hs| - 1], hs[|hs| - 1];
      KeptOfIsFilter(s, rest);
      assert last !in rest;
      assert hs == rest + [last];
    }
  }

  ghost function Gone(s: State, hs: seq<Handle>): set<Handle>
    requires forall h :: h in hs ==> h in s.closed
  {
    set h | h in hs && !Kept(s, h)
  }

  ghost function Without(s: State, gone: set<Handle>): State {
    s.(closed := s.closed - gone, abandoned := s.abandoned - gone)
  }

  lemma NoneGone(s: State)
    ensures Without(s, Gone(s, s.handles[..0])) == s && KeptOf(s, s.handles[..0]) == []
  {
    assert s.closed - {} == s.closed && s.abandoned - {} == s.abandoned;
  }

  lemma WithoutMore(s: State, gone: set<Handle>, h: Handle)
    ensures Without(s, gone + {h}) == Without(Without(s, gone), {h})
  {
    assert s.closed - (gone + {h}) == s.closed - gone - {h};
    assert s.abandoned - (gone + {h}) == s.abandoned - gone - {h};
  }

  lemma GoneGrows(s: State, i: nat)
    requires Listed(s) && i < |s.handles|
    ensures var h, gone := s.handles[i], Gone(s, s.handles[..i]);
            h !in gone && Gone(s, s.handles[..i + 1]) == if Kept(s, h) then gone else gone + {h}
  {
    assert s.handles[..i + 1] == s.handles[..i] + [s.handles[i]];
  }

  /** A handle that stays in the set is judged there as at the start. */
  lemma KeptWithout(s: State, gone: set<Handle>, h: Handle)
    requires h in s.closed && h !in gone
    ensures h in Without(s, gone).closed && Kept(Without(s, gone), h) == Kept(s, h)
  {}

  lemma KeptOfNext(s: State, i: nat)
    requires Listed(s) && i < |s.handles|
    ensures var h := s.handles[i];
            KeptOf(s, s.handles[..i + 1]) == KeptOf(s, s.handles[..i]) + (if Kept(s, h) then [h] else [])
  {
    assert s.handles[..i + 1][..i] == s.handles[..i];
  }

  /** The next handle of a reap pass is still there, and is judged as at the start. */
  lemma GoneNext(s: State, i: nat)
    requires Listed(s) && i < |s.handles|
    ensures var h, gone := s.handles[i], Gone(s, s.handles[..i]);
            && h in Without(s, gone).closed
            && Kept(Without(s, gone), h) == Kept(s, h)
            && KeptOf(s, s.handles[..i + 1]) == KeptOf(s, s.handles[..i]) + (if Kept(s, h) then [h] else [])
            && (Kept(s, h) ==> Without(s, Gone(s, s.handles[..i + 1])) == Without(s, gone))
            && (!Kept(s, h) ==> Without(s, Gone(s, s.handles[..i + 1])) == Without(Without(s, gone), {h}))
  {
    GoneGrows(s, i);
    KeptWithout(s, Gone(s, s.handles[..i]), s.handles[i]);
    WithoutMore(s, Gone(s, s.handles[..i]), s.handles[i]);
    KeptOfNext(s, i);
  }

  lemma RestIsOnly<V>(s: State, m: map<Handle, V>)
    requires Listed(s) && m.Keys <= s.closed.Keys
    ensures m - Gone(s, s.handles) == Only(m, KeptOf(s, s.handles))
  {
    KeptOfIsFilter(s, s.handles);
  }

  lemma ReapEnds(s: State)
    requires Listed(s) && s.abandoned.Keys <= s.closed.Keys
    ensures var kept := KeptOf(s, s.handles[..|s.handles|]);
            Without(s, Gone(s, s.handles[..|s.handles|])).(handles := kept, origins := Only(s.origins, kept)) ==
              Reaped(s)
  {
    assert s.handles[..|s.handles|] == s.handles;
    RestIsOnly(s, s.closed);
    RestIsOnly(s, s.abandoned);
  }

  lemma ReapKeepsList(s: State)
    requires Listed(s)
    ensures Listed(Reaped(s))
  {
    KeptOfIsFilter(s, s.handles);
  }

  lemma ReapKeepsOwners(s: State)
    requires Listed(s) && Owned(s)
    ensures Owned(Reaped(s))
  {
    KeptOfIsFilter(s, s.handles);
  }

  lemma ServeKeepsOwners(s: State, h: Handle, connects: bool, closed: bool)
    requires Listed(s) && Owned(s) && Enabled(s, Serve(h, connects, closed))
    ensures Listed(Served(s, h, connects, closed)) && Owned(Served(s, h, connects, closed))
  {}

  lemma DropKeepsOwners(s: State, h: Handle, closed: bool)
    requires Listed(s) && Owned(s) && h in s.streams
    ensures Listed(Dropped(s, h, closed)) && Owned(Dropped(s, h, closed))
  {}

  lemma StepKeepsOwners(s: State, a: Action)
    requires Listed(s) && Owned(s)
    ensures Listed(Step(s, a)) && Owned(Step(s, a))
  {
    if Enabled(s, a) {
      match a
      case Reap =>
        ReapKeepsList(s);
        ReapKeepsOwners(s);
      case Serve(h, connects, closed) => ServeKeepsOwners(s, h, connects, closed);
      case Drop(h, closed) => DropKeepsOwners(s, h, closed);
      case _ =>
    }
  }

  lemma PortAfterCycles(attempt: nat)
    ensures PortAfter(PortOf(attempt)) == PortOf(attempt + 1)
    ensures FIRST_PORT <= PortOf(attempt) <= LAST_PORT
  {}

  lemma ReapKeepsNumbers(s: State)
    requires Listed(s) && Numbered(s)
    ensures Numbered(Reaped(s))
  {
    var kept := KeptOf(s, s.handles);
    assert Only(s.origins, kept).Keys == Only(s.closed, kept).Keys;
  }

  lemma OneMoreAttempt(origins: map<Handle, Origin>, attempts: nat, h: Handle, at: nat)
    requires Attempted(origins, attempts) && h !in origins
    ensures Attempted(origins[h := Origin(attempts, PortOf(attempts), at)], attempts + 1)
  {}

  lemma ServeKeepsNumbers(s: State, h: Handle, connects: bool, closed: bool)
    requires Numbered(s) && h !in s.closed
    ensures Numbered(Served(s, h, connects, closed))
  {
    PortAfterCycles(s.attempts);
    OneMoreAttempt(s.origins, s.attempts, h, s.now);
    var s' := Served(s, h, connects, closed);
    assert s'.origins.Keys == s'.closed.Keys;
  }

  /** Opening and reaping apart, no section changes which sockets there are, or their origins. */
  lemma OtherKeepsSockets(s: State, a: Action)
    requires Owned(s) && !a.Reap? && !a.Serve?
    ensures var s' := Step(s, a);
            && s'.closed.Keys == s.closed.Keys && s'.origins == s.origins
            && s'.nextPort == s.nextPort && s'.attempts == s.attempts
  {}

  lemma StepKeepsNumbers(s: State, a: Action)
    requires Listed(s) && Owned(s) && Numbered(s)
    ensures Numbered(Step(s, a))
  {
    if a.Reap? {
      ReapKeepsNumbers(s);
    } else if a.Serve? {
      if Enabled(s, a) { ServeKeepsNumbers(s, a.handle, a.connects, a.closed); }
    } else {
      OtherKeepsSockets(s, a);
    }
  }

  lemma ReapKeepsTimes(s: State)
    requires Inv(s)
    ensures Timed(Reaped(s))
  {}

  lemma ServeKeepsTimes(s: State, h: Handle, connects: bool, closed: bool)
    requires Inv(s) && h !in s.closed
    ensures Timed(Served(s, h, connects, closed))
  {
    assert h !in s.abandoned;
  }

  lemma DropKeepsTimes(s: State, h: Handle, closed: bool)
    requires Inv(s) && h in s.streams
    ensures Timed(Dropped(s, h, closed))
  {
    assert h in s.origins;
  }

  lemma StepKeepsTimes(s: State, a: Action)
    requires Inv(s)
    ensures Timed(Step(s, a))
  {
    if Enabled(s, a) {
      match a
      case Reap => ReapKeepsTimes(s);
      case Serve(h, connects, closed) => ServeKeepsTimes(s, h, connects, closed);
      case Drop(h, closed) => DropKeepsTimes(s, h, closed);
      case _ =>
    }
  }

  /** Every section of every task keeps the invariant. */
  lemma StepKeeps(s: State, a: Action)
    requires Inv(s)
    ensures Inv(Step(s, a))
  {
    StepKeepsOwners(s, a);
    StepKeepsNumbers(s, a);
    StepKeepsTimes(s, a);
  }

  lemma {:induction false} RunKeeps(s: State, acts: seq<Action>)
    requires Inv(s)
    ensures Inv(Run(s, acts))
    decreases acts
  {
    if acts != [] {
      StepKeeps(s, acts[0]);
      RunKeeps(Step(s, acts[0]), acts[1..]);
    }
  }

  // ---- the main results ------------------------------------------------------------------

  /**
   In every run the socket set is exactly what the stack task lists, each socket has exactly
   one owner, at most `MAX_SOCKETS` are open, and whatever happens next looks up only handles
   that are there.
   */
  lemma NoAbsentHandleIsTouched(acts: seq<Action>, next: Action)
    ensures var s := Run(INIT, acts);
            && Listed(s) && Owned(s) && |s.closed| <= 128
            && Enabled(s, Reap) && Lookups(s, next) <= s.closed.Keys
  {
    RunKeeps(INIT, acts);
    NothingIsAbsent(Run(INIT, acts), next);
  }

  lemma NothingIsAbsent(s: State, next: Action)
    requires Listed(s) && Owned(s)
    ensures |s.closed| <= 128 && Enabled(s, Reap) && Lookups(s, next) <= s.closed.Keys
  {
    ListIsAsLarge(s);
  }

  function SetOf(hs: seq<Handle>): set<Handle> { set h | h in hs }

  lemma OneMoreIn(hs: seq<Handle>, h: Handle)
    ensures SetOf(hs + [h]) == SetOf(hs) + {h}
  {}

  lemma {:induction false} DistinctCount(hs: seq<Handle>)
    requires NoDuplicates(hs)
    ensures |SetOf(hs)| == |hs|
  {
    if hs != [] {
      var rest, last := hs[..|hs| - 1], hs[|hs| - 1];
      assert hs == rest + [last] && last !in rest;
      DistinctCount(rest);
      OneMoreIn(rest, last);
    }
  }

  lemma ListIsAsLarge(s: State)
    requires Listed(s)
    ensures |s.closed| == |s.handles|
  {
    DistinctCount(s.handles);
    assert s.closed.Keys == SetOf(s.handles);
  }

  /**
   In every run an open request is met exactly if fewer than 128 sockets are open and its connect
   succeeds: the new socket joins the others and is on its way to the acceptor. Otherwise the
   sockets are as they were and the acceptor is refused. A port is spent even on a connect that
   fails, but none at the ceiling.
   */
  lemma RequestsAreMet(acts: seq<Action>, h: Handle, connects: bool, closed: bool)
    requires var s := Run(INIT, acts); s.acceptor == Asked && h !in s.closed
    ensures var s, s' := Run(INIT, acts), Step(Run(INIT, acts), Serve(h, connects, closed));
            && s'.acceptor == (if |s.closed| < 128 && connects then Given(h) else Refused)
            && s'.closed == (if |s.closed| < 128 && connects then s.closed[h := closed] else s.closed)
            && s'.streams == s.streams && s'.abandoned == s.abandoned
            && s'.nextPort == if |s.closed| >= 128 then s.nextPort
                              else if s.nextPort == 65_535 then 49_152 else s.nextPort + 1
  {
    RunKeeps(INIT, acts);
    PortAfterCycles(Run(INIT, acts).attempts);
    RequestIsMet(Run(INIT, acts), h, connects, closed);
  }

  lemma RequestIsMet(s: State, h: Handle, connects: bool, closed: bool)
    requires Listed(s) && s.nextPort <= 65_535 && s.acceptor == Asked && h !in s.closed
    ensures var s' := Step(s, Serve(h, connects, closed));
            && s'.acceptor == (if |s.closed| < 128 && connects then Given(h) else Refused)
            && s'.closed == (if |s.closed| < 128 && connects then s.closed[h := closed] else s.closed)
            && s'.streams == s.streams && s'.abandoned == s.abandoned
            && s'.nextPort == if |s.closed| >= 128 then s.nextPort
                              else if s.nextPort == 65_535 then 49_152 else s.nextPort + 1
  {
    ListIsAsLarge(s);
  }

  /** A dropped stream's socket is marked with the moment it was dropped, and closed by it alone. */
  lemma DroppedNow(s: State, h: Handle, closed: bool)
    requires h in s.streams
    ensures var s' := Step(s, Drop(h, closed));
            && h in s'.abandoned && s'.abandoned[h] == s.now && h !in s'.streams
            && s'.closed == s.closed[h := closed] && s'.handles == s.handles && s'.acceptor == s.acceptor
            && forall k :: k != h ==>
                 && (k in s'.abandoned <==> k in s.abandoned)
                 && (k in s.abandoned ==> s'.abandoned[k] == s.abandoned[k])
                 && (k in s'.streams <==> k in s.streams)
  {}

  lemma ReapJudges(s: State, h: Handle)
    requires Listed(s) && Owned(s)
    ensures var r := Reaped(s);
            && (h in r.closed <==> h in s.closed && Kept(s, h))
            && (h in r.closed ==> r.closed[h] == s.closed[h])
            && (h in r.abandoned <==> h in s.abandoned && h in r.closed)
            && (h in r.abandoned ==> r.abandoned[h] == s.abandoned[h])
            && (h in s.abandoned ==> h in s.closed)
            && (h in InTransit(s) || h in s.streams ==> h in s.closed && h !in s.abandoned)
  {
    KeptOfIsFilter(s, s.handles);
    assert h in InTransit(s) + s.streams + s.abandoned.Keys <==> h in s.closed;
  }

  /**
   Reaping is safe and complete. What is left abandoned is not closed and within its grace;
   what is gone had been abandoned, and was closed or past its grace; its mark went with it;
   and owned sockets are as they were.
   */
  lemma ReapIsExact(s: State, h: Handle)
    requires Inv(s)
    ensures var r := Step(s, Reap);
            && (h in r.abandoned ==> h in r.closed && !r.closed[h] && r.now < r.abandoned[h] + 30_000)
            && (h in r.abandoned ==> h in s.abandoned && r.abandoned[h] == s.abandoned[h])
            && (h in s.closed && h !in r.closed ==>
                  && h in s.abandoned && h !in r.abandoned
                  && (s.closed[h] || s.abandoned[h] + 30_000 <= s.now))
            && (h in r.closed ==> h in s.closed && r.closed[h] == s.closed[h])
            && (h in InTransit(s) || h in s.streams ==> h in r.closed)
  {
    ReapJudges(s, h);
  }

  /** No socket leaks: past the grace of the last one abandoned, a pass leaves only owned sockets. */
  lemma GraceEmptiesTheSet(s: State)
    requires Inv(s) && forall h :: h in s.abandoned ==> s.abandoned[h] + 30_000 <= s.now
    ensures Step(s, Reap).closed.Keys == InTransit(s) + s.streams
  {
    KeptOfIsFilter(s, s.handles);
  }

  /**
   A handle may be reused as soon as it is free, but its new socket starts with a clean
   record: it is not abandoned, and whenever it is, that is dated after it was opened.
   */
  lemma ReusedHandleStartsClean(acts: seq<Action>, h: Handle, closed: bool)
    ensures var s := Run(INIT, acts);
            && (forall k :: k in s.abandoned ==> k in s.origins && s.origins[k].bornAt <= s.abandoned[k])
            && (var s' := Step(s, Serve(h, true, closed));
                s'.acceptor == Given(h) && s.acceptor == Asked ==> h !in s'.abandoned && s'.origins[h].bornAt == s.now)
  {
    RunKeeps(INIT, acts);
    NewSocketIsClean(Run(INIT, acts), h, closed);
  }

  lemma NewSocketIsClean(s: State, h: Handle, closed: bool)
    requires Inv(s)
    ensures var s' := Step(s, Serve(h, true, closed));
            s'.acceptor == Given(h) && s.acceptor == Asked ==> h !in s'.abandoned && s'.origins[h].bornAt == s.now
  {
    if Enabled(s, Serve(h, true, closed)) { assert h !in s.abandoned; }
  }

  lemma SamePort(a: nat, b: nat)
    ensures PortOf(a) == PortOf(b) <==> (a - b) % 16_384 == 0
  {}

  /** The connects tried in a run: the open requests taken up while there was room. */
  function Tried(s: State, acts: seq<Action>): nat
    decreases acts
  {
    if acts == [] then 0
    else
      var a := acts[0];
      (if a.Serve? && s.acceptor == Asked && a.handle !in s.closed && |s.handles| < 128 then 1 else 0)
      + Tried(Step(s, a), acts[1..])
  }

  lemma {:induction false} AttemptsAreTried(s: State, acts: seq<Action>)
    ensures Run(s, acts).attempts == s.attempts + Tried(s, acts)
    decreases acts
  {
    if acts != [] { AttemptsAreTried(Step(s, acts[0]), acts[1..]); }
  }

  /**
   The connect attempt numbered k, counting from zero and failures included, uses port
   49152 + k mod 16384, within the dynamic ports of section 6 of RFC 6335. So two sockets
   open at once share a port exactly if their attempts are a multiple of 16384 apart.
   */
  lemma PortsCycle(acts: seq<Action>, h: Handle, k: Handle)
    ensures var s := Run(INIT, acts);
            && s.attempts == Tried(INIT, acts) && s.nextPort == 49_152 + Tried(INIT, acts) % 16_384
            && (h in s.closed && k in s.closed && h != k ==>
                  && h in s.origins && k in s.origins
                  && 49_152 <= s.origins[h].port <= 65_535
                  && s.origins[h].attempt != s.origins[k].attempt
                  && (s.origins[h].port == s.origins[k].port <==>
                      (s.origins[h].attempt - s.origins[k].attempt) % 16_384 == 0))
  {
    RunKeeps(INIT, acts);
    AttemptsAreTried(INIT, acts);
    var s := Run(INIT, acts);
    PortAfterCycles(s.attempts);
    if h in s.origins && k in s.origins {
      PortAfterCycles(s.origins[h].attempt);
      SamePort(s.origins[h].attempt, s.origins[k].attempt);
    }
  }

  // ---- the forwarder itself ------------------------------------------------------------------

  /** The state the tasks share, changed in place by one critical section at a time. */
  class Forwarder {
    var now: nat
    var closed: map<Handle, bool>
    var handles: seq<Handle>
    var abandoned: map<Handle, nat>
    var acceptor: Acceptor
    var nextPort: nat
    ghost var streams: set<Handle>
    ghost var attempts: nat
    ghost var origins: map<Handle, Origin>

    ghost function View(): State reads this {
      State(now, closed, handles, abandoned, acceptor, streams, nextPort, attempts, origins)
    }

    constructor ()
      ensures View() == INIT
    {
      now, closed, handles, abandoned, acceptor, nextPort := 0, map[], [], map[], Accepting, FIRST_PORT;
      streams, attempts, origins := {}, 0, map[];
    }

    /** Whether the reaper keeps a socket; the lookup must find its handle. */
    method ReapOne(h: Handle) returns (keep: bool)
      requires h in closed
      modifies `closed, `abandoned
      ensures keep == Kept(old(View()), h)
      ensures closed == (if keep then old(closed) else old(closed) - {h})
      ensures abandoned == (if keep then old(abandoned) else old(abandoned) - {h})
    {
      keep := true;
      if h in abandoned && (closed[h] || Elapsed(now, abandoned[h]) >= ABANDONED_GRACE) {
        closed := closed - {h};
        abandoned := abandoned - {h};
        keep := false;
      }
    }

    /** One turn of `retain`. */
    method RetainNext(ghost s: State, i: nat, kept: seq<Handle>) returns (after: seq<Handle>)
      requires Listed(s) && i < |s.handles| && kept == KeptOf(s, s.handles[..i])
      requires View() == Without(s, Gone(s, s.handles[..i]))
      modifies `closed, `abandoned
      ensures after == KeptOf(s, s.handles[..i + 1]) && View() == Without(s, Gone(s, s.handles[..i + 1]))
    {
      GoneNext(s, i);
      var keep := ReapOne(handles[i]);
      after := if keep then kept + [handles[i]] else kept;
    }

    /** The handles `retain` keeps; the others leave the set, and their marks with them. */
    method RetainKept() returns (kept: seq<Handle>)
      requires Listed(View())
      modifies `closed, `abandoned
      ensures kept == KeptOf(old(View()), handles[..|handles|])
      ensures View() == Without(old(View()), Gone(old(View()), handles[..|handles|]))
    {
      ghost var s := View();
      kept := [];
      NoneGone(s);
      for i := 0 to |handles|
        invariant View() == Without(s, Gone(s, s.handles[..i]))
        invariant kept == KeptOf(s, s.handles[..i])
      {
        kept := RetainNext(s, i, kept);
      }
    }

    /** One reap pass over the stack task's list. */
    method ReapPass()
      requires Listed(View()) && abandoned.Keys <= closed.Keys
      modifies this
      ensures View() == Reaped(old(View()))
    {
      ReapEnds(View());
      var kept := RetainKept();
      handles := kept;
      origins := Only(origins, kept);
    }

    /** Answer one open request with a handle the set did not hold, or refuse it. */
    method OpenSocket(handle: Handle, connects: bool, state: bool) returns (given: Option<Handle>)
      requires acceptor == Asked && handle !in closed
      modifies this
      ensures View() == Served(old(View()), handle, connects, state)
      ensures given == (if old(|handles|) < 128 && connects then Some(handle) else None)
    {
      if |handles| >= MAX_SOCKETS {
        acceptor := Refused;
        return None;
      }
      var port := nextPort;
      nextPort := if nextPort + 1 <= LAST_PORT then nextPort + 1 else FIRST_PORT;
      ghost var attempt := attempts;
      attempts := attempts + 1;
      if !connects {
        acceptor := Refused;
        return None;
      }
      closed := closed[handle := state];
      handles := handles + [handle];
      acceptor := Given(handle);
      origins := origins[handle := Origin(attempt, port, now)];
      given := Some(handle);
    }

    /** The acceptor asks for a socket for the connection it has just accepted. */
    method AskForSocket()
      requires acceptor == Accepting
      modifies this
      ensures View() == Step(old(View()), Accept)
    {
      acceptor := Asked;
    }

    /** The acceptor takes the answer: a stream now owns the socket, or there is none. */
    method CollectAnswer()
      requires acceptor.Given? || acceptor.Refused?
      modifies this
      ensures View() == Step(old(View()), Collect)
    {
      if acceptor.Given? { streams := streams + {acceptor.handle}; }
      acceptor := Accepting;
    }

    /** A stream reads, writes or shuts down: its socket is there. */
    method TouchStream(handle: Handle, state: bool) returns (wasClosed: bool)
      requires Owned(View()) && handle in streams
      modifies this
      ensures View() == Touched(old(View()), handle, state)
      ensures handle in old(closed) && wasClosed == old(closed)[handle]
    {
      wasClosed := closed[handle];
      closed := closed[handle := state];
    }

    /** A stream gives its socket back: close it, and mark it for the reaper. */
    method DropStream(handle: Handle, state: bool)
      requires Owned(View()) && handle in streams
      modifies this
      ensures View() == Dropped(old(View()), handle, state)
    {
      var _ := TouchStream(handle, state);
      abandoned := abandoned[handle := now];
      streams := streams - {handle};
    }
  }
}
