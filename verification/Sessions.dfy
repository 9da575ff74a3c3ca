/**
 The session store of `src/login/session.rs`: a map with a lifetime, a throttled
 lazy sweep, a cap per subject and a cap overall.

 The store is specified twice. `LazyStep` is what the code does: expired sessions
 stay in the map until a sweep or a `Get` meets them. `EagerStep` is the simple
 store a reader has in mind: it drops every expired session before each operation.
 The main result is that nobody can tell the two apart.

 Times are milliseconds on one non-decreasing clock.
 */
module Sessions {
  import opened Clocks
  import opened Options

  type Id = string

  datatype Identity = Identity(sub: string, email: Option<string>, name: Option<string>)

  datatype Session = Session(identity: Identity, authTime: Option<nat>, expiresAt: nat, created: nat)

  datatype Limits = Limits(maxSessions: nat, maxPerSubject: nat, sweepEvery: nat, ttl: nat)
  {
    ghost predicate Sane() { 1 <= maxSessions && 1 <= maxPerSubject }
  }

  /** The limits a deployment runs with (the lifetime is its default, eight hours). */
  const DEPLOYED := Limits(10_000, 20, 60_000, 8 * 3_600_000)

  /** What a sign-in brings; `wall` is the wall clock in seconds since the epoch. */
  datatype SignIn = SignIn(id: Id, identity: Identity, authTime: Option<nat>, wall: nat)

  datatype Store = Store(held: map<Id, Session>, lastSweep: nat)

  /** One operation with the clock readings it takes, in the order it takes them. */
  datatype Event =
    | Insert(signIn: SignIn, sweepAt: nat, at: nat)
    | Get(id: Id, at: nat)
    | Remove(id: Id, at: nat)

  // ---- liveness ------------------------------------------------------------

  predicate Live(l: Limits, s: Session, now: nat) {
    Elapsed(now, s.created) < l.ttl
  }

  function LivePart(l: Limits, m: map<Id, Session>, now: nat): map<Id, Session> {
    map k | k in m && Live(l, m[k], now) :: m[k]
  }

  // ---- eviction ------------------------------------------------------------

  function Theirs(m: map<Id, Session>, sub: string): set<Id> {
    set k | k in m && m[k].identity.sub == sub
  }

  /** The sessions an insert for `sub` must choose its victim from; none if there is room. */
  function Candidates(l: Limits, m: map<Id, Session>, sub: string): set<Id> {
    if |Theirs(m, sub)| >= l.maxPerSubject then Theirs(m, sub)
    else if |m| >= l.maxSessions then m.Keys
    else {}
  }

  ghost predicate Oldest(m: map<Id, Session>, among: set<Id>, k: Id)
    requires among <= m.Keys
  {
    k in among && forall j :: j in among ==> m[k].created <= m[j].created
  }

  /** `victim` may be evicted: an oldest candidate, any one of them on a tie. */
  ghost predicate Evicts(l: Limits, m: map<Id, Session>, sub: string, victim: Option<Id>) {
    var among := Candidates(l, m, sub);
    if among == {} then victim.None? else victim.Some? && Oldest(m, among, victim.value)
  }

  function Without(m: map<Id, Session>, victim: Option<Id>): map<Id, Session> {
    match victim case None => m case Some(k) => m - {k}
  }

  function NewSession(l: Limits, n: SignIn, at: nat): Session {
    Session(n.identity, n.authTime, n.wall + l.ttl / 1000, at)
  }

  function Put(l: Limits, m: map<Id, Session>, victim: Option<Id>, n: SignIn, at: nat): map<Id, Session> {
    Without(m, victim)[n.id := NewSession(l, n, at)]
  }

  // ---- the two stores ------------------------------------------------------

  function Swept(l: Limits, st: Store, now: nat): Store {
    if Elapsed(now, st.lastSweep) >= l.sweepEvery then Store(LivePart(l, st.held, now), now) else st
  }

  ghost predicate LazyStep(l: Limits, st: Store, e: Event, answer: Option<Session>, st': Store) {
    match e
    case Insert(n, sweepAt, at) =>
      var sw := Swept(l, st, sweepAt);
      answer == None && st'.lastSweep == sw.lastSweep &&
      exists victim :: Evicts(l, sw.held, n.identity.sub, victim) && st'.held == Put(l, sw.held, victim, n, at)
    case Get(id, at) =>
      if id in st.held && Live(l, st.held[id], at) then answer == Some(st.held[id]) && st' == st
      else answer == None && st' == st.(held := st.held - {id})
    case Remove(id, _) =>
      answer == None && st' == st.(held := st.held - {id})
  }

  lemma InsertSteps(l: Limits, st: Store, n: SignIn, sweepAt: nat, at: nat, sw: Store, victim: Option<Id>, st': Store)
    requires sw == Swept(l, st, sweepAt) && Evicts(l, sw.held, n.identity.sub, victim)
    requires st' == Store(Put(l, sw.held, victim, n, at), sw.lastSweep)
    ensures LazyStep(l, st, Insert(n, sweepAt, at), None, st')
  {}

  lemma RemoveSteps(l: Limits, st: Store, id: Id, at: nat)
    ensures LazyStep(l, st, Remove(id, at), None, Store(st.held - {id}, st.lastSweep))
  {}

  ghost predicate EagerStep(l: Limits, m: map<Id, Session>, e: Event, answer: Option<Session>, m': map<Id, Session>) {
    var current := LivePart(l, m, e.at);
    match e
    case Insert(n, _, at) =>
      answer == None &&
      exists victim :: Evicts(l, current, n.identity.sub, victim) && m' == Put(l, current, victim, n, at)
    case Get(id, _) =>
      m' == current && answer == if id in current then Some(current[id]) else None
    case Remove(id, _) =>
      answer == None && m' == current - {id}
  }

  ghost predicate LazyRun(l: Limits, st: Store, es: seq<Event>, answers: seq<Option<Session>>, st': Store)
    decreases es
  {
    if es == [] then answers == [] && st' == st
    else answers != [] && exists mid ::
        LazyStep(l, st, es[0], answers[0], mid) && LazyRun(l, mid, es[1..], answers[1..], st')
  }

  ghost predicate EagerRun(l: Limits, m: map<Id, Session>, es: seq<Event>, answers: seq<Option<Session>>,
                           m': map<Id, Session>)
    decreases es
  {
    if es == [] then answers == [] && m' == m
    else answers != [] && exists mid ::
        EagerStep(l, m, es[0], answers[0], mid) && EagerRun(l, mid, es[1..], answers[1..], m')
  }

  /** The clock never runs backwards, within an operation or between two. */
  predicate Timely(now: nat, es: seq<Event>)
    decreases es
  {
    es == [] ||
    (now <= es[0].at && (es[0].Insert? ==> now <= es[0].sweepAt <= es[0].at) && Timely(es[0].at, es[1..]))
  }

  function LastTime(now: nat, es: seq<Event>): nat
    decreases es
  {
    if es == [] then now else LastTime(es[0].at, es[1..])
  }

  // ---- both caps are invariants --------------------------------------------

  ghost predicate CapsHold(l: Limits, m: map<Id, Session>) {
    |m| <= l.maxSessions && forall sub :: |Theirs(m, sub)| <= l.maxPerSubject
  }

  lemma SubsetSize<T>(a: set<T>, b: set<T>)
    requires a <= b
    ensures |a| <= |b| && (a != b ==> |a| < |b|)
  {
    assert b == a + (b - a);
    assert a != b ==> b - a != {};
  }

  lemma SmallerKeepsCaps(l: Limits, m: map<Id, Session>, m': map<Id, Session>)
    requires CapsHold(l, m)
    requires m'.Keys <= m.Keys && forall k :: k in m' ==> m'[k] == m[k]
    ensures CapsHold(l, m')
  {
    SubsetSize(m'.Keys, m.Keys);
    forall sub ensures |Theirs(m', sub)| <= l.maxPerSubject {
      SubsetSize(Theirs(m', sub), Theirs(m, sub));
    }
  }

  lemma EvictionMakesRoom(l: Limits, m: map<Id, Session>, sub: string, victim: Option<Id>)
    requires l.Sane() && CapsHold(l, m) && Evicts(l, m, sub, victim)
    ensures var w := Without(m, victim); |w.Keys| < l.maxSessions && |Theirs(w, sub)| < l.maxPerSubject
  {
    var w := Without(m, victim);
    SubsetSize(w.Keys, m.Keys);
    SubsetSize(Theirs(w, sub), Theirs(m, sub));
    if |Theirs(m, sub)| == l.maxPerSubject {
      assert victim.value in Theirs(m, sub) && victim.value !in Theirs(w, sub);
    }
  }

  lemma PutKeepsCaps(l: Limits, m: map<Id, Session>, victim: Option<Id>, n: SignIn, at: nat)
    requires l.Sane() && CapsHold(l, m) && Evicts(l, m, n.identity.sub, victim)
    ensures CapsHold(l, Put(l, m, victim, n, at))
  {
    var w := Without(m, victim);
    EvictionMakesRoom(l, m, n.identity.sub, victim);
    SmallerKeepsCaps(l, m, w);
    AddKeepsCaps(l, w, n, at);
  }

  lemma OneMore<T>(s: set<T>, x: T)
    ensures |s + {x}| <= |s| + 1
  {}

  lemma TheirsAdded(w: map<Id, Session>, id: Id, s: Session, sub: string)
    ensures Theirs(w[id := s], sub) <= Theirs(w, sub) + (if s.identity.sub == sub then {id} else {})
  {}

  lemma AddKeepsCaps(l: Limits, w: map<Id, Session>, n: SignIn, at: nat)
    requires CapsHold(l, w) && |w.Keys| < l.maxSessions && |Theirs(w, n.identity.sub)| < l.maxPerSubject
    ensures CapsHold(l, w[n.id := NewSession(l, n, at)])
  {
    var p := w[n.id := NewSession(l, n, at)];
    assert p.Keys == w.Keys + {n.id};
    OneMore(w.Keys, n.id);
    forall sub ensures |Theirs(p, sub)| <= l.maxPerSubject {
      TheirsAdded(w, n.id, NewSession(l, n, at), sub);
      OneMore(Theirs(w, sub), n.id);
      SubsetSize(Theirs(p, sub), Theirs(w, sub) + (if n.identity.sub == sub then {n.id} else {}));
    }
  }

  lemma StepKeepsCaps(l: Limits, st: Store, e: Event, answer: Option<Session>, st': Store)
    requires l.Sane() && CapsHold(l, st.held) && LazyStep(l, st, e, answer, st')
    ensures CapsHold(l, st'.held)
  {
    match e
    case Insert(n, sweepAt, at) =>
      var sw := Swept(l, st, sweepAt);
      SmallerKeepsCaps(l, st.held, sw.held);
      var victim :| Evicts(l, sw.held, n.identity.sub, victim) && st'.held == Put(l, sw.held, victim, n, at);
      PutKeepsCaps(l, sw.held, victim, n, at);
    case Get(_, _) => SmallerKeepsCaps(l, st.held, st'.held);
    case Remove(_, _) => SmallerKeepsCaps(l, st.held, st'.held);
  }

  /** Every store any run can reach respects both caps. */
  lemma {:induction false} CapsAlwaysHold(l: Limits, st: Store, es: seq<Event>, answers: seq<Option<Session>>,
                                          st': Store)
    requires l.Sane() && CapsHold(l, st.held) && LazyRun(l, st, es, answers, st')
    ensures CapsHold(l, st'.held)
    decreases es
  {
    if es != [] {
      var mid :| LazyStep(l, st, es[0], answers[0], mid) && LazyRun(l, mid, es[1..], answers[1..], st');
      StepKeepsCaps(l, st, es[0], answers[0], mid);
      CapsAlwaysHold(l, mid, es[1..], answers[1..], st');
    }
  }

  /** With the limits of a deployment: never more than 10 000 sessions, nor 20 of one user. */
  lemma DeployedCaps(now: nat, es: seq<Event>, answers: seq<Option<Session>>, st': Store)
    requires LazyRun(DEPLOYED, Store(map[], now), es, answers, st')
    ensures |st'.held| <= 10_000 && forall sub :: |Theirs(st'.held, sub)| <= 20
  {
    CapsAlwaysHold(DEPLOYED, Store(map[], now), es, answers, st');
  }

  // ---- what an insert does, exactly ----------------------------------------

  /** A session that the sweep of an insert leaves, if there is one: it is due, or not, or too young. */
  predicate Stays(l: Limits, st: Store, sweepAt: nat, k: Id) {
    && k in st.held
    && (st.lastSweep + l.sweepEvery <= sweepAt || l.sweepEvery == 0 ==>
          0 < l.ttl && sweepAt < st.held[k].created + l.ttl)
  }

  function Staying(l: Limits, st: Store, sweepAt: nat): set<Id> { set k | k in st.held && Stays(l, st, sweepAt, k) }

  function TheirStaying(l: Limits, st: Store, sweepAt: nat, sub: string): set<Id> {
    set k | k in st.held && Stays(l, st, sweepAt, k) && st.held[k].identity.sub == sub
  }

  /** Who makes room: an oldest session of the user's at their cap, else an oldest of all at the cap, else nobody. */
  ghost predicate MakesRoom(l: Limits, st: Store, n: SignIn, sweepAt: nat, victim: Option<Id>) {
    var all, theirs := Staying(l, st, sweepAt), TheirStaying(l, st, sweepAt, n.identity.sub);
    if |theirs| >= l.maxPerSubject then
      victim.Some? && victim.value in theirs
      && forall j :: j in theirs ==> st.held[victim.value].created <= st.held[j].created
    else if |all| >= l.maxSessions then
      victim.Some? && victim.value in all
      && forall j :: j in all ==> st.held[victim.value].created <= st.held[j].created
    else victim.None?
  }

  lemma SweptIsStaying(l: Limits, st: Store, sweepAt: nat, sub: string)
    ensures var sw := Swept(l, st, sweepAt);
            && sw.held.Keys == Staying(l, st, sweepAt) && Theirs(sw.held, sub) == TheirStaying(l, st, sweepAt, sub)
            && |sw.held| == |Staying(l, st, sweepAt)|
            && forall k :: k in sw.held ==> sw.held[k] == st.held[k]
  {}

  /**
   An insert keeps every session but the expired ones, if a sweep is due, and one that makes room,
   if one must; and it adds the new one. A sweep is due once the interval has passed.
   */
  lemma InsertIsExact(l: Limits, st: Store, n: SignIn, sweepAt: nat, at: nat, st': Store)
    returns (victim: Option<Id>)
    requires l.Sane() && LazyStep(l, st, Insert(n, sweepAt, at), None, st')
    ensures MakesRoom(l, st, n, sweepAt, victim)
    ensures forall k :: k in st'.held <==> k == n.id || (Stays(l, st, sweepAt, k) && victim != Some(k))
    ensures forall k :: k in st'.held && k != n.id ==> st'.held[k] == st.held[k]
    ensures st'.held[n.id] == Session(n.identity, n.authTime, n.wall + l.ttl / 1000, at)
    ensures st'.lastSweep ==
              if st.lastSweep + l.sweepEvery <= sweepAt || l.sweepEvery == 0 then sweepAt else st.lastSweep
  {
    var sw := Swept(l, st, sweepAt);
    victim :| Evicts(l, sw.held, n.identity.sub, victim) && st'.held == Put(l, sw.held, victim, n, at);
    SweptIsStaying(l, st, sweepAt, n.identity.sub);
    VictimMakesRoom(l, st, n, sweepAt, victim);
  }

  lemma VictimMakesRoom(l: Limits, st: Store, n: SignIn, sweepAt: nat, victim: Option<Id>)
    requires l.Sane() && Evicts(l, Swept(l, st, sweepAt).held, n.identity.sub, victim)
    ensures MakesRoom(l, st, n, sweepAt, victim)
  {
    SweptIsStaying(l, st, sweepAt, n.identity.sub);
  }

  /** No session has been expired for longer than since the last sweep. */
  ghost predicate Overstays(l: Limits, st: Store, now: nat) {
    st.lastSweep <= now && forall k :: k in st.held ==> st.lastSweep < st.held[k].created + l.ttl
  }

  lemma StepKeepsOverstays(l: Limits, st: Store, now: nat, e: Event, answer: Option<Session>, st': Store)
    requires 0 < l.ttl && Overstays(l, st, now) && Timely(now, [e]) && LazyStep(l, st, e, answer, st')
    ensures Overstays(l, st', e.at)
  {}

  lemma {:induction false} RunKeepsOverstays(l: Limits, st: Store, now: nat, es: seq<Event>,
                                             answers: seq<Option<Session>>, st': Store)
    requires 0 < l.ttl && Overstays(l, st, now) && Timely(now, es) && LazyRun(l, st, es, answers, st')
    ensures Overstays(l, st', LastTime(now, es))
    decreases es
  {
    if es != [] {
      var mid :| LazyStep(l, st, es[0], answers[0], mid) && LazyRun(l, mid, es[1..], answers[1..], st');
      StepKeepsOverstays(l, st, now, es[0], answers[0], mid);
      RunKeepsOverstays(l, mid, es[0].at, es[1..], answers[1..], st');
    }
  }

  /**
   Expired sessions go in time: after every sign-in of every run, no session held was created
   longer ago than the lifetime and the sweep interval together.
   */
  lemma ExpiredLeaveInTime(l: Limits, now: nat, es: seq<Event>, answers: seq<Option<Session>>, st: Store, n: SignIn,
                           sweepAt: nat, at: nat, st': Store, k: Id)
    requires 0 < l.ttl && Timely(now, es) && LastTime(now, es) <= sweepAt <= at
    requires LazyRun(l, Store(map[], now), es, answers, st) && LazyStep(l, st, Insert(n, sweepAt, at), None, st')
    requires k in st'.held
    ensures sweepAt < st'.held[k].created + l.ttl + l.sweepEvery
  {
    RunKeepsOverstays(l, Store(map[], now), now, es, answers, st);
  }

  /**
   The times of a deployment: a session just stored is found for eight hours, to the millisecond,
   and a sign-in sweeps exactly if the last sweep was a minute ago.
   */
  lemma DeployedTimes(st: Store, n: SignIn, sweepAt: nat, at: nat, mid: Store, later: nat, answer: Option<Session>,
                      st': Store)
    requires LazyStep(DEPLOYED, st, Insert(n, sweepAt, at), None, mid) && at <= later
    requires LazyStep(DEPLOYED, mid, Get(n.id, later), answer, st')
    ensures answer.Some? <==> later < at + 28_800_000
    ensures answer.Some? ==> answer.value.expiresAt == n.wall + 28_800
    ensures mid.lastSweep == if st.lastSweep + 60_000 <= sweepAt then sweepAt else st.lastSweep
  {
    InsertedIsFound(DEPLOYED, st, n, sweepAt, at, mid, later, answer, st');
    var victim := InsertIsExact(DEPLOYED, st, n, sweepAt, at, mid);
  }

  /** With the limits of a deployment: eight hours and a minute. */
  lemma DeployedLeaveInTime(now: nat, es: seq<Event>, answers: seq<Option<Session>>, st: Store, n: SignIn, sweepAt: nat,
                            at: nat, st': Store, k: Id)
    requires Timely(now, es) && LastTime(now, es) <= sweepAt <= at && k in st'.held
    requires LazyRun(DEPLOYED, Store(map[], now), es, answers, st)
    requires LazyStep(DEPLOYED, st, Insert(n, sweepAt, at), None, st')
    ensures sweepAt < st'.held[k].created + 28_860_000
  {
    ExpiredLeaveInTime(DEPLOYED, now, es, answers, st, n, sweepAt, at, st', k);
  }

  /**
   A session just inserted is found again, as it was stored, exactly as long as its
   lifetime lasts; a removed one is gone.
   */
  lemma InsertedIsFound(l: Limits, st: Store, n: SignIn, sweepAt: nat, at: nat, mid: Store, later: nat,
                        answer: Option<Session>, st': Store)
    requires at <= later
    requires LazyStep(l, st, Insert(n, sweepAt, at), None, mid) && LazyStep(l, mid, Get(n.id, later), answer, st')
    ensures answer.Some? <==> later - at < l.ttl
    ensures answer.Some? ==> answer.value == Session(n.identity, n.authTime, n.wall + l.ttl / 1000, at)
    ensures answer.None? <==> n.id !in st'.held
  {}

  lemma RemovedIsGone(l: Limits, st: Store, id: Id, at: nat, mid: Store, later: nat, answer: Option<Session>,
                      st': Store)
    requires LazyStep(l, st, Remove(id, at), None, mid) && LazyStep(l, mid, Get(id, later), answer, st')
    ensures answer == None && forall k :: k in st.held && k != id ==> k in mid.held && mid.held[k] == st.held[k]
  {}

  // ---- laziness is invisible -----------------------------------------------

  lemma LivePartLater(l: Limits, m: map<Id, Session>, t1: nat, t2: nat)
    requires t1 <= t2
    ensures LivePart(l, LivePart(l, m, t1), t2) == LivePart(l, m, t2)
  {}

  /** What of an eviction shows: an expired victim is nothing to the eager store. */
  function Shown(l: Limits, m: map<Id, Session>, victim: Option<Id>, now: nat): Option<Id> {
    if victim.Some? && victim.value in m && Live(l, m[victim.value], now) then victim else None
  }

  lemma TheirsLive(l: Limits, m: map<Id, Session>, sub: string, now: nat)
    ensures Theirs(LivePart(l, m, now), sub) <= Theirs(m, sub)
    ensures |Theirs(LivePart(l, m, now), sub)| <= |Theirs(m, sub)|
    ensures |LivePart(l, m, now)| <= |m|
    ensures (forall k :: k in Theirs(m, sub) ==> Live(l, m[k], now)) <==>
        |Theirs(LivePart(l, m, now), sub)| == |Theirs(m, sub)|
    ensures (forall k :: k in m ==> Live(l, m[k], now)) <==> |LivePart(l, m, now)| == |m|
  {
    var d := LivePart(l, m, now);
    SubsetSize(Theirs(d, sub), Theirs(m, sub));
    SubsetSize(d.Keys, m.Keys);
    if forall k :: k in Theirs(m, sub) ==> Live(l, m[k], now) {
      assert Theirs(d, sub) == Theirs(m, sub);
    } else {
      var k :| k in Theirs(m, sub) && !Live(l, m[k], now);
      assert k !in Theirs(d, sub);
    }
    if forall k :: k in m ==> Live(l, m[k], now) {
      assert d.Keys == m.Keys;
    } else {
      var k :| k in m && !Live(l, m[k], now);
      assert k !in d.Keys;
    }
  }

  /**
   A live session is evicted only if every session it was chosen among is live;
   otherwise the victim had expired already.
   */
  lemma LiveVictimMeansAllLive(l: Limits, m: map<Id, Session>, sub: string, k: Id, now: nat)
    requires Evicts(l, m, sub, Some(k))
    ensures k in m
    ensures Live(l, m[k], now) <==> forall j :: j in Candidates(l, m, sub) ==> Live(l, m[j], now)
  {}

  lemma EvictionShows(l: Limits, m: map<Id, Session>, sub: string, victim: Option<Id>, now: nat)
    requires CapsHold(l, m) && Evicts(l, m, sub, victim)
    ensures Evicts(l, LivePart(l, m, now), sub, Shown(l, m, victim, now))
  {
    TheirsLive(l, m, sub, now);
    if victim.Some? { LiveVictimMeansAllLive(l, m, sub, victim.value, now); }
  }

  lemma {:induction false} OldestExists(m: map<Id, Session>, among: set<Id>) returns (k: Id)
    requires among != {} && among <= m.Keys
    ensures Oldest(m, among, k)
    decreases |among|
  {
    var j :| j in among;
    if among == {j} {
      k := j;
    } else {
      k := OldestExists(m, among - {j});
      if m[j].created <= m[k].created { k := j; }
    }
  }

  /** Whatever the eager store evicts, the lazy one can evict the same, or something expired. */
  lemma EvictionMatched(l: Limits, m: map<Id, Session>, sub: string, shown: Option<Id>, now: nat)
    returns (victim: Option<Id>)
    requires CapsHold(l, m) && Evicts(l, LivePart(l, m, now), sub, shown)
    ensures Evicts(l, m, sub, victim) && Shown(l, m, victim, now) == shown
  {
    TheirsLive(l, m, sub, now);
    var d := LivePart(l, m, now);
    var among := Candidates(l, m, sub);
    if among == {} {
      victim := None;
    } else if forall j :: j in among ==> Live(l, m[j], now) {
      assert Candidates(l, d, sub) == among;
      victim := shown;
    } else {
      var k := OldestExists(m, among);
      victim := Some(k);
      LiveVictimMeansAllLive(l, m, sub, k, now);
      assert Candidates(l, d, sub) == {};
    }
  }

  lemma PutShows(l: Limits, m: map<Id, Session>, victim: Option<Id>, n: SignIn, at: nat)
    ensures LivePart(l, Put(l, m, victim, n, at), at)
         == LivePart(l, Put(l, LivePart(l, m, at), Shown(l, m, victim, at), n, at), at)
  {}

  /** The stores hold the same live sessions at `now`, and so at every later time. */
  ghost predicate Agree(l: Limits, held: map<Id, Session>, m: map<Id, Session>, now: nat) {
    LivePart(l, held, now) == LivePart(l, m, now)
  }

  lemma AgreeLater(l: Limits, held: map<Id, Session>, m: map<Id, Session>, now: nat, later: nat)
    requires Agree(l, held, m, now) && now <= later
    ensures Agree(l, held, m, later)
  {
    LivePartLater(l, held, now, later);
    LivePartLater(l, m, now, later);
  }

  lemma SweepShowsNothing(l: Limits, st: Store, sweepAt: nat, at: nat)
    requires sweepAt <= at
    ensures LivePart(l, Swept(l, st, sweepAt).held, at) == LivePart(l, st.held, at)
  {
    LivePartLater(l, st.held, sweepAt, at);
  }

  lemma EagerInsertFollows(l: Limits, st: Store, m: map<Id, Session>, n: SignIn, sweepAt: nat, at: nat, st': Store)
    returns (m': map<Id, Session>)
    requires CapsHold(l, st.held) && Agree(l, st.held, m, at) && sweepAt <= at
    requires LazyStep(l, st, Insert(n, sweepAt, at), None, st')
    ensures EagerStep(l, m, Insert(n, sweepAt, at), None, m') && Agree(l, st'.held, m', at)
  {
    var sw := Swept(l, st, sweepAt);
    SweepShowsNothing(l, st, sweepAt, at);
    SmallerKeepsCaps(l, st.held, sw.held);
    var victim :| Evicts(l, sw.held, n.identity.sub, victim) && st'.held == Put(l, sw.held, victim, n, at);
    EvictionShows(l, sw.held, n.identity.sub, victim, at);
    PutShows(l, sw.held, victim, n, at);
    m' := Put(l, LivePart(l, m, at), Shown(l, sw.held, victim, at), n, at);
  }

  lemma EagerGetFollows(l: Limits, st: Store, m: map<Id, Session>, id: Id, at: nat, answer: Option<Session>, st': Store)
    requires Agree(l, st.held, m, at) && LazyStep(l, st, Get(id, at), answer, st')
    ensures EagerStep(l, m, Get(id, at), answer, LivePart(l, m, at)) && Agree(l, st'.held, LivePart(l, m, at), at)
  {
    LivePartLater(l, m, at, at);
    assert id in LivePart(l, m, at) <==> id in LivePart(l, st.held, at);
  }

  lemma EagerRemoveFollows(l: Limits, st: Store, m: map<Id, Session>, id: Id, at: nat, answer: Option<Session>,
                           st': Store)
    requires Agree(l, st.held, m, at) && LazyStep(l, st, Remove(id, at), answer, st')
    ensures EagerStep(l, m, Remove(id, at), answer, LivePart(l, m, at) - {id})
    ensures Agree(l, st'.held, LivePart(l, m, at) - {id}, at)
  {
    assert LivePart(l, st'.held, at) == LivePart(l, st.held, at) - {id};
  }

  /** Each lazy step is matched by an eager one with the same answer. */
  lemma EagerFollows(l: Limits, st: Store, m: map<Id, Session>, now: nat, e: Event, answer: Option<Session>, st': Store)
    returns (m': map<Id, Session>)
    requires CapsHold(l, st.held) && Agree(l, st.held, m, now) && Timely(now, [e])
    requires LazyStep(l, st, e, answer, st')
    ensures EagerStep(l, m, e, answer, m') && Agree(l, st'.held, m', e.at)
  {
    AgreeLater(l, st.held, m, now, e.at);
    match e
    case Insert(n, sweepAt, at) =>
      m' := EagerInsertFollows(l, st, m, n, sweepAt, at, st');
    case Get(id, at) =>
      m' := LivePart(l, m, at);
      EagerGetFollows(l, st, m, id, at, answer, st');
    case Remove(id, at) =>
      m' := LivePart(l, m, at) - {id};
      EagerRemoveFollows(l, st, m, id, at, answer, st');
  }

  lemma LazyInsertFollows(l: Limits, st: Store, m: map<Id, Session>, n: SignIn, sweepAt: nat, at: nat,
                          m': map<Id, Session>)
    returns (st': Store)
    requires CapsHold(l, st.held) && Agree(l, st.held, m, at) && sweepAt <= at
    requires EagerStep(l, m, Insert(n, sweepAt, at), None, m')
    ensures LazyStep(l, st, Insert(n, sweepAt, at), None, st') && Agree(l, st'.held, m', at)
  {
    var d := LivePart(l, m, at);
    var sw := Swept(l, st, sweepAt);
    SweepShowsNothing(l, st, sweepAt, at);
    SmallerKeepsCaps(l, st.held, sw.held);
    var shown :| Evicts(l, d, n.identity.sub, shown) && m' == Put(l, d, shown, n, at);
    var victim := EvictionMatched(l, sw.held, n.identity.sub, shown, at);
    PutShows(l, sw.held, victim, n, at);
    st' := Store(Put(l, sw.held, victim, n, at), sw.lastSweep);
    InsertSteps(l, st, n, sweepAt, at, sw, victim, st');
  }

  lemma LazyGetFollows(l: Limits, st: Store, m: map<Id, Session>, id: Id, at: nat, answer: Option<Session>,
                       m': map<Id, Session>)
    returns (st': Store)
    requires Agree(l, st.held, m, at) && EagerStep(l, m, Get(id, at), answer, m')
    ensures LazyStep(l, st, Get(id, at), answer, st') && Agree(l, st'.held, m', at)
  {
    assert id in m' <==> id in LivePart(l, st.held, at);
    st' := if id in st.held && Live(l, st.held[id], at) then st else st.(held := st.held - {id});
    LivePartLater(l, m, at, at);
  }

  lemma LazyRemoveFollows(l: Limits, st: Store, m: map<Id, Session>, id: Id, at: nat, m': map<Id, Session>)
    returns (st': Store)
    requires Agree(l, st.held, m, at) && EagerStep(l, m, Remove(id, at), None, m')
    ensures LazyStep(l, st, Remove(id, at), None, st') && Agree(l, st'.held, m', at)
  {
    st' := st.(held := st.held - {id});
    assert LivePart(l, st'.held, at) == LivePart(l, st.held, at) - {id};
  }

  /** And each eager step by a lazy one. */
  lemma LazyFollows(l: Limits, st: Store, m: map<Id, Session>, now: nat, e: Event, answer: Option<Session>,
                    m': map<Id, Session>)
    returns (st': Store)
    requires CapsHold(l, st.held) && Agree(l, st.held, m, now) && Timely(now, [e])
    requires EagerStep(l, m, e, answer, m')
    ensures LazyStep(l, st, e, answer, st') && Agree(l, st'.held, m', e.at)
  {
    AgreeLater(l, st.held, m, now, e.at);
    match e
    case Insert(n, sweepAt, at) => st' := LazyInsertFollows(l, st, m, n, sweepAt, at, m');
    case Get(id, at) => st' := LazyGetFollows(l, st, m, id, at, answer, m');
    case Remove(id, at) => st' := LazyRemoveFollows(l, st, m, id, at, m');
  }

  lemma {:induction false} EagerRunFollows(l: Limits, st: Store, m: map<Id, Session>, now: nat, es: seq<Event>,
                                           answers: seq<Option<Session>>, st': Store)
    returns (m': map<Id, Session>)
    requires l.Sane() && CapsHold(l, st.held) && Agree(l, st.held, m, now) && Timely(now, es)
    requires LazyRun(l, st, es, answers, st')
    ensures EagerRun(l, m, es, answers, m') && Agree(l, st'.held, m', LastTime(now, es))
    decreases es
  {
    if es == [] {
      m' := m;
    } else {
      var mid :| LazyStep(l, st, es[0], answers[0], mid) && LazyRun(l, mid, es[1..], answers[1..], st');
      var eagerMid := EagerFollows(l, st, m, now, es[0], answers[0], mid);
      StepKeepsCaps(l, st, es[0], answers[0], mid);
      m' := EagerRunFollows(l, mid, eagerMid, es[0].at, es[1..], answers[1..], st');
    }
  }

  lemma {:induction false} LazyRunFollows(l: Limits, st: Store, m: map<Id, Session>, now: nat, es: seq<Event>,
                                          answers: seq<Option<Session>>, m': map<Id, Session>)
    returns (st': Store)
    requires l.Sane() && CapsHold(l, st.held) && Agree(l, st.held, m, now) && Timely(now, es)
    requires EagerRun(l, m, es, answers, m')
    ensures LazyRun(l, st, es, answers, st') && Agree(l, st'.held, m', LastTime(now, es))
    decreases es
  {
    if es == [] {
      st' := st;
    } else {
      var mid :| EagerStep(l, m, es[0], answers[0], mid) && EagerRun(l, mid, es[1..], answers[1..], m');
      var lazyMid := LazyFollows(l, st, m, now, es[0], answers[0], mid);
      StepKeepsCaps(l, st, es[0], answers[0], lazyMid);
      st' := LazyRunFollows(l, lazyMid, mid, es[0].at, es[1..], answers[1..], m');
    }
  }

  ghost predicate LazyCanAnswer(l: Limits, now: nat, es: seq<Event>, answers: seq<Option<Session>>) {
    exists st' :: LazyRun(l, Store(map[], now), es, answers, st')
  }

  ghost predicate EagerCanAnswer(l: Limits, es: seq<Event>, answers: seq<Option<Session>>) {
    exists m' :: EagerRun(l, map[], es, answers, m')
  }

  /**
   Laziness is invisible. Over every sequence of operations, the answers the lazy store
   can give are exactly the answers the eager store can give.
   */
  lemma LazyStoreIsIndistinguishable(l: Limits, now: nat, es: seq<Event>, answers: seq<Option<Session>>)
    requires l.Sane() && Timely(now, es)
    ensures LazyCanAnswer(l, now, es, answers) <==> EagerCanAnswer(l, es, answers)
  {
    var empty := Store(map[], now);
    assert CapsHold(l, empty.held);
    if LazyCanAnswer(l, now, es, answers) {
      var st' :| LazyRun(l, empty, es, answers, st');
      var m' := EagerRunFollows(l, empty, map[], now, es, answers, st');
    }
    if EagerCanAnswer(l, es, answers) {
      var m' :| EagerRun(l, map[], es, answers, m');
      var st' := LazyRunFollows(l, empty, map[], now, es, answers, m');
    }
  }

  // ---- how far one user can displace others --------------------------------

  /**
   When a sign-in evicts somebody else: exactly if the user is below the cap of their own, the
   store is full, and a session of somebody else is among its oldest.
   */
  lemma EvictsOthersExactly(l: Limits, m: map<Id, Session>, sub: string)
    requires l.Sane()
    ensures (exists victim :: Evicts(l, m, sub, Some(victim)) && victim in Others(m, sub)) <==>
              && |Theirs(m, sub)| < l.maxPerSubject && |m| >= l.maxSessions
              && exists k :: k in Others(m, sub) && Oldest(m, m.Keys, k)
  {
    if |Theirs(m, sub)| < l.maxPerSubject && |m| >= l.maxSessions {
      assert Candidates(l, m, sub) == m.Keys;
      forall k | k in Others(m, sub) && Oldest(m, m.Keys, k) ensures Evicts(l, m, sub, Some(k)) {}
    }
  }

  function Others(m: map<Id, Session>, sub: string): set<Id> {
    m.Keys - Theirs(m, sub)
  }

  /** A lazy step in which only `sub` may sign in; `d` is 1 if it evicts somebody else's session. */
  ghost predicate SoloStep(l: Limits, st: Store, sub: string, e: Event, d: nat, st': Store) {
    match e
    case Insert(n, sweepAt, at) =>
      var sw := Swept(l, st, sweepAt);
      n.identity.sub == sub && st'.lastSweep == sw.lastSweep &&
      exists victim ::
        && Evicts(l, sw.held, sub, victim)
        && st'.held == Put(l, sw.held, victim, n, at)
        && d == if victim.Some? && victim.value in Others(sw.held, sub) then 1 else 0
    case _ => d == 0 && exists answer :: LazyStep(l, st, e, answer, st')
  }

  /** A run of such steps, with how many sessions of others it evicts in all. */
  ghost predicate SoloRun(l: Limits, st: Store, sub: string, es: seq<Event>, displaced: nat, st': Store)
    decreases es
  {
    if es == [] then displaced == 0 && st' == st
    else exists mid, d: nat ::
        d <= displaced && SoloStep(l, st, sub, es[0], d, mid) && SoloRun(l, mid, sub, es[1..], displaced - d, st')
  }

  lemma OthersAfterPut(l: Limits, m: map<Id, Session>, victim: Option<Id>, n: SignIn, at: nat)
    ensures var sub := n.identity.sub;
            var after := Others(Put(l, m, victim, n, at), sub);
            after <= Others(m, sub) && (victim.Some? ==> victim.value !in after)
  {}

  /** Somebody else's session is chosen only while others crowd the store. */
  lemma VictimIsCrowded(l: Limits, m: map<Id, Session>, sub: string, victim: Id)
    requires Evicts(l, m, sub, Some(victim)) && victim in Others(m, sub)
    ensures l.maxSessions - l.maxPerSubject + 1 <= |Others(m, sub)|
  {
    assert m.Keys == Others(m, sub) + Theirs(m, sub);
    assert |Theirs(m, sub)| < l.maxPerSubject;
  }

  lemma PutOnOthers(l: Limits, m: map<Id, Session>, victim: Option<Id>, n: SignIn, at: nat)
    requires Evicts(l, m, n.identity.sub, victim)
    ensures var sub := n.identity.sub;
            var before, after := Others(m, sub), Others(Put(l, m, victim, n, at), sub);
            && |after| <= |before|
            && (victim.Some? && victim.value in before ==>
                l.maxSessions - l.maxPerSubject + 1 <= |before| && |after| < |before|)
  {
    var sub := n.identity.sub;
    OthersAfterPut(l, m, victim, n, at);
    SubsetSize(Others(Put(l, m, victim, n, at), sub), Others(m, sub));
    if victim.Some? && victim.value in Others(m, sub) { VictimIsCrowded(l, m, sub, victim.value); }
  }

  lemma FewerOthers(m: map<Id, Session>, m': map<Id, Session>, sub: string)
    requires m'.Keys <= m.Keys && forall k :: k in m' ==> m'[k] == m[k]
    ensures |Others(m', sub)| <= |Others(m, sub)|
  {
    SubsetSize(Others(m', sub), Others(m, sub));
  }

  lemma InsertOnOthers(l: Limits, st: Store, n: SignIn, sweepAt: nat, at: nat, d: nat, st': Store)
    requires l.Sane() && CapsHold(l, st.held) && SoloStep(l, st, n.identity.sub, Insert(n, sweepAt, at), d, st')
    ensures var before, after := Others(st.held, n.identity.sub), Others(st'.held, n.identity.sub);
            && CapsHold(l, st'.held) && d <= 1 && |after| + d <= |before|
            && (d == 1 ==> l.maxSessions - l.maxPerSubject + 1 <= |before|)
  {
    var sub, sw := n.identity.sub, Swept(l, st, sweepAt);
    var victim :| Evicts(l, sw.held, sub, victim) && st'.held == Put(l, sw.held, victim, n, at)
                  && d == if victim.Some? && victim.value in Others(sw.held, sub) then 1 else 0;
    SmallerKeepsCaps(l, st.held, sw.held);
    PutKeepsCaps(l, sw.held, victim, n, at);
    PutOnOthers(l, sw.held, victim, n, at);
    FewerOthers(st.held, sw.held, sub);
  }

  /** A displacement takes a session from the others, and only while they crowd the store. */
  lemma StepOnOthers(l: Limits, st: Store, sub: string, e: Event, d: nat, st': Store)
    requires l.Sane() && CapsHold(l, st.held) && SoloStep(l, st, sub, e, d, st')
    ensures CapsHold(l, st'.held) && d <= 1
    ensures |Others(st'.held, sub)| + d <= |Others(st.held, sub)|
    ensures d == 1 ==> l.maxSessions - l.maxPerSubject + 1 <= |Others(st.held, sub)|
  {
    if e.Insert? {
      InsertOnOthers(l, st, e.signIn, e.sweepAt, e.at, d, st');
    } else {
      SmallerKeepsCaps(l, st.held, st'.held);
      FewerOthers(st.held, st'.held, sub);
    }
  }

  lemma SoloRunBegins(l: Limits, st: Store, sub: string, es: seq<Event>, displaced: nat, st': Store)
    returns (mid: Store, d: nat)
    requires l.Sane() && CapsHold(l, st.held) && es != [] && SoloRun(l, st, sub, es, displaced, st')
    ensures CapsHold(l, mid.held) && d <= 1 && d <= displaced && SoloRun(l, mid, sub, es[1..], displaced - d, st')
    ensures |Others(mid.held, sub)| + d <= |Others(st.held, sub)|
    ensures d == 1 ==> l.maxSessions - l.maxPerSubject + 1 <= |Others(st.held, sub)|
  {
    mid, d :|
      d <= displaced && SoloStep(l, st, sub, es[0], d, mid) && SoloRun(l, mid, sub, es[1..], displaced - d, st');
    StepOnOthers(l, st, sub, es[0], d, mid);
  }

  lemma {:induction false} DisplacementMeasure(l: Limits, st: Store, sub: string, es: seq<Event>, displaced: nat,
                                               st': Store)
    requires l.Sane() && CapsHold(l, st.held) && SoloRun(l, st, sub, es, displaced, st')
    ensures displaced <= |Others(st.held, sub)|
    ensures displaced > 0 ==> displaced + l.maxSessions <= |Others(st.held, sub)| + l.maxPerSubject
    decreases es
  {
    if es != [] {
      var mid, d := SoloRunBegins(l, st, sub, es, displaced, st');
      DisplacementMeasure(l, mid, sub, es[1..], displaced - d, st');
    }
  }

  function Min(a: nat, b: nat): nat { if a <= b then a else b }

  /**
   However often one user signs in, they push out at most `maxPerSubject` sessions of
   everybody else put together.
   */
  lemma OneUserDisplacesFew(l: Limits, st: Store, sub: string, es: seq<Event>, displaced: nat, st': Store)
    requires l.Sane() && CapsHold(l, st.held) && SoloRun(l, st, sub, es, displaced, st')
    ensures displaced <= Min(l.maxPerSubject, l.maxSessions)
  {
    DisplacementMeasure(l, st, sub, es, displaced, st');
    SubsetSize(Others(st.held, sub), st.held.Keys);
  }

  // ---- the store itself ----------------------------------------------------

  /** The store as the program keeps it, updated in place under its lock. */
  class SessionStore {
    const limits: Limits
    var held: map<Id, Session>
    var lastSweep: nat

    ghost function View(): Store reads this { Store(held, lastSweep) }

    constructor (limits: Limits, now: nat)
      ensures this.limits == limits && View() == Store(map[], now)
    {
      this.limits := limits;
      held := map[];
      lastSweep := now;
    }

    /** `min_by_key` over the creation times: an oldest key, if there is any. */
    method OldestOf(among: set<Id>) returns (k: Option<Id>)
      requires among <= held.Keys
      ensures k.None? <==> among == {}
      ensures k.Some? ==> Oldest(held, among, k.value)
    {
      k := None;
      var rest := among;
      while rest != {}
        invariant rest <= among
        invariant k.None? <==> rest == among
        invariant k.Some? ==> k.value in among
        invariant k.Some? ==> forall j :: j in among - rest ==> held[k.value].created <= held[j].created
      {
        var j :| j in rest;
        if k.None? || held[j].created < held[k.value].created { k := Some(j); }
        rest := rest - {j};
      }
    }

    method SweepIfDue(now: nat)
      modifies this
      ensures View() == Swept(limits, old(View()), now)
    {
      if Elapsed(now, lastSweep) >= limits.sweepEvery {
        held := LivePart(limits, held, now);
        lastSweep := now;
      }
    }

    /** The session that must make room for one of `sub`, if any must. */
    method ChooseVictim(sub: string) returns (victim: Option<Id>)
      ensures Evicts(limits, held, sub, victim)
    {
      var theirs := Theirs(held, sub);
      if |theirs| >= limits.maxPerSubject {
        victim := OldestOf(theirs);
      } else if |held| >= limits.maxSessions {
        victim := OldestOf(held.Keys);
      } else {
        victim := None;
      }
    }

    method Admit(id: Id, identity: Identity, authTime: Option<nat>, wall: nat, at: nat, victim: Option<Id>)
      modifies this
      ensures View() == Store(Put(limits, old(held), victim, SignIn(id, identity, authTime, wall), at), old(lastSweep))
    {
      if victim.Some? { held := held - {victim.value}; }
      held := held[id := Session(identity, authTime, wall + limits.ttl / 1000, at)];
    }

    /** Store a session under the id just minted; without an id nothing happens. */
    method Insert(id: Option<Id>, identity: Identity, authTime: Option<nat>, wall: nat, sweepAt: nat, at: nat)
      returns (r: Option<Id>)
      modifies this
      ensures r == id
      ensures id.None? ==> View() == old(View())
      ensures id.Some? ==>
                var e := Event.Insert(SignIn(id.value, identity, authTime, wall), sweepAt, at);
                LazyStep(limits, old(View()), e, None, View())
    {
      r := id;
      if id.None? { return; }
      ghost var before := View();
      SweepIfDue(sweepAt);
      ghost var swept := View();
      var victim := ChooseVictim(identity.sub);
      Admit(id.value, identity, authTime, wall, at, victim);
      InsertSteps(limits, before, SignIn(id.value, identity, authTime, wall), sweepAt, at, swept, victim, View());
    }

    /** The session if it is within its lifetime; an expired one is removed. */
    method Get(id: Id, at: nat) returns (answer: Option<Session>)
      modifies this
      ensures LazyStep(limits, old(View()), Event.Get(id, at), answer, View())
    {
      if id in held && Live(limits, held[id], at) { return Some(held[id]); }
      held := held - {id};
      answer := None;
    }

    method Remove(id: Id)
      modifies this
      ensures View() == Store(old(held) - {id}, old(lastSweep))
    {
      held := held - {id};
    }

    /** Sessions held: at least the live ones, and at most the cap. */
    method Count(now: nat) returns (n: nat)
      ensures n == |held| && |LivePart(limits, held, now)| <= n
      ensures CapsHold(limits, held) ==> n <= limits.maxSessions
    {
      n := |held|;
      TheirsLive(limits, held, "", now);
    }
  }
}
