/**
 How far one user can push others out of the session store, at most: the bound of
 `Sessions.OneUserDisplacesFew` is met by a run of sign-ins from the empty store.
 */
module Crowds {
  import opened Clocks
  import opened Options
  import opened Sessions

  /** The `i`-th of a crowd of users, who signs in once. */
  function Stranger(i: nat): SignIn {
    var name := seq(i + 1, _ => 'a');
    SignIn(name, Identity(name, None, None), None, 0)
  }

  /** The `i`-th sign-in of the user without a name. */
  function Mine(i: nat): SignIn { SignIn(seq(i + 1, _ => 'b'), Identity("", None, None), None, 0) }

  lemma IdsDiffer(i: nat, j: nat)
    ensures Stranger(i).id == Stranger(j).id ==> i == j
    ensures NotYet(Stranger(j).id, 0) && Stranger(j).identity.sub != ""
    ensures !NotYet(Mine(i).id, i) && NotYet(Mine(i).id, i + 1)
  {
    assert |Stranger(i).id| == i + 1 && |Mine(i).id| == i + 1;
    assert Mine(i).id[0] == 'b' && Stranger(j).id[0] == 'a';
  }

  // ---- the crowd --------------------------------------------------------------------------

  function Crowd(l: Limits, k: nat): map<Id, Session> {
    if k == 0 then map[] else Crowd(l, k - 1)[Stranger(k - 1).id := NewSession(l, Stranger(k - 1), 0)]
  }

  ghost predicate IsStranger(l: Limits, i: nat, id: Id, s: Session) {
    id == Stranger(i).id && s == NewSession(l, Stranger(i), 0)
  }

  ghost predicate OfCrowd(l: Limits, k: nat, id: Id, s: Session) { exists i: nat :: i < k && IsStranger(l, i, id, s) }

  lemma LastIsNew(l: Limits, k: nat)
    requires forall id :: id in Crowd(l, k) ==> OfCrowd(l, k, id, Crowd(l, k)[id])
    ensures Stranger(k).id !in Crowd(l, k)
  {
    forall id | id in Crowd(l, k) ensures id != Stranger(k).id {
      var i: nat :| i < k && IsStranger(l, i, id, Crowd(l, k)[id]);
      IdsDiffer(i, k);
    }
  }

  lemma OfGrownCrowd(l: Limits, k: nat, id: Id, s: Session)
    requires OfCrowd(l, k, id, s)
    ensures OfCrowd(l, k + 1, id, s)
  {
    var i: nat :| i < k && IsStranger(l, i, id, s);
  }

  lemma {:induction false} CrowdIsStrangers(l: Limits, k: nat)
    ensures |Crowd(l, k)| == k
    ensures forall id :: id in Crowd(l, k) ==> OfCrowd(l, k, id, Crowd(l, k)[id])
  {
    if k > 0 {
      var before, last := Crowd(l, k - 1), Stranger(k - 1);
      CrowdIsStrangers(l, k - 1);
      LastIsNew(l, k - 1);
      assert Crowd(l, k).Keys == before.Keys + {last.id};
      forall id | id in Crowd(l, k) ensures OfCrowd(l, k, id, Crowd(l, k)[id]) {
        if id == last.id {
          assert IsStranger(l, k - 1, id, Crowd(l, k)[id]);
        } else {
          OfGrownCrowd(l, k - 1, id, before[id]);
        }
      }
    }
  }

  /** A crowd that signs in evicts nobody, up to the cap. */
  lemma StrangerFits(l: Limits, i: nat)
    requires l.Sane() && 0 < l.ttl && i < l.maxSessions
    ensures LazyStep(l, Store(Crowd(l, i), 0), Insert(Stranger(i), 0, 0), None, Store(Crowd(l, i + 1), 0))
  {
    CrowdIsStrangers(l, i);
    var st, sub := Store(Crowd(l, i), 0), Stranger(i).identity.sub;
    assert LivePart(l, st.held, 0) == st.held;
    forall id | id in Theirs(st.held, sub) ensures false {
      var j: nat :| j < i && IsStranger(l, j, id, st.held[id]);
      IdsDiffer(i, j);
    }
    assert Theirs(st.held, sub) == {};
    InsertSteps(l, st, Stranger(i), 0, 0, st, None, Store(Crowd(l, i + 1), 0));
  }

  lemma OneArrives(l: Limits, i: nat, es: seq<Event>, answers: seq<Option<Session>>, st': Store)
    requires l.Sane() && 0 < l.ttl && i < l.maxSessions
    requires LazyRun(l, Store(Crowd(l, i + 1), 0), es, answers, st')
    ensures LazyRun(l, Store(Crowd(l, i), 0), [Insert(Stranger(i), 0, 0)] + es, [None] + answers, st')
  {
    StrangerFits(l, i);
    var run, replies := [Insert(Stranger(i), 0, 0)] + es, [None] + answers;
    assert run[1..] == es && replies[1..] == answers;
  }

  ghost predicate InsertsAt(es: seq<Event>, at: nat) {
    forall e :: e in es ==> e.Insert? && e.sweepAt == e.at == at
  }

  lemma {:induction false} CrowdArrives(l: Limits, i: nat, k: nat)
    returns (es: seq<Event>, answers: seq<Option<Session>>)
    requires l.Sane() && 0 < l.ttl && i <= k <= l.maxSessions
    ensures LazyRun(l, Store(Crowd(l, i), 0), es, answers, Store(Crowd(l, k), 0)) && InsertsAt(es, 0)
    decreases k - i
  {
    if i == k {
      es, answers := [], [];
    } else {
      var rest, replies := CrowdArrives(l, i + 1, k);
      es, answers := [Insert(Stranger(i), 0, 0)] + rest, [None] + replies;
      OneArrives(l, i, rest, replies, Store(Crowd(l, k), 0));
    }
  }

  // ---- one more user ----------------------------------------------------------------------

  /** Not the id of the user's sign-in `i`, or of one after it. */
  predicate NotYet(id: Id, i: nat) { id == "" || id[0] != 'b' || |id| <= i }

  /** The store is full, and the user's `i` sessions are its newest. */
  ghost predicate Crowded(l: Limits, m: map<Id, Session>, i: nat) {
    && |m| == l.maxSessions && |Theirs(m, "")| == i
    && (forall id :: id in m ==> m[id].created == if m[id].identity.sub == "" then 1 else 0)
    && (forall id :: id in m ==> NotYet(id, i))
  }

  lemma CrowdIsCrowded(l: Limits)
    ensures Crowded(l, Crowd(l, l.maxSessions), 0)
  {
    var m := Crowd(l, l.maxSessions);
    CrowdIsStrangers(l, l.maxSessions);
    forall id | id in m ensures m[id].created == 0 && m[id].identity.sub != "" && NotYet(id, 0) {
      var j: nat :| j < l.maxSessions && IsStranger(l, j, id, m[id]);
      IdsDiffer(j, j);
    }
    assert Theirs(m, "") == {};
  }

  /** The user is below the cap of their own, the oldest session is somebody else's. */
  lemma VictimIsAnother(l: Limits, m: map<Id, Session>, i: nat, victim: Option<Id>)
    requires Crowded(l, m, i) && i < l.maxPerSubject && i < l.maxSessions && Evicts(l, m, "", victim)
    ensures victim.Some? && victim.value in Others(m, "")
  {
    assert m.Keys == Others(m, "") + Theirs(m, "");
    var o :| o in Others(m, "");
    assert Candidates(l, m, "") == m.Keys;
    assert m[victim.value].created <= m[o].created;
  }

  lemma SameSize(m: map<Id, Session>, gone: Id, id: Id, s: Session)
    requires gone in m && id !in m
    ensures |(m - {gone})[id := s]| == |m|
  {
    var w := m - {gone};
    assert m.Keys == w.Keys + {gone} && w[id := s].Keys == w.Keys + {id};
  }

  lemma OneMoreOfTheirs(m: map<Id, Session>, gone: Id, id: Id, s: Session, sub: string)
    requires gone in Others(m, sub) && id !in m && s.identity.sub == sub
    ensures Theirs((m - {gone})[id := s], sub) == Theirs(m, sub) + {id}
    ensures |Theirs((m - {gone})[id := s], sub)| == |Theirs(m, sub)| + 1
  {}

  lemma StaysCrowded(l: Limits, m: map<Id, Session>, i: nat, victim: Id)
    requires Crowded(l, m, i) && victim in Others(m, "")
    ensures Crowded(l, Put(l, m, Some(victim), Mine(i), 1), i + 1)
  {
    var s := NewSession(l, Mine(i), 1);
    IdsDiffer(i, i);
    SameSize(m, victim, Mine(i).id, s);
    OneMoreOfTheirs(m, victim, Mine(i).id, s, "");
  }

  lemma NobodyIsSwept(l: Limits, st: Store, i: nat)
    requires Crowded(l, st.held, i) && 1 < l.ttl
    ensures Swept(l, st, 1).held == st.held
  {
    assert LivePart(l, st.held, 1) == st.held;
  }

  /** Another of their sign-ins displaces somebody. */
  lemma OneIsDisplaced(l: Limits, st: Store, i: nat) returns (mid: Store)
    requires Crowded(l, st.held, i) && 1 < l.ttl && i < l.maxPerSubject && i < l.maxSessions
    ensures SoloStep(l, st, "", Insert(Mine(i), 1, 1), 1, mid) && Crowded(l, mid.held, i + 1)
  {
    NobodyIsSwept(l, st, i);
    assert Candidates(l, st.held, "") == st.held.Keys != {};
    var k := OldestExists(st.held, st.held.Keys);
    VictimIsAnother(l, st.held, i, Some(k));
    StaysCrowded(l, st.held, i, k);
    mid := Store(Put(l, st.held, Some(k), Mine(i), 1), Swept(l, st, 1).lastSweep);
  }

  lemma SoloFirst(l: Limits, st: Store, e: Event, mid: Store, es: seq<Event>, n: nat, st': Store)
    requires n > 0 && SoloStep(l, st, "", e, 1, mid) && SoloRun(l, mid, "", es, n - 1, st')
    ensures SoloRun(l, st, "", [e] + es, n, st')
  {
    var run := [e] + es;
    assert run[0] == e && run[1..] == es;
  }

  lemma {:induction false} ManyAreDisplaced(l: Limits, st: Store, i: nat, n: nat)
    returns (es: seq<Event>, st': Store)
    requires Crowded(l, st.held, i) && 1 < l.ttl && i + n <= l.maxPerSubject && i + n <= l.maxSessions
    ensures SoloRun(l, st, "", es, n, st') && InsertsAt(es, 1)
    decreases n
  {
    if n == 0 {
      es, st' := [], st;
    } else {
      var mid := OneIsDisplaced(l, st, i);
      var rest, last := ManyAreDisplaced(l, mid, i + 1, n - 1);
      es, st' := [Insert(Mine(i), 1, 1)] + rest, last;
      SoloFirst(l, st, Insert(Mine(i), 1, 1), mid, rest, n, st');
    }
  }

  lemma {:induction false} InsertsAreTimely(now: nat, es: seq<Event>, at: nat)
    requires now <= at && InsertsAt(es, at)
    ensures Timely(now, es)
    decreases es
  {
    if es != [] { InsertsAreTimely(at, es[1..], at); }
  }

  lemma {:induction false} OneAfterAnother(es: seq<Event>, at: nat, later: seq<Event>)
    requires InsertsAt(es, at) && Timely(at, later)
    ensures Timely(at, es + later)
    decreases es
  {
    if es == [] {
      assert es + later == later;
    } else {
      OneAfterAnother(es[1..], at, later);
      assert (es + later)[0] == es[0] && (es + later)[1..] == es[1..] + later;
    }
  }

  /**
   The bound is attained, whatever the limits (given a lifetime of more than a millisecond):
   strangers who sign in once each fill the empty store, and then one user takes as many of
   their sessions as that user may hold, or all there are.
   */
  lemma DisplacementIsAttained(l: Limits)
    returns (crowd: seq<Event>, answers: seq<Option<Session>>, full: Store, es: seq<Event>, st': Store)
    requires l.Sane() && 1 < l.ttl
    ensures LazyRun(l, Store(map[], 0), crowd, answers, full) && |full.held| == l.maxSessions
    ensures SoloRun(l, full, "", es, Min(l.maxPerSubject, l.maxSessions), st') && Timely(0, crowd + es)
  {
    crowd, answers := CrowdArrives(l, 0, l.maxSessions);
    full := Store(Crowd(l, l.maxSessions), 0);
    CrowdIsCrowded(l);
    es, st' := ManyAreDisplaced(l, full, 0, Min(l.maxPerSubject, l.maxSessions));
    InsertsAreTimely(0, es, 1);
    OneAfterAnother(crowd, 0, es);
  }

  /** In a deployment: ten thousand sessions, of which one user takes twenty. */
  lemma DeployedDisplacement()
    returns (crowd: seq<Event>, answers: seq<Option<Session>>, full: Store, es: seq<Event>, st': Store)
    ensures LazyRun(DEPLOYED, Store(map[], 0), crowd, answers, full) && |full.held| == 10_000
    ensures SoloRun(DEPLOYED, full, "", es, 20, st') && Timely(0, crowd + es)
  {
    crowd, answers, full, es, st' := DisplacementIsAttained(DEPLOYED);
  }
}
