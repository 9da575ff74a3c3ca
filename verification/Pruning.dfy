/**
 Which sign-in cookies a new sign-in clears, told by what this process sealed: neither by the
 list the pruning works on nor by the issue times it looks up.
 */
module Pruning {
  import opened Options
  import opened Cookies
  import opened Flows
  import opened Handlers
  import opened Jars

  /** A flow cookie whose value this process sealed for the state in its name. */
  predicate Ours(n: Names, vault: Vault, p: Pair) {
    IsFlowName(n, p.0) && ValidState(StateIn(n, p)) && p.1 in vault && vault[p.1].state == StateIn(n, p)
  }

  function StateIn(n: Names, p: Pair): string
    requires IsFlowName(n, p.0)
  {
    p.0[|n.FlowPrefix()|..]
  }

  function FlowPairs(n: Names, pairs: seq<Pair>): seq<Pair> {
    if pairs == [] then []
    else (if IsFlowName(n, pairs[0].0) then [pairs[0]] else []) + FlowPairs(n, pairs[1..])
  }

  lemma {:induction false} FlowPairsFilter(n: Names, pairs: seq<Pair>, p: Pair)
    ensures p in FlowPairs(n, pairs) <==> p in pairs && IsFlowName(n, p.0)
  {
    if pairs != [] { FlowPairsFilter(n, pairs[1..], p); }
  }

  // ---- the list the pruning works on ------------------------------------------------------

  function Mark(n: Names, vault: Vault, p: Pair): Held {
    (p.0, if Ours(n, vault, p) then Some(vault[p.1].issued) else None)
  }

  function Marks(n: Names, vault: Vault, ps: seq<Pair>): seq<Held> {
    if ps == [] then [] else [Mark(n, vault, ps[0])] + Marks(n, vault, ps[1..])
  }

  lemma {:induction false} HeldAreMarks(n: Names, vault: Vault, pairs: seq<Pair>)
    ensures HeldFlows(n, vault, pairs) == Marks(n, vault, FlowPairs(n, pairs))
  {
    if pairs != [] {
      HeldAreMarks(n, vault, pairs[1..]);
      var rest := FlowPairs(n, pairs[1..]);
      if IsFlowName(n, pairs[0].0) {
        assert ([pairs[0]] + rest)[1..] == rest;
      } else {
        assert [] + rest == rest;
      }
    }
  }

  lemma {:induction false} MarksAt(n: Names, vault: Vault, ps: seq<Pair>)
    ensures |Marks(n, vault, ps)| == |ps|
    ensures forall i :: 0 <= i < |ps| ==> Marks(n, vault, ps)[i] == Mark(n, vault, ps[i])
  {
    if ps != [] { MarksAt(n, vault, ps[1..]); }
  }

  lemma {:induction false} MarksConcat(n: Names, vault: Vault, a: seq<Pair>, b: seq<Pair>)
    ensures Marks(n, vault, a + b) == Marks(n, vault, a) + Marks(n, vault, b)
  {
    if a == [] {
      assert a + b == b;
    } else {
      assert (a + b)[1..] == a[1..] + b;
      MarksConcat(n, vault, a[1..], b);
    }
  }

  lemma LessOne(x: Held, a: multiset<Held>, b: multiset<Held>, all: multiset<Held>)
    requires (multiset{x} + a) + b == multiset{x} + all
    ensures a + b == all
  {
    assert ((multiset{x} + a) + b) - multiset{x} == a + b;
    assert (multiset{x} + all) - multiset{x} == all;
  }

  /** Taking one of the marked out of a division of the marks. */
  lemma TakenOut(held: seq<Held>, a: seq<Held>, b: seq<Held>) returns (i: nat)
    requires held != [] && multiset(a) + multiset(b) == multiset(held) && held[0] in a
    ensures i < |a| && a[i] == held[0] && multiset(a[..i] + a[i + 1..]) + multiset(b) == multiset(held[1..])
  {
    i :| 0 <= i < |a| && a[i] == held[0];
    assert a == a[..i] + [a[i]] + a[i + 1..];
    assert multiset(a) == multiset{a[i]} + multiset(a[..i] + a[i + 1..]);
    assert held == [held[0]] + held[1..];
    assert multiset(held) == multiset{held[0]} + multiset(held[1..]);
    LessOne(held[0], multiset(a[..i] + a[i + 1..]), multiset(b), multiset(held[1..]));
  }

  function Inserted<T>(s: seq<T>, i: nat, x: T): seq<T>
    requires i <= |s|
  {
    s[..i] + [x] + s[i..]
  }

  lemma OneMark(n: Names, vault: Vault, p: Pair)
    ensures Marks(n, vault, [p]) == [Mark(n, vault, p)]
  {
    assert [p][1..] == [];
  }

  lemma InsertedMarks(n: Names, vault: Vault, ps: seq<Pair>, i: nat, p: Pair)
    requires i <= |ps|
    ensures |Marks(n, vault, ps)| == |ps|
    ensures Marks(n, vault, Inserted(ps, i, p)) == Inserted(Marks(n, vault, ps), i, Mark(n, vault, p))
    ensures multiset(Inserted(ps, i, p)) == multiset{p} + multiset(ps)
  {
    MarksAt(n, vault, ps);
    MarksAt(n, vault, ps[..i]);
    assert ps == ps[..i] + ps[i..];
    MarksConcat(n, vault, ps[..i], ps[i..]);
    MarksConcat(n, vault, ps[..i], [p]);
    MarksConcat(n, vault, ps[..i] + [p], ps[i..]);
    OneMark(n, vault, p);
  }

  /** Once one of the marked is out and the rest is divided, it is put back. */
  lemma PutBack(n: Names, vault: Vault, ps: seq<Pair>, a: seq<Held>, i: nat, pa: seq<Pair>, pb: seq<Pair>)
    returns (all: seq<Pair>)
    requires ps != [] && i < |a| && a[i] == Mark(n, vault, ps[0]) && Marks(n, vault, pa) == a[..i] + a[i + 1..]
    requires multiset(pa) + multiset(pb) == multiset(ps[1..])
    ensures Marks(n, vault, all) == a && multiset(all) + multiset(pb) == multiset(ps)
  {
    MarksAt(n, vault, pa);
    InsertedMarks(n, vault, pa, i, ps[0]);
    all := Inserted(pa, i, ps[0]);
    assert Inserted(a[..i] + a[i + 1..], i, a[i]) == a;
    assert ps == [ps[0]] + ps[1..];
  }

  /** However the marks are divided, the cookies marked can be divided so. */
  lemma {:induction false} Divide(n: Names, vault: Vault, ps: seq<Pair>, a: seq<Held>, b: seq<Held>)
    returns (pa: seq<Pair>, pb: seq<Pair>)
    requires multiset(a) + multiset(b) == multiset(Marks(n, vault, ps))
    ensures Marks(n, vault, pa) == a && Marks(n, vault, pb) == b && multiset(pa) + multiset(pb) == multiset(ps)
    decreases ps, if ps != [] && Mark(n, vault, ps[0]) in a then 0 else 1
  {
    if ps == [] {
      NothingToDivide(a, b);
      pa, pb := [], [];
    } else if Mark(n, vault, ps[0]) in a {
      var i := TakenOut(Marks(n, vault, ps), a, b);
      assert Marks(n, vault, ps)[1..] == Marks(n, vault, ps[1..]);
      pa, pb := Divide(n, vault, ps[1..], a[..i] + a[i + 1..], b);
      pa := PutBack(n, vault, ps, a, i, pa, pb);
    } else {
      FirstIsInOther(Marks(n, vault, ps), a, b);
      pb, pa := Divide(n, vault, ps, b, a);
    }
  }

  lemma NothingToDivide(a: seq<Held>, b: seq<Held>)
    requires multiset(a) + multiset(b) == multiset{}
    ensures a == [] && b == []
  {
    assert |multiset(a) + multiset(b)| == |a| + |b|;
  }

  lemma FirstIsInOther(held: seq<Held>, a: seq<Held>, b: seq<Held>)
    requires held != [] && multiset(a) + multiset(b) == multiset(held) && held[0] !in a
    ensures held[0] in b
  {
    assert held[0] in multiset(held);
  }

  // ---- the main results -------------------------------------------------------------------

  /** Sealed no earlier. */
  predicate NoOlder(vault: Vault, p: Pair, q: Pair) {
    p.1 in vault && q.1 in vault && vault[p.1].issued >= vault[q.1].issued
  }

  /** A Set-Cookie that deletes each. */
  function Deletions(ps: seq<Pair>): seq<SetCookie> {
    if ps == [] then [] else [SetCookie(ps[0].0, "", 0)] + Deletions(ps[1..])
  }

  lemma {:induction false} ClearsAreDeletions(n: Names, vault: Vault, ps: seq<Pair>)
    ensures ClearsOf(Marks(n, vault, ps)) == Deletions(ps)
  {
    if ps != [] { ClearsAreDeletions(n, vault, ps[1..]); }
  }

  /**
   What a sign-in sets, exactly. The flow cookies read from the request divide into those kept
   and those cleared. At most four are kept, all of them ours; and one of ours is cleared only
   if four are kept, none of which is older.
   */
  lemma PruningOverVault(n: Names, vault: Vault, headers: seq<string>, m: Minted)
    returns (kept: seq<Pair>, cleared: seq<Pair>)
    ensures LoginCookies(n, vault, headers, m) == Deletions(cleared) + [SetCookie(n.Flow(m.state), m.value, 1800)]
    ensures multiset(kept) + multiset(cleared) == multiset(FlowPairs(n, Pairs(headers)))
    ensures |kept| <= 4 && forall k :: k in kept ==> Ours(n, vault, k)
    ensures forall d :: d in cleared && Ours(n, vault, d) ==>
              |kept| == 4 && forall k :: k in kept ==> NoOlder(vault, k, d)
  {
    var ps := FlowPairs(n, Pairs(headers));
    var held := HeldFlows(n, vault, Pairs(headers));
    HeldAreMarks(n, vault, Pairs(headers));
    PruningIsExact(held);
    kept, cleared := Divide(n, vault, ps, Kept(held), Dropped(held));
    ClearsAreDeletions(n, vault, cleared);
    DivisionIsJudged(n, vault, kept, cleared, Kept(held), Dropped(held));
  }

  lemma {:induction false} MarkedIn(n: Names, vault: Vault, ps: seq<Pair>, p: Pair)
    requires p in ps
    ensures Mark(n, vault, p) in Marks(n, vault, ps)
  {
    if p != ps[0] { MarkedIn(n, vault, ps[1..], p); }
  }

  lemma DivisionIsJudged(n: Names, vault: Vault, kept: seq<Pair>, cleared: seq<Pair>, a: seq<Held>, b: seq<Held>)
    requires Marks(n, vault, kept) == a && Marks(n, vault, cleared) == b && |a| <= 4
    requires forall k :: k in a ==> k.1.Some?
    requires forall d :: d in b && d.1.Some? ==> |a| == 4 && forall k :: k in a ==> k.1.value >= d.1.value
    ensures |kept| == |a| && forall k :: k in kept ==> Ours(n, vault, k)
    ensures forall d :: d in cleared && Ours(n, vault, d) ==>
              |kept| == 4 && forall k :: k in kept ==> NoOlder(vault, k, d)
  {
    MarksAt(n, vault, kept);
    forall k | k in kept ensures Ours(n, vault, k) { MarkedIn(n, vault, kept, k); }
    forall d | d in cleared && Ours(n, vault, d)
      ensures |kept| == 4 && forall k :: k in kept ==> NoOlder(vault, k, d)
    {
      MarkedIn(n, vault, cleared, d);
      forall k | k in kept ensures NoOlder(vault, k, d) { MarkedIn(n, vault, kept, k); }
    }
  }

  predicate Clears(cookies: seq<SetCookie>, p: Pair) { SetCookie(p.0, "", 0) in cookies }

  lemma {:induction false} DeletionsDelete(ps: seq<Pair>, name: string)
    ensures SetCookie(name, "", 0) in Deletions(ps) <==> exists p :: p in ps && p.0 == name
    ensures forall c :: c in Deletions(ps) ==> c.maxAge == 0
  {
    if ps != [] {
      DeletionsDelete(ps[1..], name);
      assert ps == [ps[0]] + ps[1..];
    }
  }

  lemma InOneOfTwo(kept: seq<Pair>, cleared: seq<Pair>, ps: seq<Pair>, p: Pair)
    requires multiset(kept) + multiset(cleared) == multiset(ps)
    ensures p in ps <==> p in kept || p in cleared
  {
    assert p in ps <==> p in multiset(ps);
    assert p in kept <==> p in multiset(kept);
    assert p in cleared <==> p in multiset(cleared);
  }

  /** What is not ours is cleared, whoever sent it. */
  lemma OthersAreCleared(n: Names, vault: Vault, headers: seq<string>, m: Minted, p: Pair)
    requires p in Pairs(headers) && IsFlowName(n, p.0) && !Ours(n, vault, p)
    ensures Clears(LoginCookies(n, vault, headers, m), p)
  {
    var kept, cleared := PruningOverVault(n, vault, headers, m);
    FlowPairsFilter(n, Pairs(headers), p);
    InOneOfTwo(kept, cleared, FlowPairs(n, Pairs(headers)), p);
    DeletionsDelete(cleared, p.0);
  }

  /** And nothing but flow cookies that were sent. */
  lemma OnlyFlowsAreCleared(n: Names, vault: Vault, headers: seq<string>, m: Minted, c: SetCookie)
    requires c in LoginCookies(n, vault, headers, m) && c != SetCookie(n.Flow(m.state), m.value, 1800)
    ensures exists p :: p in Pairs(headers) && IsFlowName(n, p.0) && c == SetCookie(p.0, "", 0)
  {
    var kept, cleared := PruningOverVault(n, vault, headers, m);
    var p := WhoseDeletion(cleared, c);
    InOneOfTwo(kept, cleared, FlowPairs(n, Pairs(headers)), p);
    FlowPairsFilter(n, Pairs(headers), p);
  }

  lemma {:induction false} WhoseDeletion(ps: seq<Pair>, c: SetCookie) returns (p: Pair)
    requires c in Deletions(ps)
    ensures p in ps && c == SetCookie(p.0, "", 0)
  {
    if c == SetCookie(ps[0].0, "", 0) { p := ps[0]; } else { p := WhoseDeletion(ps[1..], c); }
  }

  /** A browser sends each name once. */
  ghost predicate NamesOnce(pairs: seq<Pair>) {
    forall i, j :: 0 <= i < j < |pairs| ==> pairs[i].0 != pairs[j].0
  }

  function OursIn(n: Names, vault: Vault, pairs: seq<Pair>): set<Pair> { set p | p in pairs && Ours(n, vault, p) }

  lemma {:induction false} FlowPairsOnce(n: Names, pairs: seq<Pair>)
    requires NamesOnce(pairs)
    ensures NamesOnce(FlowPairs(n, pairs))
  {
    if pairs != [] {
      var rest := FlowPairs(n, pairs[1..]);
      FlowPairsOnce(n, pairs[1..]);
      forall j | 0 <= j < |rest| ensures rest[j].0 != pairs[0].0 {
        FlowPairsFilter(n, pairs[1..], rest[j]);
        var i :| 0 <= i < |pairs[1..]| && pairs[1..][i] == rest[j];
        assert pairs[i + 1] == rest[j];
      }
    }
  }

  lemma {:induction false} OnceInAll(pairs: seq<Pair>, p: Pair, q: Pair)
    requires NamesOnce(pairs) && p in pairs && q in pairs && p.0 == q.0
    ensures p == q && multiset(pairs)[p] == 1
  {
    var rest := pairs[1..];
    assert pairs == [pairs[0]] + rest;
    if p in rest && q in rest {
      OnceInAll(rest, p, q);
      assert pairs[0] != p by {
        var i :| 0 <= i < |rest| && rest[i] == p;
        assert pairs[i + 1] == p;
      }
    } else {
      forall r | r in rest ensures r.0 != pairs[0].0 {
        var i :| 0 <= i < |rest| && rest[i] == r;
        assert pairs[i + 1] == r;
      }
      assert multiset(rest)[pairs[0]] == 0;
    }
  }

  /** With each name sent once, a cookie is cleared exactly if it is among those to clear. */
  lemma ClearedIsNotKept(ps: seq<Pair>, kept: seq<Pair>, cleared: seq<Pair>, p: Pair)
    requires NamesOnce(ps) && multiset(kept) + multiset(cleared) == multiset(ps) && p in ps
    ensures (exists q :: q in cleared && q.0 == p.0) <==> p !in kept
    ensures p in cleared <==> p !in kept
  {
    InOneOfTwo(kept, cleared, ps, p);
    OnceInAll(ps, p, p);
    if q :| q in cleared && q.0 == p.0 {
      InOneOfTwo(kept, cleared, ps, q);
      OnceInAll(ps, p, q);
    }
    assert multiset(kept)[p] + multiset(cleared)[p] == 1;
  }

  lemma {:induction false} DistinctNumber(ps: seq<Pair>)
    requires forall i, j :: 0 <= i < j < |ps| ==> ps[i] != ps[j]
    ensures |set p | p in ps| == |ps|
  {
    if ps != [] {
      DistinctNumber(ps[1..]);
      assert ps == [ps[0]] + ps[1..] && ps[0] !in ps[1..];
      assert (set p | p in ps) == {ps[0]} + set p | p in ps[1..];
    }
  }

  lemma TwiceIfRepeated(ps: seq<Pair>, i: nat, j: nat)
    requires i < j < |ps|
    ensures ps[i] == ps[j] ==> multiset(ps)[ps[i]] >= 2
  {
    assert ps == ps[..i] + [ps[i]] + ps[i + 1..j] + [ps[j]] + ps[j + 1..];
  }

  lemma KeptOnce(ps: seq<Pair>, kept: seq<Pair>, cleared: seq<Pair>)
    requires NamesOnce(ps) && multiset(kept) + multiset(cleared) == multiset(ps)
    ensures |set p | p in kept| == |kept|
  {
    forall i, j | 0 <= i < j < |kept| ensures kept[i] != kept[j] {
      InOneOfTwo(kept, cleared, ps, kept[i]);
      OnceInAll(ps, kept[i], kept[i]);
      TwiceIfRepeated(kept, i, j);
    }
    DistinctNumber(kept);
  }

  /**
   A browser's own flow is cleared only for four others of its own, each at least as new, which
   are not.
   */
  lemma OursIsClearedForNewer(n: Names, vault: Vault, headers: seq<string>, m: Minted, p: Pair)
    returns (four: set<Pair>)
    requires NamesOnce(Pairs(headers)) && p in Pairs(headers) && Ours(n, vault, p)
    requires Clears(LoginCookies(n, vault, headers, m), p)
    ensures |four| == 4 && p !in four && four <= OursIn(n, vault, Pairs(headers))
    ensures forall k :: k in four ==>
              NoOlder(vault, k, p) && !Clears(LoginCookies(n, vault, headers, m), k)
  {
    var ps := FlowPairs(n, Pairs(headers));
    var kept, cleared := PruningOverVault(n, vault, headers, m);
    FlowPairsOnce(n, Pairs(headers));
    four := set k | k in kept;
    KeptOnce(ps, kept, cleared);
    FlowPairsFilter(n, Pairs(headers), p);
    DeletionsDelete(cleared, p.0);
    ClearedIsNotKept(ps, kept, cleared, p);
    forall k | k in kept ensures k in Pairs(headers) && !Clears(LoginCookies(n, vault, headers, m), k) {
      InOneOfTwo(kept, cleared, ps, k);
      FlowPairsFilter(n, Pairs(headers), k);
      ClearedIsNotKept(ps, kept, cleared, k);
      DeletionsDelete(cleared, k.0);
    }
  }

  /** So a browser that brought four of its own or fewer loses none of them. */
  lemma FewAreKept(n: Names, vault: Vault, headers: seq<string>, m: Minted, p: Pair)
    requires NamesOnce(Pairs(headers)) && |OursIn(n, vault, Pairs(headers))| <= 4
    requires p in OursIn(n, vault, Pairs(headers))
    ensures !Clears(LoginCookies(n, vault, headers, m), p)
  {
    if Clears(LoginCookies(n, vault, headers, m), p) {
      var four := OursIsClearedForNewer(n, vault, headers, m, p);
      FiveAreTooMany(four, p, OursIn(n, vault, Pairs(headers)));
    }
  }

  lemma FiveAreTooMany(four: set<Pair>, p: Pair, all: set<Pair>)
    requires |four| == 4 && p !in four && p in all && four <= all
    ensures |all| >= 5
  {
    assert four + {p} <= all;
    assert all == (four + {p}) + (all - (four + {p}));
  }

  // ---- in the browser ---------------------------------------------------------------------

  lemma ReadOnce(groups: seq<seq<Pair>>)
    requires WellSent(groups)
    ensures Pairs(PrintAll(groups)) == Visible(groups) && NamesOnce(Visible(groups))
  {
    PairsOfPrinted(groups);
    VisibleUnique(groups);
    UniqueIndices(Visible(groups));
  }

  /**
   A second tab leaves the first alone: when the answer to a sign-in arrives, whatever became of
   the jar, a flow that the request brought among four of its own or fewer is as it was.
   */
  lemma OtherTabSurvives(n: Names, vault: Vault, groups: seq<seq<Pair>>, jar: Jar, m: Minted, now: nat, state: string,
                         value: string)
    requires WellSent(groups) && n.Flow(state) in jar && state != m.state
    requires (n.Flow(state), value) in OursIn(n, vault, Visible(groups)) && |OursIn(n, vault, Visible(groups))| <= 4
    ensures var after := TakeAll(jar, LoginCookies(n, vault, PrintAll(groups), m), now);
            n.Flow(state) in after && after[n.Flow(state)] == jar[n.Flow(state)]
  {
    var name, cookies := n.Flow(state), LoginCookies(n, vault, PrintAll(groups), m);
    ReadOnce(groups);
    FewAreKept(n, vault, PrintAll(groups), m, (name, value));
    NamesAreDistinct(n, state, m.state);
    forall c | c in cookies ensures c.name != name {
      if c != SetCookie(n.Flow(m.state), m.value, 1800) { OnlyFlowsAreCleared(n, vault, PrintAll(groups), m, c); }
    }
    Untouched(jar, cookies, now, name);
  }
}
