/**
 A browser's cookie jar, and what the handlers' Set-Cookie headers do to it. Times are
 milliseconds.
 */
module Jars {
  import opened Options
  import opened Cookies
  import opened Flows
  import opened Handlers

  datatype Cookie = Cookie(value: string, expires: nat)

  type Jar = map<string, Cookie>

  function Live(jar: Jar, now: nat): map<string, string> {
    map k | k in jar && now < jar[k].expires :: jar[k].value
  }

  /** A browser obeying one Set-Cookie: `Max-Age=0` deletes. */
  function Take(jar: Jar, c: SetCookie, now: nat): Jar {
    if c.maxAge == 0 then jar - {c.name} else jar[c.name := Cookie(c.value, now + 1000 * c.maxAge)]
  }

  function TakeAll(jar: Jar, cs: seq<SetCookie>, now: nat): Jar
    decreases cs
  {
    if cs == [] then jar else TakeAll(Take(jar, cs[0], now), cs[1..], now)
  }

  ghost predicate PlainJar(jar: Jar) { forall k :: k in jar ==> Plain((k, jar[k].value)) }

  /** Every cookie of the jar is visible ASCII, so that the server can read what it is sent. */
  ghost predicate ReadableJar(jar: Jar) { forall k :: k in jar ==> Readable(k) && Readable(jar[k].value) }

  /** The request carries the live cookies, each once, in some order over some headers. */
  ghost predicate Carries(groups: seq<seq<Pair>>, jar: Jar, now: nat) {
    var sent := Flatten(groups);
    && (forall p :: p in sent ==> p.0 in Live(jar, now) && Live(jar, now)[p.0] == p.1)
    && (forall k :: k in Live(jar, now) ==> (k, Live(jar, now)[k]) in sent)
    && (forall i, j :: 0 <= i < j < |sent| ==> sent[i].0 != sent[j].0)
  }

  lemma {:induction false} InFlatten(groups: seq<seq<Pair>>, g: seq<Pair>, p: Pair)
    requires g in groups && p in g
    ensures p in Flatten(groups)
  {
    if g != groups[0] { InFlatten(groups[1..], g, p); }
  }

  lemma {:induction false} VisibleIsSent(groups: seq<seq<Pair>>)
    ensures forall p :: p in Visible(groups) ==> p in Flatten(groups)
  {
    if groups != [] { VisibleIsSent(groups[1..]); }
  }

  lemma GroupsPlain(groups: seq<seq<Pair>>, jar: Jar, now: nat)
    requires PlainJar(jar) && Carries(groups, jar, now)
    ensures forall g :: g in groups ==> AllPlain(g)
    ensures ReadableJar(jar) ==> forall g :: g in groups ==> ReadablePairs(g)
  {
    forall g, p | g in groups && p in g
      ensures Plain(p) && (ReadableJar(jar) ==> Readable(p.0) && Readable(p.1))
    {
      InFlatten(groups, g, p);
    }
  }

  /** Nothing is read that the jar does not hold, whatever else is in it. */
  lemma ReadFromJar(groups: seq<seq<Pair>>, jar: Jar, now: nat, name: string)
    requires PlainJar(jar) && Carries(groups, jar, now) && Read(PrintAll(groups), name).Some?
    ensures name in Live(jar, now) && Read(PrintAll(groups), name).value == Live(jar, now)[name]
  {
    GroupsPlain(groups, jar, now);
    PairsOfPrinted(groups);
    VisibleIsSent(groups);
    FindIsFirstMatch(Visible(groups), name);
  }

  /** The same of a request on its way, whatever became of the jar. */
  lemma ReadFromGroups(groups: seq<seq<Pair>>, name: string)
    requires WellSent(groups) && Read(PrintAll(groups), name).Some?
    ensures (name, Read(PrintAll(groups), name).value) in Flatten(groups)
  {
    PairsOfPrinted(groups);
    VisibleIsSent(groups);
    FindIsFirstMatch(Visible(groups), name);
  }

  /** A cookie of that name travels in a header the server can read. */
  ghost predicate Seen(groups: seq<seq<Pair>>, name: string) { exists p :: p in Visible(groups) && p.0 == name }

  lemma ReadExactly(groups: seq<seq<Pair>>, name: string)
    requires WellSent(groups)
    ensures Read(PrintAll(groups), name).Some? <==> Seen(groups, name)
  {
    PairsOfPrinted(groups);
    FindIsFirstMatch(Visible(groups), name);
  }

  /** And of a readable jar everything is. */
  lemma ReadWholeJar(groups: seq<seq<Pair>>, jar: Jar, now: nat, name: string)
    requires PlainJar(jar) && ReadableJar(jar) && Carries(groups, jar, now)
    ensures Read(PrintAll(groups), name) == if name in Live(jar, now) then Some(Live(jar, now)[name]) else None
  {
    GroupsPlain(groups, jar, now);
    PairsRoundTrip(groups);
    FindIsFirstMatch(Flatten(groups), name);
    if Read(PrintAll(groups), name).Some? { ReadFromJar(groups, jar, now, name); }
  }

  // ---- what a list of Set-Cookies leaves -----------------------------------------------

  lemma {:induction false} Untouched(jar: Jar, cs: seq<SetCookie>, now: nat, name: string)
    requires forall c :: c in cs ==> c.name != name
    ensures name in TakeAll(jar, cs, now) <==> name in jar
    ensures name in jar ==> TakeAll(jar, cs, now)[name] == jar[name]
    decreases cs
  {
    if cs != [] { Untouched(Take(jar, cs[0], now), cs[1..], now, name); }
  }

  /** What a jar holds afterwards it held before, or was told to. */
  lemma {:induction false} WhereFrom(jar: Jar, cs: seq<SetCookie>, now: nat, name: string)
    requires name in TakeAll(jar, cs, now)
    ensures var after := TakeAll(jar, cs, now);
            || (name in jar && after[name] == jar[name])
            || exists c ::
                 c in cs && c.name == name && c.maxAge > 0 && after[name] == Cookie(c.value, now + 1000 * c.maxAge)
    decreases cs
  {
    if cs != [] { WhereFrom(Take(jar, cs[0], now), cs[1..], now, name); }
  }

  /** Cookies set to values of URL-safe characters keep a jar plain and readable. */
  lemma TakeAllKeepsPlain(jar: Jar, cs: seq<SetCookie>, now: nat)
    requires forall c :: c in cs && c.maxAge > 0 ==> AllUrlSafe(c.name) && AllUrlSafe(c.value)
    ensures PlainJar(jar) ==> PlainJar(TakeAll(jar, cs, now))
    ensures ReadableJar(jar) ==> ReadableJar(TakeAll(jar, cs, now))
  {
    var after := TakeAll(jar, cs, now);
    forall k | k in after
      ensures PlainJar(jar) ==> Plain((k, after[k].value))
      ensures ReadableJar(jar) ==> Readable(k) && Readable(after[k].value)
    {
      WhereFrom(jar, cs, now, k);
    }
  }

  lemma {:induction false} ClearsRemove(jar: Jar, held: seq<Held>, now: nat)
    ensures TakeAll(jar, ClearsOf(held), now) == jar - NamesOf(held)
  {
    if held == [] {
      assert jar - {} == jar;
    } else {
      var cs := ClearsOf(held);
      assert cs[1..] == ClearsOf(held[1..]);
      ClearsRemove(jar - {held[0].0}, held[1..], now);
      assert held == [held[0]] + held[1..];
      assert jar - {held[0].0} - NamesOf(held[1..]) == jar - NamesOf(held);
    }
  }

  lemma {:induction false} TakeAllConcat(jar: Jar, a: seq<SetCookie>, b: seq<SetCookie>, now: nat)
    ensures TakeAll(jar, a + b, now) == TakeAll(TakeAll(jar, a, now), b, now)
    decreases a
  {
    if a == [] {
      assert a + b == b;
    } else {
      assert (a + b)[1..] == a[1..] + b;
      TakeAllConcat(Take(jar, a[0], now), a[1..], b, now);
    }
  }

  function NamesOf(held: seq<Held>): set<string> { set h | h in held :: h.0 }

  // ---- flow cookies stay bounded -----------------------------------------------------------

  function FlowNames(n: Names, jar: Jar, now: nat): set<string> {
    set k | k in jar && now < jar[k].expires && IsFlowName(n, k)
  }

  /** Flow cookies that travel in headers the server cannot read. */
  function Hidden(n: Names, groups: seq<seq<Pair>>): set<string> {
    if groups == [] then {}
    else (if ReadablePairs(groups[0]) then {} else SentFlows(n, groups[0])) + Hidden(n, groups[1..])
  }

  function SentFlows(n: Names, pairs: seq<Pair>): set<string> { set p | p in pairs && IsFlowName(n, p.0) :: p.0 }

  lemma {:induction false} SentIsHiddenOrVisible(n: Names, groups: seq<seq<Pair>>)
    ensures SentFlows(n, Flatten(groups)) == Hidden(n, groups) + SentFlows(n, Visible(groups))
  {
    if groups != [] {
      SentIsHiddenOrVisible(n, groups[1..]);
      SentConcat(n, groups[0], Flatten(groups[1..]));
      SentConcat(n, groups[0], Visible(groups[1..]));
      assert [] + Visible(groups[1..]) == Visible(groups[1..]);
    }
  }

  lemma SentConcat(n: Names, a: seq<Pair>, b: seq<Pair>)
    ensures SentFlows(n, a + b) == SentFlows(n, a) + SentFlows(n, b)
  {}

  lemma {:induction false} HeldNames(n: Names, vault: Vault, pairs: seq<Pair>)
    ensures NamesOf(HeldFlows(n, vault, pairs)) == SentFlows(n, pairs)
  {
    if pairs != [] {
      HeldNames(n, vault, pairs[1..]);
      var (name, value) := pairs[0];
      assert pairs == [pairs[0]] + pairs[1..];
      var held, rest := HeldFlows(n, vault, pairs), HeldFlows(n, vault, pairs[1..]);
      if IsFlowName(n, name) {
        assert held == [held[0]] + rest && held[0].0 == name;
        assert NamesOf(held) == {name} + NamesOf(rest);
        assert SentFlows(n, pairs) == {name} + SentFlows(n, pairs[1..]);
      } else {
        assert held == rest;
        assert SentFlows(n, pairs) == SentFlows(n, pairs[1..]);
      }
    }
  }

  lemma {:induction false} FewNames(held: seq<Held>)
    ensures |NamesOf(held)| <= |held|
  {
    if held != [] {
      FewNames(held[1..]);
      assert held == [held[0]] + held[1..];
      assert NamesOf(held) == {held[0].0} + NamesOf(held[1..]);
    }
  }

  lemma KeptOrDropped(held: seq<Held>)
    ensures NamesOf(held) == NamesOf(Kept(held)) + NamesOf(Dropped(held))
  {
    forall h | h in held || h in Kept(held) || h in Dropped(held)
      ensures h in held <==> h in Kept(held) || h in Dropped(held)
    {
      KeptOrDroppedMember(held, h);
    }
  }

  lemma LoginOnJar(n: Names, vault: Vault, jar: Jar, headers: seq<string>, m: Minted, now: nat)
    ensures TakeAll(jar, LoginCookies(n, vault, headers, m), now)
         == (jar - NamesOf(Pruned(n, vault, headers)))[n.Flow(m.state) := Cookie(m.value, now + 1000 * FLOW_TTL)]
  {
    var set' := [FlowCookie(n, m)];
    var dropped := Pruned(n, vault, headers);
    TakeAllConcat(jar, ClearsOf(dropped), set', now);
    ClearsRemove(jar, dropped, now);
    OneTaken(jar - NamesOf(dropped), set'[0], now);
  }

  lemma LoginSetsFlow(n: Names, vault: Vault, jar: Jar, headers: seq<string>, m: Minted, now: nat)
    ensures var after := TakeAll(jar, LoginCookies(n, vault, headers, m), now);
            n.Flow(m.state) in after && after[n.Flow(m.state)] == Cookie(m.value, now + 1000 * FLOW_TTL)
  {
    LoginOnJar(n, vault, jar, headers, m, now);
  }

  lemma OneTaken(jar: Jar, c: SetCookie, now: nat)
    ensures TakeAll(jar, [c], now) == Take(jar, c, now)
  {
    var cs := [c];
    assert cs[1..] == [];
  }

  lemma FlowNamesUpdated(n: Names, jar: Jar, gone: set<string>, state: string, value: string, now: nat)
    ensures FlowNames(n, (jar - gone)[n.Flow(state) := Cookie(value, now + 1000 * FLOW_TTL)], now)
         == {n.Flow(state)} + (FlowNames(n, jar, now) - gone)
  {
    NamesAreDistinct(n, state, state);
  }

  ghost predicate Unique(pairs: seq<Pair>) {
    pairs == [] || ((forall p :: p in pairs[1..] ==> p.0 != pairs[0].0) && Unique(pairs[1..]))
  }

  ghost predicate UniqueHeld(held: seq<Held>) {
    held == [] || (held[0].0 !in NamesOf(held[1..]) && UniqueHeld(held[1..]))
  }

  lemma {:induction false} UniqueFromIndices(pairs: seq<Pair>)
    requires forall i, j :: 0 <= i < j < |pairs| ==> pairs[i].0 != pairs[j].0
    ensures Unique(pairs)
  {
    if pairs != [] {
      forall p | p in pairs[1..] ensures p.0 != pairs[0].0 {
        var j :| 0 <= j < |pairs[1..]| && pairs[1..][j] == p;
        assert p == pairs[j + 1];
      }
      UniqueFromIndices(pairs[1..]);
    }
  }

  lemma {:induction false} UniqueIndices(pairs: seq<Pair>)
    requires Unique(pairs)
    ensures forall i, j :: 0 <= i < j < |pairs| ==> pairs[i].0 != pairs[j].0
  {
    if pairs != [] {
      UniqueIndices(pairs[1..]);
      forall i, j | 0 <= i < j < |pairs| ensures pairs[i].0 != pairs[j].0 {
        assert pairs[j] == pairs[1..][j - 1];
        if i > 0 { assert pairs[i] == pairs[1..][i - 1]; }
      }
    }
  }

  lemma {:induction false} UniqueTail(a: seq<Pair>, b: seq<Pair>)
    requires Unique(a + b)
    ensures Unique(b)
  {
    if a == [] {
      assert a + b == b;
    } else {
      assert (a + b)[1..] == a[1..] + b;
      UniqueTail(a[1..], b);
    }
  }

  lemma {:induction false} UniqueSwap(a: seq<Pair>, b: seq<Pair>, b': seq<Pair>)
    requires Unique(a + b) && Unique(b') && forall p :: p in b' ==> p in b
    ensures Unique(a + b')
  {
    if a == [] {
      assert a + b' == b';
    } else {
      assert (a + b)[1..] == a[1..] + b && (a + b')[1..] == a[1..] + b';
      UniqueSwap(a[1..], b, b');
    }
  }

  lemma {:induction false} VisibleUnique(groups: seq<seq<Pair>>)
    requires Unique(Flatten(groups))
    ensures Unique(Visible(groups))
  {
    if groups != [] {
      UniqueTail(groups[0], Flatten(groups[1..]));
      VisibleUnique(groups[1..]);
      VisibleIsSent(groups[1..]);
      UniqueSwap(groups[0], Flatten(groups[1..]), Visible(groups[1..]));
      assert [] + Visible(groups[1..]) == Visible(groups[1..]);
    }
  }

  lemma {:induction false} HeldUnique(n: Names, vault: Vault, pairs: seq<Pair>)
    requires Unique(pairs)
    ensures UniqueHeld(HeldFlows(n, vault, pairs))
  {
    if pairs != [] {
      HeldUnique(n, vault, pairs[1..]);
      HeldNames(n, vault, pairs[1..]);
      var rest := HeldFlows(n, vault, pairs[1..]);
      var held := HeldFlows(n, vault, pairs);
      if IsFlowName(n, pairs[0].0) {
        assert held == [held[0]] + rest && held[0].0 == pairs[0].0 && held[1..] == rest;
      } else {
        assert held == rest;
      }
    }
  }

  lemma {:induction false} UniqueOnce(held: seq<Held>, a: Held, b: Held)
    requires UniqueHeld(held) && a in held && b in held && a.0 == b.0
    ensures a == b && multiset(held)[a] == 1
  {
    var rest := held[1..];
    assert held == [held[0]] + rest;
    if a in rest && b in rest {
      UniqueOnce(rest, a, b);
      assert a.0 in NamesOf(rest);
    } else {
      assert a !in rest && b !in rest;
      assert multiset(rest)[a] == 0;
    }
  }

  lemma KeptNotDropped(held: seq<Held>)
    requires UniqueHeld(held)
    ensures NamesOf(Kept(held)) !! NamesOf(Dropped(held))
  {
    PruningIsExact(held);
    forall k, d | k in Kept(held) && d in Dropped(held) && k.0 == d.0 ensures false {
      KeptOrDroppedMember(held, k);
      KeptOrDroppedMember(held, d);
      UniqueOnce(held, k, d);
    }
  }

  /** What a browser can have sent: cookies it can hold, each name once. */
  ghost predicate WellSent(groups: seq<seq<Pair>>) {
    (forall g :: g in groups ==> AllPlain(g)) && Unique(Flatten(groups))
  }

  lemma CarriedIsWellSent(groups: seq<seq<Pair>>, jar: Jar, now: nat)
    requires PlainJar(jar) && Carries(groups, jar, now)
    ensures WellSent(groups)
  {
    GroupsPlain(groups, jar, now);
    UniqueFromIndices(Flatten(groups));
  }

  function KeptNames(n: Names, vault: Vault, groups: seq<seq<Pair>>): set<string> {
    NamesOf(Kept(HeldFlows(n, vault, Pairs(PrintAll(groups)))))
  }

  /** Of the flows the request brought, those neither pruned by its answer nor gone meanwhile. */
  function Stayed(n: Names, vault: Vault, groups: seq<seq<Pair>>, jar: Jar, now: nat): set<string> {
    (KeptNames(n, vault, groups) + Hidden(n, groups)) * FlowNames(n, jar, now)
  }

  /** Flows that reached the browser since it sent the request. */
  function Arrived(n: Names, groups: seq<seq<Pair>>, jar: Jar, now: nat): set<string> {
    FlowNames(n, jar, now) - SentFlows(n, Flatten(groups))
  }

  /** How a request's flows divide: hidden, kept, and to be dropped. */
  lemma SentDivides(n: Names, vault: Vault, groups: seq<seq<Pair>>)
    requires WellSent(groups)
    ensures var dropped := NamesOf(Pruned(n, vault, PrintAll(groups)));
            && SentFlows(n, Flatten(groups)) == Hidden(n, groups) + (KeptNames(n, vault, groups) + dropped)
            && dropped !! Hidden(n, groups) && dropped !! KeptNames(n, vault, groups)
            && KeptNames(n, vault, groups) !! Hidden(n, groups)
  {
    var held := HeldFlows(n, vault, Visible(groups));
    PairsOfPrinted(groups);
    SentIsHiddenOrVisible(n, groups);
    HeldNames(n, vault, Visible(groups));
    KeptOrDropped(held);
    VisibleUnique(groups);
    HeldUnique(n, vault, Visible(groups));
    KeptNotDropped(held);
    HiddenNotVisible(n, groups);
  }

  lemma Divided(f: set<string>, h: set<string>, k: set<string>, d: set<string>)
    requires d !! h && d !! k
    ensures f - d == (k + h) * f + (f - (h + (k + d)))
  {}

  /**
   The flow cookies after the answer to a sign-in reached the browser, whatever happened to its
   jar in the meantime: the new one, those brought that stayed, and those that arrived since.
   */
  lemma FlowsAfterLogin(n: Names, vault: Vault, groups: seq<seq<Pair>>, jar: Jar, m: Minted, now: nat)
    requires WellSent(groups)
    ensures FlowNames(n, TakeAll(jar, LoginCookies(n, vault, PrintAll(groups), m), now), now)
         == {n.Flow(m.state)} + Stayed(n, vault, groups, jar, now) + Arrived(n, groups, jar, now)
  {
    var gone := NamesOf(Pruned(n, vault, PrintAll(groups)));
    LoginOnJar(n, vault, jar, PrintAll(groups), m, now);
    FlowNamesUpdated(n, jar, gone, m.state, m.value, now);
    SentDivides(n, vault, groups);
    Divided(FlowNames(n, jar, now), Hidden(n, groups), KeptNames(n, vault, groups), gone);
    Regroup(n.Flow(m.state), Stayed(n, vault, groups, jar, now), Arrived(n, groups, jar, now));
  }

  lemma Regroup(x: string, a: set<string>, b: set<string>)
    ensures {x} + (a + b) == {x} + a + b
  {}

  lemma {:induction false} HiddenNotVisible(n: Names, groups: seq<seq<Pair>>)
    requires Unique(Flatten(groups))
    ensures Hidden(n, groups) !! SentFlows(n, Visible(groups))
  {
    if groups != [] {
      var g, rest := groups[0], Flatten(groups[1..]);
      UniqueTail(g, rest);
      HiddenNotVisible(n, groups[1..]);
      UniqueApart(g, rest);
      SentIsHiddenOrVisible(n, groups[1..]);
      SentConcat(n, g, Visible(groups[1..]));
      assert SentFlows(n, g) !! SentFlows(n, rest);
      assert [] + Visible(groups[1..]) == Visible(groups[1..]);
    }
  }

  lemma {:induction false} UniqueApart(a: seq<Pair>, b: seq<Pair>)
    requires Unique(a + b)
    ensures forall p, q :: p in a && q in b ==> p.0 != q.0
  {
    if a != [] {
      assert (a + b)[1..] == a[1..] + b;
      UniqueApart(a[1..], b);
      assert a == [a[0]] + a[1..];
      assert forall q :: q in b ==> q in (a + b)[1..];
    }
  }

  lemma FlowsAreSent(n: Names, jar: Jar, groups: seq<seq<Pair>>, now: nat)
    requires Carries(groups, jar, now)
    ensures FlowNames(n, jar, now) == SentFlows(n, Flatten(groups))
  {
    forall k | k in FlowNames(n, jar, now) ensures k in SentFlows(n, Flatten(groups)) {
      assert (k, Live(jar, now)[k]) in Flatten(groups);
    }
  }

  lemma {:induction false} NothingHidden(n: Names, groups: seq<seq<Pair>>)
    requires forall g :: g in groups ==> ReadablePairs(g)
    ensures Hidden(n, groups) == {}
  {
    if groups != [] { NothingHidden(n, groups[1..]); }
  }

  /**
   After the answer to a sign-in the browser holds at most `MAX_FLOW_COOKIES` flow cookies
   besides those in headers the server could not read and those that arrived since it asked.
   So it holds at most `MAX_FLOW_COOKIES`, whatever it held before, if its jar was readable and
   its sign-ins were started one after another.
   */
  lemma LoginBoundsFlows(n: Names, vault: Vault, groups: seq<seq<Pair>>, jar: Jar, m: Minted, now: nat)
    requires WellSent(groups)
    ensures var flows := FlowNames(n, TakeAll(jar, LoginCookies(n, vault, PrintAll(groups), m), now), now);
            && |flows| <= MAX_FLOW_COOKIES + |Hidden(n, groups)| + |Arrived(n, groups, jar, now)|
            && ((forall g :: g in groups ==> ReadablePairs(g)) && Arrived(n, groups, jar, now) == {} ==>
                |flows| <= MAX_FLOW_COOKIES)
  {
    var held := HeldFlows(n, vault, Pairs(PrintAll(groups)));
    FlowsAfterLogin(n, vault, groups, jar, m, now);
    PruningIsExact(held);
    FewNames(Kept(held));
    var flows, arrived := FlowNames(n, jar, now), Arrived(n, groups, jar, now);
    FewInAll(n.Flow(m.state), NamesOf(Kept(held)), Hidden(n, groups), flows, arrived);
    if forall g :: g in groups ==> ReadablePairs(g) { NothingHidden(n, groups); }
  }

  lemma FewInAll(x: string, k: set<string>, h: set<string>, f: set<string>, a: set<string>)
    ensures |{x} + (k + h) * f + a| <= 1 + |k| + |h| + |a|
  {
    SmallerSet((k + h) * f, k + h);
    SmallerSet({x} + (k + h) * f + a, {x} + (k + h) * f + a);
    UnionSize(k, h);
    UnionSize({x}, (k + h) * f);
    UnionSize({x} + (k + h) * f, a);
  }

  lemma UnionSize(a: set<string>, b: set<string>)
    ensures |a + b| <= |a| + |b|
  {
    assert a + b == a + (b - a);
    SmallerSet(b - a, b);
  }

  lemma SmallerSet(a: set<string>, b: set<string>)
    requires a <= b
    ensures |a| <= |b|
  {
    assert b == a + (b - a);
  }

  /**
   The exact count, for a state that is new to the browser; so the bound holds if and only if
   the flows that stayed and those that arrived leave room for one more.
   */
  lemma LoginFlowCount(n: Names, vault: Vault, groups: seq<seq<Pair>>, jar: Jar, m: Minted, now: nat)
    requires WellSent(groups) && n.Flow(m.state) !in jar
    ensures var flows := FlowNames(n, TakeAll(jar, LoginCookies(n, vault, PrintAll(groups), m), now), now);
            var stayed, arrived := Stayed(n, vault, groups, jar, now), Arrived(n, groups, jar, now);
            && |flows| == 1 + |stayed| + |arrived|
            && (|flows| <= MAX_FLOW_COOKIES <==> |stayed| + |arrived| <= MAX_FLOW_COOKIES - 1)
  {
    FlowsAfterLogin(n, vault, groups, jar, m, now);
    StayedWereSent(n, vault, groups, jar, now);
    CountApart(n.Flow(m.state), Stayed(n, vault, groups, jar, now), Arrived(n, groups, jar, now));
  }

  lemma StayedWereSent(n: Names, vault: Vault, groups: seq<seq<Pair>>, jar: Jar, now: nat)
    requires WellSent(groups)
    ensures Stayed(n, vault, groups, jar, now) <= SentFlows(n, Flatten(groups)) * FlowNames(n, jar, now)
    ensures Stayed(n, vault, groups, jar, now) !! Arrived(n, groups, jar, now)
  {
    SentDivides(n, vault, groups);
  }

  lemma CountApart(x: string, a: set<string>, b: set<string>)
    requires a !! b && x !in a && x !in b
    ensures |{x} + a + b| == 1 + |a| + |b|
  {
    assert {x} + a !! b && {x} !! a;
  }

  lemma TakenFlow(n: Names, jar: Jar, m: Minted, now: nat)
    ensures Take(jar, FlowCookie(n, m), now) == (jar - {})[n.Flow(m.state) := Cookie(m.value, now + 1000 * FLOW_TTL)]
  {
    assert jar - {} == jar;
  }

  lemma OneFlowMore(n: Names, jar: Jar, m: Minted, now: nat)
    requires n.Flow(m.state) !in jar
    ensures |FlowNames(n, Take(jar, FlowCookie(n, m), now), now)| == |FlowNames(n, jar, now)| + 1
  {
    TakenFlow(n, jar, m, now);
    FlowNamesUpdated(n, jar, {}, m.state, m.value, now);
    assert n.Flow(m.state) !in FlowNames(n, jar, now);
    OneMore(n.Flow(m.state), FlowNames(n, jar, now));
  }

  /** In a jar nobody can read, a sign-in only ever adds: the bound fails from the sixth flow on. */
  lemma UnreadableJarKeepsAll(n: Names, vault: Vault, jar: Jar, groups: seq<seq<Pair>>, m: Minted, now: nat)
    requires (forall g :: g in groups ==> !ReadablePairs(g)) && n.Flow(m.state) !in jar
    ensures |FlowNames(n, TakeAll(jar, LoginCookies(n, vault, PrintAll(groups), m), now), now)| ==
        |FlowNames(n, jar, now)| + 1
  {
    NoneReadable(groups);
    UnreadableHeadersPruneNothing(n, vault, PrintAll(groups), m);
    OneTaken(jar, FlowCookie(n, m), now);
    OneFlowMore(n, jar, m, now);
  }

  lemma OneMore(x: string, s: set<string>)
    requires x !in s
    ensures |{x} + (s - {})| == |s| + 1
  {
    assert s - {} == s && {x} !! s;
  }

  lemma {:induction false} NoneReadable(groups: seq<seq<Pair>>)
    requires forall g :: g in groups ==> !ReadablePairs(g)
    ensures forall h :: h in PrintAll(groups) ==> !Readable(h)
  {
    if groups != [] {
      PrintReadable(groups[0]);
      NoneReadable(groups[1..]);
    }
  }

  /** No callback, however it ends, leaves a browser with a flow cookie it did not have. */
  lemma CallbackAddsNoFlow(n: Names, jar: Jar, headers: seq<string>, q: CallbackQuery, open: Opening, env: Environment,
                           now: nat)
    ensures FlowNames(n, TakeAll(jar, Decide(n, headers, q, open, env).response.cookies, now), now)
         <= FlowNames(n, jar, now)
  {
    var cs := Decide(n, headers, q, open, env).response.cookies;
    CallbackCookies(n, headers, q, open, env);
    NamesAreDistinct(n, "", "");
    forall k | k in FlowNames(n, TakeAll(jar, cs, now), now) ensures k in FlowNames(n, jar, now) {
      WhereFrom(jar, cs, now, k);
    }
  }
}
