/**
 How many of a sequence of spaced instants can fall into one window of time, and what became
 of fetches that may complete or be abandoned.
 */
module Rates {
  /** The instants of `ts` that fall into the closed window from `lo` to `hi`. */
  function CountIn(ts: seq<nat>, lo: nat, hi: nat): nat {
    if ts == [] then 0
    else CountIn(ts[..|ts| - 1], lo, hi) + (if lo <= ts[|ts| - 1] <= hi then 1 else 0)
  }

  lemma CountNext(ts: seq<nat>, t: nat, lo: nat, hi: nat)
    ensures CountIn(ts + [t], lo, hi) == CountIn(ts, lo, hi) + (if lo <= t <= hi then 1 else 0)
  {
    assert (ts + [t])[..|ts|] == ts;
  }

  function Within(ts: seq<nat>, lo: nat, hi: nat): set<nat> { set i: nat | i < |ts| && lo <= ts[i] <= hi }

  lemma {:induction false} CountIsOfIndices(ts: seq<nat>, lo: nat, hi: nat)
    ensures CountIn(ts, lo, hi) == |Within(ts, lo, hi)|
  {
    if ts != [] {
      var rest, last := ts[..|ts| - 1], |ts| - 1;
      CountIsOfIndices(rest, lo, hi);
      assert Within(ts, lo, hi) == Within(rest, lo, hi) + if lo <= ts[last] <= hi then {last} else {};
    }
  }

  /** Consecutive instants are at least `gap` apart, but for the gap after `except`. */
  ghost predicate Spaced(ts: seq<nat>, gap: nat, except: int) {
    forall i :: 0 <= i < |ts| - 1 ==> ts[i] + (if i == except then 0 else gap) <= ts[i + 1]
  }

  function Slack(n: nat, except: int): nat { if 0 <= except < n - 1 then 1 else 0 }

  lemma {:induction false} NothingBefore(ts: seq<nat>, gap: nat, except: int, lo: nat, hi: nat)
    requires Spaced(ts, gap, except) && ts != [] && ts[|ts| - 1] < lo
    ensures CountIn(ts, lo, hi) == 0
  {
    if |ts| > 1 {
      var rest := ts[..|ts| - 1];
      assert rest[|rest| - 1] <= ts[|ts| - 1];
      NothingBefore(rest, gap, except, lo, hi);
    }
  }

  /** One instant more, a gap after the others. */
  lemma OneGapMore(lo: nat, gap: nat, extra: int, before: nat, last: nat, hi: nat)
    requires extra > 0 ==> lo + gap * extra <= before
    requires lo <= before && before + gap <= last <= hi
    ensures extra + 1 > 0 ==> lo + gap * (extra + 1) <= last
  {
    if extra > 0 {
      Distribute(gap, extra);
    } else if extra == 0 {
      assert gap * 1 == gap;
    }
  }

  lemma Distribute(gap: nat, extra: nat)
    ensures gap * (extra + 1) == gap * extra + gap
  {}

  /** How many instants there are in the window beyond the first, and beyond the short gap. */
  function Extra(ts: seq<nat>, except: int, lo: nat, hi: nat): int { CountIn(ts, lo, hi) - 1 - Slack(|ts|, except) }

  ghost predicate Stretches(ts: seq<nat>, gap: nat, except: int, lo: nat, hi: nat)
    requires ts != []
  {
    var extra := Extra(ts, except, lo, hi);
    extra > 0 ==> lo + gap * extra <= ts[|ts| - 1] && lo + gap * extra <= hi
  }

  /** The last instant carries the stretch on. */
  lemma StretchNext(rest: seq<nat>, last: nat, gap: nat, except: int, lo: nat, hi: nat)
    requires rest != [] && Stretches(rest, gap, except, lo, hi) && Spaced(rest + [last], gap, except)
    requires lo <= rest[|rest| - 1]
    ensures Stretches(rest + [last], gap, except, lo, hi)
  {
    var ts, before := rest + [last], rest[|rest| - 1];
    assert ts[|rest| - 1] == before && ts[|rest|] == last;
    assert before + (if |rest| - 1 == except then 0 else gap) <= last;
    CountNext(rest, last, lo, hi);
    var extra, extra' := Extra(rest, except, lo, hi), Extra(ts, except, lo, hi);
    if last <= hi && |rest| - 1 != except {
      assert extra' == extra + 1;
      OneGapMore(lo, gap, extra, before, last, hi);
    } else {
      assert extra' <= extra;
      if extra' > 0 { Grows(gap, extra', extra - extra'); }
    }
  }

  lemma Grows(gap: nat, few: nat, more: nat)
    ensures gap * few <= gap * (few + more)
  {
    Product(gap, few, more);
  }

  lemma {:induction false} CountSpan(ts: seq<nat>, gap: nat, except: int, lo: nat, hi: nat)
    requires Spaced(ts, gap, except) && ts != []
    ensures Stretches(ts, gap, except, lo, hi)
  {
    var last, rest := ts[|ts| - 1], ts[..|ts| - 1];
    assert ts == rest + [last];
    CountNext(rest, last, lo, hi);
    if |ts| > 1 {
      CountSpan(rest, gap, except, lo, hi);
      if rest[|rest| - 1] < lo {
        NothingBefore(rest, gap, except, lo, hi);
      } else {
        StretchNext(rest, last, gap, except, lo, hi);
      }
    }
  }

  lemma Product(a: nat, b: nat, c: nat)
    ensures a * (b + c) == a * b + a * c && a * c >= 0
  {}

  lemma Quotient(gap: nat, n: nat, span: nat)
    requires gap > 0 && gap * n <= span
    ensures n <= span / gap
  {
    var q := span / gap;
    assert span < gap * q + gap;
    if n > q { Product(gap, q + 1, n - q - 1); }
  }

  /**
   A closed window of length `span` holds at most `1 + span / gap` instants that are all
   `gap` apart, and one more if one gap may be short.
   */
  lemma WindowBound(ts: seq<nat>, gap: nat, except: int, lo: nat, span: nat)
    requires gap > 0 && Spaced(ts, gap, except)
    ensures CountIn(ts, lo, lo + span) <= 1 + Slack(|ts|, except) + span / gap
  {
    if ts != [] {
      CountSpan(ts, gap, except, lo, lo + span);
      ExtraFits(gap, Extra(ts, except, lo, lo + span), lo, span);
    }
  }

  lemma ExtraFits(gap: nat, extra: int, lo: nat, span: nat)
    requires gap > 0 && (extra > 0 ==> lo + gap * extra <= lo + span)
    ensures extra <= span / gap
  {
    if extra > 0 { Quotient(gap, extra, span); }
  }

  // ---- what became of the fetches begun ---------------------------------------------------

  /** What became of the fetch begun last. */
  datatype Fate = Idle | Flying | Completed | Abandoned

  /**
   The starts of all fetches begun, of those completed and of those abandoned; what became of
   the last; and the one after which the next may come soon, as an index, or -1.
   */
  datatype Books = Books(begun: seq<nat>, completed: seq<nat>, abandoned: seq<nat>, fate: Fate, short: int)

  const BLANK := Books([], [], [], Idle, -1)

  function Last(ts: seq<nat>): nat requires ts != [] { ts[|ts| - 1] }

  predicate InFlight(b: Books) { b.fate.Flying? && b.begun != [] }

  function Begin(b: Books, t: nat): Books { b.(begun := b.begun + [t], fate := Flying) }

  /** A fetch ends; `cooled` says whether the next must keep its distance. */
  function Complete(b: Books, cooled: bool): Books {
    if !InFlight(b) then b
    else b.(
      completed := b.completed + [Last(b.begun)],
      fate := Completed,
      short := if cooled then b.short else |b.begun| - 1)
  }

  function Abandon(b: Books): Books {
    if !InFlight(b) then b else b.(abandoned := b.abandoned + [Last(b.begun)], fate := Abandoned)
  }

  /** Every fetch begun has completed, was abandoned, or is in flight. */
  ghost predicate Balanced(b: Books, lo: nat, hi: nat) {
    CountIn(b.begun, lo, hi)
    == CountIn(b.completed, lo, hi) + CountIn(b.abandoned, lo, hi)
       + if InFlight(b) && lo <= Last(b.begun) <= hi then 1 else 0
  }

  lemma BooksBalance(b: Books, t: nat, cooled: bool, lo: nat, hi: nat)
    requires Balanced(b, lo, hi)
    ensures !InFlight(b) ==> Balanced(Begin(b, t), lo, hi)
    ensures Balanced(Complete(b, cooled), lo, hi) && Balanced(Abandon(b), lo, hi)
  {
    CountNext(b.begun, t, lo, hi);
    if InFlight(b) {
      CountNext(b.completed, Last(b.begun), lo, hi);
      CountNext(b.abandoned, Last(b.begun), lo, hi);
    }
  }

  /** The fetches completed, and then the one in flight. */
  function Lasting(b: Books): seq<nat> { if InFlight(b) then b.completed + [Last(b.begun)] else b.completed }

  /** A window sees few of the fetches begun, apart from those abandoned. */
  lemma BegunBound(b: Books, gap: nat, except: int, lo: nat, span: nat)
    requires gap > 0 && Balanced(b, lo, lo + span) && Spaced(Lasting(b), gap, except)
    ensures CountIn(b.begun, lo, lo + span)
         <= 1 + Slack(|Lasting(b)|, except) + span / gap + CountIn(b.abandoned, lo, lo + span)
  {
    WindowBound(Lasting(b), gap, except, lo, span);
    if InFlight(b) { CountNext(b.completed, Last(b.begun), lo, lo + span); }
  }

  // ---- when the fetches begun are spaced --------------------------------------------------

  /** The fetches begun are a gap apart, but for the one that may be short. */
  ghost predicate Apart(b: Books, gap: nat) { Spaced(b.begun, gap, b.short) }

  /** The last start is where its fate says, and the short gap is after a fetch that completed. */
  ghost predicate LatestKept(b: Books, now: nat) {
    if b.begun == [] then b == BLANK
    else
      && Last(b.begun) <= now && b.short < |b.begun|
      && (b.short == |b.begun| - 1 ==> b.fate.Completed?)
      && (match b.fate
          case Idle => false
          case Flying => true
          case Completed => b.completed != [] && Last(b.completed) == Last(b.begun)
          case Abandoned => b.abandoned != [] && Last(b.abandoned) == Last(b.begun))
  }

  /** Apart from the last, the fetches abandoned are a gap before it. */
  ghost predicate AbandonedFar(b: Books, gap: nat) {
    forall x :: x in b.abandoned ==>
      b.begun != [] && (x + gap <= Last(b.begun) || (b.fate.Abandoned? && x == Last(b.begun)))
  }

  ghost predicate FarIfApart(b: Books, gap: nat) { Apart(b, gap) ==> AbandonedFar(b, gap) }

  /** A fetch begun at `t` leaves a gap after all that were abandoned. */
  ghost predicate WaitsOut(b: Books, t: nat, gap: nat) { forall x :: x in b.abandoned ==> x + gap <= t }

  lemma LatestEnds(b: Books, now: nat, cooled: bool)
    requires LatestKept(b, now) && (!cooled ==> b.short == -1)
    ensures LatestKept(Complete(b, cooled), now) && LatestKept(Abandon(b), now)
  {}

  lemma LatestBegins(b: Books, t: nat, now: nat)
    requires LatestKept(b, now) && now <= t
    ensures LatestKept(b, t) && LatestKept(Begin(b, t), t)
  {}

  /** How far the instant after `ts` must be from the last. */
  function GapAfter(ts: seq<nat>, gap: nat, except: int): nat { if |ts| - 1 == except then 0 else gap }

  lemma SpacedPrefix(ts: seq<nat>, t: nat, gap: nat, except: int)
    requires Spaced(ts + [t], gap, except)
    ensures Spaced(ts, gap, except) && (ts != [] ==> Last(ts) + GapAfter(ts, gap, except) <= t)
  {
    var all := ts + [t];
    forall i | 0 <= i < |ts| - 1 ensures ts[i] + (if i == except then 0 else gap) <= ts[i + 1] {
      assert all[i] == ts[i] && all[i + 1] == ts[i + 1];
    }
    if ts != [] { assert all[|ts| - 1] == Last(ts) && all[|ts|] == t; }
  }

  lemma SpacedGrown(ts: seq<nat>, t: nat, gap: nat, except: int)
    requires Spaced(ts, gap, except) && (ts != [] ==> Last(ts) + GapAfter(ts, gap, except) <= t)
    ensures Spaced(ts + [t], gap, except)
  {
    var all := ts + [t];
    forall i | 0 <= i < |all| - 1 ensures all[i] + (if i == except then 0 else gap) <= all[i + 1] {
      if i < |ts| - 1 { assert all[i] == ts[i] && all[i + 1] == ts[i + 1]; }
    }
  }

  lemma SpacedNext(ts: seq<nat>, t: nat, gap: nat, except: int)
    ensures Spaced(ts + [t], gap, except) <==>
              Spaced(ts, gap, except) && (ts != [] ==> Last(ts) + GapAfter(ts, gap, except) <= t)
  {
    if Spaced(ts + [t], gap, except) {
      SpacedPrefix(ts, t, gap, except);
    } else if Spaced(ts, gap, except) && ts != [] && Last(ts) + GapAfter(ts, gap, except) <= t {
      SpacedGrown(ts, t, gap, except);
    } else if ts == [] {
      SpacedGrown(ts, t, gap, except);
    }
  }

  lemma FarEnds(b: Books, now: nat, gap: nat, cooled: bool)
    requires LatestKept(b, now) && FarIfApart(b, gap) && (!cooled ==> b.short == -1)
    ensures FarIfApart(Complete(b, cooled), gap) && FarIfApart(Abandon(b), gap)
    ensures (Apart(Complete(b, cooled), gap) <==> Apart(b, gap)) && (Apart(Abandon(b), gap) <==> Apart(b, gap))
  {}

  lemma FarBegins(b: Books, t: nat, now: nat, gap: nat)
    requires LatestKept(b, now) && FarIfApart(b, gap) && now <= t
    ensures FarIfApart(Begin(b, t), gap)
  {
    SpacedNext(b.begun, t, gap, b.short);
  }

  /**
   If a fetch leaves a gap after the last one, should that have completed, then the fetches
   begun stay apart with it exactly if it leaves one after those abandoned too.
   */
  lemma BeginIsExact(b: Books, t: nat, now: nat, gap: nat)
    requires LatestKept(b, now) && FarIfApart(b, gap) && now <= t && !InFlight(b)
    requires b.fate.Completed? && b.short != |b.begun| - 1 ==> b.begun != [] && Last(b.begun) + gap <= t
    ensures Apart(Begin(b, t), gap) <==> Apart(b, gap) && WaitsOut(b, t, gap)
  {
    SpacedNext(b.begun, t, gap, b.short);
    if Apart(b, gap) && b.fate.Abandoned? { assert Last(b.abandoned) in b.abandoned; }
  }
}
