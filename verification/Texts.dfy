/** Splitting and trimming of text, as the Rust string methods of those names do it. */
module Texts {
  import opened Options

  type Byte = b: int | 0 <= b < 256
  type Bytes = seq<Byte>

  /** Every piece between separators; a text without one is a single piece. */
  function Split<T(==)>(s: seq<T>, d: T): (pieces: seq<seq<T>>)
    ensures pieces != []
  {
    if s == [] then [[]]
    else
      var rest := Split(s[1..], d);
      if s[0] == d then [[]] + rest else [[s[0]] + rest[0]] + rest[1..]
  }

  /** The text before and after the first separator. */
  function SplitOnce<T(==)>(s: seq<T>, d: T): Option<(seq<T>, seq<T>)> {
    if s == [] then None
    else if s[0] == d then Some(([], s[1..]))
    else
      match SplitOnce(s[1..], d)
      case None => None
      case Some((a, b)) => Some(([s[0]] + a, b))
  }

  lemma {:induction false} SplitAt<T>(a: seq<T>, d: T, b: seq<T>)
    requires d !in a
    ensures Split(a + [d] + b, d) == [a] + Split(b, d)
  {
    var s := a + [d] + b;
    if a == [] {
      assert s[1..] == b;
    } else {
      SplitAt(a[1..], d, b);
      assert s[1..] == a[1..] + [d] + b;
      assert [a[0]] + a[1..] == a;
    }
  }

  lemma {:induction false} SplitWhole<T>(a: seq<T>, d: T)
    requires d !in a
    ensures Split(a, d) == [a]
  {
    if a != [] {
      SplitWhole(a[1..], d);
      assert [a[0]] + a[1..] == a;
    }
  }

  lemma {:induction false} SplitOnceAt<T>(a: seq<T>, d: T, b: seq<T>)
    requires d !in a
    ensures SplitOnce(a + [d] + b, d) == Some((a, b))
  {
    var s := a + [d] + b;
    if a == [] {
      assert s[1..] == b;
    } else {
      SplitOnceAt(a[1..], d, b);
      assert s[1..] == a[1..] + [d] + b;
      assert [a[0]] + a[1..] == a;
    }
  }

  lemma {:induction false} SplitOnceNone<T>(s: seq<T>, d: T)
    requires d !in s
    ensures SplitOnce(s, d) == None
  {
    if s != [] { SplitOnceNone(s[1..], d); }
  }

  /** The white space that text limited to visible ASCII and tab can contain. */
  predicate IsSpace(c: char) { c == ' ' || c == '\t' }

  function TrimStart(s: string): string {
    if s != "" && IsSpace(s[0]) then TrimStart(s[1..]) else s
  }

  function TrimEnd(s: string): string {
    if s != "" && IsSpace(s[|s| - 1]) then TrimEnd(s[..|s| - 1]) else s
  }

  function Trim(s: string): string { TrimEnd(TrimStart(s)) }

  predicate Trimmed(s: string) {
    s == "" || (!IsSpace(s[0]) && !IsSpace(s[|s| - 1]))
  }

  lemma TrimSpace(s: string)
    ensures Trim(" " + s) == Trim(s)
  {
    assert (" " + s)[1..] == s;
  }
}
