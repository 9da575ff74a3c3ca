/**
 The cookie reader and writer of `src/login/cookie.rs`, and the browser's side of the
 same two texts: the Cookie header of section 5.4 of RFC 6265 and the reading of a
 Set-Cookie header of section 5.2.
 */
module Cookies {
  import opened Options
  import opened Texts

  type Pair = (string, string)

  // ---- names ---------------------------------------------------------------

  /** The cookie names of one deployment: `__Host-` names need `Secure`. */
  datatype Names = Names(secure: bool)
  {
    function Session(): string { if secure then "__Host-session" else "session" }
    function Retry(): string { if secure then "__Host-login-retry" else "login-retry" }
    function FlowPrefix(): string { if secure then "__Host-login-flow-" else "login-flow-" }
    function Flow(state: string): string { FlowPrefix() + state }
  }

  predicate IsFlowName(n: Names, name: string) { n.FlowPrefix() <= name }

  /** No flow cookie can shadow the session or the retry marker, and states keep flows apart. */
  lemma NamesAreDistinct(n: Names, s: string, t: string)
    ensures n.Session() != n.Retry()
    ensures !IsFlowName(n, n.Session()) && !IsFlowName(n, n.Retry()) && IsFlowName(n, n.Flow(s))
    ensures n.Flow(s) == n.Flow(t) ==> s == t
    ensures n.Flow(s)[|n.FlowPrefix()|..] == s
  {
    var k := |n.FlowPrefix()|;
    assert n.Flow(s)[k..] == s && n.Flow(t)[k..] == t;
    assert n.FlowPrefix()[k - 4] == 'l' && n.FlowPrefix()[k - 5] == 'f';
    assert |n.Session()| < k;
    assert n.Retry()[k - 5] == 'r';
  }

  // ---- reading the Cookie headers -------------------------------------------

  /** What `HeaderValue::to_str` accepts: visible ASCII, space and tab. */
  predicate ReadableChar(c: char) { ' ' <= c <= '~' || c == '\t' }

  predicate Readable(s: string) { forall i :: 0 <= i < |s| ==> ReadableChar(s[i]) }

  function ParsePiece(piece: string): Option<Pair> {
    match SplitOnce(Trim(piece), '=')
    case None => None
    case Some((k, v)) => Some((Trim(k), Trim(v)))
  }

  function ParsePieces(pieces: seq<string>): seq<Pair> {
    if pieces == [] then []
    else (match ParsePiece(pieces[0]) case None => [] case Some(p) => [p]) + ParsePieces(pieces[1..])
  }

  /** Every pair in the request's cookies, in order; an unreadable header is skipped whole. */
  function Pairs(headers: seq<string>): seq<Pair> {
    if headers == [] then []
    else (if Readable(headers[0]) then ParsePieces(Split(headers[0], ';')) else []) + Pairs(headers[1..])
  }

  lemma {:induction false} SplitKeepsReadable(s: string, d: char)
    requires Readable(s)
    ensures forall piece :: piece in Split(s, d) ==> Readable(piece)
  {
    if s != "" {
      var rest := Split(s[1..], d);
      SplitKeepsReadable(s[1..], d);
      assert Readable(rest[0]) && Readable([s[0]] + rest[0]);
      assert forall piece :: piece in rest[1..] ==> piece in rest;
    }
  }

  lemma {:induction false} TrimKeepsReadable(s: string)
    requires Readable(s)
    ensures Readable(TrimStart(s)) && Readable(TrimEnd(s))
    decreases |s|
  {
    if s != "" {
      TrimKeepsReadable(s[1..]);
      TrimKeepsReadable(s[..|s| - 1]);
    }
  }

  lemma {:induction false} SplitOnceKeepsReadable(s: string, d: char)
    requires Readable(s) && SplitOnce(s, d).Some?
    ensures Readable(SplitOnce(s, d).value.0) && Readable(SplitOnce(s, d).value.1)
  {
    if s != "" && s[0] != d { SplitOnceKeepsReadable(s[1..], d); }
  }

  lemma PieceReadable(piece: string)
    requires Readable(piece) && ParsePiece(piece).Some?
    ensures Readable(ParsePiece(piece).value.0) && Readable(ParsePiece(piece).value.1)
  {
    TrimKeepsReadable(piece);
    TrimKeepsReadable(TrimStart(piece));
    SplitOnceKeepsReadable(Trim(piece), '=');
    var (k, v) := SplitOnce(Trim(piece), '=').value;
    TrimKeepsReadable(k);
    TrimKeepsReadable(TrimStart(k));
    TrimKeepsReadable(v);
    TrimKeepsReadable(TrimStart(v));
  }

  lemma {:induction false} PiecesReadable(pieces: seq<string>)
    requires forall piece :: piece in pieces ==> Readable(piece)
    ensures ReadablePairs(ParsePieces(pieces))
  {
    if pieces != [] {
      PiecesReadable(pieces[1..]);
      if ParsePiece(pieces[0]).Some? { PieceReadable(pieces[0]); }
    }
  }

  /** Whatever a request brings, what is read of it is readable. */
  lemma {:induction false} PairsAreReadable(headers: seq<string>)
    ensures ReadablePairs(Pairs(headers))
  {
    if headers != [] {
      PairsAreReadable(headers[1..]);
      if Readable(headers[0]) {
        SplitKeepsReadable(headers[0], ';');
        PiecesReadable(Split(headers[0], ';'));
      }
    }
  }

  function Find(pairs: seq<Pair>, name: string): Option<string> {
    if pairs == [] then None
    else if pairs[0].0 == name then Some(pairs[0].1)
    else Find(pairs[1..], name)
  }

  function Read(headers: seq<string>, name: string): Option<string> {
    Find(Pairs(headers), name)
  }

  // ---- the browser's Cookie header -------------------------------------------

  /** A cookie a browser can hold: what its own parser leaves of a name and a value. */
  predicate Plain(p: Pair) {
    && ';' !in p.0 && '=' !in p.0 && Trimmed(p.0)
    && ';' !in p.1 && Trimmed(p.1)
  }

  predicate AllPlain(pairs: seq<Pair>) { forall p :: p in pairs ==> Plain(p) }

  function PrintPair(p: Pair): string { p.0 + "=" + p.1 }

  function Print(pairs: seq<Pair>): string {
    if pairs == [] then ""
    else if |pairs| == 1 then PrintPair(pairs[0])
    else PrintPair(pairs[0]) + ";" + (" " + Print(pairs[1..]))
  }

  /** The same cookies spread over several Cookie headers. */
  function PrintAll(groups: seq<seq<Pair>>): seq<string> {
    if groups == [] then [] else [Print(groups[0])] + PrintAll(groups[1..])
  }

  predicate ReadablePairs(pairs: seq<Pair>) {
    forall p :: p in pairs ==> Readable(p.0) && Readable(p.1)
  }

  /** The cookies of the headers the reader can read. */
  function Visible(groups: seq<seq<Pair>>): seq<Pair> {
    if groups == [] then []
    else (if ReadablePairs(groups[0]) then groups[0] else []) + Visible(groups[1..])
  }

  function Flatten(groups: seq<seq<Pair>>): seq<Pair> {
    if groups == [] then [] else groups[0] + Flatten(groups[1..])
  }

  lemma PiecePrinted(p: Pair)
    requires Plain(p)
    ensures ';' !in PrintPair(p) && ParsePiece(PrintPair(p)) == Some(p)
  {
    var s := PrintPair(p);
    assert Trimmed(s) by {
      assert s[0] == if p.0 == "" then '=' else p.0[0];
      assert s[|s| - 1] == if p.1 == "" then '=' else p.1[|p.1| - 1];
    }
    SplitOnceAt(p.0, '=', p.1);
  }

  lemma LeadingSpace(s: string)
    ensures ParsePieces(Split(" " + s, ';')) == ParsePieces(Split(s, ';'))
  {
    var pieces := Split(s, ';');
    var spaced := Split(" " + s, ';');
    assert (" " + s)[1..] == s;
    assert spaced == [" " + pieces[0]] + pieces[1..];
    TrimSpace(pieces[0]);
  }

  lemma {:induction false} PrintParses(pairs: seq<Pair>)
    requires AllPlain(pairs)
    ensures ParsePieces(Split(Print(pairs), ';')) == pairs
  {
    if pairs == [] {
      assert ParsePiece("").None?;
    } else {
      var p, rest := pairs[0], pairs[1..];
      PiecePrinted(p);
      assert pairs == [p] + rest;
      if rest == [] {
        SplitWhole(PrintPair(p), ';');
      } else {
        SplitAt(PrintPair(p), ';', " " + Print(rest));
        LeadingSpace(Print(rest));
        PrintParses(rest);
        var pieces := Split(" " + Print(rest), ';');
        assert ([PrintPair(p)] + pieces)[1..] == pieces;
      }
    }
  }

  lemma ReadableConcat(a: string, b: string)
    ensures Readable(a + b) <==> Readable(a) && Readable(b)
  {
    var s := a + b;
    if Readable(s) {
      assert forall i :: 0 <= i < |a| ==> a[i] == s[i];
      assert forall i :: 0 <= i < |b| ==> b[i] == s[|a| + i];
    }
  }

  lemma {:induction false} PrintReadable(pairs: seq<Pair>)
    ensures Readable(Print(pairs)) <==> ReadablePairs(pairs)
  {
    if pairs != [] {
      var p, rest := pairs[0], pairs[1..];
      PrintReadable(rest);
      ReadableConcat(p.0 + "=", p.1);
      ReadableConcat(p.0, "=");
      assert Readable("=") && Readable(";") && Readable(" ");
      assert pairs == [p] + rest;
      assert ReadablePairs(pairs) <==> Readable(p.0) && Readable(p.1) && ReadablePairs(rest);
      if rest != [] {
        ReadableConcat(PrintPair(p) + ";", " " + Print(rest));
        ReadableConcat(PrintPair(p), ";");
        ReadableConcat(" ", Print(rest));
      }
    }
  }

  /**
   The reader undoes the browser's printer: whatever cookies a browser holds and however
   it spreads them over Cookie headers, the reader sees the cookies of the readable
   headers, all of them and in order.
   */
  lemma {:induction false} PairsOfPrinted(groups: seq<seq<Pair>>)
    requires forall g :: g in groups ==> AllPlain(g)
    ensures Pairs(PrintAll(groups)) == Visible(groups)
  {
    if groups != [] {
      PrintParses(groups[0]);
      PrintReadable(groups[0]);
      PairsOfPrinted(groups[1..]);
    }
  }

  lemma {:induction false} AllVisible(groups: seq<seq<Pair>>)
    requires forall g :: g in groups ==> ReadablePairs(g)
    ensures Visible(groups) == Flatten(groups)
  {
    if groups != [] { AllVisible(groups[1..]); }
  }

  /** With every header readable, that is exactly the cookies sent. */
  lemma PairsRoundTrip(groups: seq<seq<Pair>>)
    requires forall g :: g in groups ==> AllPlain(g) && ReadablePairs(g)
    ensures Pairs(PrintAll(groups)) == Flatten(groups)
  {
    PairsOfPrinted(groups);
    AllVisible(groups);
  }

  /** A name is matched whole, and the first match wins. */
  lemma {:induction false} FindIsFirstMatch(pairs: seq<Pair>, name: string)
    ensures Find(pairs, name).None? <==> forall i :: 0 <= i < |pairs| ==> pairs[i].0 != name
    ensures Find(pairs, name).Some? ==>
              exists i :: 0 <= i < |pairs| && pairs[i] == (name, Find(pairs, name).value) && forall j :: 0 <= j < i ==>
                  pairs[j].0 != name
  {
    if pairs != [] && pairs[0].0 != name {
      var rest := pairs[1..];
      FindIsFirstMatch(rest, name);
      if Find(rest, name).Some? {
        var i :| 0 <= i < |rest| && rest[i] == (name, Find(rest, name).value) && forall j :: 0 <= j < i ==>
            rest[j].0 != name;
        assert pairs[i + 1] == rest[i];
        assert forall j :: 0 < j < i + 1 ==> pairs[j] == rest[j - 1];
      } else {
        assert forall i :: 0 < i < |pairs| ==> pairs[i] == rest[i - 1];
      }
    } else if pairs != [] {
      assert pairs[0] == (name, Find(pairs, name).value);
    }
  }

  /** `Read` on a browser's headers is the first exact match among the cookies it sent. */
  lemma ReadRoundTrip(groups: seq<seq<Pair>>, name: string)
    requires forall g :: g in groups ==> AllPlain(g) && ReadablePairs(g)
    ensures Read(PrintAll(groups), name) == Find(Flatten(groups), name)
    ensures Read(PrintAll(groups), name).Some? ==> (name, Read(PrintAll(groups), name).value) in Flatten(groups)
    ensures Read(PrintAll(groups), name).None? ==> forall p :: p in Flatten(groups) ==> p.0 != name
  {
    PairsRoundTrip(groups);
    FindIsFirstMatch(Flatten(groups), name);
  }

  // ---- writing Set-Cookie, and the browser reading it -------------------------

  function Digit(d: nat): char requires d < 10 { "0123456789"[d] }

  function Decimal(n: nat): string {
    if n < 10 then [Digit(n)] else Decimal(n / 10) + [Digit(n % 10)]
  }

  predicate IsDigit(c: char) { '0' <= c <= '9' }

  function ParseDecimal(s: string): Option<nat> {
    if s == "" || !IsDigit(s[|s| - 1]) then None
    else
      var d := s[|s| - 1] as int - '0' as int;
      if |s| == 1 then Some(d)
      else match ParseDecimal(s[..|s| - 1]) case None => None case Some(n) => Some(10 * n + d)
  }

  lemma {:induction false} DecimalDigits(n: nat)
    ensures Decimal(n) != "" && forall i :: 0 <= i < |Decimal(n)| ==> IsDigit(Decimal(n)[i])
  {
    if n >= 10 { DecimalDigits(n / 10); }
  }

  lemma DigitsAreHeaderSafe(s: string)
    requires s != "" && forall i :: 0 <= i < |s| ==> IsDigit(s[i])
    ensures Readable(s) && Trimmed(s) && ';' !in s && '=' !in s
  {
    assert !IsDigit(';') && !IsDigit('=');
  }

  lemma {:induction false} DecimalParses(n: nat)
    ensures ParseDecimal(Decimal(n)) == Some(n)
  {
    if n >= 10 {
      DecimalParses(n / 10);
      var s := Decimal(n);
      assert s[..|s| - 1] == Decimal(n / 10);
    }
  }

  lemma DecimalRoundTrip(n: nat)
    ensures ParseDecimal(Decimal(n)) == Some(n)
    ensures Readable(Decimal(n)) && Trimmed(Decimal(n)) && ';' !in Decimal(n) && '=' !in Decimal(n) && Decimal(n) != ""
  {
    DecimalParses(n);
    DecimalDigits(n);
    DigitsAreHeaderSafe(Decimal(n));
  }

  /** The lifetimes of the marker, of a flow and of a session, and that of a deletion. */
  lemma LifetimesAreSpelled()
    ensures Decimal(300) == "300" && Decimal(1800) == "1800" && Decimal(28_800) == "28800" && Decimal(0) == "0"
  {
    assert Decimal(28) == "28" && Decimal(288) == "288" && Decimal(2880) == "2880";
    assert Decimal(30) == "30" && Decimal(18) == "18" && Decimal(180) == "180";
  }

  function AgeText(n: Names, maxAge: nat): string {
    " Max-Age=" + Decimal(maxAge) + (if n.secure then "; Secure" else "")
  }

  function LaxText(n: Names, maxAge: nat): string { " SameSite=Lax;" + AgeText(n, maxAge) }

  function AttributeText(n: Names, maxAge: nat): string { " Path=/;" + (" HttpOnly;" + LaxText(n, maxAge)) }

  /** The Set-Cookie text for one cookie. */
  function SetText(n: Names, name: string, value: string, maxAge: nat): string {
    PrintPair((name, value)) + [';'] + AttributeText(n, maxAge)
  }

  /** What a browser makes of a Set-Cookie text: the cookie, then its attributes in order. */
  datatype Received = Malformed | Received(cookie: Pair, attributes: seq<Pair>)

  function ParseAttributes(pieces: seq<string>): seq<Pair> {
    if pieces == [] then []
    else
      var piece := Trim(pieces[0]);
      var first := match SplitOnce(piece, '=') case None => (piece, "") case Some((k, v)) => (Trim(k), Trim(v));
      [first] + ParseAttributes(pieces[1..])
  }

  function Receive(text: string): Received {
    var pieces := Split(text, ';');
    match ParsePiece(pieces[0])
    case None => Malformed
    case Some(p) => Received(p, ParseAttributes(pieces[1..]))
  }

  function SetAttributes(n: Names, maxAge: nat): seq<Pair> {
    [("Path", "/"), ("HttpOnly", ""), ("SameSite", "Lax"), ("Max-Age", Decimal(maxAge))]
    + (if n.secure then [("Secure", "")] else [])
  }

  /** One attribute, after its semicolon. */
  lemma OnePiece(name: string, value: string)
    requires ';' !in name && '=' !in name && Trimmed(name) && name != ""
    requires ';' !in value && Trimmed(value) && value != ""
    ensures var piece := " " + name + "=" + value;
            ';' !in piece && ParseAttributes([piece]) == [(name, value)]
  {
    var body := name + ['='] + value;
    assert " " + name + "=" + value == " " + body;
    TrimSpace(body);
    assert body[0] == name[0] && body[|body| - 1] == value[|value| - 1];
    SplitOnceAt(name, '=', value);
    assert [" " + body][1..] == [];
  }

  lemma AgePiece(maxAge: nat)
    ensures var piece := " Max-Age=" + Decimal(maxAge);
            ';' !in piece && ParseAttributes([piece]) == [("Max-Age", Decimal(maxAge))]
  {
    DecimalRoundTrip(maxAge);
    OnePiece("Max-Age", Decimal(maxAge));
    assert " " + "Max-Age" + "=" == " Max-Age=";
  }

  lemma SecurePiece()
    ensures Split(" Secure", ';') == [" Secure"] && ParseAttributes([" Secure"]) == [("Secure", "")]
  {
    SplitWhole(" Secure", ';');
    assert " Secure" == " " + "Secure";
    TrimSpace("Secure");
    assert Trimmed("Secure");
    SplitOnceNone("Secure", '=');
    assert [" Secure"][1..] == [];
  }

  lemma AgeAttributes(n: Names, maxAge: nat)
    ensures ParseAttributes(Split(AgeText(n, maxAge), ';'))
         == [("Max-Age", Decimal(maxAge))] + (if n.secure then [("Secure", "")] else [])
  {
    var piece := " Max-Age=" + Decimal(maxAge);
    AgePiece(maxAge);
    if n.secure {
      assert AgeText(n, maxAge) == piece + [';'] + " Secure";
      SplitAt(piece, ';', " Secure");
      SecurePiece();
      var pieces := Split(AgeText(n, maxAge), ';');
      assert pieces == [piece] + [" Secure"];
      assert pieces[1..] == [" Secure"];
    } else {
      assert AgeText(n, maxAge) == piece;
      SplitWhole(piece, ';');
    }
  }

  lemma Attribute(name: string, value: string, rest: string)
    requires ';' !in name && '=' !in name && Trimmed(name) && name != ""
    requires ';' !in value && Trimmed(value) && value != ""
    ensures ParseAttributes(Split(" " + name + "=" + value + ";" + rest, ';')) ==
        [(name, value)] + ParseAttributes(Split(rest, ';'))
  {
    var piece := " " + name + "=" + value;
    OnePiece(name, value);
    assert piece + ";" + rest == piece + [';'] + rest;
    SplitAt(piece, ';', rest);
    assert ([piece] + Split(rest, ';'))[1..] == Split(rest, ';');
  }

  lemma Flag(name: string, rest: string)
    requires ';' !in name && '=' !in name && Trimmed(name)
    ensures ParseAttributes(Split(" " + name + ";" + rest, ';')) == [(name, "")] + ParseAttributes(Split(rest, ';'))
  {
    assert " " + name + ";" + rest == (" " + name) + [';'] + rest;
    SplitAt(" " + name, ';', rest);
    TrimSpace(name);
    SplitOnceNone(name, '=');
    assert ([" " + name] + Split(rest, ';'))[1..] == Split(rest, ';');
  }

  lemma LaxAttributes(n: Names, maxAge: nat)
    ensures ParseAttributes(Split(LaxText(n, maxAge), ';'))
         == [("SameSite", "Lax")] + ParseAttributes(Split(AgeText(n, maxAge), ';'))
  {
    assert LaxText(n, maxAge) == " " + "SameSite" + "=" + "Lax" + ";" + AgeText(n, maxAge);
    Attribute("SameSite", "Lax", AgeText(n, maxAge));
  }

  lemma HttpOnlyAttributes(n: Names, maxAge: nat)
    ensures ParseAttributes(Split(" HttpOnly;" + LaxText(n, maxAge), ';')) ==
        [("HttpOnly", "")] + ParseAttributes(Split(LaxText(n, maxAge), ';'))
  {
    assert " HttpOnly;" + LaxText(n, maxAge) == " " + "HttpOnly" + ";" + LaxText(n, maxAge);
    Flag("HttpOnly", LaxText(n, maxAge));
  }

  lemma PathAttributes(rest: string)
    ensures ParseAttributes(Split(" Path=/;" + rest, ';')) == [("Path", "/")] + ParseAttributes(Split(rest, ';'))
  {
    assert " Path=/;" + rest == " " + "Path" + "=" + "/" + ";" + rest;
    Attribute("Path", "/", rest);
  }

  lemma AllAttributes(n: Names, maxAge: nat)
    ensures ParseAttributes(Split(AttributeText(n, maxAge), ';')) == SetAttributes(n, maxAge)
  {
    PathAttributes(" HttpOnly;" + LaxText(n, maxAge));
    HttpOnlyAttributes(n, maxAge);
    LaxAttributes(n, maxAge);
    AgeAttributes(n, maxAge);
  }

  /**
   A browser reading a Set-Cookie text recovers the cookie and every attribute: hidden
   from scripts, for the whole host, `Lax`, with its lifetime, and `Secure` exactly when
   the name carries `__Host-`. It never has a `Domain`.
   */
  lemma SetRoundTrip(n: Names, name: string, value: string, maxAge: nat)
    requires Plain((name, value))
    ensures Receive(SetText(n, name, value, maxAge)) == Received((name, value), SetAttributes(n, maxAge))
    ensures ParseDecimal(Decimal(maxAge)) == Some(maxAge)
  {
    PiecePrinted((name, value));
    var cookie := PrintPair((name, value));
    SplitAt(cookie, ';', AttributeText(n, maxAge));
    var pieces := Split(SetText(n, name, value, maxAge), ';');
    assert pieces[1..] == Split(AttributeText(n, maxAge), ';');
    AllAttributes(n, maxAge);
    DecimalRoundTrip(maxAge);
  }

  /** What a browser keeps of a `__Host-` cookie: nothing, unless it is `Secure` and for the whole host alone. */
  predicate HostCookieAllowed(r: Received) {
    r.Received? && ("__Host-" <= r.cookie.0 ==>
      && ("Secure", "") in r.attributes && ("Path", "/") in r.attributes
      && forall a :: a in r.attributes ==> a.0 != "Domain")
  }

  ghost predicate OwnName(n: Names, name: string) {
    name == n.Session() || name == n.Retry() || exists state :: name == n.Flow(state)
  }

  lemma HostPrefixIsForSecure(n: Names, name: string)
    requires OwnName(n, name)
    ensures "__Host-" <= name <==> n.secure
  {
    if !n.secure {
      assert name[0] != "__Host-"[0];
    } else if name == n.Session() {
      HostPrefixed("session");
    } else if name == n.Retry() {
      HostPrefixed("login-retry");
    } else {
      var state :| name == n.Flow(state);
      FlowIsPrefixed(n, state);
    }
  }

  lemma FlowIsPrefixed(n: Names, state: string)
    requires n.secure
    ensures "__Host-" <= n.Flow(state)
  {
    HostPrefixed("login-flow-" + state);
    assert "__Host-" + ("login-flow-" + state) == "__Host-login-flow-" + state;
  }

  lemma HostPrefixed(rest: string)
    ensures "__Host-" <= "__Host-" + rest
  {}

  /**
   The prefix is used just where it is honoured: a deployment's own cookies carry `__Host-` and
   `Secure` both or neither, and a browser keeps them, hidden from scripts.
   */
  lemma HostNamesAreHonoured(n: Names, name: string, value: string, maxAge: nat)
    requires OwnName(n, name) && Plain((name, value))
    ensures var r := Receive(SetText(n, name, value, maxAge));
            && HostCookieAllowed(r) && r.cookie == (name, value) && ("__Host-" <= name <==> n.secure)
            && r.attributes == [("Path", "/"), ("HttpOnly", ""), ("SameSite", "Lax"), ("Max-Age", Decimal(maxAge))]
                               + (if n.secure then [("Secure", "")] else [])
  {
    SetRoundTrip(n, name, value, maxAge);
    HostPrefixIsForSecure(n, name);
    var all := SetAttributes(n, maxAge);
    assert all[0] == ("Path", "/") && (n.secure ==> all[4] == ("Secure", ""));
    assert forall i :: 0 <= i < |all| ==> all[i].0 != "Domain";
  }

  /** So `HeaderValue::from_str` never refuses a cookie made of readable text. */
  lemma SetTextIsAHeaderValue(n: Names, name: string, value: string, maxAge: nat)
    requires Readable(name) && Readable(value)
    ensures Readable(SetText(n, name, value, maxAge))
  {
    DecimalRoundTrip(maxAge);
    assert Readable("=") && Readable(";") && Readable(" Max-Age=") && Readable("; Secure");
    assert Readable(" Path=/;") && Readable(" HttpOnly;") && Readable(" SameSite=Lax;");
    ReadableConcat(" Max-Age=", Decimal(maxAge));
    ReadableConcat(" SameSite=Lax;", AgeText(n, maxAge));
    ReadableConcat(" HttpOnly;", LaxText(n, maxAge));
    ReadableConcat(" Path=/;", " HttpOnly;" + LaxText(n, maxAge));
    ReadableConcat(name + "=", value);
    ReadableConcat(PrintPair((name, value)) + [';'], AttributeText(n, maxAge));
  }
}
