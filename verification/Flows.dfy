/**
 In-progress sign-ins, after `src/login/flow.rs`: which states and return paths are
 accepted, when a sealed flow opens, and the query with which a failed sign-in starts
 the same one again.

 The cipher is ideal: a value opens for a state exactly if this process sealed it for
 that state. `Vault` is the record of what it sealed.
 */
module Flows {
  import opened Clocks
  import opened Options
  import opened Texts
  import opened Forms

  /** Seconds a sign-in may sit half-finished. */
  const FLOW_TTL: nat := 1800

  /** Longest return path honoured, in bytes. */
  const MAX_RETURN_TO: nat := 256

  // ---- states --------------------------------------------------------------

  predicate UrlSafe(c: char) {
    '0' <= c <= '9' || 'A' <= c <= 'Z' || 'a' <= c <= 'z' || c == '-' || c == '_'
  }

  predicate AllUrlSafe(s: string) { forall i :: 0 <= i < |s| ==> UrlSafe(s[i]) }

  /** Lengths are in bytes, which for a text of these characters is its length. */
  predicate ValidState(state: string) { 16 <= |state| <= 64 && AllUrlSafe(state) }

  /** The code points of the digits of base64url (section 5 of RFC 4648), as ranges. */
  const DIGITS: seq<(int, int)> := [(0x2D, 0x2D), (0x30, 0x39), (0x41, 0x5A), (0x5F, 0x5F), (0x61, 0x7A)]

  predicate IsBase64Digit(c: char) { exists i :: 0 <= i < |DIGITS| && DIGITS[i].0 <= c as int <= DIGITS[i].1 }

  lemma DigitIsUrlSafe(c: char)
    ensures UrlSafe(c) <==> IsBase64Digit(c)
  {
    var x := c as int;
    if UrlSafe(c) {
      var i := if x <= 0x2D then 0 else if x <= 0x39 then 1 else if x <= 0x5A then 2 else if x <= 0x5F then 3 else 4;
      assert DIGITS[i].0 <= x <= DIGITS[i].1;
    }
  }

  /** A state names a flow cookie exactly if it is 16 to 64 such digits. */
  lemma ValidStateIsExact(state: string)
    ensures ValidState(state) <==> 16 <= |state| <= 64 && forall c :: c in state ==> IsBase64Digit(c)
  {
    forall c | c in state ensures UrlSafe(c) <==> IsBase64Digit(c) { DigitIsUrlSafe(c); }
    assert (forall c :: c in state ==> UrlSafe(c)) <==> AllUrlSafe(state);
  }

  // ---- return paths ----------------------------------------------------------

  predicate IsControl(c: char) { c < ' ' || '\U{7F}' <= c < '\U{A0}' }

  predicate IsWhitespace(c: char) {
    || '\t' <= c <= '\r' || c == ' ' || c == '\U{85}' || c == '\U{A0}' || c == '\U{1680}'
    || '\U{2000}' <= c <= '\U{200A}' || c == '\U{2028}' || c == '\U{2029}'
    || c == '\U{202F}' || c == '\U{205F}' || c == '\U{3000}'
  }

  predicate Acceptable(p: string) {
    && |Utf8(p)| <= MAX_RETURN_TO
    && "/" <= p && !("//" <= p)
    && '\\' !in p && '"' !in p
    && forall i :: 0 <= i < |p| ==> !IsControl(p[i]) && !IsWhitespace(p[i])
  }

  function SafeReturnTo(raw: Option<string>): string {
    match raw
    case Some(p) => if Acceptable(p) then p else "/"
    case None => "/"
  }

  lemma SafeReturnToIsFixed(raw: Option<string>)
    ensures Acceptable(SafeReturnTo(raw))
    ensures SafeReturnTo(Some(SafeReturnTo(raw))) == SafeReturnTo(raw)
    ensures raw.Some? && Acceptable(raw.value) ==> SafeReturnTo(raw) == raw.value
  {
    assert Utf8("/") == EncodeChar('/') + Utf8("");
  }

  /**
   The code points a return path must not contain, as ranges: the controls, the white space of
   Unicode, the quote and the backslash.
   */
  const REFUSED: seq<(int, int)> := [
    (0x00, 0x20), (0x22, 0x22), (0x5C, 0x5C), (0x7F, 0xA0), (0x1680, 0x1680), (0x2000, 0x200A), (0x2028, 0x2029),
    (0x202F, 0x202F), (0x205F, 0x205F), (0x3000, 0x3000)]

  predicate IsRefused(c: char) { exists i :: 0 <= i < |REFUSED| && REFUSED[i].0 <= c as int <= REFUSED[i].1 }

  /** One slash first, and not two. */
  predicate RootedOnce(p: string) { p != "" && p[0] == '/' && (|p| == 1 || p[1] != '/') }

  lemma RefusedChars(c: char)
    ensures IsRefused(c) <==> IsControl(c) || IsWhitespace(c) || c == '"' || c == '\\'
  {
    var x := c as int;
    if IsControl(c) || IsWhitespace(c) || c == '"' || c == '\\' {
      var i :=
        if x <= 0x20 then 0 else if x <= 0x22 then 1 else if x <= 0x5C then 2 else if x <= 0xA0 then 3
        else if x <= 0x1680 then 4 else if x <= 0x200A then 5 else if x <= 0x2029 then 6 else if x <= 0x202F then 7
        else if x <= 0x205F then 8 else 9;
      assert REFUSED[i].0 <= x <= REFUSED[i].1;
    }
  }

  /** At most 256 bytes, of which the first is a slash and the second is not, and nothing refused. */
  predicate Honoured(p: string) {
    ByteLength(p) <= 256 && RootedOnce(p) && forall c :: c in p ==> !IsRefused(c)
  }

  /** Which paths are kept, of all texts: those. Everything else becomes `/`. */
  lemma ReturnToIsExact(p: string)
    ensures SafeReturnTo(Some(p)) == if Honoured(p) then p else "/"
    ensures SafeReturnTo(Some(p)) == p <==> Honoured(p)
    ensures SafeReturnTo(None) == "/"
  {
    Utf8Length(p);
    SafeReturnToIsFixed(Some(p));
    forall c | c in p
      ensures IsRefused(c) <==> IsControl(c) || IsWhitespace(c) || c == '"' || c == '\\'
    {
      RefusedChars(c);
    }
  }

  /** The characters of a path and a query (section 3.3 and 3.4 of RFC 3986). */
  predicate UrlChar(c: char) { UrlSafe(c) || c in "/?:@!$&'()*+,;=.~%" }

  /** So every URL path of the service is kept, with its query. */
  lemma UrlPathIsKept(p: string)
    requires RootedOnce(p) && |p| <= 256 && forall c :: c in p ==> UrlChar(c)
    ensures SafeReturnTo(Some(p)) == p
  {
    forall c | c in p ensures c <= '~' && !IsRefused(c) { RefusedChars(c); }
    AsciiLength(p);
    ReturnToIsExact(p);
  }

  /**
   And of the texts in visible ASCII just those are honoured that a browser resolves to a path on
   this origin, quotes and backslashes excepted.
   */
  lemma AsciiReturnToIsExact(p: string)
    requires forall c :: c in p ==> '!' <= c <= '~'
    ensures SafeReturnTo(Some(p)) == p <==>
              |p| <= 256 && "/" <= p && StaysOnOrigin(p) && '"' !in p && '\\' !in p
  {
    forall c | c in p ensures IsRefused(c) <==> c == '"' || c == '\\' { RefusedChars(c); }
    AsciiLength(p);
    ReturnToIsExact(p);
    forall i | 0 <= i < |p| ensures !IsControl(p[i]) { assert p[i] in p; }
    NothingToDrop(p);
  }

  /**
   What a browser resolves a `Location` against our origin to, as far as the host goes:
   the basic URL parser (section 4.4 of the WHATWG URL Standard) strips leading controls
   and spaces, drops every tab and newline, and treats `\` as `/`.
   */
  predicate StaysOnOrigin(location: string) {
    var s := DropBreaks(StripLeading(location));
    s != "" && IsSlash(s[0]) && (|s| == 1 || !IsSlash(s[1]))
  }

  predicate IsSlash(c: char) { c == '/' || c == '\\' }

  function StripLeading(s: string): string {
    if s != "" && s[0] <= ' ' then StripLeading(s[1..]) else s
  }

  function DropBreaks(s: string): string {
    if s == "" then ""
    else (if s[0] == '\t' || s[0] == '\n' || s[0] == '\r' then "" else [s[0]]) + DropBreaks(s[1..])
  }

  lemma {:induction false} NothingToDrop(s: string)
    requires forall i :: 0 <= i < |s| ==> !IsControl(s[i])
    ensures DropBreaks(s) == s
  {
    if s != "" {
      NothingToDrop(s[1..]);
      assert [s[0]] + s[1..] == s;
    }
  }

  /** Whatever `returnTo` says, the browser lands on this origin. */
  lemma ReturnToStaysOnOrigin(raw: Option<string>)
    ensures StaysOnOrigin(SafeReturnTo(raw))
  {
    var p := SafeReturnTo(raw);
    SafeReturnToIsFixed(raw);
    assert p[0] == '/';
    assert StripLeading(p) == p;
    NothingToDrop(p);
  }

  // ---- sealing -----------------------------------------------------------------

  datatype Flow = Flow(verifier: string, nonce: string, returnTo: string, stepUp: bool)

  /** What a value seals: the flow, the state it is bound to, and when, in whole seconds. */
  datatype Sealed = Sealed(state: string, flow: Flow, issued: nat)

  type Vault = map<string, Sealed>

  function OpenRaw(vault: Vault, state: string, value: string): Option<(Flow, nat)> {
    if value in vault && vault[value].state == state then Some((vault[value].flow, vault[value].issued)) else None
  }

  function Open(vault: Vault, state: string, value: string, now: nat): Option<Flow> {
    match OpenRaw(vault, state, value)
    case None => None
    case Some((flow, issued)) => if SaturatingSub(now, issued) < FLOW_TTL then Some(flow) else None
  }

  /** Used to prune: a flow too old to open still has its issue time. */
  function IssuedAt(vault: Vault, state: string, value: string): Option<nat> {
    match OpenRaw(vault, state, value) case None => None case Some((_, issued)) => Some(issued)
  }

  /**
   A flow opens for its own state, whole, and for no other; and although its age is
   counted in whole seconds, one that opens is less than `FLOW_TTL` old to the
   millisecond, and one that is a second short of it still opens. Its issue time can be read
   at any age, for its own state only.
   */
  lemma SealedFlowOpens(vault: Vault, value: string, state: string, other: string, flow: Flow, sealedMs: nat,
                        nowMs: nat)
    requires sealedMs <= nowMs
    ensures var v := vault[value := Sealed(state, flow, sealedMs / 1000)];
            && (Open(v, state, value, nowMs / 1000).Some? ==>
                Open(v, state, value, nowMs / 1000) == Some(flow) && nowMs - sealedMs < FLOW_TTL * 1000)
            && (nowMs - sealedMs <= (FLOW_TTL - 1) * 1000 ==> Open(v, state, value, nowMs / 1000) == Some(flow))
            && IssuedAt(v, state, value) == Some(sealedMs / 1000)
            && (other != state ==> Open(v, other, value, nowMs / 1000) == None && IssuedAt(v, other, value) == None)
  {}

  // ---- starting a sign-in, and starting it again ----------------------------------

  datatype LoginQuery = LoginQuery(returnTo: Option<string>, stepUp: Option<string>)

  function StartedFlow(q: LoginQuery, verifier: string, nonce: string): Flow {
    Flow(verifier, nonce, SafeReturnTo(q.returnTo), q.stepUp == Some("1"))
  }

  /** The names of the two fields, and the step-up mark, in bytes. */
  const RETURN_TO: Bytes := [0x72, 0x65, 0x74, 0x75, 0x72, 0x6E, 0x54, 0x6F]
  const STEP_UP: Bytes := [0x73, 0x74, 0x65, 0x70, 0x55, 0x70]
  const ONE: Bytes := [0x31]

  lemma ReturnToSpelled(name: string)
    requires name == "returnTo"
    ensures Utf8(name) == RETURN_TO
  {
    AsciiEncodes(name, RETURN_TO);
  }

  lemma StepUpSpelled(name: string)
    requires name == "stepUp"
    ensures Utf8(name) == STEP_UP
  {
    AsciiEncodes(name, STEP_UP);
  }

  lemma OneSpelled(mark: string)
    requires mark == "1"
    ensures Utf8(mark) == ONE
  {
    AsciiEncodes(mark, ONE);
  }

  /** What a restart carries over; the secrets of the failed flow are not among it. */
  datatype Again = Again(returnTo: string, stepUp: bool)

  function AgainOf(flow: Flow): Again { Again(flow.returnTo, flow.stepUp) }

  function StartFields(returnTo: Bytes, stepUp: Bytes, again: Again): seq<Field> {
    if again.stepUp then [(returnTo, Utf8(again.returnTo)), (stepUp, ONE)] else [(returnTo, Utf8(again.returnTo))]
  }

  /** The query of the redirect that restarts a failed sign-in. */
  function RetryQuery(again: Option<Again>): Bytes {
    match again
    case None => []
    case Some(a) => Serialize(StartFields(RETURN_TO, STEP_UP, a))
  }

  /** The query is the form encoding of `returnTo` and, for a step-up, of `stepUp=1`. */
  lemma RetryQueryIsSpelled(returnTo: string, stepUp: string, mark: string, again: Again)
    requires returnTo == "returnTo" && stepUp == "stepUp" && mark == "1"
    ensures RetryQuery(Some(again))
         == Serialize(
              [(Utf8(returnTo), Utf8(again.returnTo))] + if again.stepUp then [(Utf8(stepUp), Utf8(mark))] else [])
  {
    ReturnToSpelled(returnTo);
    StepUpSpelled(stepUp);
    OneSpelled(mark);
    var path: Field := (RETURN_TO, Utf8(again.returnTo));
    assert [path] + [(STEP_UP, ONE)] == [path, (STEP_UP, ONE)] && [path] + [] == [path];
  }

  function ValuesOf(fields: seq<Field>, name: Bytes): seq<Bytes> {
    if fields == [] then []
    else (if fields[0].0 == name then [fields[0].1] else []) + ValuesOf(fields[1..], name)
  }

  function TextOf(values: seq<Bytes>): Option<string> {
    if values == [] then None else Some(FromUtf8Lossy(values[0]))
  }

  /** A field given twice makes the extractor refuse the request. */
  function ReadFields(fields: seq<Field>, returnTo: Bytes, stepUp: Bytes): Option<LoginQuery> {
    var paths, steps := ValuesOf(fields, returnTo), ValuesOf(fields, stepUp);
    if |paths| > 1 || |steps| > 1 then None else Some(LoginQuery(TextOf(paths), TextOf(steps)))
  }

  /** The query of `/auth/login`. */
  function ReadLoginQuery(query: Bytes): Option<LoginQuery> {
    ReadFields(Parse(query), RETURN_TO, STEP_UP)
  }

  lemma ValuesOfTwo(a: Field, b: Field)
    requires a.0 != b.0
    ensures ValuesOf([a], a.0) == [a.1] && ValuesOf([a], b.0) == []
    ensures ValuesOf([a, b], a.0) == [a.1] && ValuesOf([a, b], b.0) == [b.1]
  {
    var one, two := [a], [a, b];
    assert one[1..] == [] && two[1..] == [b];
    var last := [b];
    assert last[1..] == [];
  }

  lemma StartFieldsReadBack(returnTo: Bytes, stepUp: Bytes, again: Again)
    requires returnTo != stepUp
    ensures ReadFields(StartFields(returnTo, stepUp, again), returnTo, stepUp)
         == Some(LoginQuery(Some(again.returnTo), if again.stepUp then Some("1") else None))
  {
    ValuesOfTwo((returnTo, Utf8(again.returnTo)), (stepUp, ONE));
    Utf8RoundTrip(again.returnTo);
    Utf8RoundTrip("1");
    OneSpelled("1");
  }

  lemma RetryQueryReadsBack(again: Again)
    ensures ReadLoginQuery(RetryQuery(Some(again)))
         == Some(LoginQuery(Some(again.returnTo), if again.stepUp then Some("1") else None))
  {
    assert RETURN_TO[0] != STEP_UP[0];
    FormRoundTrip(StartFields(RETURN_TO, STEP_UP, again));
    StartFieldsReadBack(RETURN_TO, STEP_UP, again);
  }

  /** The restart's query, read back, starts a sign-in like `flow` but for its secrets. */
  ghost predicate Resumes(again: Option<Again>, flow: Flow) {
    forall q, verifier, nonce :: Some(q) == ReadLoginQuery(RetryQuery(again)) ==>
      StartedFlow(q, verifier, nonce) == flow.(verifier := verifier, nonce := nonce)
  }

  ghost predicate IsRead(again: Option<Again>) { ReadLoginQuery(RetryQuery(again)).Some? }

  /**
   A retry keeps its meaning: a restart of a flow whose return path is acceptable is read
   back, lands on the same path, and is a step-up exactly if that one was.
   */
  lemma AgainKeepsMeaning(flow: Flow)
    requires Acceptable(flow.returnTo)
    ensures IsRead(Some(AgainOf(flow))) && Resumes(Some(AgainOf(flow)), flow)
  {
    RetryQueryReadsBack(AgainOf(flow));
  }

  /** As every flow is started with an acceptable path, that holds of every flow there is. */
  lemma RetryKeepsMeaning(q: LoginQuery, verifier: string, nonce: string)
    ensures var flow := StartedFlow(q, verifier, nonce);
            IsRead(Some(AgainOf(flow))) && Resumes(Some(AgainOf(flow)), flow)
  {
    SafeReturnToIsFixed(q.returnTo);
    AgainKeepsMeaning(StartedFlow(q, verifier, nonce));
  }
}
