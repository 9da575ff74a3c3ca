/**
 The sign-in handlers of `src/login/handlers.rs`: what `/auth/login` and `/auth/callback`
 answer to a request, and which cookies they set.

 The provider, the key set and the random generator are parameters: whether a client is
 known, how the code exchange ends, whether the ID token's signature verifies, and which
 id is minted.
 */
module Handlers {
  import opened Options
  import opened Texts
  import opened Cookies
  import opened Flows
  import Sessions

  const RETRY_TTL: nat := 300
  const MAX_FLOW_COOKIES: nat := 5

  /** One `Set-Cookie`: `Cookies.SetText` prints it and `SetRoundTrip` reads it back. */
  datatype SetCookie = SetCookie(name: string, value: string, maxAge: nat)

  function Clear(name: string): SetCookie { SetCookie(name, "", 0) }

  datatype Status = SeeOther | BadRequest | Forbidden | BadGateway | InternalError | Unavailable

  /**
   Where an answer sends the browser. `LoginAgain` is `/auth/login` with the query that
   `Flows.RetryQuery` prints of what it carries.
   */
  datatype Location =
    | Nowhere
    | Authorize(challenge: Challenge, state: string, nonce: string, stepUp: bool)
    | Path(path: string)
    | LoginAgain(again: Option<Again>)

  /** PKCE's S256 as an ideal hash (section 4.2 of RFC 7636). */
  datatype Challenge = S256(verifier: string)

  datatype Response = Response(status: Status, location: Location, reason: string, cookies: seq<SetCookie>)

  function Text(status: Status, reason: string): Response { Response(status, Nowhere, reason, []) }

  function Redirect(location: Location): Response { Response(SeeOther, location, "", []) }

  function Plus(r: Response, c: SetCookie): Response { r.(cookies := r.cookies + [c]) }

  // ---- pruning flow cookies ------------------------------------------------------

  /** A flow cookie a browser sent, with its issue time if it opens at all. */
  type Held = (string, Option<nat>)

  function HeldFlows(n: Names, vault: Vault, pairs: seq<Pair>): seq<Held> {
    if pairs == [] then []
    else
      var (name, value) := pairs[0];
      (if IsFlowName(n, name) then
         var state := name[|n.FlowPrefix()|..];
         [(name, if ValidState(state) then IssuedAt(vault, state, value) else None)]
       else []) + HeldFlows(n, vault, pairs[1..])
  }

  /** Newer issue times first, and those that do not open last. */
  predicate NotAfter(a: Option<nat>, b: Option<nat>) { b.None? || (a.Some? && a.value >= b.value) }

  function Place(x: Held, sorted: seq<Held>): seq<Held> {
    if sorted == [] || NotAfter(x.1, sorted[0].1) then [x] + sorted else [sorted[0]] + Place(x, sorted[1..])
  }

  /** A stable sort. */
  function NewestFirst(held: seq<Held>): seq<Held> {
    if held == [] then [] else Place(held[0], NewestFirst(held[1..]))
  }

  /** How many flows the pruning keeps: the openable ones, up to one less than the limit. */
  function KeptCount(held: seq<Held>): nat {
    var openable := OpenableCount(held);
    if openable <= MAX_FLOW_COOKIES - 1 then openable else MAX_FLOW_COOKIES - 1
  }

  function OpenableCount(held: seq<Held>): nat {
    if held == [] then 0 else (if held[0].1.Some? then 1 else 0) + OpenableCount(held[1..])
  }

  function ClearsOf(held: seq<Held>): seq<SetCookie> {
    if held == [] then [] else [Clear(held[0].0)] + ClearsOf(held[1..])
  }

  function Kept(held: seq<Held>): seq<Held> {
    var s := NewestFirst(held);
    NewestFirstLength(held);
    s[..KeptCount(held)]
  }

  function Dropped(held: seq<Held>): seq<Held> {
    var s := NewestFirst(held);
    NewestFirstLength(held);
    s[KeptCount(held)..]
  }

  ghost predicate Sorted(s: seq<Held>) { forall i, j :: 0 <= i < j < |s| ==> NotAfter(s[i].1, s[j].1) }

  lemma {:induction false} PlaceHolds(x: Held, s: seq<Held>)
    ensures multiset(Place(x, s)) == multiset{x} + multiset(s)
  {
    if s == [] || NotAfter(x.1, s[0].1) {
      assert multiset([x] + s) == multiset{x} + multiset(s);
    } else {
      PlaceHolds(x, s[1..]);
      assert s == [s[0]] + s[1..];
      assert multiset(s) == multiset{s[0]} + multiset(s[1..]);
    }
  }

  lemma InPlace(x: Held, s: seq<Held>, y: Held)
    ensures y in Place(x, s) <==> y == x || y in s
  {
    PlaceHolds(x, s);
    assert y in Place(x, s) <==> y in multiset(Place(x, s));
    assert y in s <==> y in multiset(s);
  }

  lemma {:induction false} PlaceSorts(x: Held, s: seq<Held>)
    requires Sorted(s)
    ensures Sorted(Place(x, s))
  {
    if s != [] && !NotAfter(x.1, s[0].1) {
      var rest := Place(x, s[1..]);
      PlaceSorts(x, s[1..]);
      forall i | 0 <= i < |rest| ensures NotAfter(s[0].1, rest[i].1) { InPlace(x, s[1..], rest[i]); }
    }
  }

  lemma {:induction false} NewestFirstSorts(held: seq<Held>)
    ensures Sorted(NewestFirst(held)) && multiset(NewestFirst(held)) == multiset(held)
  {
    if held != [] {
      NewestFirstSorts(held[1..]);
      PlaceSorts(held[0], NewestFirst(held[1..]));
      PlaceHolds(held[0], NewestFirst(held[1..]));
      assert held == [held[0]] + held[1..];
    }
  }

  /** Those of one issue time, or those that do not open, in order. */
  function OfAge(held: seq<Held>, age: Option<nat>): seq<Held> {
    if held == [] then [] else (if held[0].1 == age then [held[0]] else []) + OfAge(held[1..], age)
  }

  lemma {:induction false} PlaceIsStable(x: Held, s: seq<Held>, age: Option<nat>)
    ensures OfAge(Place(x, s), age) == (if x.1 == age then [x] else []) + OfAge(s, age)
  {
    if s == [] || NotAfter(x.1, s[0].1) {
      assert ([x] + s)[1..] == s;
    } else {
      PlaceIsStable(x, s[1..], age);
      assert Place(x, s)[1..] == Place(x, s[1..]);
      assert x.1 != s[0].1;
    }
  }

  /** The sort is stable: flows of one age stay in the order they were sent. */
  lemma {:induction false} NewestFirstIsStable(held: seq<Held>, age: Option<nat>)
    ensures OfAge(NewestFirst(held), age) == OfAge(held, age)
  {
    if held != [] {
      NewestFirstIsStable(held[1..], age);
      PlaceIsStable(held[0], NewestFirst(held[1..]), age);
    }
  }

  lemma PlaceCount(x: Held, s: seq<Held>)
    ensures OpenableCount(Place(x, s)) == (if x.1.Some? then 1 else 0) + OpenableCount(s) && |Place(x, s)| == |s| + 1
  {
    if s == [] || NotAfter(x.1, s[0].1) {
      assert ([x] + s)[1..] == s;
    } else {
      PlaceCount(x, s[1..]);
      assert Place(x, s)[1..] == Place(x, s[1..]);
    }
  }

  lemma NewestFirstLength(held: seq<Held>)
    ensures OpenableCount(NewestFirst(held)) == OpenableCount(held) <= |held| == |NewestFirst(held)|
  {
    if held != [] {
      NewestFirstLength(held[1..]);
      PlaceCount(held[0], NewestFirst(held[1..]));
    }
  }

  /** In the sorted list exactly the first ones open. */
  lemma {:induction false} OpenablesLead(s: seq<Held>)
    requires Sorted(s)
    ensures forall i :: 0 <= i < |s| ==> (s[i].1.Some? <==> i < OpenableCount(s))
  {
    if s != [] {
      var rest := s[1..];
      OpenablesLead(rest);
      forall i | 0 <= i < |s| ensures s[i].1.Some? <==> i < OpenableCount(s) {
        if i > 0 { assert s[i] == rest[i - 1]; }
        if s[0].1.None? && rest != [] { assert rest[0] == s[1]; }
      }
    }
  }

  /** Two flows of the sorted list that both open are in order of age. */
  lemma NewerFirst(s: seq<Held>, i: nat, j: nat)
    requires Sorted(s) && i < j < |s| && s[i].1.Some? && s[j].1.Some?
    ensures s[i].1.value >= s[j].1.value
  {}

  lemma CutIsNewer(s: seq<Held>, m: nat, d: Held)
    requires Sorted(s) && m <= |s| && d in s[m..] && d.1.Some? && forall i :: 0 <= i < m ==> s[i].1.Some?
    ensures forall k :: k in s[..m] ==> k.1.Some? && k.1.value >= d.1.value
  {
    var j :| m <= j < |s| && s[j] == d;
    forall k | k in s[..m] ensures k.1.Some? && k.1.value >= d.1.value {
      var i :| 0 <= i < m && s[i] == k;
      NewerFirst(s, i, j);
    }
  }

  lemma CutSorted(s: seq<Held>, m: nat)
    requires Sorted(s) && m <= |s| && forall i :: 0 <= i < |s| ==> (s[i].1.Some? <==> i < OpenableCount(s))
    requires m == if OpenableCount(s) <= MAX_FLOW_COOKIES - 1 then OpenableCount(s) else MAX_FLOW_COOKIES - 1
    ensures forall k :: k in s[..m] ==> k.1.Some?
    ensures forall d :: d in s[m..] && d.1.Some? ==>
              m == MAX_FLOW_COOKIES - 1 && forall k :: k in s[..m] ==> k.1.value >= d.1.value
  {
    forall d | d in s[m..] && d.1.Some?
      ensures m == MAX_FLOW_COOKIES - 1 && forall k :: k in s[..m] ==> k.1.value >= d.1.value
    {
      CutIsNewer(s, m, d);
      assert exists j :: m <= j < |s| && s[j] == d;
    }
  }

  /**
   Pruning keeps at most `MAX_FLOW_COOKIES - 1` flows, all of them openable; it drops every
   flow that does not open; and it drops one that does only while keeping
   `MAX_FLOW_COOKIES - 1` that are at least as new. Nothing is lost or invented.
   */
  lemma PruningIsExact(held: seq<Held>)
    ensures |Kept(held)| <= MAX_FLOW_COOKIES - 1
    ensures multiset(Kept(held)) + multiset(Dropped(held)) == multiset(held)
    ensures forall k :: k in Kept(held) ==> k.1.Some?
    ensures forall d :: d in Dropped(held) && d.1.Some? ==>
              |Kept(held)| == MAX_FLOW_COOKIES - 1 && forall k :: k in Kept(held) ==> k.1.value >= d.1.value
  {
    var s := NewestFirst(held);
    NewestFirstSorts(held);
    NewestFirstLength(held);
    OpenablesLead(s);
    CutSorted(s, KeptCount(held));
    assert s == Kept(held) + Dropped(held);
  }

  lemma KeptOrDroppedMember(held: seq<Held>, h: Held)
    ensures h in held <==> h in Kept(held) || h in Dropped(held)
  {
    PruningIsExact(held);
    assert h in held <==> h in multiset(held);
    assert h in Kept(held) <==> h in multiset(Kept(held));
    assert h in Dropped(held) <==> h in multiset(Dropped(held));
  }

  lemma {:induction false} HeldIsReadable(n: Names, vault: Vault, pairs: seq<Pair>)
    requires ReadablePairs(pairs)
    ensures forall h :: h in HeldFlows(n, vault, pairs) ==> Readable(h.0)
  {
    if pairs != [] { HeldIsReadable(n, vault, pairs[1..]); }
  }

  // ---- which cookies can be set ------------------------------------------------------

  /** `HeaderValue::from_str` takes the text of a Set-Cookie. */
  predicate Settable(n: Names, c: SetCookie) { Readable(SetText(n, c.name, c.value, c.maxAge)) }

  predicate AllSettable(n: Names, cs: seq<SetCookie>) { forall c :: c in cs ==> Settable(n, c) }

  lemma ReadableIsSettable(n: Names, name: string, value: string, maxAge: nat)
    requires Readable(name) && Readable(value)
    ensures Settable(n, SetCookie(name, value, maxAge))
  {
    SetTextIsAHeaderValue(n, name, value, maxAge);
  }

  lemma OwnNamesAreUrlSafe(n: Names)
    ensures AllUrlSafe(n.FlowPrefix()) && AllUrlSafe(n.Session()) && AllUrlSafe(n.Retry())
  {}

  lemma UrlSafeNames(n: Names, state: string)
    requires AllUrlSafe(state)
    ensures AllUrlSafe(n.Flow(state)) && AllUrlSafe(n.Session()) && AllUrlSafe(n.Retry()) && AllUrlSafe("1")
  {
    OwnNamesAreUrlSafe(n);
    assert forall i :: |n.FlowPrefix()| <= i < |n.Flow(state)| ==> n.Flow(state)[i] == state[i - |n.FlowPrefix()|];
  }

  /** A cookie named by the service, with a value of URL-safe text, can be set. */
  lemma OwnCookieIsSettable(n: Names, state: string, value: string, maxAge: nat)
    requires AllUrlSafe(state) && AllUrlSafe(value)
    ensures Settable(n, SetCookie(n.Flow(state), value, maxAge))
    ensures Settable(n, SetCookie(n.Session(), value, maxAge)) && Settable(n, SetCookie(n.Retry(), value, maxAge))
  {
    UrlSafeNames(n, state);
    ReadableIsSettable(n, n.Flow(state), value, maxAge);
    ReadableIsSettable(n, n.Session(), value, maxAge);
    ReadableIsSettable(n, n.Retry(), value, maxAge);
  }

  lemma {:induction false} ClearsAreSettable(n: Names, held: seq<Held>)
    requires forall h :: h in held ==> Readable(h.0)
    ensures AllSettable(n, ClearsOf(held))
  {
    if held != [] {
      ReadableIsSettable(n, held[0].0, "", 0);
      ClearsAreSettable(n, held[1..]);
    }
  }

  // ---- the answers -----------------------------------------------------------------

  datatype Minted = Minted(state: string, verifier: string, nonce: string, value: string)

  function Pruned(n: Names, vault: Vault, headers: seq<string>): seq<Held> {
    Dropped(HeldFlows(n, vault, Pairs(headers)))
  }

  lemma PrunedIsReadable(n: Names, vault: Vault, headers: seq<string>)
    ensures forall h :: h in Pruned(n, vault, headers) ==> Readable(h.0)
    ensures AllSettable(n, ClearsOf(Pruned(n, vault, headers)))
  {
    var held := HeldFlows(n, vault, Pairs(headers));
    PairsAreReadable(headers);
    HeldIsReadable(n, vault, Pairs(headers));
    forall h | h in Dropped(held) ensures Readable(h.0) { KeptOrDroppedMember(held, h); }
    ClearsAreSettable(n, Dropped(held));
  }

  function FlowCookie(n: Names, m: Minted): SetCookie { SetCookie(n.Flow(m.state), m.value, FLOW_TTL) }

  function LoginCookies(n: Names, vault: Vault, headers: seq<string>, m: Minted): seq<SetCookie> {
    ClearsOf(Pruned(n, vault, headers)) + [FlowCookie(n, m)]
  }

  function ProviderRedirect(m: Minted, stepUp: bool, cookies: seq<SetCookie>): Response {
    Redirect(Authorize(S256(m.verifier), m.state, m.nonce, stepUp)).(cookies := cookies)
  }

  /** `/auth/login`; `sealed` tells whether the flow could be sealed, as `m.value`. */
  function LoginResponse(n: Names, vault: Vault, headers: seq<string>, q: LoginQuery, up: bool, sealed: bool, m: Minted)
    : Response
  {
    if !up then Text(Unavailable, "idp-unavailable")
    else if !sealed then Text(InternalError, "flow-seal")
    else if !Settable(n, FlowCookie(n, m)) then Text(InternalError, "flow-cookie")
    else ProviderRedirect(m, StartedFlow(q, m.verifier, m.nonce).stepUp, LoginCookies(n, vault, headers, m))
  }

  /**
   With minted texts that are URL-safe every cookie of the answer is a valid header value, so
   once the provider is known and the flow sealed, the sign-in does start.
   */
  lemma LoginAlwaysSets(n: Names, vault: Vault, headers: seq<string>, q: LoginQuery, m: Minted)
    requires AllUrlSafe(m.state) && AllUrlSafe(m.value)
    ensures AllSettable(n, LoginCookies(n, vault, headers, m))
    ensures LoginResponse(n, vault, headers, q, true, true, m)
         == ProviderRedirect(m, q.stepUp == Some("1"), LoginCookies(n, vault, headers, m))
  {
    PrunedIsReadable(n, vault, headers);
    OwnCookieIsSettable(n, m.state, m.value, FLOW_TTL);
  }

  datatype CallbackQuery = CallbackQuery(code: Option<string>, state: Option<string>, error: Option<string>)

  datatype IdToken = IdToken(nonce: string, identity: Sessions.Identity, authTime: Option<nat>)

  /**
   How the exchange of a code ends. With a token: whether its signature verifies, and, if
   it comes to that, whether it does after the keys were fetched again (`None` when no
   client is left to verify with).
   */
  datatype Exchange = NoEndpoint | Failed | NoIdToken | Token(token: IdToken, verifies: bool, again: Option<bool>)

  /** What the environment decides while a callback is answered. */
  datatype Environment = Environment(up: bool, exchange: Exchange, id: Option<string>, ttlSecs: nat)

  predicate VerifyIdToken(t: IdToken, nonce: string, verifies: bool, again: Option<bool>) {
    (verifies && t.nonce == nonce) || (again == Some(true) && t.nonce == nonce)
  }

  datatype Kind = Restart | Refuse | Complete | Other

  /**
   A session to store, and the one it replaces. It is withdrawn at once if its cookie cannot
   be set.
   */
  datatype Created = Created(id: string, token: IdToken, retired: Option<string>, withdrawn: bool)

  datatype Outcome = Outcome(kind: Kind, response: Response, created: Option<Created>)

  /** The flow a callback opened, with the cookie value it was sealed in. */
  type Opening = Option<(string, Flow)>

  function RetryCookie(n: Names): SetCookie { SetCookie(n.Retry(), "1", RETRY_TTL) }

  function RestartOrRefuse(n: Names, headers: seq<string>, reason: string, again: Option<Again>): Outcome {
    if Read(headers, n.Retry()).Some? then Outcome(Refuse, Text(Forbidden, reason), None)
    else Outcome(Restart, Response(SeeOther, LoginAgain(again), "", [RetryCookie(n)]), None)
  }

  function SessionCookie(n: Names, id: string, ttlSecs: nat): SetCookie { SetCookie(n.Session(), id, ttlSecs) }

  function Signed(n: Names, headers: seq<string>, flow: Flow, token: IdToken, id: string, ttlSecs: nat): Outcome {
    var c := SessionCookie(n, id, ttlSecs);
    var retired := Read(headers, n.Session());
    if !Settable(n, c) then
      Outcome(Other, Text(InternalError, "session-cookie"), Some(Created(id, token, retired, true)))
    else
      Outcome(
        Complete,
        Response(SeeOther, Path(flow.returnTo), "", [c, Clear(n.Retry())]),
        Some(Created(id, token, retired, false)))
  }

  /** With the flow open: exchange the code, verify the token, create the session. */
  function Finish(n: Names, headers: seq<string>, flow: Flow, env: Environment): Outcome {
    if !env.up then RestartOrRefuse(n, headers, "idp-unavailable", Some(AgainOf(flow)))
    else
      match env.exchange
      case NoEndpoint => Outcome(Other, Text(InternalError, "exchange-setup"), None)
      case Failed => RestartOrRefuse(n, headers, "token-exchange", Some(AgainOf(flow)))
      case NoIdToken => Outcome(Other, Text(BadGateway, "no-id-token"), None)
      case Token(token, verifies, again) =>
        if !VerifyIdToken(token, flow.nonce, verifies, again) then
          RestartOrRefuse(n, headers, "id-token-verify", Some(AgainOf(flow)))
        else if env.id.None? then Outcome(Other, Text(InternalError, "session-id"), None)
        else Signed(n, headers, flow, token, env.id.value, env.ttlSecs)
  }

  /** The value and the flow of this browser's sign-in cookie for `state`, if it opens. */
  function OpenFlow(n: Names, vault: Vault, headers: seq<string>, state: string, now: nat): Opening {
    if !ValidState(state) then None
    else
      match Read(headers, n.Flow(state))
      case None => None
      case Some(value) =>
        match Open(vault, state, value, now) case None => None case Some(flow) => Some((value, flow))
  }

  /** The provider refused, or the query lacks its code or state: nothing is looked up. */
  predicate Incomplete(q: CallbackQuery) { q.error.Some? || q.code.None? || q.state.None? }

  /** What a callback opens when it starts; what follows may take a while. */
  function OpenFor(n: Names, vault: Vault, headers: seq<string>, q: CallbackQuery, now: nat): Opening {
    if Incomplete(q) then None else OpenFlow(n, vault, headers, q.state.value, now)
  }

  /** An answer that also deletes the flow its callback names. */
  function Spend(n: Names, o: Outcome, state: string): Outcome {
    if ValidState(state) then o.(response := Plus(o.response, Clear(n.Flow(state)))) else o
  }

  /** What a callback answers, given what it opened. */
  function Decide(n: Names, headers: seq<string>, q: CallbackQuery, open: Opening, env: Environment): Outcome {
    if q.error.Some? then Outcome(Other, Text(BadRequest, "callback-error"), None)
    else if q.code.None? || q.state.None? then Outcome(Other, Text(BadRequest, "callback-params"), None)
    else
      var o := if open.None? then RestartOrRefuse(n, headers, "flow-unknown", None)
               else Finish(n, headers, open.value.1, env);
      Spend(n, o, q.state.value)
  }

  /** `/auth/callback`, all at once. */
  function CallbackOutcome(n: Names, vault: Vault, headers: seq<string>, q: CallbackQuery, env: Environment, now: nat)
    : Outcome
  {
    Decide(n, headers, q, OpenFor(n, vault, headers, q, now), env)
  }

  /** The provider is down, or its token lacks this flow's nonce or a signature that verifies. */
  predicate Unproven(flow: Flow, env: Environment) {
    || !env.up
    || env.exchange.Failed?
    || (env.exchange.Token?
        && (env.exchange.token.nonce != flow.nonce || (!env.exchange.verifies && env.exchange.again != Some(true))))
  }

  /** A sign-in that did not go through, but may if started again. */
  predicate Fails(q: CallbackQuery, open: Opening, env: Environment) {
    !Incomplete(q) && (open.None? || Unproven(open.value.1, env))
  }

  lemma UnprovenIsRestartOrRefusal(n: Names, headers: seq<string>, flow: Flow, env: Environment)
    ensures var kind, marked := Finish(n, headers, flow, env).kind, Read(headers, n.Retry()).Some?;
            && (kind.Restart? <==> Unproven(flow, env) && !marked)
            && (kind.Refuse? <==> Unproven(flow, env) && marked)
  {}

  /** Restarted or refused is exactly what a failed sign-in is, by whether the marker is read. */
  lemma FailureIsRestartOrRefusal(n: Names, headers: seq<string>, q: CallbackQuery, open: Opening, env: Environment)
    ensures var kind, marked := Decide(n, headers, q, open, env).kind, Read(headers, n.Retry()).Some?;
            && (kind.Restart? <==> Fails(q, open, env) && !marked)
            && (kind.Refuse? <==> Fails(q, open, env) && marked)
  {
    if open.Some? { UnprovenIsRestartOrRefusal(n, headers, open.value.1, env); }
  }

  /** The cookies a callback can set, besides clearing its flow. */
  predicate Expected(n: Names, o: Outcome, ttlSecs: nat, c: SetCookie) {
    || (o.kind.Restart? && c == RetryCookie(n))
    || (o.kind.Complete? && c == Clear(n.Retry()))
    || (o.kind.Complete? && o.created.Some? && c == SessionCookie(n, o.created.value.id, ttlSecs))
  }

  /** An answer sets what its kind calls for: a restart the marker, a sign-in the session. */
  ghost predicate Proper(n: Names, headers: seq<string>, o: Outcome, ttlSecs: nat) {
    && (o.kind.Complete? <==> o.created.Some? && !o.created.value.withdrawn)
    && (o.kind.Restart? ==> Read(headers, n.Retry()) == None && RetryCookie(n) in o.response.cookies)
    && (o.kind.Complete? ==>
          && Clear(n.Retry()) in o.response.cookies
          && SessionCookie(n, o.created.value.id, ttlSecs) in o.response.cookies)
  }

  ghost predicate AllExpected(n: Names, headers: seq<string>, o: Outcome, ttlSecs: nat) {
    Proper(n, headers, o, ttlSecs) && forall c :: c in o.response.cookies ==> Expected(n, o, ttlSecs, c)
  }

  lemma RestartCookies(n: Names, headers: seq<string>, reason: string, again: Option<Again>, ttlSecs: nat)
    ensures AllExpected(n, headers, RestartOrRefuse(n, headers, reason, again), ttlSecs)
  {}

  lemma SignedCookies(n: Names, headers: seq<string>, flow: Flow, token: IdToken, id: string, ttlSecs: nat)
    ensures AllExpected(n, headers, Signed(n, headers, flow, token, id, ttlSecs), ttlSecs)
  {}

  lemma FinishCookies(n: Names, headers: seq<string>, flow: Flow, env: Environment)
    ensures AllExpected(n, headers, Finish(n, headers, flow, env), env.ttlSecs)
  {
    RestartCookies(n, headers, "idp-unavailable", Some(AgainOf(flow)), env.ttlSecs);
    RestartCookies(n, headers, "token-exchange", Some(AgainOf(flow)), env.ttlSecs);
    RestartCookies(n, headers, "id-token-verify", Some(AgainOf(flow)), env.ttlSecs);
    if env.exchange.Token? && env.id.Some? {
      SignedCookies(n, headers, flow, env.exchange.token, env.id.value, env.ttlSecs);
    }
  }

  lemma SpendAdds(n: Names, headers: seq<string>, o: Outcome, state: string, ttlSecs: nat)
    requires AllExpected(n, headers, o, ttlSecs)
    ensures Proper(n, headers, Spend(n, o, state), ttlSecs)
    ensures forall c :: c in Spend(n, o, state).response.cookies ==>
              Expected(n, Spend(n, o, state), ttlSecs, c) || (ValidState(state) && c == Clear(n.Flow(state)))
  {}

  /** The one flow cookie a callback may clear: that of its own state. */
  predicate ClearsOwnFlow(n: Names, q: CallbackQuery, c: SetCookie) {
    q.state.Some? && ValidState(q.state.value) && c == Clear(n.Flow(q.state.value))
  }

  /** Which cookies every callback's answer sets, and when. */
  lemma CallbackCookies(n: Names, headers: seq<string>, q: CallbackQuery, open: Opening, env: Environment)
    ensures var o := Decide(n, headers, q, open, env);
            && Proper(n, headers, o, env.ttlSecs)
            && (forall c :: c in o.response.cookies ==> Expected(n, o, env.ttlSecs, c) || ClearsOwnFlow(n, q, c))
  {
    if !Incomplete(q) {
      if open.Some? {
        FinishCookies(n, headers, open.value.1, env);
        SpendAdds(n, headers, Finish(n, headers, open.value.1, env), q.state.value, env.ttlSecs);
      } else {
        RestartCookies(n, headers, "flow-unknown", None, env.ttlSecs);
        SpendAdds(n, headers, RestartOrRefuse(n, headers, "flow-unknown", None), q.state.value, env.ttlSecs);
      }
    }
  }

  /**
   With a URL-safe session id every cookie of the answer is a valid header value, and no
   session is withdrawn.
   */
  lemma CallbackAlwaysSets(n: Names, headers: seq<string>, q: CallbackQuery, open: Opening, env: Environment)
    requires env.id.Some? ==> AllUrlSafe(env.id.value)
    ensures var o := Decide(n, headers, q, open, env);
            AllSettable(n, o.response.cookies) && (o.created.Some? ==> !o.created.value.withdrawn)
  {
    var o := Decide(n, headers, q, open, env);
    CallbackCookies(n, headers, q, open, env);
    OwnCookieIsSettable(n, "", "1", RETRY_TTL);
    OwnCookieIsSettable(n, "", "", 0);
    if q.state.Some? && ValidState(q.state.value) { OwnCookieIsSettable(n, q.state.value, "", 0); }
    if o.created.Some? {
      CreatedFromOpenFlow(n, headers, q, open, env);
      OwnCookieIsSettable(n, "", env.id.value, env.ttlSecs);
    }
  }

  /**
   When a session is created: from a complete query with an open flow, by a provider that is up
   and gives a token with the flow's nonce, whose signature verifies with the keys at hand or
   with those fetched again, and with an id.
   */
  lemma CreatedExactly(n: Names, headers: seq<string>, q: CallbackQuery, open: Opening, env: Environment)
    ensures Decide(n, headers, q, open, env).created.Some? <==>
              && q.error.None? && q.code.Some? && q.state.Some? && open.Some? && env.up && env.id.Some?
              && env.exchange.Token? && env.exchange.token.nonce == open.value.1.nonce
              && (env.exchange.verifies || env.exchange.again == Some(true))
  {}

  /** What is created: a session of that token under that id, for the one the browser brought. */
  lemma CreatedFromOpenFlow(n: Names, headers: seq<string>, q: CallbackQuery, open: Opening, env: Environment)
    requires Decide(n, headers, q, open, env).created.Some?
    ensures q.state.Some? && q.code.Some? && !Incomplete(q) && env.exchange.Token? && env.id.Some?
    ensures var created := Decide(n, headers, q, open, env).created.value;
            && created.id == env.id.value && created.token == env.exchange.token
            && open.Some? && env.exchange.token.nonce == open.value.1.nonce
            && created.retired == Read(headers, n.Session())
            && (created.withdrawn <==> !Settable(n, SessionCookie(n, env.id.value, env.ttlSecs)))
  {}

  /** And from both, one is created: the answer leads to the flow's return path. */
  lemma OpenFlowCompletes(n: Names, headers: seq<string>, code: string, state: string, open: Opening, env: Environment)
    requires open.Some? && env.up && env.id.Some? && AllUrlSafe(env.id.value)
    requires env.exchange.Token? && env.exchange.token.nonce == open.value.1.nonce
    requires env.exchange.verifies || env.exchange.again == Some(true)
    ensures var o := Decide(n, headers, CallbackQuery(Some(code), Some(state), None), open, env);
            && o.kind.Complete? && o.response.location == Path(open.value.1.returnTo)
            && o.created == Some(Created(env.id.value, env.exchange.token, Read(headers, n.Session()), false))
  {
    OwnCookieIsSettable(n, "", env.id.value, env.ttlSecs);
  }

  // ---- headers nobody can read -------------------------------------------------------

  lemma {:induction false} NothingRead(headers: seq<string>)
    requires forall h :: h in headers ==> !Readable(h)
    ensures Pairs(headers) == []
  {
    if headers != [] { NothingRead(headers[1..]); }
  }

  /**
   A header with a character outside visible ASCII hides every cookie in it. A browser that
   sends all its cookies in such headers is restarted by every callback, marker or not,
   and starting a sign-in prunes none of its flows.
   */
  lemma UnreadableHeadersLoop(n: Names, vault: Vault, headers: seq<string>, q: CallbackQuery, env: Environment,
                              now: nat)
    requires (forall h :: h in headers ==> !Readable(h)) && !Incomplete(q)
    ensures var o := CallbackOutcome(n, vault, headers, q, env, now);
            o.kind.Restart? && o.response.location == LoginAgain(None)
  {
    NothingRead(headers);
  }

  lemma UnreadableHeadersPruneNothing(n: Names, vault: Vault, headers: seq<string>, m: Minted)
    requires forall h :: h in headers ==> !Readable(h)
    ensures LoginCookies(n, vault, headers, m) == [FlowCookie(n, m)]
  {
    NothingRead(headers);
    assert HeldFlows(n, vault, Pairs(headers)) == [];
  }

  // ---- the handlers themselves ------------------------------------------------------------

  /** A response under construction. */
  class Reply {
    var status: Status
    var location: Location
    var reason: string
    var cookies: seq<SetCookie>

    ghost function View(): Response reads this { Response(status, location, reason, cookies) }

    constructor (r: Response)
      ensures View() == r
    {
      status, location, reason, cookies := r.status, r.location, r.reason, r.cookies;
    }

    /** Append a Set-Cookie, reporting whether its text is a valid header value. */
    method Append(n: Names, c: SetCookie) returns (ok: bool)
      modifies `cookies
      ensures ok <==> Settable(n, c)
      ensures cookies == if ok then old(cookies) + [c] else old(cookies)
    {
      ok := Readable(SetText(n, c.name, c.value, c.maxAge));
      if ok { cookies := cookies + [c]; }
    }
  }

  lemma {:induction false} ClearsOfNext(held: seq<Held>, i: nat)
    requires i < |held|
    ensures ClearsOf(held[..i + 1]) == ClearsOf(held[..i]) + [Clear(held[i].0)]
  {
    if i == 0 {
      assert held[..1][1..] == [];
    } else {
      ClearsOfNext(held[1..], i - 1);
      assert held[..i + 1][1..] == held[1..][..i] && held[..i][1..] == held[1..][..i - 1];
    }
  }

  /** In the sorted list the first `KeptCount` flows are the ones kept. */
  ghost predicate CutsAt(sorted: seq<Held>, m: nat) {
    && m <= |sorted| && m <= MAX_FLOW_COOKIES - 1
    && (forall i :: 0 <= i < m ==> sorted[i].1.Some?)
    && (forall i :: m <= i < |sorted| ==> sorted[i].1.None? || m == MAX_FLOW_COOKIES - 1)
  }

  lemma KeptCountCuts(held: seq<Held>)
    ensures CutsAt(NewestFirst(held), KeptCount(held))
  {
    NewestFirstSorts(held);
    NewestFirstLength(held);
    OpenablesLead(NewestFirst(held));
  }

  /** One more of the flows to clear. */
  method ClearNext(n: Names, ghost rest: seq<Held>, name: string, ghost i: nat, ghost before: seq<SetCookie>,
                   resp: Reply)
    requires i < |rest| && rest[i].0 == name && AllSettable(n, ClearsOf(rest))
    requires resp.cookies == before + ClearsOf(rest[..i])
    modifies resp`cookies
    ensures resp.cookies == before + ClearsOf(rest[..i + 1])
  {
    ClearsOfNext(rest, i);
    ClearsHold(rest, i);
    var _ := resp.Append(n, Clear(name));
  }

  /** The loop over the sorted flows, with its counter of those kept. */
  method ClearRest(n: Names, sorted: seq<Held>, ghost m: nat, resp: Reply)
    requires CutsAt(sorted, m) && AllSettable(n, ClearsOf(sorted[m..]))
    modifies resp`cookies
    ensures resp.cookies == old(resp.cookies) + ClearsOf(sorted[m..])
  {
    var kept := 0;
    ghost var rest := sorted[m..];
    for i := 0 to |sorted|
      invariant kept == if i < m then i else m
      invariant resp.cookies == old(resp.cookies) + ClearsOf(rest[..i - kept])
    {
      var (name, issued) := sorted[i];
      if issued.Some? && kept < MAX_FLOW_COOKIES - 1 {
        kept := kept + 1;
      } else {
        ClearNext(n, rest, name, i - kept, old(resp.cookies), resp);
      }
    }
    assert rest[..|rest|] == rest;
  }

  lemma {:induction false} ClearsHold(held: seq<Held>, i: nat)
    requires i < |held|
    ensures Clear(held[i].0) in ClearsOf(held)
  {
    if i > 0 { ClearsHold(held[1..], i - 1); }
  }

  method PruneFlowCookies(n: Names, vault: Vault, headers: seq<string>, resp: Reply)
    modifies resp`cookies
    ensures resp.cookies == old(resp.cookies) + ClearsOf(Pruned(n, vault, headers))
  {
    var held := HeldFlows(n, vault, Pairs(headers));
    KeptCountCuts(held);
    PrunedIsReadable(n, vault, headers);
    ClearRest(n, NewestFirst(held), KeptCount(held), resp);
  }

  /** The redirect before its own flow cookie is set. */
  method PrunedRedirect(n: Names, vault: Vault, headers: seq<string>, stepUp: bool, m: Minted) returns (resp: Reply)
    ensures fresh(resp) && resp.View() == ProviderRedirect(m, stepUp, ClearsOf(Pruned(n, vault, headers)))
  {
    resp := new Reply(Redirect(Authorize(S256(m.verifier), m.state, m.nonce, stepUp)));
    PruneFlowCookies(n, vault, headers, resp);
    assert [] + ClearsOf(Pruned(n, vault, headers)) == ClearsOf(Pruned(n, vault, headers));
  }

  /** The redirect to the provider: old flow cookies are pruned first, then the new one is set. */
  method SendToProvider(n: Names, vault: Vault, headers: seq<string>, stepUp: bool, m: Minted) returns (resp: Reply)
    ensures fresh(resp)
    ensures resp.View() == if Settable(n, FlowCookie(n, m))
                           then ProviderRedirect(m, stepUp, LoginCookies(n, vault, headers, m))
                           else Text(InternalError, "flow-cookie")
  {
    resp := PrunedRedirect(n, vault, headers, stepUp, m);
    resp := SetFlow(n, m, resp);
    FlowComesLast(n, vault, headers, stepUp, m);
  }

  lemma FlowComesLast(n: Names, vault: Vault, headers: seq<string>, stepUp: bool, m: Minted)
    ensures Plus(ProviderRedirect(m, stepUp, ClearsOf(Pruned(n, vault, headers))), FlowCookie(n, m))
         == ProviderRedirect(m, stepUp, LoginCookies(n, vault, headers, m))
  {}

  /** Set the new flow cookie, or answer an error instead. */
  method SetFlow(n: Names, m: Minted, redirect: Reply) returns (resp: Reply)
    modifies redirect`cookies
    ensures resp == redirect || fresh(resp)
    ensures resp.View() == if Settable(n, FlowCookie(n, m)) then Plus(old(redirect.View()), FlowCookie(n, m))
                           else Text(InternalError, "flow-cookie")
  {
    resp := redirect;
    var ok := resp.Append(n, SetCookie(n.Flow(m.state), m.value, FLOW_TTL));
    if !ok { resp := new Reply(Text(InternalError, "flow-cookie")); }
  }

  method Login(n: Names, vault: Vault, headers: seq<string>, q: LoginQuery, up: bool, sealed: bool, m: Minted)
    returns (resp: Reply)
    ensures fresh(resp) && resp.View() == LoginResponse(n, vault, headers, q, up, sealed, m)
  {
    if !up {
      resp := new Reply(Text(Unavailable, "idp-unavailable"));
      return;
    }
    var stepUp := q.stepUp == Some("1");
    if !sealed {
      resp := new Reply(Text(InternalError, "flow-seal"));
      return;
    }
    resp := SendToProvider(n, vault, headers, stepUp, m);
  }

  method RestartReply(n: Names, headers: seq<string>, reason: string, again: Option<Again>) returns (resp: Reply)
    ensures fresh(resp) && resp.View() == RestartOrRefuse(n, headers, reason, again).response
  {
    if Read(headers, n.Retry()).Some? {
      resp := new Reply(Text(Forbidden, reason));
      return;
    }
    resp := new Reply(Redirect(LoginAgain(again)));
    OwnCookieIsSettable(n, "", "1", RETRY_TTL);
    var _ := resp.Append(n, SetCookie(n.Retry(), "1", RETRY_TTL));
  }

  /** The clock readings of one callback: the wall clock, and the store's. */
  datatype Readings = Readings(wall: nat, sweepAt: nat, at: nat)

  function InsertOf(c: Created, r: Readings): Sessions.Event {
    Sessions.Insert(Sessions.SignIn(c.id, c.token.identity, c.token.authTime, r.wall), r.sweepAt, r.at)
  }

  /** The store after a callback: unless a session was created, as before. */
  ghost predicate StoreMoved(l: Sessions.Limits, st: Sessions.Store, created: Option<Created>, r: Readings,
                             st': Sessions.Store) {
    match created
    case None => st' == st
    case Some(c) =>
      exists mid :: Sessions.LazyStep(l, st, InsertOf(c, r), None, mid) && st' == mid.(held := Settled(mid.held, c))
  }

  function Retired(m: map<string, Sessions.Session>, id: Option<string>): map<string, Sessions.Session> {
    match id case None => m case Some(k) => m - {k}
  }

  /** What a sign-in leaves of the sessions: the old one goes, and a withdrawn one with it. */
  function Settled(m: map<string, Sessions.Session>, c: Created): map<string, Sessions.Session> {
    if c.withdrawn then Retired(m, c.retired) - {c.id} else Retired(m, c.retired)
  }

  /** What stays of the sessions: all but the one replaced, and the new one unless it is withdrawn. */
  lemma SettledIsExact(m: map<string, Sessions.Session>, c: Created, id: string)
    ensures id in Settled(m, c) <==> id in m && c.retired != Some(id) && !(c.withdrawn && id == c.id)
    ensures id in Settled(m, c) ==> Settled(m, c)[id] == m[id]
  {}

  lemma InsertedIsHeld(l: Sessions.Limits, st: Sessions.Store, n: Sessions.SignIn, sweepAt: nat, at: nat,
                       mid: Sessions.Store)
    requires Sessions.LazyStep(l, st, Sessions.Insert(n, sweepAt, at), None, mid)
    ensures n.id in mid.held && mid.held[n.id] == Sessions.NewSession(l, n, at)
  {}

  /**
   A sign-in leaves exactly one of the two sessions: the new one is held with the token's user
   and its expiry, the one the browser brought is gone, and the caps still hold.
   */
  lemma SessionIsReplaced(l: Sessions.Limits, st: Sessions.Store, c: Created, r: Readings, st': Sessions.Store)
    requires StoreMoved(l, st, Some(c), r, st') && c.retired != Some(c.id) && !c.withdrawn
    ensures c.id in st'.held
    ensures st'.held[c.id] == Sessions.Session(c.token.identity, c.token.authTime, r.wall + l.ttl / 1000, r.at)
    ensures c.retired.Some? ==> c.retired.value !in st'.held
    ensures l.Sane() && Sessions.CapsHold(l, st.held) ==> Sessions.CapsHold(l, st'.held)
  {
    var mid :| Sessions.LazyStep(l, st, InsertOf(c, r), None, mid) && st' == mid.(held := Settled(mid.held, c));
    SettledIsReplaced(l, st, c, r, mid);
    if l.Sane() && Sessions.CapsHold(l, st.held) { CapsStay(l, st, InsertOf(c, r), mid, c); }
  }

  lemma SettledIsReplaced(l: Sessions.Limits, st: Sessions.Store, c: Created, r: Readings, mid: Sessions.Store)
    requires Sessions.LazyStep(l, st, InsertOf(c, r), None, mid) && c.retired != Some(c.id) && !c.withdrawn
    ensures var held := Settled(mid.held, c);
            && c.id in held
            && held[c.id] == Sessions.Session(c.token.identity, c.token.authTime, r.wall + l.ttl / 1000, r.at)
            && (c.retired.Some? ==> c.retired.value !in held)
  {
    InsertedIsHeld(l, st, InsertOf(c, r).signIn, r.sweepAt, r.at, mid);
  }

  lemma CapsStay(l: Sessions.Limits, st: Sessions.Store, e: Sessions.Event, mid: Sessions.Store, c: Created)
    requires l.Sane() && Sessions.CapsHold(l, st.held) && Sessions.LazyStep(l, st, e, None, mid)
    ensures Sessions.CapsHold(l, Settled(mid.held, c))
  {
    Sessions.StepKeepsCaps(l, st, e, None, mid);
    Sessions.SmallerKeepsCaps(l, mid.held, Settled(mid.held, c));
  }

  /** Insert the new session, and only then retire the old one. */
  method StoreSession(store: Sessions.SessionStore, c: Created, r: Readings)
    requires !c.withdrawn
    modifies store
    ensures StoreMoved(store.limits, old(store.View()), Some(c), r, store.View())
  {
    var _ := store.Insert(Some(c.id), c.token.identity, c.token.authTime, r.wall, r.sweepAt, r.at);
    ghost var mid := store.View();
    if c.retired.Some? { store.Remove(c.retired.value); }
    StoreMovesVia(store.limits, old(store.View()), c, r, mid, store.View());
  }

  lemma StoreMovesVia(l: Sessions.Limits, st: Sessions.Store, c: Created, r: Readings, mid: Sessions.Store,
                      st': Sessions.Store)
    requires Sessions.LazyStep(l, st, InsertOf(c, r), None, mid)
    requires st'.held == Settled(mid.held, c) && st'.lastSweep == mid.lastSweep
    ensures StoreMoved(l, st, Some(c), r, st')
  {}

  /** Take a session back whose cookie could not be set. */
  method WithdrawSession(store: Sessions.SessionStore, ghost st: Sessions.Store, c: Created, r: Readings)
    requires !c.withdrawn && StoreMoved(store.limits, st, Some(c), r, store.View())
    modifies store
    ensures StoreMoved(store.limits, st, Some(c.(withdrawn := true)), r, store.View())
  {
    ghost var mid :| Sessions.LazyStep(store.limits, st, InsertOf(c, r), None, mid)
                     && store.View() == mid.(held := Settled(mid.held, c));
    store.Remove(c.id);
    StoreMovesVia(store.limits, st, c.(withdrawn := true), r, mid, store.View());
  }

  method Callback(n: Names, vault: Vault, store: Sessions.SessionStore, headers: seq<string>, q: CallbackQuery,
                  env: Environment, r: Readings)
    returns (resp: Reply)
    requires env.ttlSecs == store.limits.ttl / 1000
    modifies store
    ensures fresh(resp)
    ensures var o := CallbackOutcome(n, vault, headers, q, env, r.wall);
            resp.View() == o.response && StoreMoved(store.limits, old(store.View()), o.created, r, store.View())
  {
    if q.error.Some? {
      resp := new Reply(Text(BadRequest, "callback-error"));
      return;
    }
    if q.code.None? || q.state.None? {
      resp := new Reply(Text(BadRequest, "callback-params"));
      return;
    }
    var state := q.state.value;
    var open := OpenFlow(n, vault, headers, state, r.wall);
    if open.None? {
      resp := RestartReply(n, headers, "flow-unknown", None);
    } else {
      resp := FinishReply(n, store, headers, open.value.1, env, r);
    }
    SpendReply(n, state, resp);
  }

  /** Delete the flow the callback named. */
  method SpendReply(n: Names, state: string, resp: Reply)
    modifies resp`cookies
    ensures resp.View() == if ValidState(state) then Plus(old(resp.View()), Clear(n.Flow(state))) else old(resp.View())
  {
    if ValidState(state) {
      OwnCookieIsSettable(n, state, "", 0);
      var _ := resp.Append(n, Clear(n.Flow(state)));
    }
  }

  method FinishReply(n: Names, store: Sessions.SessionStore, headers: seq<string>, flow: Flow, env: Environment,
                     r: Readings)
    returns (resp: Reply)
    requires env.ttlSecs == store.limits.ttl / 1000
    modifies store
    ensures fresh(resp)
    ensures var o := Finish(n, headers, flow, env);
            resp.View() == o.response && StoreMoved(store.limits, old(store.View()), o.created, r, store.View())
  {
    if !env.up {
      resp := RestartReply(n, headers, "idp-unavailable", Some(AgainOf(flow)));
      return;
    }
    match env.exchange {
      case NoEndpoint => resp := new Reply(Text(InternalError, "exchange-setup"));
      case Failed => resp := RestartReply(n, headers, "token-exchange", Some(AgainOf(flow)));
      case NoIdToken => resp := new Reply(Text(BadGateway, "no-id-token"));
      case Token(token, verifies, again) =>
        resp := TokenReply(n, store, headers, flow, env, r);
    }
  }

  method TokenReply(n: Names, store: Sessions.SessionStore, headers: seq<string>, flow: Flow, env: Environment,
                    r: Readings)
    returns (resp: Reply)
    requires env.ttlSecs == store.limits.ttl / 1000 && env.up && env.exchange.Token?
    modifies store
    ensures fresh(resp)
    ensures var o := Finish(n, headers, flow, env);
            resp.View() == o.response && StoreMoved(store.limits, old(store.View()), o.created, r, store.View())
  {
    var token := env.exchange.token;
    if !VerifyIdToken(token, flow.nonce, env.exchange.verifies, env.exchange.again) {
      resp := RestartReply(n, headers, "id-token-verify", Some(AgainOf(flow)));
      return;
    }
    if env.id.None? {
      resp := new Reply(Text(InternalError, "session-id"));
      return;
    }
    resp := SignedReply(n, store, headers, flow, token, env.id.value, env.ttlSecs, r);
  }

  method SignedReply(n: Names, store: Sessions.SessionStore, headers: seq<string>, flow: Flow, token: IdToken,
                     id: string, ttlSecs: nat, r: Readings)
    returns (resp: Reply)
    modifies store
    ensures fresh(resp)
    ensures var o := Signed(n, headers, flow, token, id, ttlSecs);
            resp.View() == o.response && StoreMoved(store.limits, old(store.View()), o.created, r, store.View())
  {
    ghost var st := store.View();
    var created := Created(id, token, Read(headers, n.Session()), false);
    StoreSession(store, created, r);
    resp := new Reply(Redirect(Path(flow.returnTo)));
    var ok := resp.Append(n, SetCookie(n.Session(), id, ttlSecs));
    if !ok {
      WithdrawSession(store, st, created, r);
      resp := new Reply(Text(InternalError, "session-cookie"));
      return;
    }
    OwnCookieIsSettable(n, "", "", 0);
    var _ := resp.Append(n, Clear(n.Retry()));
  }
}
