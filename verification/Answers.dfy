/**
 The whole answers of `/auth/login` and `/auth/callback`, one for each thing that can happen, told
 by the request and by what the provider and the generators did.
 */
module Answers {
  import opened Options
  import opened Cookies
  import opened Flows
  import opened Handlers
  import opened Jars
  import opened Loops
  import opened Worlds
  import Pruning

  // ---- /auth/login ------------------------------------------------------------------------

  /** An answer that is only a status and a reason. */
  predicate Says(r: Response, status: Status, reason: string, cookies: seq<SetCookie>) {
    r.status == status && r.location == Nowhere && r.reason == reason && r.cookies == cookies
  }

  /** A sign-in that cannot start sets nothing. */
  lemma LoginRefused(n: Names, vault: Vault, headers: seq<string>, q: LoginQuery, up: bool, sealed: bool, m: Minted)
    ensures var r := LoginResponse(n, vault, headers, q, up, sealed, m);
            && (!up ==> Says(r, Unavailable, "idp-unavailable", []))
            && (up && !sealed ==> Says(r, InternalError, "flow-seal", []))
            && (up && sealed && !Readable(SetText(n, n.Flow(m.state), m.value, 1800)) ==>
                  Says(r, InternalError, "flow-cookie", []))
  {}

  /**
   One that starts sends the browser to the provider with the challenge of its verifier, its
   state and its nonce, and demands credentials just for a step-up; it deletes cookies, and
   then sets the flow's, for half an hour.
   */
  lemma LoginStarts(n: Names, vault: Vault, headers: seq<string>, q: LoginQuery, m: Minted)
    returns (cleared: seq<Pair>)
    requires AllUrlSafe(m.state) && AllUrlSafe(m.value)
    ensures var r := LoginResponse(n, vault, headers, q, true, true, m);
            && r.status == SeeOther && r.reason == ""
            && r.location == Authorize(S256(m.verifier), m.state, m.nonce, q.stepUp == Some("1"))
            && r.cookies == Pruning.Deletions(cleared) + [SetCookie(n.Flow(m.state), m.value, 1800)]
  {
    var kept;
    LoginAlwaysSets(n, vault, headers, q, m);
    kept, cleared := Pruning.PruningOverVault(n, vault, headers, m);
  }

  // ---- opening a flow ---------------------------------------------------------------------

  /**
   A callback opens exactly the flow that this process sealed for its state less than half an hour
   ago, if the request's cookie of that name holds it, and if the state may name a cookie.
   */
  lemma FlowOpensExactly(n: Names, vault: Vault, headers: seq<string>, state: string, now: nat, value: string,
                         flow: Flow)
    ensures OpenFlow(n, vault, headers, state, now) == Some((value, flow)) <==>
              && ValidState(state) && Read(headers, n.Flow(state)) == Some(value)
              && value in vault && vault[value].state == state && vault[value].flow == flow
              && now < vault[value].issued + 1800
  {}

  // ---- /auth/callback ---------------------------------------------------------------------

  /** Whatever a callback with a code and a state answers, it deletes the flow of that state. */
  function Spent(n: Names, state: string): seq<SetCookie> {
    if ValidState(state) then [SetCookie(n.Flow(state), "", 0)] else []
  }

  lemma QueryRefused(n: Names, headers: seq<string>, q: CallbackQuery, open: Opening, env: Environment)
    ensures var o := Decide(n, headers, q, open, env);
            && (q.error.Some? ==> o.created.None? && Says(o.response, BadRequest, "callback-error", []))
            && (q.error.None? && (q.code.None? || q.state.None?) ==>
                  o.created.None? && Says(o.response, BadRequest, "callback-params", []))
  {}

  /** The browser is sent round again with the marker set, or refused if the marker is read. */
  predicate GoesRound(n: Names, headers: seq<string>, state: string, o: Outcome, reason: string, again: Option<Again>) {
    && o.created.None?
    && if Read(headers, n.Retry()).Some? then o.kind.Refuse? && Says(o.response, Forbidden, reason, Spent(n, state))
       else
         && o.kind.Restart? && o.response.status == SeeOther && o.response.reason == ""
         && o.response.location == LoginAgain(again)
         && o.response.cookies == [SetCookie(n.Retry(), "1", 300)] + Spent(n, state)
  }

  /** Without its flow a callback is sent round, to start over at `/`. */
  lemma UnknownFlow(n: Names, headers: seq<string>, code: string, state: string, env: Environment)
    ensures GoesRound(n, headers, state, Decide(n, headers, CallbackQuery(Some(code), Some(state), None), None, env),
                      "flow-unknown", None)
  {
    assert [SetCookie(n.Retry(), "1", 300)] + [] == [SetCookie(n.Retry(), "1", 300)];
    assert [] + Spent(n, state) == Spent(n, state);
  }

  /** With its flow, until a token for it verifies, it is sent round to where the flow leads. */
  lemma UnprovenFlow(n: Names, headers: seq<string>, code: string, state: string, value: string, flow: Flow,
                     env: Environment)
    ensures var o := Decide(n, headers, CallbackQuery(Some(code), Some(state), None), Some((value, flow)), env);
            var again := Some(Again(flow.returnTo, flow.stepUp));
            && (!env.up ==> GoesRound(n, headers, state, o, "idp-unavailable", again))
            && (env.up && env.exchange.Failed? ==> GoesRound(n, headers, state, o, "token-exchange", again))
            && (env.up && env.exchange.Token?
                && (env.exchange.token.nonce != flow.nonce
                    || (!env.exchange.verifies && env.exchange.again != Some(true))) ==>
                  GoesRound(n, headers, state, o, "id-token-verify", again))
  {
    assert [SetCookie(n.Retry(), "1", 300)] + [] == [SetCookie(n.Retry(), "1", 300)];
    assert [] + Spent(n, state) == Spent(n, state);
  }

  /** The failures that another sign-in would not mend are answered as such. */
  lemma BrokenExchange(n: Names, headers: seq<string>, code: string, state: string, value: string, flow: Flow,
                       env: Environment)
    requires env.up
    ensures var o := Decide(n, headers, CallbackQuery(Some(code), Some(state), None), Some((value, flow)), env);
            var r, spent := o.response, Spent(n, state);
            && (env.exchange.NoEndpoint? ==> o.created.None? && Says(r, InternalError, "exchange-setup", spent))
            && (env.exchange.NoIdToken? ==> o.created.None? && Says(r, BadGateway, "no-id-token", spent))
  {
    assert [] + Spent(n, state) == Spent(n, state);
  }

  /** A token that carries the flow's nonce, with a signature that verifies. */
  predicate Proven(flow: Flow, env: Environment) {
    && env.up && env.exchange.Token? && env.exchange.token.nonce == flow.nonce
    && (env.exchange.verifies || env.exchange.again == Some(true))
  }

  /** With it, the answer leads to the flow's path with the session set, or an error says why not. */
  lemma ProvenFlow(n: Names, headers: seq<string>, code: string, state: string, value: string, flow: Flow,
                   env: Environment)
    requires Proven(flow, env)
    ensures var o := Decide(n, headers, CallbackQuery(Some(code), Some(state), None), Some((value, flow)), env);
            var spent := Spent(n, state);
            && (env.id.None? ==> o.created.None? && Says(o.response, InternalError, "session-id", spent))
            && (env.id.Some? ==>
                  var kept := Readable(SetText(n, n.Session(), env.id.value, env.ttlSecs));
                  && o.created == Some(Created(env.id.value, env.exchange.token, Read(headers, n.Session()), !kept))
                  && (!kept ==> Says(o.response, InternalError, "session-cookie", spent))
                  && (kept ==>
                        && o.response.status == SeeOther && o.response.location == Path(flow.returnTo)
                        && o.response.reason == ""
                        && o.response.cookies ==
                             [SetCookie(n.Session(), env.id.value, env.ttlSecs), SetCookie(n.Retry(), "", 0)] + spent))
  {
    var both := if env.id.Some? then [SetCookie(n.Session(), env.id.value, env.ttlSecs), SetCookie(n.Retry(), "", 0)]
                else [];
    assert both + [] == both && [] + Spent(n, state) == Spent(n, state);
  }

  // ---- single use -------------------------------------------------------------------------

  /**
   A flow is used once: when the answer to a callback with a code and a state has arrived, however
   the callback ended, the browser no longer holds the flow of that state.
   */
  lemma FlowIsSpent(n: Names, jar: Jar, headers: seq<string>, code: string, state: string, open: Opening,
                    env: Environment, now: nat)
    requires ValidState(state)
    ensures var o := Decide(n, headers, CallbackQuery(Some(code), Some(state), None), open, env);
            n.Flow(state) !in TakeAll(jar, o.response.cookies, now)
  {
    var q := CallbackQuery(Some(code), Some(state), None);
    var cookies := Decide(n, headers, q, open, env).response.cookies;
    CallbackCookies(n, headers, q, open, env);
    NamesAreDistinct(n, state, state);
    DecisionSpends(n, headers, code, state, open, env);
    TakenOnce(jar, cookies, now, SetCookie(n.Flow(state), "", 0));
  }

  lemma DecisionSpends(n: Names, headers: seq<string>, code: string, state: string, open: Opening, env: Environment)
    requires ValidState(state)
    ensures SetCookie(n.Flow(state), "", 0) in
              Decide(n, headers, CallbackQuery(Some(code), Some(state), None), open, env).response.cookies
  {
    var o := if open.None? then RestartOrRefuse(n, headers, "flow-unknown", None)
             else Finish(n, headers, open.value.1, env);
    var cookies := o.response.cookies + [SetCookie(n.Flow(state), "", 0)];
    assert cookies[|o.response.cookies|] == SetCookie(n.Flow(state), "", 0);
  }

  lemma DeliverySpends(w: World, r: RequestId, code: string, state: string)
    requires r in w.flights && w.flights[r].stage.Decided? && ValidState(state)
    requires w.flights[r].request == CallbackRequest(CallbackQuery(Some(code), Some(state), None))
    ensures w.n.Flow(state) !in JarOf(Delivered(w, r), w.flights[r].client)
  {
    var f := w.flights[r];
    FlowIsSpent(w.n, JarOf(w, f.client), Headers(f), code, state, f.stage.open, f.stage.env, w.now);
  }

  /** So it is in the world, when that answer reaches its browser. */
  lemma ArrivalSpends(w: World, r: RequestId, code: string, state: string)
    requires r in w.flights && w.flights[r].stage.Decided? && ValidState(state)
    requires w.flights[r].request == CallbackRequest(CallbackQuery(Some(code), Some(state), None))
    ensures w.n.Flow(state) !in JarOf(Step(w, Arrive(r)), w.flights[r].client)
  {
    assert Step(w, Arrive(r)) == Delivered(w, r);
    DeliverySpends(w, r, code, state);
  }
}
