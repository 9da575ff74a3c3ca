/**
 How many sign-in cookies a browser holds, in every run of the world.
 */
module Tabs {
  import opened Options
  import opened Cookies
  import opened Flows
  import opened Handlers
  import opened Jars
  import opened Worlds
  import opened Bindings
  import opened Loops

  predicate IsLoginOf(f: Flight, c: Client) { f.client == c && f.request.LoginRequest? }

  /** What an answered sign-in sets: the pruning and the new flow, or nothing if it could not start. */
  ghost predicate LoginAnswer(n: Names, f: Flight, cookies: seq<SetCookie>) {
    cookies == [] || exists vault, m :: cookies == LoginCookies(n, vault, Headers(f), m)
  }

  ghost predicate ServedShape(n: Names, f: Flight) {
    f.stage.Served? ==>
      || (f.request.LoginRequest? && LoginAnswer(n, f, f.stage.cookies))
      || (f.request.LogoutRequest? && f.stage.cookies == [Clear(n.Session())])
  }

  ghost predicate AllShaped(w: World) { forall r :: r in w.flights ==> ServedShape(w.n, w.flights[r]) }

  lemma ReachedShaped(w: World, r: RequestId, stage: Stage)
    requires AllShaped(w) && r in w.flights && ServedShape(w.n, w.flights[r].(stage := stage))
    ensures AllShaped(Reached(w, r, stage))
  {}

  lemma LoginAnswers(n: Names, vault: Vault, f: Flight, up: bool, sealed: bool, m: Minted)
    requires f.request.LoginRequest?
    ensures LoginAnswer(n, f, LoginResponse(n, vault, Headers(f), f.request.lq, up, sealed, m).cookies)
  {
    var cookies := LoginResponse(n, vault, Headers(f), f.request.lq, up, sealed, m).cookies;
    if cookies != [] { assert cookies == LoginCookies(n, vault, Headers(f), m); }
  }

  lemma LoginShaped(w: World, r: RequestId, up: bool, sealed: bool, m: Minted)
    requires AllShaped(w) && Enabled(w, ServeLogin(r, up, sealed, m))
    ensures AllShaped(LoginServed(w, r, up, sealed, m))
  {
    var f := w.flights[r];
    var cookies := LoginResponse(w.n, VaultOf(w), Headers(f), f.request.lq, up, sealed, m).cookies;
    var f' := f.(stage := Served(cookies));
    LoginAnswers(w.n, VaultOf(w), f', up, sealed, m);
    ReachedShaped(w, r, Served(cookies));
  }

  lemma OpenedShaped(w: World, r: RequestId)
    requires AllShaped(w) && r in w.flights && w.flights[r].request.CallbackRequest?
    ensures AllShaped(CallbackOpened(w, r))
  {
    var f := w.flights[r];
    ReachedShaped(w, r, Opened(OpenFor(w.n, VaultOf(w), Headers(f), f.request.cq, w.now / 1000), w.now));
  }

  lemma FinishedShaped(w: World, r: RequestId, env: Environment, victim: Option<string>)
    requires AllShaped(w) && r in w.flights && w.flights[r].request.CallbackRequest? && w.flights[r].stage.Opened?
    ensures AllShaped(CallbackFinished(w, r, env, victim))
  {
    ReachedShaped(w, r, Decided(w.flights[r].stage.open, w.flights[r].stage.openedAt, env));
  }

  lemma LogoutShaped(w: World, r: RequestId)
    requires AllShaped(w) && r in w.flights && w.flights[r].request.LogoutRequest?
    ensures AllShaped(LogoutServed(w, r))
  {
    ReachedShaped(w, r, Served([Clear(w.n.Session())]));
  }

  lemma StepShaped(w: World, a: Action)
    requires AllShaped(w)
    ensures AllShaped(Step(w, a))
  {
    if Enabled(w, a) {
      match a
      case ServeLogin(r, up, sealed, m) => LoginShaped(w, r, up, sealed, m);
      case ServeLogout(r) => LogoutShaped(w, r);
      case OpenCallback(r) => OpenedShaped(w, r);
      case FinishCallback(r, env, victim) => FinishedShaped(w, r, env, victim);
      case _ =>
    }
  }

  lemma {:induction false} RunShaped(w: World, acts: seq<Action>)
    requires Inv(w) && AllShaped(w)
    ensures Inv(Run(w, acts)) && AllShaped(Run(w, acts))
    decreases acts
  {
    if acts != [] {
      StepKeeps(w, acts[0]);
      StepShaped(w, acts[0]);
      RunShaped(Step(w, acts[0]), acts[1..]);
    }
  }

  /** What the answer to a sign-in leaves the browser with, if the flow is new to it. */
  ghost predicate CountsExactly(w: World, f: Flight, vault: Vault, m: Minted) {
    var jar := JarOf(w, f.client);
    var flows := FlowNames(w.n, TakeAll(jar, AnswerCookies(w.n, f), w.now), w.now);
    var stayed, arrived := Stayed(w.n, vault, f.groups, jar, w.now), Arrived(w.n, f.groups, jar, w.now);
    w.n.Flow(m.state) !in jar ==>
      && |flows| == 1 + |stayed| + |arrived|
      && (|flows| <= MAX_FLOW_COOKIES <==> |stayed| + |arrived| <= MAX_FLOW_COOKIES - 1)
  }

  /**
   In every run, when the answer to a sign-in reaches an honest browser, it then holds the new
   flow, those of the request that stayed, and those that arrived since it was sent; so five at
   most if and only if the latter are four at most.
   */
  lemma AnswerCountsExactly(w: World, acts: seq<Action>, r: RequestId)
    requires Initial(w) && r in Run(w, acts).flights
    requires var f := Run(w, acts).flights[r];
             f.client != ADVERSARY && f.request.LoginRequest? && f.stage.Served? && f.stage.cookies != []
    ensures var w', f := Run(w, acts), Run(w, acts).flights[r];
            exists vault, m ::
              f.stage.cookies == LoginCookies(w'.n, vault, Headers(f), m) && CountsExactly(w', f, vault, m)
  {
    RunShaped(w, acts);
    var w', f := Run(w, acts), Run(w, acts).flights[r];
    assert FlightKept(w'.starts, w'.now, f) && ServedShape(w'.n, f);
    var vault, m :| f.stage.cookies == LoginCookies(w'.n, vault, Headers(f), m);
    if w'.n.Flow(m.state) !in JarOf(w', f.client) {
      LoginFlowCount(w'.n, vault, f.groups, JarOf(w', f.client), m, w'.now);
    }
    assert CountsExactly(w', f, vault, m);
  }

  // ---- one sign-in at a time ------------------------------------------------------------

  /** A browser starts a sign-in only when it is not starting one already. */
  ghost predicate StartsAlone(w: World, a: Action, c: Client) {
    a.Send? && a.client == c && a.request.LoginRequest? && Enabled(w, a) ==>
      forall r :: r in w.flights ==> !IsLoginOf(w.flights[r], c)
  }

  ghost predicate AlwaysStartsAlone(w: World, acts: seq<Action>, c: Client)
    decreases acts
  {
    acts == [] || (StartsAlone(w, acts[0], c) && AlwaysStartsAlone(Step(w, acts[0]), acts[1..], c))
  }

  /** Everything the browser holds of flows went with its one sign-in request, readably. */
  ghost predicate Covers(w: World, c: Client, f: Flight) {
    && (forall g :: g in f.groups ==> ReadablePairs(g))
    && FlowNames(w.n, JarOf(w, c), w.now) <= SentFlows(w.n, Flatten(f.groups))
  }

  ghost predicate LoginsKept(w: World, c: Client) {
    && (forall r, q ::
          r in w.flights && q in w.flights && IsLoginOf(w.flights[r], c) && IsLoginOf(w.flights[q], c) ==> r == q)
    && (forall r :: r in w.flights && IsLoginOf(w.flights[r], c) ==> Covers(w, c, w.flights[r]))
  }

  ghost predicate FewFlows(w: World, c: Client) {
    && PlainJar(JarOf(w, c)) && ReadableJar(JarOf(w, c))
    && |FlowNames(w.n, JarOf(w, c), w.now)| <= MAX_FLOW_COOKIES
  }

  ghost predicate OneTab(w: World, c: Client) { Inv(w) && AllShaped(w) && FewFlows(w, c) && LoginsKept(w, c) }

  /** Flows only ever come with the answer to a sign-in. */
  lemma OtherAnswersAddNone(w: World, f: Flight)
    requires FlightKept(w.starts, w.now, f) && ServedShape(w.n, f) && !f.request.LoginRequest?
    ensures FlowNames(w.n, TakeAll(JarOf(w, f.client), AnswerCookies(w.n, f), w.now), w.now)
         <= FlowNames(w.n, JarOf(w, f.client), w.now)
  {
    var jar := JarOf(w, f.client);
    if f.stage.Served? {
      NamesAreDistinct(w.n, "", "");
      OneTaken(jar, Clear(w.n.Session()), w.now);
    } else if f.stage.Decided? && f.request.CallbackRequest? {
      CallbackAddsNoFlow(w.n, jar, Headers(f), f.request.cq, f.stage.open, f.stage.env, w.now);
    }
  }

  lemma LoginAnswerKeepsFew(w: World, c: Client, f: Flight)
    requires FlightKept(w.starts, w.now, f) && ServedShape(w.n, f) && IsLoginOf(f, c) && f.stage.Served?
    requires FewFlows(w, c) && Covers(w, c, f) && c != ADVERSARY
    ensures |FlowNames(w.n, TakeAll(JarOf(w, c), AnswerCookies(w.n, f), w.now), w.now)| <= MAX_FLOW_COOKIES
  {
    if f.stage.cookies != [] {
      var vault, m :| f.stage.cookies == LoginCookies(w.n, vault, Headers(f), m);
      LoginBoundsFlows(w.n, vault, f.groups, JarOf(w, c), m, w.now);
    }
  }

  lemma ArrivalKeepsFew(w: World, r: RequestId)
    requires Enabled(w, Arrive(r)) && w.flights[r].client != ADVERSARY && OneTab(w, w.flights[r].client)
    ensures FewFlows(Delivered(w, r), w.flights[r].client)
  {
    var f := w.flights[r];
    assert FlightKept(w.starts, w.now, f) && ServedShape(w.n, f);
    AnswerKeepsReadable(w, f);
    if f.request.LoginRequest? {
      assert Covers(w, f.client, f);
      LoginAnswerKeepsFew(w, f.client, f);
    } else {
      OtherAnswersAddNone(w, f);
      SmallerSet(FlowNames(w.n, JarOf(Delivered(w, r), f.client), w.now), FlowNames(w.n, JarOf(w, f.client), w.now));
    }
  }

  /** Apart from the answer to a sign-in, flows only go. */
  ghost predicate OnlyFewer(w: World, w': World, c: Client) {
    FlowNames(w.n, JarOf(w', c), w'.now) <= FlowNames(w.n, JarOf(w, c), w.now)
  }

  lemma ArrivalOnlyTakes(w: World, r: RequestId, c: Client)
    requires OneTab(w, c) && Enabled(w, Arrive(r)) && !IsLoginOf(w.flights[r], c)
    ensures OnlyFewer(w, Delivered(w, r), c)
  {
    if w.flights[r].client == c {
      assert FlightKept(w.starts, w.now, w.flights[r]) && ServedShape(w.n, w.flights[r]);
      OtherAnswersAddNone(w, w.flights[r]);
    }
  }

  lemma FlowsOnlyGo(w: World, a: Action, c: Client)
    requires OneTab(w, c) && c != ADVERSARY && Enabled(w, a)
    requires !(a.Arrive? && IsLoginOf(w.flights[a.r], c))
    ensures OnlyFewer(w, Step(w, a), c)
  {
    if a.Arrive? {
      ArrivalOnlyTakes(w, a.r, c);
    } else {
      OnlyArrivalsAnswer(w, a, c);
      LogStep(w, a);
    }
  }

  lemma FewerKeepsFew(w: World, w': World, c: Client)
    requires FewFlows(w, c) && w'.n == w.n && OnlyFewer(w, w', c)
    requires PlainJar(JarOf(w', c)) && ReadableJar(JarOf(w', c))
    ensures FewFlows(w', c)
  {
    SmallerSet(FlowNames(w.n, JarOf(w', c), w'.now), FlowNames(w.n, JarOf(w, c), w.now));
  }

  lemma OthersKeepFew(w: World, a: Action, c: Client)
    requires OneTab(w, c) && c != ADVERSARY && Enabled(w, a) && !(a.Arrive? && w.flights[a.r].client == c)
    ensures FewFlows(Step(w, a), c)
  {
    LogStep(w, a);
    FlowsOnlyGo(w, a, c);
    if !a.Arrive? { OnlyArrivalsAnswer(w, a, c); }
    FewerKeepsFew(w, Step(w, a), c);
  }

  lemma StepKeepsFew(w: World, a: Action, c: Client)
    requires OneTab(w, c) && c != ADVERSARY
    ensures FewFlows(Step(w, a), c)
  {
    if !Enabled(w, a) {
      assert Step(w, a) == w;
    } else if a.Arrive? && w.flights[a.r].client == c {
      ArrivalKeepsFew(w, a.r);
    } else {
      OthersKeepFew(w, a, c);
    }
  }

  lemma SentCovers(w: World, c: Client, f: Flight)
    requires FewFlows(w, c) && Carries(f.groups, JarOf(w, c), w.now)
    ensures Covers(w, c, f)
  {
    GroupsPlain(f.groups, JarOf(w, c), w.now);
    FlowsAreSent(w.n, JarOf(w, c), f.groups, w.now);
  }

  lemma SendingCovers(w: World, a: Action, c: Client)
    requires FewFlows(w, c) && c != ADVERSARY && a.Send? && a.client == c && Enabled(w, a)
    ensures Covers(Step(w, a), c, Step(w, a).flights[a.r])
  {
    SentCovers(w, c, Flight(c, a.groups, a.request, w.now, |w.log|, Sent));
  }

  lemma CoverStays(w: World, w': World, c: Client, f: Flight, f': Flight)
    requires Covers(w, c, f) && SameRequest(f, f') && w'.n == w.n && OnlyFewer(w, w', c)
    ensures Covers(w', c, f')
  {}

  lemma StepKeepsCover(w: World, a: Action, c: Client, r: RequestId)
    requires OneTab(w, c) && c != ADVERSARY && StartsAlone(w, a, c) && Enabled(w, a)
    requires r in Step(w, a).flights && IsLoginOf(Step(w, a).flights[r], c)
    ensures Covers(Step(w, a), c, Step(w, a).flights[r])
  {
    FlightOrigin(w, a, r);
    if a.Send? && r == a.r {
      SendingCovers(w, a, c);
    } else {
      LogStep(w, a);
      FlowsOnlyGo(w, a, c);
      CoverStays(w, Step(w, a), c, w.flights[r], Step(w, a).flights[r]);
    }
  }

  ghost predicate SendsLogin(a: Action, c: Client, r: RequestId) {
    a.Send? && a.r == r && a.client == c && a.request.LoginRequest?
  }

  lemma LoginOrigin(w: World, a: Action, c: Client, r: RequestId)
    requires Enabled(w, a) && r in Step(w, a).flights && IsLoginOf(Step(w, a).flights[r], c)
    ensures SendsLogin(a, c, r) || (r in w.flights && IsLoginOf(w.flights[r], c))
  {
    FlightOrigin(w, a, r);
  }

  lemma StepKeepsOneLogin(w: World, a: Action, c: Client, r: RequestId, q: RequestId)
    requires LoginsKept(w, c) && StartsAlone(w, a, c) && Enabled(w, a)
    requires r in Step(w, a).flights && q in Step(w, a).flights
    requires IsLoginOf(Step(w, a).flights[r], c) && IsLoginOf(Step(w, a).flights[q], c)
    ensures r == q
  {
    LoginOrigin(w, a, c, r);
    LoginOrigin(w, a, c, q);
  }

  lemma StepKeepsLogins(w: World, a: Action, c: Client)
    requires OneTab(w, c) && c != ADVERSARY && StartsAlone(w, a, c)
    ensures LoginsKept(Step(w, a), c)
  {
    LogStep(w, a);
    if Enabled(w, a) {
      var w' := Step(w, a);
      forall r | r in w'.flights && IsLoginOf(w'.flights[r], c) ensures Covers(w', c, w'.flights[r]) {
        StepKeepsCover(w, a, c, r);
      }
      forall r, q | r in w'.flights && q in w'.flights && IsLoginOf(w'.flights[r], c) && IsLoginOf(w'.flights[q], c)
        ensures r == q
      {
        StepKeepsOneLogin(w, a, c, r, q);
      }
    }
  }

  lemma {:induction false} RunKeepsOneTab(w: World, acts: seq<Action>, c: Client)
    requires OneTab(w, c) && c != ADVERSARY && AlwaysStartsAlone(w, acts, c)
    ensures OneTab(Run(w, acts), c)
    decreases acts
  {
    if acts != [] {
      StepKeeps(w, acts[0]);
      StepShaped(w, acts[0]);
      StepKeepsFew(w, acts[0], c);
      StepKeepsLogins(w, acts[0], c);
      RunKeepsOneTab(Step(w, acts[0]), acts[1..], c);
    }
  }

  /**
   A browser whose jar starts out readable, with five flows at most, and that starts one sign-in
   at a time, never holds more than five, in any run.
   */
  lemma FiveFlowsAtMost(w: World, acts: seq<Action>, c: Client)
    requires Initial(w) && c != ADVERSARY && ReadableJar(JarOf(w, c)) && AlwaysStartsAlone(w, acts, c)
    requires |FlowNames(w.n, JarOf(w, c), w.now)| <= MAX_FLOW_COOKIES
    ensures |FlowNames(Run(w, acts).n, JarOf(Run(w, acts), c), Run(w, acts).now)| <= MAX_FLOW_COOKIES
  {
    RunKeepsOneTab(w, acts, c);
  }
}
