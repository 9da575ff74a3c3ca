/**
 Inputs at which a browser is restarted twice within five minutes: tabs that ask at the same
 moment, and a cookie the server cannot read.
 */
module FailingLoops {
  import opened Options
  import opened Cookies
  import opened Flows
  import opened Handlers
  import opened Jars
  import opened Worlds
  import opened Loops
  import opened FailingTabs
  import Sessions

  /** The provider is down. */
  function Down(l: Sessions.Limits): Environment { Environment(false, Failed, None, l.ttl / 1000) }

  /** A callback of which the server reads no cookie. */
  ghost predicate Blind(f: Flight) {
    f.request.CallbackRequest? && f.stage.Sent? && !Incomplete(f.request.cq) && Pairs(Headers(f)) == []
  }

  function OpenedBlind(w: World, r: RequestId): World
    requires r in w.flights
  {
    Reached(w, r, Opened(None, w.now))
  }

  lemma BlindOpens(w: World, r: RequestId)
    requires r in w.flights && Blind(w.flights[r])
    ensures Step(w, OpenCallback(r)) == OpenedBlind(w, r)
  {
    assert Step(w, OpenCallback(r)) == CallbackOpened(w, r);
  }

  /** The answer to a callback that opened nothing. */
  function AnswerTo(w: World, f: Flight): Flight { f.(stage := Decided(None, w.now, Down(w.limits))) }

  function Answered(w: World, r: RequestId): World
    requires r in w.flights
  {
    w.(flights := w.flights[r := AnswerTo(w, w.flights[r])])
  }

  ghost predicate Restarting(n: Names, f: Flight) {
    && f.request.CallbackRequest? && f.stage.Decided?
    && OutcomeOf(n, f, f.stage.open, f.stage.env).kind.Restart?
  }

  lemma BlindRestarts(n: Names, headers: seq<string>, q: CallbackQuery, env: Environment)
    requires Pairs(headers) == [] && !Incomplete(q)
    ensures var o := Decide(n, headers, q, None, env); o.kind.Restart? && o.created.None?
  {
    FailureIsRestartOrRefusal(n, headers, q, None, env);
    CallbackCookies(n, headers, q, None, env);
  }

  lemma BlindMayFinish(w: World, r: RequestId)
    requires r in w.flights && Blind(w.flights[r])
    ensures Enabled(OpenedBlind(w, r), FinishCallback(r, Down(w.limits), None))
  {
    BlindRestarts(w.n, Headers(w.flights[r]), w.flights[r].request.cq, Down(w.limits));
  }

  lemma BlindStoresNothing(w: World, r: RequestId)
    requires r in w.flights && Blind(w.flights[r])
    ensures CallbackFinished(OpenedBlind(w, r), r, Down(w.limits), None) == Answered(w, r)
  {
    BlindRestarts(w.n, Headers(w.flights[r]), w.flights[r].request.cq, Down(w.limits));
    assert w.log + [] == w.log && w.grants - {} == w.grants && w.spent + {} == w.spent;
  }

  lemma BlindFinishes(w: World, r: RequestId)
    requires r in w.flights && Blind(w.flights[r])
    ensures Step(OpenedBlind(w, r), FinishCallback(r, Down(w.limits), None)) == Answered(w, r)
  {
    BlindMayFinish(w, r);
    BlindStoresNothing(w, r);
  }

  /** The server takes a callback up and is done with it. */
  function Handling(l: Sessions.Limits, r: RequestId, rest: seq<Action>): seq<Action> {
    [OpenCallback(r)] + ([FinishCallback(r, Down(l), None)] + rest)
  }

  lemma BlindIsHandled(w: World, r: RequestId, rest: seq<Action>)
    requires r in w.flights && Blind(w.flights[r])
    ensures Run(w, Handling(w.limits, r, rest)) == Run(Answered(w, r), rest)
  {
    BlindOpens(w, r);
    BlindFinishes(w, r);
    RunOne(w, OpenCallback(r), [FinishCallback(r, Down(w.limits), None)] + rest);
    RunOne(OpenedBlind(w, r), FinishCallback(r, Down(w.limits), None), rest);
  }

  /** And then its browser is restarted. */
  lemma ItsBrowserRestarts(w: World, r: RequestId)
    requires r in w.flights && Restarting(w.n, w.flights[r])
    ensures Step(w, Arrive(r)) == Delivered(w, r)
    ensures Delivered(w, r).log == w.log + [Restarted(w.flights[r].client, w.now)]
  {}

  // ---- two tabs -------------------------------------------------------------------------

  function Sends(r: RequestId, q: CallbackQuery): Action { Send(r, 1, [], CallbackRequest(q)) }

  function Back(q: CallbackQuery): Flight { Flight(1, [], CallbackRequest(q), 0, 0, Sent) }

  function TwoTabs(q: CallbackQuery): seq<Action> {
    var l := Sessions.DEPLOYED;
    [Sends(0, q)] + ([Sends(1, q)] + Handling(l, 0, Handling(l, 1, [Arrive(0)] + ([Arrive(1)] + []))))
  }

  lemma OneBack(w: World, q: CallbackQuery, r: RequestId, rest: seq<Action>)
    requires w.now == 0 && w.log == [] && JarOf(w, 1) == map[] && r !in w.flights
    ensures Run(w, [Sends(r, q)] + rest) == Run(w.(flights := w.flights[r := Back(q)]), rest)
  {
    BareSent(w, q, r);
    RunOne(w, Sends(r, q), rest);
  }

  lemma BareSent(w: World, q: CallbackQuery, r: RequestId)
    requires w.now == 0 && w.log == [] && JarOf(w, 1) == map[] && r !in w.flights
    ensures Step(w, Sends(r, q)) == w.(flights := w.flights[r := Back(q)])
  {
    assert Carries([], map[], 0);
  }

  /** Both are on their way back, and the same. */
  ghost predicate Both(w: World, f: Flight) {
    w.flights.Keys == {0, 1} && w.flights[0] == f && w.flights[1] == f
  }

  lemma BothSent(w: World, q: CallbackQuery, rest: seq<Action>) returns (w': World)
    requires w.now == 0 && w.log == [] && JarOf(w, 1) == map[] && w.flights == map[]
    ensures Run(w, [Sends(0, q)] + ([Sends(1, q)] + rest)) == Run(w', rest)
    ensures Both(w', Back(q)) && w' == w.(flights := w'.flights)
  {
    OneBack(w, q, 0, [Sends(1, q)] + rest);
    var w1 := w.(flights := w.flights[0 := Back(q)]);
    OneBack(w1, q, 1, rest);
    w' := w1.(flights := w1.flights[1 := Back(q)]);
  }

  lemma BothHandled(w: World, f: Flight, rest: seq<Action>) returns (w': World)
    requires Both(w, f) && Blind(f)
    ensures Run(w, Handling(w.limits, 0, Handling(w.limits, 1, rest))) == Run(w', rest)
    ensures Both(w', AnswerTo(w, f)) && w' == w.(flights := w'.flights)
  {
    BlindIsHandled(w, 0, Handling(w.limits, 1, rest));
    var w1 := Answered(w, 0);
    assert w1.flights[1] == f;
    BlindIsHandled(w1, 1, rest);
    w' := Answered(w1, 1);
  }

  lemma BothArrive(w: World, f: Flight)
    requires Both(w, f) && Restarting(w.n, f)
    ensures Run(w, [Arrive(0)] + ([Arrive(1)] + [])).log
         == w.log + [Restarted(f.client, w.now)] + [Restarted(f.client, w.now)]
  {
    ItsBrowserRestarts(w, 0);
    RunOne(w, Arrive(0), [Arrive(1)] + []);
    var w1 := Delivered(w, 0);
    assert 1 in w1.flights && w1.flights[1] == f;
    ItsBrowserRestarts(w1, 1);
    RunOne(w1, Arrive(1), []);
  }

  /**
   Two tabs of a browser with an empty jar come back at the same moment, and neither sign-in
   can go on: both are restarted at once.
   */
  lemma TwoTabsRestart(n: Names, q: CallbackQuery)
    requires !Incomplete(q)
    ensures Initial(Alone(n, map[])) && ReadableJar(JarOf(Alone(n, map[]), 1))
    ensures Run(Alone(n, map[]), TwoTabs(q)).log == [Restarted(1, 0), Restarted(1, 0)]
  {
    BothRestart(Alone(n, map[]), q, [Arrive(0)] + ([Arrive(1)] + []));
  }

  lemma BothRestart(w: World, q: CallbackQuery, last: seq<Action>)
    requires w == Alone(w.n, map[]) && !Incomplete(q) && last == [Arrive(0)] + ([Arrive(1)] + [])
    ensures Run(w, [Sends(0, q)] + ([Sends(1, q)] + Handling(w.limits, 0, Handling(w.limits, 1, last)))).log
         == [Restarted(1, 0), Restarted(1, 0)]
  {
    var w1 := BothSent(w, q, Handling(w.limits, 0, Handling(w.limits, 1, last)));
    assert Headers(Back(q)) == [];
    var w2 := BothHandled(w1, Back(q), last);
    BlindRestarts(w.n, [], q, Down(w.limits));
    BothArrive(w2, AnswerTo(w1, Back(q)));
    assert [] + [Restarted(1, 0)] + [Restarted(1, 0)] == [Restarted(1, 0), Restarted(1, 0)];
  }

  // ---- a cookie that is not ASCII -------------------------------------------------------

  /** A callback that has just been sent, with nothing else on its way. */
  function Returning(w: World, c: Client, groups: seq<seq<Pair>>, q: CallbackQuery): World {
    w.(flights := map[0 := Flight(c, groups, CallbackRequest(q), w.now, |w.log|, Sent)])
  }

  /** One callback, from its browser and back, with nothing in between. */
  function Round(l: Sessions.Limits, c: Client, groups: seq<seq<Pair>>, q: CallbackQuery, rest: seq<Action>)
    : seq<Action>
  {
    [Send(0, c, groups, CallbackRequest(q))] + Handling(l, 0, [Arrive(0)] + rest)
  }

  function RoundEnd(w: World, c: Client, groups: seq<seq<Pair>>, q: CallbackQuery): World {
    Delivered(Answered(Returning(w, c, groups, q), 0), 0)
  }

  /** A callback that can be sent, and of which nothing will be read. */
  ghost predicate Unseeing(w: World, c: Client, groups: seq<seq<Pair>>, q: CallbackQuery) {
    && c != ADVERSARY && w.flights == map[] && Carries(groups, JarOf(w, c), w.now)
    && Pairs(PrintAll(groups)) == [] && !Incomplete(q)
  }

  lemma RoundBegins(w: World, c: Client, groups: seq<seq<Pair>>, q: CallbackQuery)
    requires Unseeing(w, c, groups, q)
    ensures Step(w, Send(0, c, groups, CallbackRequest(q))) == Returning(w, c, groups, q)
    ensures Blind(Returning(w, c, groups, q).flights[0])
  {}

  lemma RoundArrives(w: World, c: Client, groups: seq<seq<Pair>>, q: CallbackQuery)
    ensures Step(Answered(Returning(w, c, groups, q), 0), Arrive(0)) == RoundEnd(w, c, groups, q)
  {}

  lemma RoundEnds(w: World, c: Client, groups: seq<seq<Pair>>, q: CallbackQuery, rest: seq<Action>)
    requires Unseeing(w, c, groups, q)
    ensures Run(w, Round(w.limits, c, groups, q, rest)) == Run(RoundEnd(w, c, groups, q), rest)
  {
    RoundBegins(w, c, groups, q);
    RoundArrives(w, c, groups, q);
    RunOne(w, Send(0, c, groups, CallbackRequest(q)), Handling(w.limits, 0, [Arrive(0)] + rest));
    BlindIsHandled(Returning(w, c, groups, q), 0, [Arrive(0)] + rest);
    RunOne(Answered(Returning(w, c, groups, q), 0), Arrive(0), rest);
  }

  function AnswerToUnread(w: World, groups: seq<seq<Pair>>, q: CallbackQuery): seq<SetCookie> {
    Decide(w.n, PrintAll(groups), q, None, Down(w.limits)).response.cookies
  }

  lemma RoundIsTaken(w: World, c: Client, groups: seq<seq<Pair>>, q: CallbackQuery)
    ensures JarOf(RoundEnd(w, c, groups, q), c) == TakeAll(JarOf(w, c), AnswerToUnread(w, groups, q), w.now)
    ensures RoundEnd(w, c, groups, q).flights == map[]
  {}

  lemma RoundRestarts(w: World, c: Client, groups: seq<seq<Pair>>, q: CallbackQuery)
    requires Unseeing(w, c, groups, q)
    ensures var w' := RoundEnd(w, c, groups, q);
            && w'.log == w.log + [Restarted(c, w.now)] && w'.flights == map[] && w'.now == w.now && w'.n == w.n
            && JarOf(w', c) == TakeAll(JarOf(w, c), AnswerToUnread(w, groups, q), w.now)
  {
    BlindRestarts(w.n, PrintAll(groups), q, Down(w.limits));
    RoundIsTaken(w, c, groups, q);
    ItsBrowserRestarts(Answered(Returning(w, c, groups, q), 0), 0);
  }

  /** A callback leaves other people's cookies alone. */
  lemma OthersStay(n: Names, jar: Jar, headers: seq<string>, q: CallbackQuery, open: Opening, env: Environment,
                   now: nat, odd: string)
    requires odd in jar && !IsFlowName(n, odd) && odd != n.Retry() && odd != n.Session()
    ensures var after := TakeAll(jar, Decide(n, headers, q, open, env).response.cookies, now);
            odd in after && after[odd] == jar[odd]
  {
    var cs := Decide(n, headers, q, open, env).response.cookies;
    CallbackCookies(n, headers, q, open, env);
    forall c | c in cs ensures c.name != odd {
      if q.state.Some? { NamesAreDistinct(n, q.state.value, ""); }
    }
    Untouched(jar, cs, now, odd);
  }

  /** An odd cookie that a callback leaves alone. */
  ghost predicate ForeignCookie(n: Names, jar: Jar, now: nat, odd: string) {
    OddCookie(n, jar, now, odd) && odd != n.Retry() && odd != n.Session()
  }

  lemma UnreadRound(w: World, c: Client, odd: string, q: CallbackQuery) returns (groups: seq<seq<Pair>>)
    requires c != ADVERSARY && w.flights == map[] && !Incomplete(q) && ForeignCookie(w.n, JarOf(w, c), w.now, odd)
    ensures Unseeing(w, c, groups, q)
    ensures var w' := RoundEnd(w, c, groups, q);
            && w'.log == w.log + [Restarted(c, w.now)] && w'.flights == map[] && w'.now == w.now
            && ForeignCookie(w'.n, JarOf(w', c), w'.now, odd)
  {
    var pairs := OneHeader(JarOf(w, c), w.now);
    groups := [pairs];
    OddHeader(pairs, w.n, JarOf(w, c), w.now, odd);
    NothingRead(PrintAll(groups));
    RoundRestarts(w, c, groups, q);
    OthersStay(w.n, JarOf(w, c), PrintAll(groups), q, None, Down(w.limits), w.now, odd);
  }

  lemma WaitsFirst(w: World, a: Action, rest: seq<Action>, c: Client)
    requires Waits(w, a, c) && AlwaysWaits(Step(w, a), rest, c)
    ensures AlwaysWaits(w, [a] + rest, c)
  {
    assert ([a] + rest)[1..] == rest;
  }

  lemma HandlingWaits(w: World, c: Client, r: RequestId, rest: seq<Action>)
    requires r in w.flights && Blind(w.flights[r]) && AlwaysWaits(Answered(w, r), rest, c)
    ensures AlwaysWaits(w, Handling(w.limits, r, rest), c)
  {
    BlindOpens(w, r);
    BlindFinishes(w, r);
    WaitsFirst(OpenedBlind(w, r), FinishCallback(r, Down(w.limits), None), rest, c);
    WaitsFirst(w, OpenCallback(r), [FinishCallback(r, Down(w.limits), None)] + rest, c);
  }

  lemma RoundWaits(w: World, c: Client, groups: seq<seq<Pair>>, q: CallbackQuery, rest: seq<Action>)
    requires Unseeing(w, c, groups, q) && AlwaysWaits(RoundEnd(w, c, groups, q), rest, c)
    ensures AlwaysWaits(w, Round(w.limits, c, groups, q, rest), c)
  {
    RoundBegins(w, c, groups, q);
    RoundArrives(w, c, groups, q);
    WaitsFirst(Answered(Returning(w, c, groups, q), 0), Arrive(0), rest, c);
    HandlingWaits(Returning(w, c, groups, q), c, 0, [Arrive(0)] + rest);
    WaitsFirst(w, Send(0, c, groups, CallbackRequest(q)), Handling(w.limits, 0, [Arrive(0)] + rest), c);
  }

  /** With one live cookie that is not ASCII, a browser can be restarted any number of times at once. */
  lemma {:induction false} UnreadableCookieLoops(w: World, c: Client, odd: string, q: CallbackQuery, times: nat)
    returns (acts: seq<Action>)
    requires c != ADVERSARY && w.flights == map[] && !Incomplete(q) && ForeignCookie(w.n, JarOf(w, c), w.now, odd)
    ensures Run(w, acts).log == w.log + seq(times, _ => Restarted(c, w.now)) && AlwaysWaits(w, acts, c)
    decreases times
  {
    if times == 0 {
      acts := [];
      assert w.log + seq(0, _ => Restarted(c, w.now)) == w.log;
    } else {
      var groups := UnreadRound(w, c, odd, q);
      var rest := UnreadableCookieLoops(RoundEnd(w, c, groups, q), c, odd, q, times - 1);
      acts := Round(w.limits, c, groups, q, rest);
      RoundEnds(w, c, groups, q, rest);
      RoundWaits(w, c, groups, q, rest);
      OnceMore(w.log, Restarted(c, w.now), times);
    }
  }

  lemma OnceMore(log: seq<Note>, note: Note, times: nat)
    requires times > 0
    ensures log + [note] + seq(times - 1, _ => note) == log + seq(times, _ => note)
  {}

  /**
   A browser with the cookie of some other page, and nothing else, is restarted twice at once,
   although it has one callback on its way at a time.
   */
  lemma TwiceWithACity(n: Names, q: CallbackQuery) returns (acts: seq<Action>)
    requires !Incomplete(q)
    ensures Initial(Alone(n, CITY)) && AlwaysWaits(Alone(n, CITY), acts, 1)
    ensures Run(Alone(n, CITY), acts).log == [Restarted(1, 0), Restarted(1, 0)]
  {
    var w := Alone(n, CITY);
    CityIsOdd(n);
    assert |"city"| < |n.Retry()| && |"city"| < |n.Session()|;
    acts := UnreadableCookieLoops(w, 1, "city", q, 2);
    assert [] + seq(2, _ => Restarted(1, 0)) == [Restarted(1, 0), Restarted(1, 0)];
  }

  /** Either run breaks the spacing. */
  lemma TwoAtOnceAreNotApart()
    ensures !RestartsApart([Restarted(1, 0), Restarted(1, 0)], 1)
  {
    var log := [Restarted(1, 0), Restarted(1, 0)];
    assert IsRestart(log, 1, 0) && IsRestart(log, 1, 1);
    assert !SignInBetween(log, 1, 0, 1);
  }
}
