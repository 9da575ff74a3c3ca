/**
 Inputs at which the limit of five sign-in cookies fails, although each request and each answer
 is handled as it should be: tabs that ask at the same moment, and cookies the server cannot
 read.
 */
module FailingTabs {
  import opened Options
  import opened Texts
  import opened Cookies
  import opened Flows
  import opened Handlers
  import opened Jars
  import opened Worlds
  import opened Tabs
  import Sessions

  // ---- several sign-ins at once -----------------------------------------------------------

  function TabOf(letter: char): Minted {
    var text := seq(16, _ => letter);
    Minted(text, text, text, text)
  }

  const SIX: seq<Minted> := seq(6, i requires 0 <= i < 6 => TabOf("abcdef"[i]))

  ghost predicate DistinctTabs(ms: seq<Minted>) {
    forall i, j :: 0 <= i < j < |ms| ==> ms[i].state != ms[j].state && ms[i].value != ms[j].value
  }

  /** Tabs as the server mints them, each unlike the others. */
  ghost predicate UsualTabs(ms: seq<Minted>) {
    (forall m :: m in ms ==> ValidState(m.state) && AllUrlSafe(m.value) && 1 < |m.value|) && DistinctTabs(ms)
  }

  lemma TabsDiffer(a: char, b: char)
    requires a != b
    ensures TabOf(a).state != TabOf(b).state && TabOf(a).value != TabOf(b).value
  {
    assert TabOf(a).state[0] == a && TabOf(b).state[0] == b;
  }

  lemma SixAreUsual()
    ensures UsualTabs(SIX)
  {
    forall i, j | 0 <= i < j < 6 ensures SIX[i].state != SIX[j].state && SIX[i].value != SIX[j].value {
      TabsDiffer("abcdef"[i], "abcdef"[j]);
    }
  }

  /** One browser, with its jar, and nothing that has happened. */
  function Alone(n: Names, jar: Jar): World {
    World(n, Sessions.DEPLOYED, 0, Sessions.Store(map[], 0), map[1 := jar], map[], map[], {}, map[], [])
  }

  lemma RunOne(w: World, a: Action, rest: seq<Action>)
    ensures Run(w, [a] + rest) == Run(Step(w, a), rest)
  {
    assert ([a] + rest)[1..] == rest;
  }

  /** A sign-in asked for without a cookie. */
  function Bare(q: LoginQuery): Flight { Flight(1, [], LoginRequest(q), 0, 0, Sent) }

  function SendBare(r: RequestId, q: LoginQuery): Action { Send(r, 1, [], LoginRequest(q)) }

  function SendAll(q: LoginQuery, count: nat): seq<Action> {
    if count == 0 then [] else SendAll(q, count - 1) + [SendBare(count - 1, q)]
  }

  function AnswerAll(ms: seq<Minted>, from: nat): seq<Action>
    decreases ms
  {
    if ms == [] then [] else Answering(from, ms[0], AnswerAll(ms[1..], from + 1))
  }

  /** Requests `from` up to `to` are bare sign-ins on their way. */
  ghost predicate OnTheirWay(w: World, q: LoginQuery, from: nat, to: nat) {
    && (forall r :: r in w.flights ==> from <= r < to)
    && (forall r: nat :: from <= r < to ==> r in w.flights && w.flights[r] == Bare(q))
  }

  function BareFlights(q: LoginQuery, count: nat): map<RequestId, Flight> {
    if count == 0 then map[] else BareFlights(q, count - 1)[count - 1 := Bare(q)]
  }

  /** The first `count` of them have been sent. */
  function Waiting(w: World, q: LoginQuery, count: nat): World { w.(flights := BareFlights(q, count)) }

  lemma {:induction false} BareAreOnTheirWay(w: World, q: LoginQuery, count: nat)
    ensures OnTheirWay(Waiting(w, q, count), q, 0, count)
  {
    if count > 0 { BareAreOnTheirWay(w, q, count - 1); }
  }

  lemma OneIsSent(w: World, q: LoginQuery, r: nat)
    requires w.now == 0 && w.log == [] && JarOf(w, 1) == map[]
    ensures Step(Waiting(w, q, r), SendBare(r, q)) == Waiting(w, q, r + 1)
  {
    BareAreOnTheirWay(w, q, r);
  }

  lemma LastIsSent(w: World, q: LoginQuery, before: nat, rest: seq<Action>)
    requires w.now == 0 && w.log == [] && JarOf(w, 1) == map[]
    ensures Run(Waiting(w, q, before), [SendBare(before, q)] + rest) == Run(Waiting(w, q, before + 1), rest)
  {
    OneIsSent(w, q, before);
    RunOne(Waiting(w, q, before), SendBare(before, q), rest);
  }

  lemma {:induction false} AllAreSent(w: World, q: LoginQuery, count: nat, rest: seq<Action>)
    requires w.now == 0 && w.log == [] && JarOf(w, 1) == map[]
    ensures Run(Waiting(w, q, 0), SendAll(q, count) + rest) == Run(Waiting(w, q, count), rest)
    decreases count
  {
    if count == 0 {
      assert SendAll(q, 0) + rest == rest;
    } else {
      var last := [SendBare(count - 1, q)];
      AllAreSent(w, q, count - 1, last + rest);
      LastIsSent(w, q, count - 1, rest);
      assert SendAll(q, count) + rest == SendAll(q, count - 1) + (last + rest);
    }
  }

  /** What was minted for a tab is new to everybody. */
  ghost predicate NewTab(w: World, c: Client, m: Minted) {
    && ValidState(m.state) && AllUrlSafe(m.value) && 1 < |m.value|
    && Unseen(w, m.value) && w.n.Flow(m.state) !in JarOf(w, c)
  }

  /** A sign-in of which the server reads no cookie. */
  ghost predicate Unread(f: Flight) {
    f.request.LoginRequest? && f.stage.Sent? && forall h :: h in Headers(f) ==> !Readable(h)
  }

  lemma OneFlowIsSet(n: Names, vault: Vault, headers: seq<string>, q: LoginQuery, m: Minted)
    requires (forall h :: h in headers ==> !Readable(h)) && ValidState(m.state) && AllUrlSafe(m.value)
    ensures LoginResponse(n, vault, headers, q, true, true, m).cookies == [FlowCookie(n, m)]
  {
    LoginAlwaysSets(n, vault, headers, q, m);
    UnreadableHeadersPruneNothing(n, vault, headers, m);
  }

  /** What the server seals for it. */
  function StartOf(w: World, f: Flight, m: Minted): Start
    requires f.request.LoginRequest?
  {
    Start(f.client, m.state, StartedFlow(f.request.lq, m.verifier, m.nonce), w.now)
  }

  function WithStart(w: World, r: RequestId, m: Minted): World
    requires r in w.flights && w.flights[r].request.LoginRequest?
  {
    Reached(w, r, Served([FlowCookie(w.n, m)])).(starts := w.starts[m.value := StartOf(w, w.flights[r], m)])
  }

  lemma ServedWithStart(w: World, r: RequestId, m: Minted)
    requires r in w.flights && Unread(w.flights[r]) && ValidState(m.state) && AllUrlSafe(m.value)
    ensures LoginServed(w, r, true, true, m) == WithStart(w, r, m)
  {
    OneFlowIsSet(w.n, VaultOf(w), Headers(w.flights[r]), w.flights[r].request.lq, m);
  }

  lemma UnreadIsServed(w: World, r: RequestId, m: Minted)
    requires r in w.flights && Unread(w.flights[r])
    requires ValidState(m.state) && AllUrlSafe(m.value) && 1 < |m.value| && Unseen(w, m.value)
    ensures Step(w, ServeLogin(r, true, true, m)) == WithStart(w, r, m)
  {
    ServedWithStart(w, r, m);
    assert Step(w, ServeLogin(r, true, true, m)) == LoginServed(w, r, true, true, m);
  }

  /** Its answer has reached the browser. */
  function Landed(w: World, r: RequestId, m: Minted): World
    requires r in w.flights && w.flights[r].request.LoginRequest?
  {
    var f := w.flights[r];
    w.(jars := w.jars[f.client := JarOf(w, f.client)[w.n.Flow(m.state) := Cookie(m.value, w.now + 1000 * FLOW_TTL)]],
       starts := w.starts[m.value := StartOf(w, f, m)],
       flights := w.flights - {r})
  }

  lemma FlowArrives(w: World, r: RequestId, m: Minted)
    requires r in w.flights && w.flights[r].request.LoginRequest?
    ensures Step(WithStart(w, r, m), Arrive(r)) == Landed(w, r, m)
  {
    var w1 := WithStart(w, r, m);
    OneTaken(JarOf(w, w.flights[r].client), FlowCookie(w.n, m), w.now);
    assert w.log + [] == w.log && w1.flights - {r} == w.flights - {r};
    assert Step(w1, Arrive(r)) == Delivered(w1, r);
  }

  function Answering(r: RequestId, m: Minted, rest: seq<Action>): seq<Action> {
    [ServeLogin(r, true, true, m)] + ([Arrive(r)] + rest)
  }

  lemma UnreadLands(w: World, r: RequestId, m: Minted, rest: seq<Action>)
    requires r in w.flights && Unread(w.flights[r]) && NewTab(w, w.flights[r].client, m)
    ensures Run(w, Answering(r, m, rest)) == Run(Landed(w, r, m), rest)
  {
    UnreadIsServed(w, r, m);
    FlowArrives(w, r, m);
    RunOne(w, ServeLogin(r, true, true, m), [Arrive(r)] + rest);
    RunOne(WithStart(w, r, m), Arrive(r), rest);
  }

  lemma LandedJar(w: World, r: RequestId, m: Minted)
    requires r in w.flights && w.flights[r].request.LoginRequest?
    ensures var c := w.flights[r].client;
            JarOf(Landed(w, r, m), c) == Take(JarOf(w, c), FlowCookie(w.n, m), w.now)
  {}

  lemma LandedAddsOne(w: World, r: RequestId, m: Minted)
    requires r in w.flights && w.flights[r].request.LoginRequest? && NewTab(w, w.flights[r].client, m)
    ensures var c := w.flights[r].client;
            |FlowNames(w.n, JarOf(Landed(w, r, m), c), w.now)| == |FlowNames(w.n, JarOf(w, c), w.now)| + 1
  {
    LandedJar(w, r, m);
    OneFlowMore(w.n, JarOf(w, w.flights[r].client), m, w.now);
  }

  lemma StillNew(w: World, r: RequestId, m: Minted, next: Minted)
    requires r in w.flights && w.flights[r].request.LoginRequest?
    requires NewTab(w, w.flights[r].client, next) && next.state != m.state && next.value != m.value
    ensures NewTab(Landed(w, r, m), w.flights[r].client, next)
  {
    var w', c := Landed(w, r, m), w.flights[r].client;
    forall d, k | d in w'.jars && k in w'.jars[d] ensures w'.jars[d][k].value != next.value {
      if d == c && k != w.n.Flow(m.state) { assert k in JarOf(w, c); }
    }
    NamesAreDistinct(w.n, m.state, next.state);
  }

  ghost predicate NewTabs(w: World, c: Client, ms: seq<Minted>) {
    (forall m :: m in ms ==> NewTab(w, c, m)) && DistinctTabs(ms)
  }

  lemma RestStaysNew(w: World, r: RequestId, ms: seq<Minted>)
    requires ms != [] && r in w.flights && w.flights[r].request.LoginRequest?
    requires NewTabs(w, w.flights[r].client, ms)
    ensures NewTabs(Landed(w, r, ms[0]), w.flights[r].client, ms[1..])
  {
    forall m | m in ms[1..] ensures NewTab(Landed(w, r, ms[0]), w.flights[r].client, m) {
      var i :| 0 < i < |ms| && ms[i] == m;
      StillNew(w, r, ms[0], m);
    }
  }

  lemma FirstIsUnread(w: World, q: LoginQuery, from: nat, to: nat)
    requires from < to && OnTheirWay(w, q, from, to)
    ensures from in w.flights && w.flights[from] == Bare(q) && Unread(w.flights[from])
  {
    assert Headers(Bare(q)) == [];
  }

  lemma OthersStayOnTheirWay(w: World, q: LoginQuery, m: Minted, from: nat, to: nat)
    requires from < to && OnTheirWay(w, q, from, to)
    ensures OnTheirWay(Landed(w, from, m), q, from + 1, to)
  {}

  /** The first of them is answered, and the others stay on their way. */
  lemma FirstLands(w: World, q: LoginQuery, ms: seq<Minted>, from: nat, rest: seq<Action>)
    requires ms != [] && from in w.flights && w.flights[from] == Bare(q) && Unread(w.flights[from])
    requires NewTabs(w, 1, ms)
    ensures Run(w, Answering(from, ms[0], rest)) == Run(Landed(w, from, ms[0]), rest)
    ensures NewTabs(Landed(w, from, ms[0]), 1, ms[1..])
    ensures |FlowNames(w.n, JarOf(Landed(w, from, ms[0]), 1), w.now)| == |FlowNames(w.n, JarOf(w, 1), w.now)| + 1
  {
    assert NewTab(w, 1, ms[0]);
    UnreadLands(w, from, ms[0], rest);
    LandedAddsOne(w, from, ms[0]);
    RestStaysNew(w, from, ms);
  }

  lemma {:induction false} AllAreAnswered(w: World, q: LoginQuery, ms: seq<Minted>, from: nat)
    requires OnTheirWay(w, q, from, from + |ms|) && NewTabs(w, 1, ms)
    ensures var w' := Run(w, AnswerAll(ms, from));
            && w'.n == w.n && w'.now == w.now
            && |FlowNames(w.n, JarOf(w', 1), w.now)| == |FlowNames(w.n, JarOf(w, 1), w.now)| + |ms|
    decreases ms
  {
    if ms != [] {
      var rest := AnswerAll(ms[1..], from + 1);
      FirstIsUnread(w, q, from, from + |ms|);
      FirstLands(w, q, ms, from, rest);
      OthersStayOnTheirWay(w, q, ms[0], from, from + |ms|);
      AllAreAnswered(Landed(w, from, ms[0]), q, ms[1..], from + 1);
    }
  }

  lemma TabsAreReady(w: World, q: LoginQuery, ms: seq<Minted>)
    requires w == Alone(w.n, map[]) && UsualTabs(ms)
    ensures OnTheirWay(Waiting(w, q, |ms|), q, 0, |ms|) && NewTabs(Waiting(w, q, |ms|), 1, ms)
  {
    BareAreOnTheirWay(w, q, |ms|);
    forall m | m in ms ensures NewTab(Waiting(w, q, |ms|), 1, m) {
      BareIsUnseen(Waiting(w, q, |ms|), q, |ms|, m.value);
    }
  }

  lemma BareIsUnseen(w: World, q: LoginQuery, to: nat, v: string)
    requires OnTheirWay(w, q, 0, to) && w.starts == map[] && w.log == [] && w.jars == map[1 := map[]]
    ensures Unseen(w, v)
  {
    forall r | r in w.flights ensures v !in ValuesIn(w.flights[r]) { assert Flatten(w.flights[r].groups) == []; }
  }

  function TabsAtOnce(q: LoginQuery, ms: seq<Minted>): seq<Action> { SendAll(q, |ms|) + AnswerAll(ms, 0) }

  /** However many tabs of a browser with an empty jar ask before any of them is answered, it holds all their flows. */
  lemma TabsAtOnceAddUp(n: Names, q: LoginQuery, ms: seq<Minted>)
    requires UsualTabs(ms)
    ensures var w' := Run(Alone(n, map[]), TabsAtOnce(q, ms)); |FlowNames(w'.n, JarOf(w', 1), w'.now)| == |ms|
  {
    var w := Alone(n, map[]);
    AllAreSent(w, q, |ms|, AnswerAll(ms, 0));
    TabsAreReady(w, q, ms);
    assert FlowNames(n, map[], 0) == {};
    AllAreAnswered(Waiting(w, q, |ms|), q, ms, 0);
  }

  /** Six are one too many. */
  lemma SixTabsHoldSix(n: Names, q: LoginQuery)
    ensures Initial(Alone(n, map[])) && ReadableJar(JarOf(Alone(n, map[]), 1))
    ensures var w' := Run(Alone(n, map[]), TabsAtOnce(q, SIX));
            |FlowNames(w'.n, JarOf(w', 1), w'.now)| == MAX_FLOW_COOKIES + 1
  {
    SixAreUsual();
    TabsAtOnceAddUp(n, q, SIX);
  }

  // ---- a cookie that is not ASCII ------------------------------------------------------------

  lemma {:induction false} Listing(m: map<string, string>) returns (pairs: seq<Pair>)
    ensures Unique(pairs) && forall p :: p in pairs <==> p.0 in m && m[p.0] == p.1
    decreases |m|
  {
    if m == map[] {
      pairs := [];
    } else {
      var k :| k in m;
      assert m.Keys == (m - {k}).Keys + {k};
      var rest := Listing(m - {k});
      pairs := [(k, m[k])] + rest;
    }
  }

  /** A browser can send all it holds in one header. */
  lemma OneHeader(jar: Jar, now: nat) returns (pairs: seq<Pair>)
    ensures Carries([pairs], jar, now)
    ensures forall k :: k in Live(jar, now) ==> (k, Live(jar, now)[k]) in pairs
  {
    pairs := Listing(Live(jar, now));
    UniqueIndices(pairs);
    var groups := [pairs];
    assert groups[1..] == [] && Flatten(groups) == pairs;
  }

  /** A live cookie of some other page that is not ASCII. */
  ghost predicate OddCookie(n: Names, jar: Jar, now: nat, odd: string) {
    odd in jar && now < jar[odd].expires && !Readable(jar[odd].value) && !IsFlowName(n, odd)
  }

  lemma OddHeader(pairs: seq<Pair>, n: Names, jar: Jar, now: nat, odd: string)
    requires OddCookie(n, jar, now, odd)
    requires forall k :: k in Live(jar, now) ==> (k, Live(jar, now)[k]) in pairs
    ensures forall h :: h in PrintAll([pairs]) ==> !Readable(h)
  {
    assert (odd, Live(jar, now)[odd]) in pairs;
    NoneReadable([pairs]);
  }

  /** A sign-in that has just been sent, with nothing else on its way. */
  function Asked(w: World, c: Client, groups: seq<seq<Pair>>, q: LoginQuery): World {
    w.(flights := map[0 := Flight(c, groups, LoginRequest(q), w.now, |w.log|, Sent)])
  }

  lemma AskedAreNew(w: World, c: Client, groups: seq<seq<Pair>>, q: LoginQuery, ms: seq<Minted>)
    requires w.flights == map[] && Carries(groups, JarOf(w, c), w.now) && NewTabs(w, c, ms)
    ensures NewTabs(Asked(w, c, groups, q), c, ms)
  {
    forall m | m in ms ensures NewTab(Asked(w, c, groups, q), c, m) {
      assert NewTab(w, c, m);
      forall p | p in Flatten(groups) ensures p.1 != m.value { assert p.0 in JarOf(w, c); }
    }
  }

  lemma UnreadSignIn(w: World, c: Client, odd: string, q: LoginQuery) returns (groups: seq<seq<Pair>>)
    requires c != ADVERSARY && w.flights == map[] && OddCookie(w.n, JarOf(w, c), w.now, odd)
    ensures Carries(groups, JarOf(w, c), w.now) && Unread(Asked(w, c, groups, q).flights[0])
    ensures Step(w, Send(0, c, groups, LoginRequest(q))) == Asked(w, c, groups, q)
  {
    var pairs := OneHeader(JarOf(w, c), w.now);
    groups := [pairs];
    OddHeader(pairs, w.n, JarOf(w, c), w.now, odd);
  }

  lemma OddStays(w: World, r: RequestId, m: Minted, odd: string)
    requires r in w.flights && w.flights[r].request.LoginRequest?
    requires OddCookie(w.n, JarOf(w, w.flights[r].client), w.now, odd)
    ensures OddCookie(w.n, JarOf(Landed(w, r, m), w.flights[r].client), w.now, odd)
  {
    NamesAreDistinct(w.n, m.state, m.state);
  }

  lemma StartsFirst(w: World, a: Action, rest: seq<Action>, c: Client)
    requires StartsAlone(w, a, c) && AlwaysStartsAlone(Step(w, a), rest, c)
    ensures AlwaysStartsAlone(w, [a] + rest, c)
  {
    assert ([a] + rest)[1..] == rest;
  }

  lemma LandsAlone(w: World, c: Client, r: RequestId, m: Minted, rest: seq<Action>)
    requires r in w.flights && Unread(w.flights[r]) && NewTab(w, w.flights[r].client, m)
    requires AlwaysStartsAlone(Landed(w, r, m), rest, c)
    ensures AlwaysStartsAlone(w, Answering(r, m, rest), c)
  {
    UnreadIsServed(w, r, m);
    FlowArrives(w, r, m);
    StartsFirst(WithStart(w, r, m), Arrive(r), rest, c);
    StartsFirst(w, ServeLogin(r, true, true, m), [Arrive(r)] + rest, c);
  }

  /** Sign-ins that are each asked for and answered alone. */
  lemma {:induction false} UnreadableCookieAddsUp(w: World, c: Client, odd: string, q: LoginQuery, ms: seq<Minted>)
    returns (acts: seq<Action>)
    requires c != ADVERSARY && w.flights == map[] && OddCookie(w.n, JarOf(w, c), w.now, odd) && NewTabs(w, c, ms)
    ensures AlwaysStartsAlone(w, acts, c)
    ensures var w' := Run(w, acts);
            && w'.n == w.n && w'.now == w.now
            && |FlowNames(w.n, JarOf(w', c), w.now)| == |FlowNames(w.n, JarOf(w, c), w.now)| + |ms|
    decreases ms
  {
    if ms == [] {
      acts := [];
    } else {
      var groups := UnreadSignIn(w, c, odd, q);
      var w1, send := Asked(w, c, groups, q), Send(0, c, groups, LoginRequest(q));
      AskedAreNew(w, c, groups, q, ms);
      assert NewTab(w1, c, ms[0]);
      LandedAddsOne(w1, 0, ms[0]);
      RestStaysNew(w1, 0, ms);
      OddStays(w1, 0, ms[0], odd);
      var rest := UnreadableCookieAddsUp(Landed(w1, 0, ms[0]), c, odd, q, ms[1..]);
      var answer := Answering(0, ms[0], rest);
      acts := [send] + answer;
      RunOne(w, send, answer);
      UnreadLands(w1, 0, ms[0], rest);
      LandsAlone(w1, c, 0, ms[0], rest);
      StartsFirst(w, send, answer, c);
    }
  }

  /** A cookie of somebody else's. */
  const CITY: Jar := map["city" := Cookie("K\U{F6}ln", 1_000)]

  lemma CityIsOdd(n: Names)
    ensures PlainJar(CITY) && !Readable(CITY["city"].value) && !IsFlowName(n, "city") && FlowNames(n, CITY, 0) == {}
  {
    assert !ReadableChar(CITY["city"].value[1]);
    assert |"city"| < |n.FlowPrefix()|;
  }

  /** Minted values are ASCII, and flow names are longer. */
  lemma NewInTheCity(n: Names, m: Minted)
    requires ValidState(m.state) && AllUrlSafe(m.value) && 1 < |m.value|
    ensures NewTab(Alone(n, CITY), 1, m)
  {
    assert !UrlSafe(CITY["city"].value[1]);
    assert |n.Flow(m.state)| > |"city"|;
  }

  /**
   A browser that holds it, and nothing else, signs in six times, one after the other, and is
   left with six flows.
   */
  lemma SixWithACity(n: Names, q: LoginQuery) returns (acts: seq<Action>)
    ensures Initial(Alone(n, CITY)) && AlwaysStartsAlone(Alone(n, CITY), acts, 1)
    ensures var w' := Run(Alone(n, CITY), acts);
            |FlowNames(w'.n, JarOf(w', 1), w'.now)| == MAX_FLOW_COOKIES + 1
  {
    CityIsOdd(n);
    SixAreUsual();
    forall m | m in SIX ensures NewTab(Alone(n, CITY), 1, m) { NewInTheCity(n, m); }
    acts := UnreadableCookieAddsUp(Alone(n, CITY), 1, "city", q, SIX);
  }
}
