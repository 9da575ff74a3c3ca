/**
 Sign-in over whole runs: any number of browsers, each with its cookie jar, one server that
 keeps no flow state, and an identity provider.

 A request carries the cookies its browser holds when it is sent. The server takes it up later,
 a callback in two steps: it opens its flow, and it finishes when the provider has answered.
 The answer reaches the browser later still, and its Set-Cookies act on the jar of that moment.
 Any number of requests of any number of browsers may be on their way at once, and any of them
 may be lost. An action that is not enabled changes nothing. Times are milliseconds.

 The honest browsers' jars change only through the Set-Cookie headers of their own answers.
 Browser 0 is the adversary: it may send anything, and its jar may change to anything.
 */
module Worlds {
  import opened Options
  import opened Texts
  import opened Cookies
  import opened Flows
  import opened Handlers
  import opened Jars
  import Sessions

  type Client = nat
  const ADVERSARY: Client := 0

  /** A sign-in the server started: for whom, and what it sealed into the cookie value. */
  datatype Start = Start(client: Client, state: string, flow: Flow, at: nat)

  /** An authorization some user gave at the provider, to be exchanged for a token once. */
  datatype Grant = Grant(challenge: Challenge, nonce: string, sub: string)

  datatype Request = LoginRequest(lq: LoginQuery) | CallbackRequest(cq: CallbackQuery) | LogoutRequest | MeRequest

  /** How far the server is with a request; the last two are answers on their way back. */
  datatype Stage =
    | Sent
    | Opened(open: Opening, openedAt: nat)
    | Decided(open: Opening, openedAt: nat, env: Environment)
    | Served(cookies: seq<SetCookie>)

  type RequestId = nat

  /** A request on its way; `since` is how much of the log had happened when it was sent. */
  datatype Flight = Flight(client: Client, groups: seq<seq<Pair>>, request: Request, sentAt: nat, since: nat,
      stage: Stage)

  /**
   What happened: at the server, a session created, ended by its user, or asked for; and at a
   browser, the answer that restarted it, refused it, signed it in or signed it out. `signed`
   says whether the signature of the token verified, if need be with the keys fetched again.
   */
  datatype Note =
    | Stored(client: Client, at: nat, openedAt: nat, state: string, value: string, token: IdToken, signed: bool,
             grant: Grant, id: string)
    | Ended(id: string, at: nat)
    | Told(client: Client, at: nat, since: nat, user: Option<Sessions.Identity>)
    | Restarted(client: Client, at: nat)
    | Refused(client: Client, at: nat)
    | SignedIn(client: Client, at: nat, id: string)
    | SignedOut(client: Client, at: nat)

  datatype World = World(
    n: Names,
    limits: Sessions.Limits,
    now: nat,
    store: Sessions.Store,
    jars: map<Client, Jar>,
    starts: map<string, Start>,
    grants: map<string, Grant>,
    spent: set<string>,
    flights: map<RequestId, Flight>,
    log: seq<Note>)

  datatype Action =
    | Pass(dt: nat)
    | Tamper(jar: Jar)
    | Approve(code: string, grant: Grant)
    | Send(r: RequestId, client: Client, groups: seq<seq<Pair>>, request: Request)
    | Lose(r: RequestId)
    | ServeLogin(r: RequestId, up: bool, sealed: bool, m: Minted)
    | OpenCallback(r: RequestId)
    | FinishCallback(r: RequestId, env: Environment, victim: Option<string>)
    | ServeLogout(r: RequestId)
    | ServeMe(r: RequestId)
    | Arrive(r: RequestId)

  function JarOf(w: World, c: Client): Jar { if c in w.jars then w.jars[c] else map[] }

  function VaultOf(w: World): Vault {
    map v | v in w.starts :: Sealed(w.starts[v].state, w.starts[v].flow, w.starts[v].at / 1000)
  }

  // ---- what is new ----------------------------------------------------------------------

  function SentValues(groups: seq<seq<Pair>>): set<string> { set p | p in Flatten(groups) :: p.1 }

  function SetValues(cookies: seq<SetCookie>): set<string> { set c | c in cookies :: c.value }

  /** The values a request brought or its answer brings back. */
  function ValuesIn(f: Flight): set<string> {
    SentValues(f.groups)
    + (if f.stage.Served? then SetValues(f.stage.cookies) else {})
    + (if f.stage.Decided? && f.stage.env.id.Some? then {f.stage.env.id.value} else {})
  }

  predicate Mentions(note: Note, v: string) { (note.Stored? || note.Ended? || note.SignedIn?) && note.id == v }

  /** A freshly minted text: nobody has it, and nothing has been said of it. */
  ghost predicate Unseen(w: World, v: string) {
    && v !in w.starts
    && (forall c, k :: c in w.jars && k in w.jars[c] ==> w.jars[c][k].value != v)
    && (forall r :: r in w.flights ==> v !in ValuesIn(w.flights[r]))
    && (forall i :: 0 <= i < |w.log| ==> !Mentions(w.log[i], v))
  }

  // ---- serving --------------------------------------------------------------------------

  function Headers(f: Flight): seq<string> { PrintAll(f.groups) }

  /** The provider is asked, and answers with a token. */
  predicate Exchanged(q: CallbackQuery, open: Opening, env: Environment) {
    !Incomplete(q) && open.Some? && env.up && env.exchange.Token?
  }

  /**
   The provider answers an exchange with a token only for a code it granted and a verifier
   that hashes to the challenge of the grant (section 4.6 of RFC 7636); the token carries the
   grant's nonce and user (section 3.1.3.7 of OpenID Connect Core 1.0).
   */
  predicate ProviderAllows(w: World, q: CallbackQuery, open: Opening, env: Environment) {
    Exchanged(q, open, env) ==>
      && q.code.value in w.grants
      && (var g := w.grants[q.code.value];
          && g.challenge == S256(open.value.1.verifier)
          && env.exchange.token.nonce == g.nonce && env.exchange.token.identity.sub == g.sub)
  }

  function OutcomeOf(n: Names, f: Flight, open: Opening, env: Environment): Outcome
    requires f.request.CallbackRequest?
  {
    Decide(n, Headers(f), f.request.cq, open, env)
  }

  function SignInOf(w: World, c: Created): Sessions.SignIn {
    Sessions.SignIn(c.id, c.token.identity, c.token.authTime, w.now / 1000)
  }

  /** The store after a sign-in, with `victim` evicted. */
  function StoreAfter(w: World, c: Created, victim: Option<string>): Sessions.Store {
    var swept := Sessions.Swept(w.limits, w.store, w.now);
    Sessions.Store(Settled(Sessions.Put(w.limits, swept.held, victim, SignInOf(w, c), w.now), c), swept.lastSweep)
  }

  ghost predicate MayEvict(w: World, c: Created, victim: Option<string>) {
    Sessions.Evicts(w.limits, Sessions.Swept(w.limits, w.store, w.now).held, c.token.identity.sub, victim)
  }

  /** `SessionStore::get`. */
  function Looked(w: World, id: string): Option<Sessions.Session> {
    if id in w.store.held && Sessions.Live(w.limits, w.store.held[id], w.now) then Some(w.store.held[id]) else None
  }

  function StoreLooked(w: World, id: string): Sessions.Store {
    if Looked(w, id).Some? then w.store else w.store.(held := w.store.held - {id})
  }

  /** Looking a session up, storing one and ending one are steps of the store. */
  lemma LookingIsAStep(w: World, id: string)
    ensures Sessions.LazyStep(w.limits, w.store, Sessions.Get(id, w.now), Looked(w, id), StoreLooked(w, id))
  {}

  lemma StoringIsAStep(w: World, c: Created, victim: Option<string>)
    requires MayEvict(w, c, victim)
    ensures StoreMoved(w.limits, w.store, Some(c), Readings(w.now / 1000, w.now, w.now), StoreAfter(w, c, victim))
  {
    var swept := Sessions.Swept(w.limits, w.store, w.now);
    var mid := Sessions.Store(Sessions.Put(w.limits, swept.held, victim, SignInOf(w, c), w.now), swept.lastSweep);
    Sessions.InsertSteps(w.limits, w.store, SignInOf(w, c), w.now, w.now, swept, victim, mid);
    StoreMovesVia(w.limits, w.store, c, Readings(w.now / 1000, w.now, w.now), mid, StoreAfter(w, c, victim));
  }

  lemma EndingIsAStep(w: World, r: RequestId, id: string)
    requires r in w.flights && Read(Headers(w.flights[r]), w.n.Session()) == Some(id)
    ensures Sessions.LazyStep(w.limits, w.store, Sessions.Remove(id, w.now), None, LogoutServed(w, r).store)
  {}

  ghost predicate Enabled(w: World, a: Action) {
    match a
    case Pass(_) => true
    case Tamper(_) => true
    case Approve(code, _) => code !in w.grants && code !in w.spent
    case Send(r, c, groups, _) => r !in w.flights && (c != ADVERSARY ==> Carries(groups, JarOf(w, c), w.now))
    case Lose(r) => r in w.flights
    case ServeLogin(r, _, _, m) =>
      && r in w.flights && w.flights[r].request.LoginRequest? && w.flights[r].stage.Sent?
      && ValidState(m.state) && AllUrlSafe(m.value) && 1 < |m.value| && Unseen(w, m.value)
    case OpenCallback(r) =>
      r in w.flights && w.flights[r].request.CallbackRequest? && w.flights[r].stage.Sent?
    case FinishCallback(r, env, victim) =>
      && r in w.flights && w.flights[r].request.CallbackRequest? && w.flights[r].stage.Opened?
      && env.ttlSecs == w.limits.ttl / 1000
      && (env.id.Some? ==> AllUrlSafe(env.id.value) && Unseen(w, env.id.value))
      && ProviderAllows(w, w.flights[r].request.cq, w.flights[r].stage.open, env)
      && (var created := OutcomeOf(w.n, w.flights[r], w.flights[r].stage.open, env).created;
          created.Some? ==> MayEvict(w, created.value, victim))
    case ServeLogout(r) => r in w.flights && w.flights[r].request.LogoutRequest? && w.flights[r].stage.Sent?
    case ServeMe(r) => r in w.flights && w.flights[r].request.MeRequest? && w.flights[r].stage.Sent?
    case Arrive(r) =>
      && r in w.flights
      && (w.flights[r].stage.Served? || (w.flights[r].stage.Decided? && w.flights[r].request.CallbackRequest?))
  }

  function Reached(w: World, r: RequestId, stage: Stage): World
    requires r in w.flights
  {
    w.(flights := w.flights[r := w.flights[r].(stage := stage)])
  }

  function LoginServed(w: World, r: RequestId, up: bool, sealed: bool, m: Minted): World
    requires r in w.flights && w.flights[r].request.LoginRequest?
  {
    var f := w.flights[r];
    var w' := Reached(w, r, Served(LoginResponse(w.n, VaultOf(w), Headers(f), f.request.lq, up, sealed, m).cookies));
    if up && sealed then
      var flow := StartedFlow(f.request.lq, m.verifier, m.nonce);
      w'.(starts := w.starts[m.value := Start(f.client, m.state, flow, w.now)])
    else w'
  }

  function CallbackOpened(w: World, r: RequestId): World
    requires r in w.flights && w.flights[r].request.CallbackRequest?
  {
    var f := w.flights[r];
    Reached(w, r, Opened(OpenFor(w.n, VaultOf(w), Headers(f), f.request.cq, w.now / 1000), w.now))
  }

  function StoredNotes(w: World, f: Flight, env: Environment): seq<Note>
    requires f.request.CallbackRequest? && f.stage.Opened?
  {
    var q, open := f.request.cq, f.stage.open;
    var created := OutcomeOf(w.n, f, open, env).created;
    if created.Some? && !Incomplete(q) && open.Some? && q.code.value in w.grants then
      var signed := env.exchange.Token? && (env.exchange.verifies || env.exchange.again == Some(true));
      [Stored(f.client, w.now, f.stage.openedAt, q.state.value, open.value.0, created.value.token, signed,
              w.grants[q.code.value], created.value.id)]
    else []
  }

  function CallbackFinished(w: World, r: RequestId, env: Environment, victim: Option<string>): World
    requires r in w.flights && w.flights[r].request.CallbackRequest? && w.flights[r].stage.Opened?
  {
    var f := w.flights[r];
    var q, open := f.request.cq, f.stage.open;
    var created := OutcomeOf(w.n, f, open, env).created;
    var used := if Exchanged(q, open, env) then {q.code.value} else {};
    Reached(w, r, Decided(open, f.stage.openedAt, env)).(
      store := if created.Some? then StoreAfter(w, created.value, victim) else w.store,
      grants := w.grants - used,
      spent := w.spent + used,
      log := w.log + StoredNotes(w, f, env))
  }

  function LogoutNotes(w: World, f: Flight): seq<Note> {
    match Read(Headers(f), w.n.Session()) case None => [] case Some(id) => [Ended(id, w.now)]
  }

  function LogoutServed(w: World, r: RequestId): World
    requires r in w.flights
  {
    var id := Read(Headers(w.flights[r]), w.n.Session());
    Reached(w, r, Served([Clear(w.n.Session())])).(
      store := w.store.(held := Retired(w.store.held, id)),
      log := w.log + LogoutNotes(w, w.flights[r]))
  }

  /** Who `/auth/me` says is signed in. */
  function UserOf(w: World, f: Flight): Option<Sessions.Identity> {
    match Read(Headers(f), w.n.Session())
    case None => None
    case Some(id) => match Looked(w, id) case None => None case Some(s) => Some(s.identity)
  }

  function MeNote(w: World, f: Flight): Note { Told(f.client, w.now, f.since, UserOf(w, f)) }

  function MeServed(w: World, r: RequestId): World
    requires r in w.flights
  {
    var f := w.flights[r];
    var id := Read(Headers(f), w.n.Session());
    w.(flights := w.flights - {r},
       store := if id.Some? then StoreLooked(w, id.value) else w.store,
       log := w.log + [MeNote(w, f)])
  }

  // ---- arriving -------------------------------------------------------------------------

  /** The cookies an answer sets. */
  function AnswerCookies(n: Names, f: Flight): seq<SetCookie> {
    if f.stage.Served? then f.stage.cookies
    else if f.stage.Decided? && f.request.CallbackRequest? then
      OutcomeOf(n, f, f.stage.open, f.stage.env).response.cookies
    else []
  }

  function ArrivalNotes(w: World, f: Flight): seq<Note> {
    if f.request.LogoutRequest? then [SignedOut(f.client, w.now)]
    else if f.stage.Decided? && f.request.CallbackRequest? then
      var o := OutcomeOf(w.n, f, f.stage.open, f.stage.env);
      match o.kind
      case Restart => [Restarted(f.client, w.now)]
      case Refuse => [Refused(f.client, w.now)]
      case Complete => if o.created.Some? then [SignedIn(f.client, w.now, o.created.value.id)] else []
      case Other => []
    else []
  }

  function Delivered(w: World, r: RequestId): World
    requires r in w.flights
  {
    var f := w.flights[r];
    w.(jars := w.jars[f.client := TakeAll(JarOf(w, f.client), AnswerCookies(w.n, f), w.now)],
       flights := w.flights - {r},
       log := w.log + ArrivalNotes(w, f))
  }

  // ---- runs -----------------------------------------------------------------------------

  ghost function Step(w: World, a: Action): World {
    if !Enabled(w, a) then w
    else
      match a
      case Pass(dt) => w.(now := w.now + dt)
      case Tamper(jar) => w.(jars := w.jars[ADVERSARY := jar])
      case Approve(code, grant) => w.(grants := w.grants[code := grant])
      case Send(r, c, groups, request) =>
        w.(flights := w.flights[r := Flight(c, groups, request, w.now, |w.log|, Sent)])
      case Lose(r) => w.(flights := w.flights - {r})
      case ServeLogin(r, up, sealed, m) => LoginServed(w, r, up, sealed, m)
      case OpenCallback(r) => CallbackOpened(w, r)
      case FinishCallback(r, env, victim) => CallbackFinished(w, r, env, victim)
      case ServeLogout(r) => LogoutServed(w, r)
      case ServeMe(r) => MeServed(w, r)
      case Arrive(r) => Delivered(w, r)
  }

  /** What a step adds to the log: one note at most. */
  ghost function NotesOf(w: World, a: Action): seq<Note>
    requires Enabled(w, a)
  {
    match a
    case FinishCallback(r, env, _) => StoredNotes(w, w.flights[r], env)
    case ServeLogout(r) => LogoutNotes(w, w.flights[r])
    case ServeMe(r) => [MeNote(w, w.flights[r])]
    case Arrive(r) => ArrivalNotes(w, w.flights[r])
    case _ => []
  }

  lemma NotesAreOfNow(w: World, a: Action)
    requires Enabled(w, a)
    ensures |NotesOf(w, a)| <= 1 && forall note :: note in NotesOf(w, a) ==> note.at == w.now
  {}

  lemma LogStep(w: World, a: Action)
    ensures Enabled(w, a) ==>
              && Step(w, a).log == w.log + NotesOf(w, a) && |NotesOf(w, a)| <= 1
              && forall note :: note in NotesOf(w, a) ==> note.at == w.now
    ensures !Enabled(w, a) ==> Step(w, a) == w
    ensures Step(w, a).n == w.n && Step(w, a).limits == w.limits && w.now <= Step(w, a).now
  {
    if Enabled(w, a) { NotesAreOfNow(w, a); }
  }

  /** Two moments of one request. */
  predicate SameRequest(f: Flight, g: Flight) {
    f.client == g.client && f.groups == g.groups && f.request == g.request && f.sentAt == g.sentAt && f.since == g.since
  }

  /** Of the requests on their way, the server has moved one on; no browser knows of it yet. */
  ghost predicate Moved(w: World, w': World, q: RequestId) {
    && q in w.flights && q in w'.flights && w'.flights == w.flights[q := w'.flights[q]]
    && SameRequest(w.flights[q], w'.flights[q])
    && w'.jars == w.jars && w'.now == w.now
  }

  predicate IsServing(a: Action) { a.ServeLogin? || a.OpenCallback? || a.FinishCallback? || a.ServeLogout? }

  lemma LoginMoves(w: World, r: RequestId, up: bool, sealed: bool, m: Minted)
    requires r in w.flights && w.flights[r].request.LoginRequest?
    ensures Moved(w, LoginServed(w, r, up, sealed, m), r)
  {}

  lemma OpeningMoves(w: World, r: RequestId)
    requires r in w.flights && w.flights[r].request.CallbackRequest?
    ensures Moved(w, CallbackOpened(w, r), r)
  {}

  lemma FinishingMoves(w: World, r: RequestId, env: Environment, victim: Option<string>)
    requires r in w.flights && w.flights[r].request.CallbackRequest? && w.flights[r].stage.Opened?
    ensures Moved(w, CallbackFinished(w, r, env, victim), r)
  {}

  lemma ServingMoves(w: World, a: Action)
    requires Enabled(w, a) && IsServing(a)
    ensures Moved(w, Step(w, a), a.r)
  {
    match a
    case ServeLogin(r, up, sealed, m) => LoginMoves(w, r, up, sealed, m);
    case OpenCallback(r) => OpeningMoves(w, r);
    case FinishCallback(r, env, victim) => FinishingMoves(w, r, env, victim);
    case _ =>
  }

  /** A request on its way was so before, unless it has just been sent; only its own steps move it. */
  lemma FlightOrigin(w: World, a: Action, r: RequestId)
    requires Enabled(w, a) && r in Step(w, a).flights
    ensures (a.Send? && a.r == r) || (r in w.flights && SameRequest(w.flights[r], Step(w, a).flights[r]))
    ensures a.Send? && a.r == r ==> Step(w, a).flights[r] == Flight(a.client, a.groups, a.request, w.now, |w.log|, Sent)
    ensures a.Arrive? ==> r != a.r
  {
    if IsServing(a) { ServingMoves(w, a); }
  }

  /** The honest browsers' jars change with the answers that reach them. */
  lemma OnlyArrivalsAnswer(w: World, a: Action, c: Client)
    requires Enabled(w, a) && !a.Arrive? && c != ADVERSARY
    ensures JarOf(Step(w, a), c) == JarOf(w, c)
  {
    if IsServing(a) { ServingMoves(w, a); }
  }

  ghost function Run(w: World, acts: seq<Action>): World
    decreases acts
  {
    if acts == [] then w else Run(Step(w, acts[0]), acts[1..])
  }

  /** Nothing has happened yet; the jars may hold anything a browser can hold. */
  ghost predicate Initial(w: World) {
    && w.starts == map[] && w.flights == map[] && w.log == [] && w.store.held == map[]
    && forall c :: c in w.jars && c != ADVERSARY ==> PlainJar(w.jars[c])
  }
}
