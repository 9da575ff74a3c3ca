/**
 Who is signed in: what `/auth/me` tells a browser, in every run of the world.
 */
module Seats {
  import opened Clocks
  import opened Options
  import opened Cookies
  import opened Flows
  import opened Handlers
  import opened Jars
  import opened Worlds
  import opened Bindings
  import opened Loops
  import Sessions

  // ---- what the log says ----------------------------------------------------------------

  /** The session of a browser's last completed sign-in, unless it signed out since. */
  function SeatOf(log: seq<Note>, c: Client): Option<string> {
    if log == [] then None
    else
      var last := log[|log| - 1];
      if last.SignedIn? && last.client == c then Some(last.id)
      else if last.SignedOut? && last.client == c then None
      else SeatOf(log[..|log| - 1], c)
  }

  /** The browser's last sign-in or sign-out is the sign-in at `k`. */
  ghost predicate LastSeat(log: seq<Note>, c: Client, k: nat) {
    && k < |log| && log[k].SignedIn? && log[k].client == c
    && forall j :: k < j < |log| && (log[j].SignedIn? || log[j].SignedOut?) ==> log[j].client != c
  }

  lemma {:induction false} SeatIsLast(log: seq<Note>, c: Client, id: string)
    ensures SeatOf(log, c) == Some(id) <==> exists k: nat :: LastSeat(log, c, k) && log[k].id == id
  {
    if log != [] {
      var rest, last := log[..|log| - 1], log[|log| - 1];
      SeatIsLast(rest, c, id);
      if last.SignedIn? && last.client == c {
        assert LastSeat(log, c, |log| - 1);
      } else if !(last.SignedOut? && last.client == c) {
        forall k: nat | k < |rest| ensures LastSeat(log, c, k) <==> LastSeat(rest, c, k) { SeatLater(log, c, k); }
      }
    }
  }

  lemma SeatLater(log: seq<Note>, c: Client, k: nat)
    requires k < |log| - 1
    requires var last := log[|log| - 1]; last.SignedIn? || last.SignedOut? ==> last.client != c
    ensures LastSeat(log, c, k) <==> LastSeat(log[..|log| - 1], c, k)
  {
    var rest := log[..|log| - 1];
    assert forall j :: 0 <= j < |rest| ==> rest[j] == log[j];
  }

  ghost predicate IsStored(log: seq<Note>, i: nat, id: string) { i < |log| && log[i].Stored? && log[i].id == id }

  ghost predicate WasStored(log: seq<Note>, id: string) { exists i: nat :: IsStored(log, i, id) }

  ghost predicate WasEnded(log: seq<Note>, id: string) {
    exists i: nat :: i < |log| && log[i].Ended? && log[i].id == id
  }

  /** A session is created once. */
  ghost predicate IdsUnique(log: seq<Note>) {
    forall i: nat, j: nat, id: string :: IsStored(log, i, id) && IsStored(log, j, id) ==> i == j
  }

  /** Whoever was signed in had a session created for them. */
  ghost predicate SignInsBacked(log: seq<Note>) {
    forall i: nat ::
        i < |log| && log[i].SignedIn? ==> exists j: nat :: IsStored(log, j, log[i].id) && log[j].client == log[i].client
  }

  // ---- what every step keeps ------------------------------------------------------------

  /** A session as its record says it was created. */
  predicate IsSessionOf(s: Sessions.Session, note: Note) {
    note.Stored? && s.identity == note.token.identity && s.created == note.at
  }

  /** The store holds sessions that were created and not ended, as they were created. */
  ghost predicate HeldBacked(log: seq<Note>, held: map<string, Sessions.Session>) {
    forall id :: id in held ==>
      && !WasEnded(log, id)
      && exists i: nat :: IsStored(log, i, id) && IsSessionOf(held[id], log[i])
  }

  ghost predicate SeatedIn(log: seq<Note>, since: nat, c: Client, id: string)
    requires since <= |log|
  {
    WasStored(log, id) ==> SeatOf(log[..since], c) == Some(id)
  }

  /** A session cookie in an honest jar is that of its last completed sign-in. */
  ghost predicate JarSeated(w: World, c: Client) {
    w.n.Session() in JarOf(w, c) ==> SeatedIn(w.log, |w.log|, c, JarOf(w, c)[w.n.Session()].value)
  }

  /** And in a request, that of the last one when it was sent. */
  ghost predicate RequestSeated(w: World, f: Flight) {
    && f.since <= |w.log|
    && (f.client != ADVERSARY ==>
          forall p :: p in Flatten(f.groups) && p.0 == w.n.Session() ==> SeatedIn(w.log, f.since, f.client, p.1))
  }

  /** Which answers set a session cookie, and to what. */
  ghost predicate AnswerSeated(w: World, f: Flight) {
    match f.stage
    case Sent => true
    case Opened(_, _) => true
    case Served(cookies) =>
      || (f.request.LoginRequest? && forall s :: s in cookies ==> s.name != w.n.Session())
      || (f.request.LogoutRequest? && cookies == [Clear(w.n.Session())])
    case Decided(open, _, env) =>
      f.request.CallbackRequest? &&
      (OutcomeOf(w.n, f, open, env).created.Some? ==>
         env.id.Some? && exists i: nat :: IsStored(w.log, i, env.id.value) && w.log[i].client == f.client)
  }

  ghost predicate FlightsSeated(w: World) {
    forall r :: r in w.flights ==> RequestSeated(w, w.flights[r]) && AnswerSeated(w, w.flights[r])
  }

  ghost predicate JarsSeated(w: World) { forall c :: c != ADVERSARY ==> JarSeated(w, c) }

  ghost predicate Seated(w: World) {
    && JarsSeated(w) && FlightsSeated(w) && HeldBacked(w.log, w.store.held)
    && IdsUnique(w.log) && SignInsBacked(w.log)
  }

  // ---- how the log grows ----------------------------------------------------------------

  lemma {:induction false} SeatOfAppend(log: seq<Note>, note: Note, c: Client)
    ensures SeatOf(log + [note], c) ==
              if note.SignedIn? && note.client == c then Some(note.id)
              else if note.SignedOut? && note.client == c then None
              else SeatOf(log, c)
  {
    assert (log + [note])[..|log|] == log;
  }

  lemma StoredAppend(log: seq<Note>, note: Note, id: string)
    ensures WasStored(log + [note], id) <==> WasStored(log, id) || (note.Stored? && note.id == id)
    ensures forall i: nat :: i < |log| ==> (IsStored(log + [note], i, id) <==> IsStored(log, i, id))
  {
    var grown := log + [note];
    if WasStored(log, id) {
      var i: nat :| IsStored(log, i, id);
      assert IsStored(grown, i, id);
    }
    if note.Stored? && note.id == id { assert IsStored(grown, |log|, id); }
    if WasStored(grown, id) {
      var i: nat :| IsStored(grown, i, id);
      if i < |log| { assert IsStored(log, i, id); }
    }
  }

  lemma EndedAppend(log: seq<Note>, note: Note, id: string)
    ensures WasEnded(log + [note], id) <==> WasEnded(log, id) || (note.Ended? && note.id == id)
  {
    var grown := log + [note];
    if WasEnded(log, id) {
      var i: nat :| i < |log| && log[i].Ended? && log[i].id == id;
      assert grown[i] == log[i];
    }
    if note.Ended? && note.id == id { assert grown[|log|] == note; }
  }

  /** A note that creates nothing leaves what is said of sessions and seats. */
  ghost predicate Quiet(note: Note) { !note.Stored? && !note.SignedIn? && !note.SignedOut? }

  lemma SeatedAppend(log: seq<Note>, note: Note, since: nat, c: Client, id: string)
    requires since <= |log| && SeatedIn(log, since, c, id) && !(note.Stored? && note.id == id)
    ensures SeatedIn(log + [note], since, c, id)
  {
    StoredAppend(log, note, id);
    assert (log + [note])[..since] == log[..since];
  }

  lemma UniqueAppend(log: seq<Note>, note: Note)
    requires IdsUnique(log) && SignInsBacked(log)
    requires note.Stored? ==> !WasStored(log, note.id)
    requires note.SignedIn? ==> exists j: nat :: IsStored(log, j, note.id) && log[j].client == note.client
    ensures IdsUnique(log + [note]) && SignInsBacked(log + [note])
  {
    var grown := log + [note];
    forall i: nat, j: nat, id: string | IsStored(grown, i, id) && IsStored(grown, j, id) ensures i == j {
      StoredAppend(log, note, id);
      if i < |log| { assert IsStored(log, i, id); }
      if j < |log| { assert IsStored(log, j, id); }
    }
    forall i: nat | i < |grown| && grown[i].SignedIn?
      ensures exists j: nat :: IsStored(grown, j, grown[i].id) && grown[j].client == grown[i].client
    {
      var j: nat :| IsStored(log, j, grown[i].id) && log[j].client == grown[i].client;
      assert IsStored(grown, j, grown[i].id) && grown[j] == log[j];
    }
  }

  lemma BackedAppend(log: seq<Note>, note: Note, held: map<string, Sessions.Session>)
    requires HeldBacked(log, held) && (note.Ended? ==> note.id !in held)
    ensures HeldBacked(log + [note], held)
  {
    forall id | id in held
      ensures !WasEnded(log + [note], id)
      ensures exists i: nat :: IsStored(log + [note], i, id) && IsSessionOf(held[id], (log + [note])[i])
    {
      EndedAppend(log, note, id);
      var i: nat :| IsStored(log, i, id) && IsSessionOf(held[id], log[i]);
      assert IsStored(log + [note], i, id) && (log + [note])[i] == log[i];
    }
  }

  lemma StoredStays(log: seq<Note>, note: Note, id: string, c: Client)
    requires exists i: nat :: IsStored(log, i, id) && log[i].client == c
    ensures exists i: nat :: IsStored(log + [note], i, id) && (log + [note])[i].client == c
  {
    var i: nat :| IsStored(log, i, id) && log[i].client == c;
    assert IsStored(log + [note], i, id) && (log + [note])[i] == log[i];
  }

  lemma FlightAppend(w: World, w': World, note: Note, f: Flight)
    requires RequestSeated(w, f) && AnswerSeated(w, f)
    requires w'.n == w.n && w'.log == w.log + [note]
    requires note.Stored? ==> note.id !in SentValues(f.groups)
    ensures RequestSeated(w', f) && AnswerSeated(w', f)
  {
    if f.client != ADVERSARY {
      forall p | p in Flatten(f.groups) && p.0 == w.n.Session() ensures SeatedIn(w'.log, f.since, f.client, p.1) {
        assert p.1 in SentValues(f.groups);
        SeatedAppend(w.log, note, f.since, f.client, p.1);
      }
    }
    if f.stage.Decided? && OutcomeOf(w.n, f, f.stage.open, f.stage.env).created.Some? {
      StoredStays(w.log, note, f.stage.env.id.value, f.client);
    }
  }

  lemma JarAppend(w: World, w': World, note: Note, c: Client)
    requires JarSeated(w, c) && w'.n == w.n && w'.log == w.log + [note] && JarOf(w', c) == JarOf(w, c)
    requires note.Stored? ==> forall k :: k in JarOf(w, c) ==> JarOf(w, c)[k].value != note.id
    requires (note.SignedIn? || note.SignedOut?) ==> note.client != c
    ensures JarSeated(w', c)
  {
    var s := w.n.Session();
    if s in JarOf(w, c) {
      var id := JarOf(w, c)[s].value;
      SeatedAppend(w.log, note, |w.log|, c, id);
      SeatOfAppend(w.log, note, c);
      assert w.log[..|w.log|] == w.log && w'.log[..|w'.log|] == w'.log && w'.log[..|w.log|] == w.log;
    }
  }

  /** Nothing has changed for the browsers. */
  ghost predicate SameForAll(w: World, w': World) {
    w'.n == w.n && w'.jars == w.jars && w'.flights == w.flights
  }

  lemma UnnotedKeeps(w: World, w': World)
    requires Seated(w) && SameForAll(w, w') && w'.log == w.log && HeldBacked(w.log, w'.store.held)
    ensures Seated(w')
  {
    forall r | r in w'.flights ensures RequestSeated(w', w'.flights[r]) && AnswerSeated(w', w'.flights[r]) {
      assert RequestSeated(w, w.flights[r]) && AnswerSeated(w, w.flights[r]);
    }
    forall c | c != ADVERSARY ensures JarSeated(w', c) { assert JarSeated(w, c) && JarOf(w', c) == JarOf(w, c); }
  }

  lemma NotedKeeps(w: World, w': World, note: Note)
    requires Seated(w) && SameForAll(w, w') && w'.log == w.log + [note] && Quiet(note)
    requires HeldBacked(w.log, w'.store.held) && (note.Ended? ==> note.id !in w'.store.held)
    ensures Seated(w')
  {
    UniqueAppend(w.log, note);
    BackedAppend(w.log, note, w'.store.held);
    forall r | r in w'.flights ensures RequestSeated(w', w'.flights[r]) && AnswerSeated(w', w'.flights[r]) {
      FlightAppend(w, w', note, w.flights[r]);
    }
    forall c | c != ADVERSARY ensures JarSeated(w', c) { JarAppend(w, w', note, c); }
  }

  /** A note about something else, with jars, requests and store as they were. */
  lemma QuietKeeps(w: World, w': World, notes: seq<Note>)
    requires Seated(w) && |notes| <= 1 && (forall note :: note in notes ==> Quiet(note))
    requires SameForAll(w, w') && w'.log == w.log + notes && w'.store.held.Keys <= w.store.held.Keys
    requires forall id :: id in w'.store.held ==> w'.store.held[id] == w.store.held[id]
    requires forall note :: note in notes && note.Ended? ==> note.id !in w'.store.held
    ensures Seated(w')
  {
    FewerBacked(w.log, w.store.held, w'.store.held);
    if notes == [] {
      UnnotedKeeps(w, w');
    } else {
      assert notes[0] in notes && notes == [notes[0]];
      NotedKeeps(w, w', notes[0]);
    }
  }

  lemma FewerBacked(log: seq<Note>, held: map<string, Sessions.Session>, held': map<string, Sessions.Session>)
    requires HeldBacked(log, held) && held'.Keys <= held.Keys && forall id :: id in held' ==> held'[id] == held[id]
    ensures HeldBacked(log, held')
  {
    forall id | id in held'
      ensures !WasEnded(log, id)
      ensures exists i: nat :: IsStored(log, i, id) && IsSessionOf(held'[id], log[i])
    {
      assert id in held;
    }
  }

  lemma SeatReached(w: World, r: RequestId, stage: Stage)
    requires Seated(w) && r in w.flights && AnswerSeated(w, w.flights[r].(stage := stage))
    ensures Seated(Reached(w, r, stage))
  {
    assert RequestSeated(w, w.flights[r]);
    SeatOneMore(w, r, w.flights[r].(stage := stage));
  }

  lemma SeatLost(w: World, r: RequestId)
    requires Seated(w)
    ensures Seated(w.(flights := w.flights - {r}))
  {
    var w' := w.(flights := w.flights - {r});
    forall q | q in w'.flights ensures RequestSeated(w', w'.flights[q]) && AnswerSeated(w', w'.flights[q]) {
      assert RequestSeated(w, w.flights[q]) && AnswerSeated(w, w.flights[q]);
    }
    forall c | c != ADVERSARY ensures JarSeated(w', c) { assert JarSeated(w, c) && JarOf(w', c) == JarOf(w, c); }
  }

  // ---- the server's steps ---------------------------------------------------------------

  lemma LoginSetsNoSession(n: Names, vault: Vault, headers: seq<string>, q: LoginQuery, up: bool, sealed: bool,
                           m: Minted)
    ensures forall s :: s in LoginResponse(n, vault, headers, q, up, sealed, m).cookies ==> s.name != n.Session()
  {
    OnlyFlowsCleared(n, vault, Pairs(headers));
    NamesAreDistinct(n, m.state, m.state);
  }

  lemma SeatLoginServed(w: World, r: RequestId, up: bool, sealed: bool, m: Minted)
    requires Seated(w) && Enabled(w, ServeLogin(r, up, sealed, m))
    ensures Seated(LoginServed(w, r, up, sealed, m))
  {
    var f := w.flights[r];
    var cookies := LoginResponse(w.n, VaultOf(w), Headers(f), f.request.lq, up, sealed, m).cookies;
    LoginSetsNoSession(w.n, VaultOf(w), Headers(f), f.request.lq, up, sealed, m);
    SeatReached(w, r, Served(cookies));
    var w' := Reached(w, r, Served(cookies));
    assert w'.log + [] == w'.log;
    QuietKeeps(w', LoginServed(w, r, up, sealed, m), []);
  }

  lemma SeatLogoutServed(w: World, r: RequestId)
    requires Seated(w) && Enabled(w, ServeLogout(r))
    ensures Seated(LogoutServed(w, r))
  {
    var w' := Reached(w, r, Served([Clear(w.n.Session())]));
    SeatReached(w, r, Served([Clear(w.n.Session())]));
    QuietKeeps(w', LogoutServed(w, r), LogoutNotes(w, w.flights[r]));
  }

  lemma SeatMeServed(w: World, r: RequestId)
    requires Seated(w) && Enabled(w, ServeMe(r))
    ensures Seated(MeServed(w, r))
  {
    SeatLost(w, r);
    QuietKeeps(w.(flights := w.flights - {r}), MeServed(w, r), [MeNote(w, w.flights[r])]);
  }

  // ---- finishing a sign-in --------------------------------------------------------------

  /** The store after a sign-in: sessions that were there, and the new one. */
  lemma StoreAfterHolds(w: World, c: Created, victim: Option<string>)
    ensures var held := StoreAfter(w, c, victim).held;
            && (forall id :: id in held && id != c.id ==> id in w.store.held && held[id] == w.store.held[id])
            && (c.id in held ==> held[c.id].identity == c.token.identity && held[c.id].created == w.now)
  {}

  lemma StoredBacked(log: seq<Note>, note: Note, held: map<string, Sessions.Session>,
                     held': map<string, Sessions.Session>)
    requires HeldBacked(log, held) && note.Stored? && !WasEnded(log, note.id)
    requires forall id :: id in held' && id != note.id ==> id in held && held'[id] == held[id]
    requires note.id in held' ==> IsSessionOf(held'[note.id], note)
    ensures HeldBacked(log + [note], held')
  {
    var grown := log + [note];
    forall id | id in held'
      ensures !WasEnded(grown, id)
      ensures exists i: nat :: IsStored(grown, i, id) && IsSessionOf(held'[id], grown[i])
    {
      EndedAppend(log, note, id);
      if id == note.id {
        assert IsStored(grown, |log|, id) && grown[|log|] == note;
      } else {
        var i: nat :| IsStored(log, i, id) && IsSessionOf(held[id], log[i]);
        assert IsStored(grown, i, id) && grown[i] == log[i];
      }
    }
  }

  lemma UnseenIsUnsaid(w: World, id: string)
    requires Unseen(w, id)
    ensures !WasStored(w.log, id) && !WasEnded(w.log, id)
  {
    if WasStored(w.log, id) {
      var i: nat :| IsStored(w.log, i, id);
      assert Mentions(w.log[i], id);
    }
    if WasEnded(w.log, id) {
      var i: nat :| i < |w.log| && w.log[i].Ended? && w.log[i].id == id;
      assert Mentions(w.log[i], id);
    }
  }

  lemma UnseenInRequests(w: World, id: string)
    requires Unseen(w, id)
    ensures forall r :: r in w.flights ==> id !in SentValues(w.flights[r].groups)
    ensures forall c, k :: k in JarOf(w, c) ==> JarOf(w, c)[k].value != id
  {
    forall r | r in w.flights ensures id !in SentValues(w.flights[r].groups) { assert id !in ValuesIn(w.flights[r]); }
  }

  /** Logging a session that has just been created. */
  lemma StoredKeeps(w: World, w': World, note: Note)
    requires Seated(w) && note.Stored? && Unseen(w, note.id)
    requires w'.n == w.n && w'.log == w.log + [note] && w'.jars == w.jars && w'.flights == w.flights
    requires HeldBacked(w'.log, w'.store.held)
    ensures Seated(w')
  {
    UnseenIsUnsaid(w, note.id);
    UnseenInRequests(w, note.id);
    UniqueAppend(w.log, note);
    forall r | r in w'.flights ensures RequestSeated(w', w'.flights[r]) && AnswerSeated(w', w'.flights[r]) {
      FlightAppend(w, w', note, w.flights[r]);
    }
    forall c | c != ADVERSARY ensures JarSeated(w', c) { JarAppend(w, w', note, c); }
  }

  lemma SeatFinishedWith(w: World, r: RequestId, env: Environment, victim: Option<string>)
    requires Seated(w) && Enabled(w, FinishCallback(r, env, victim))
    requires OutcomeOf(w.n, w.flights[r], w.flights[r].stage.open, env).created.Some?
    ensures Seated(CallbackFinished(w, r, env, victim))
  {
    var f := w.flights[r];
    var created := OutcomeOf(w.n, f, f.stage.open, env).created.value;
    StoredIsNoted(w, r, env, victim);
    CreatedFromOpenFlow(w.n, Headers(f), f.request.cq, f.stage.open, env);
    var note := StoredNotes(w, f, env)[0];
    UnseenIsUnsaid(w, note.id);
    StoreAfterHolds(w, created, victim);
    StoredBacked(w.log, note, w.store.held, StoreAfter(w, created, victim).held);
    var w1 := w.(store := StoreAfter(w, created, victim), log := w.log + [note]);
    StoredKeeps(w, w1, note);
    assert IsStored(w1.log, |w.log|, env.id.value) && w1.log[|w.log|].client == f.client;
    SeatReached(w1, r, Decided(f.stage.open, f.stage.openedAt, env));
    SameSeats(Reached(w1, r, Decided(f.stage.open, f.stage.openedAt, env)), CallbackFinished(w, r, env, victim));
  }

  lemma SameSeats(w: World, w': World)
    requires Seated(w) && SameForAll(w, w') && w'.log == w.log && w'.store == w.store
    ensures Seated(w')
  {
    assert w.log + [] == w.log;
    QuietKeeps(w, w', []);
  }

  lemma SeatFinished(w: World, r: RequestId, env: Environment, victim: Option<string>)
    requires Seated(w) && Enabled(w, FinishCallback(r, env, victim))
    ensures Seated(CallbackFinished(w, r, env, victim))
  {
    var f := w.flights[r];
    if OutcomeOf(w.n, f, f.stage.open, env).created.Some? {
      SeatFinishedWith(w, r, env, victim);
    } else {
      SeatReached(w, r, Decided(f.stage.open, f.stage.openedAt, env));
      var w' := Reached(w, r, Decided(f.stage.open, f.stage.openedAt, env));
      assert w.log + [] == w.log;
      SameSeats(w', CallbackFinished(w, r, env, victim));
    }
  }

  // ---- sending and arriving -------------------------------------------------------------

  lemma SentIsSeated(w: World, c: Client, groups: seq<seq<Pair>>, f: Flight)
    requires JarsSeated(w) && (c != ADVERSARY ==> Carries(groups, JarOf(w, c), w.now))
    requires f.client == c && f.groups == groups && f.since == |w.log|
    ensures RequestSeated(w, f)
  {
    if c != ADVERSARY { assert JarSeated(w, c); }
  }

  lemma SeatOneMore(w: World, r: RequestId, f: Flight)
    requires Seated(w) && RequestSeated(w, f) && AnswerSeated(w, f)
    ensures Seated(w.(flights := w.flights[r := f]))
  {
    var w' := w.(flights := w.flights[r := f]);
    forall q | q in w'.flights ensures RequestSeated(w', w'.flights[q]) && AnswerSeated(w', w'.flights[q]) {
      if q != r { assert RequestSeated(w, w.flights[q]) && AnswerSeated(w, w.flights[q]); }
    }
    forall c | c != ADVERSARY ensures JarSeated(w', c) { assert JarSeated(w, c) && JarOf(w', c) == JarOf(w, c); }
  }

  lemma SeatSent(w: World, a: Action)
    requires Seated(w) && a.Send? && Enabled(w, a)
    ensures Seated(Step(w, a))
  {
    var f := Flight(a.client, a.groups, a.request, w.now, |w.log|, Sent);
    SentIsSeated(w, a.client, a.groups, f);
    SeatOneMore(w, a.r, f);
  }

  /** What a callback's answer does to the session cookie. */
  lemma SessionAfterCallback(n: Names, jar: Jar, headers: seq<string>, q: CallbackQuery, open: Opening,
                             env: Environment, now: nat)
    ensures var o := Decide(n, headers, q, open, env);
            var after := TakeAll(jar, o.response.cookies, now);
            && (o.kind.Complete? ==> o.created.Some? && env.id == Some(o.created.value.id)
                                     && (n.Session() in after ==> after[n.Session()].value == o.created.value.id))
            && (!o.kind.Complete? ==>
                  && (n.Session() in after <==> n.Session() in jar)
                  && (n.Session() in jar ==> after[n.Session()] == jar[n.Session()]))
  {
    var o := Decide(n, headers, q, open, env);
    CallbackCookies(n, headers, q, open, env);
    NamesAreDistinct(n, if q.state.Some? then q.state.value else "", "");
    if o.kind.Complete? {
      CreatedFromOpenFlow(n, headers, q, open, env);
      TakenOnce(jar, o.response.cookies, now, SessionCookie(n, o.created.value.id, env.ttlSecs));
    } else {
      Untouched(jar, o.response.cookies, now, n.Session());
    }
  }

  /** The jar of the browser an answer reaches. */
  lemma OwnJarSeated(w: World, r: RequestId)
    requires Seated(w) && Enabled(w, Arrive(r)) && w.flights[r].client != ADVERSARY
    ensures JarSeated(Delivered(w, r), w.flights[r].client)
  {
    var f := w.flights[r];
    var jar, s := JarOf(w, f.client), w.n.Session();
    assert AnswerSeated(w, f) && JarSeated(w, f.client);
    OneNote(w, f);
    ArrivalIsOfItsClient(w, f);
    if f.stage.Served? {
      if f.request.LoginRequest? {
        Untouched(jar, f.stage.cookies, w.now, s);
        assert w.log + [] == w.log;
      } else {
        OneTaken(jar, Clear(s), w.now);
      }
    } else {
      SessionAfterCallback(w.n, jar, Headers(f), f.request.cq, f.stage.open, f.stage.env, w.now);
      DecidedJarSeated(w, r);
    }
  }

  lemma DecidedJarSeated(w: World, r: RequestId)
    requires Seated(w) && r in w.flights && w.flights[r].client != ADVERSARY
    requires w.flights[r].stage.Decided? && w.flights[r].request.CallbackRequest?
    ensures JarSeated(Delivered(w, r), w.flights[r].client)
  {
    var f := w.flights[r];
    var c, jar, s := f.client, JarOf(w, f.client), w.n.Session();
    var o := OutcomeOf(w.n, f, f.stage.open, f.stage.env);
    SessionAfterCallback(w.n, jar, Headers(f), f.request.cq, f.stage.open, f.stage.env, w.now);
    var notes := ArrivalNotes(w, f);
    var w' := Delivered(w, r);
    assert w'.log[..|w'.log|] == w'.log && w.log[..|w.log|] == w.log;
    assert JarSeated(w, c);
    if notes == [] {
      assert w.log + [] == w.log;
    } else {
      assert notes == [notes[0]];
      SeatOfAppend(w.log, notes[0], c);
      if s in JarOf(w', c) { StoredAppend(w.log, notes[0], JarOf(w', c)[s].value); }
    }
  }

  lemma ArrivalBacked(w: World, f: Flight)
    requires Seated(w) && AnswerSeated(w, f)
    ensures forall note :: note in ArrivalNotes(w, f) ==> !note.Stored? && !note.Ended?
    ensures forall note :: note in ArrivalNotes(w, f) && note.SignedIn? ==>
              exists j: nat :: IsStored(w.log, j, note.id) && w.log[j].client == note.client
  {
    if f.stage.Decided? && OutcomeOf(w.n, f, f.stage.open, f.stage.env).created.Some? {
      CreatedFromOpenFlow(w.n, Headers(f), f.request.cq, f.stage.open, f.stage.env);
    }
  }

  lemma OtherJarSeated(w: World, r: RequestId, c: Client)
    requires Seated(w) && r in w.flights && c != w.flights[r].client && c != ADVERSARY
    ensures JarSeated(Delivered(w, r), c)
  {
    var f := w.flights[r];
    OneNote(w, f);
    ArrivalIsOfItsClient(w, f);
    ArrivalBacked(w, f);
    assert JarSeated(w, c) && JarOf(Delivered(w, r), c) == JarOf(w, c);
    var notes := ArrivalNotes(w, f);
    if notes == [] {
      assert w.log + [] == w.log;
    } else {
      assert notes == [notes[0]];
      JarAppend(w, Delivered(w, r), notes[0], c);
    }
  }

  lemma LogArrived(w: World, r: RequestId)
    requires Seated(w) && r in w.flights
    ensures var w' := Delivered(w, r);
            FlightsSeated(w') && HeldBacked(w'.log, w'.store.held) && IdsUnique(w'.log) && SignInsBacked(w'.log)
  {
    var f := w.flights[r];
    var w' := Delivered(w, r);
    var notes := ArrivalNotes(w, f);
    OneNote(w, f);
    ArrivalBacked(w, f);
    if notes == [] {
      assert w.log + [] == w.log;
      forall q | q in w'.flights ensures RequestSeated(w', w'.flights[q]) && AnswerSeated(w', w'.flights[q]) {
        assert RequestSeated(w, w.flights[q]) && AnswerSeated(w, w.flights[q]);
      }
    } else {
      assert notes == [notes[0]];
      UniqueAppend(w.log, notes[0]);
      BackedAppend(w.log, notes[0], w.store.held);
      forall q | q in w'.flights ensures RequestSeated(w', w'.flights[q]) && AnswerSeated(w', w'.flights[q]) {
        FlightAppend(w, w', notes[0], w.flights[q]);
      }
    }
  }

  lemma SeatArrived(w: World, r: RequestId)
    requires Seated(w) && Enabled(w, Arrive(r))
    ensures Seated(Delivered(w, r))
  {
    LogArrived(w, r);
    forall c | c != ADVERSARY ensures JarSeated(Delivered(w, r), c) {
      if c == w.flights[r].client { OwnJarSeated(w, r); } else { OtherJarSeated(w, r, c); }
    }
  }

  lemma SeatTampered(w: World, jar: Jar)
    requires Seated(w)
    ensures Seated(w.(jars := w.jars[ADVERSARY := jar]))
  {
    var w' := w.(jars := w.jars[ADVERSARY := jar]);
    forall q | q in w'.flights ensures RequestSeated(w', w'.flights[q]) && AnswerSeated(w', w'.flights[q]) {
      assert RequestSeated(w, w.flights[q]) && AnswerSeated(w, w.flights[q]);
    }
    forall c | c != ADVERSARY ensures JarSeated(w', c) { assert JarSeated(w, c) && JarOf(w', c) == JarOf(w, c); }
  }

  // ---- every run ------------------------------------------------------------------------

  lemma SeatOpened(w: World, r: RequestId)
    requires Seated(w) && r in w.flights && w.flights[r].request.CallbackRequest? && w.flights[r].stage.Sent?
    ensures Seated(CallbackOpened(w, r))
  {
    var f := w.flights[r];
    SeatReached(w, r, Opened(OpenFor(w.n, VaultOf(w), Headers(f), f.request.cq, w.now / 1000), w.now));
  }

  lemma ServingKeepsSeats(w: World, a: Action)
    requires Seated(w) && Enabled(w, a) && IsServing(a)
    ensures Seated(Step(w, a))
  {
    match a
    case ServeLogin(r, up, sealed, m) => SeatLoginServed(w, r, up, sealed, m);
    case OpenCallback(r) => SeatOpened(w, r);
    case FinishCallback(r, env, victim) => SeatFinished(w, r, env, victim);
    case ServeLogout(r) => SeatLogoutServed(w, r);
    case _ =>
  }

  lemma BrowserKeepsSeats(w: World, a: Action)
    requires Seated(w) && Enabled(w, a) && (a.Send? || a.Arrive? || a.Lose? || a.ServeMe?)
    ensures Seated(Step(w, a))
  {
    match a
    case Send(_, _, _, _) => SeatSent(w, a);
    case Arrive(r) => SeatArrived(w, r);
    case Lose(r) => SeatLost(w, r);
    case ServeMe(r) => SeatMeServed(w, r);
    case _ =>
  }

  lemma SurroundingsKeepSeats(w: World, a: Action)
    requires Seated(w) && (a.Pass? || a.Tamper? || a.Approve?) && Enabled(w, a)
    ensures Seated(Step(w, a))
  {
    match a
    case Pass(dt) => SameSeats(w, w.(now := w.now + dt));
    case Tamper(jar) => SeatTampered(w, jar);
    case Approve(code, grant) => SameSeats(w, w.(grants := w.grants[code := grant]));
    case _ =>
  }

  lemma StepKeepsSeats(w: World, a: Action)
    requires Seated(w)
    ensures Seated(Step(w, a))
  {
    if !Enabled(w, a) {
      assert Step(w, a) == w;
    } else if IsServing(a) {
      ServingKeepsSeats(w, a);
    } else if a.Pass? || a.Tamper? || a.Approve? {
      SurroundingsKeepSeats(w, a);
    } else {
      BrowserKeepsSeats(w, a);
    }
  }

  lemma {:induction false} RunIsSeated(w: World, acts: seq<Action>)
    requires Inv(w) && Seated(w)
    ensures Inv(Run(w, acts)) && Seated(Run(w, acts))
    decreases acts
  {
    if acts != [] {
      StepKeeps(w, acts[0]);
      StepKeepsSeats(w, acts[0]);
      RunIsSeated(Step(w, acts[0]), acts[1..]);
    }
  }

  lemma {:induction false} SeatIsLogged(log: seq<Note>, c: Client) returns (i: nat)
    requires SeatOf(log, c).Some?
    ensures i < |log| && log[i].SignedIn? && log[i].client == c && log[i].id == SeatOf(log, c).value
  {
    i := |log| - 1;
    if !(log[i].SignedIn? && log[i].client == c) { i := SeatIsLogged(log[..|log| - 1], c); }
  }

  /** What a session answered rests on: the creation of the session the browser was signed in with. */
  ghost predicate Rests(w: World, f: Flight, user: Sessions.Identity, id: string, i: nat) {
    && f.since <= |w.log| && SeatOf(w.log[..f.since], f.client) == Some(id) && !WasEnded(w.log, id)
    && IsStored(w.log, i, id) && w.log[i].client == f.client && w.log[i].token.identity == user
    && Elapsed(w.now, w.log[i].at) < w.limits.ttl
  }

  lemma TellingRests(w: World, f: Flight, id: string) returns (i: nat)
    requires Seated(w) && RequestSeated(w, f) && f.client != ADVERSARY
    requires (w.n.Session(), id) in Flatten(f.groups) && Looked(w, id).Some?
    ensures Rests(w, f, Looked(w, id).value.identity, id, i)
  {
    var held := w.store.held;
    i :| IsStored(w.log, i, id) && IsSessionOf(held[id], w.log[i]);
    assert WasStored(w.log, id);
    var p: Pair := (w.n.Session(), id);
    assert SeatedIn(w.log, f.since, f.client, p.1);
    var k := SeatIsLogged(w.log[..f.since], f.client);
    assert w.log[k].SignedIn? && w.log[k].id == id;
    var j: nat :| IsStored(w.log, j, id) && w.log[j].client == f.client;
  }

  /**
   Who is signed in. In every run, if `/auth/me` tells an honest browser a user, then when it
   asked that browser's last completed sign-in had not been followed by a signing out, its
   session was created by that browser's own callback, for that user, less than the lifetime
   ago, and nobody ended it since.
   */
  lemma MeTellsTheTruth(w: World, acts: seq<Action>, r: RequestId)
    requires Initial(w)
    requires var w' := Run(w, acts);
             && r in w'.flights && w'.flights[r].request.MeRequest? && w'.flights[r].client != ADVERSARY
             && UserOf(w', w'.flights[r]).Some?
    ensures var w' := Run(w, acts);
            exists id, i :: Rests(w', w'.flights[r], UserOf(w', w'.flights[r]).value, id, i)
  {
    assert Seated(w) by { assert forall c :: SeatOf(w.log, c) == None; }
    RunIsSeated(w, acts);
    var w' := Run(w, acts);
    var f := w'.flights[r];
    assert FlightKept(w'.starts, w'.now, f) && RequestSeated(w', f);
    ReadFromGroups(f.groups, w'.n.Session());
    var id := Read(Headers(f), w'.n.Session()).value;
    var i := TellingRests(w', f, id);
    assert Rests(w', f, UserOf(w', f).value, id, i);
  }
}
