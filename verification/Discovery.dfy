/**
 The identity provider's discovery gate, after `src/login/provider.rs`: concurrent calls
 of `client` and `rediscover` around one mutex held across the fetch, with one cooldown
 mark for failures and one for refreshes.

 As in the key refresh, tasks interleave at their await points, any of them may be
 cancelled, and an action that is not enabled changes nothing. Times are milliseconds.
 */
module Discovery {
  import opened Clocks
  import opened Options
  import Rates

  const COOLDOWN: nat := 30_000

  type TaskId = nat

  /** A client built from one discovery; the number stands for its metadata and keys. */
  type Client = nat

  datatype Task =
    | Waiting(refresh: bool)
    | Fetching(refresh: bool, start: nat)
    | Returning(refresh: bool)

  /** A discovery that ran to its end. */
  datatype Attempt = Attempt(refresh: bool, start: nat, end: nat, ok: bool)
  {
    /** A success that started no cooldown: the first discovery of the provider. */
    predicate Uncooled() { ok && !refresh }
  }

  datatype Core = Core(client: Option<Client>, failure: Option<nat>, refreshed: Option<nat>)

  /** `refreshes` are the starts of the refreshes; the books are kept of all attempts. */
  datatype State = State(
    now: nat,
    core: Core,
    tasks: map<TaskId, Task>,
    done: seq<Attempt>,
    books: Rates.Books,
    refreshes: seq<nat>,
    answers: seq<Option<Client>>)

  datatype Action =
    | Pass(dt: nat)
    | Call(t: TaskId, refresh: bool)
    | Lock(t: TaskId)
    | Discovered(t: TaskId, client: Option<Client>)
    | Return(t: TaskId)
    | Cancel(t: TaskId)

  const INIT := State(0, Core(None, None, None), map[], [], Rates.BLANK, [], [])

  // ---- the atomic sections -------------------------------------------------------

  predicate Recent(mark: Option<nat>, now: nat) {
    mark.Some? && Elapsed(now, mark.value) < COOLDOWN
  }

  /** Whether a task that has the mutex goes on to fetch. */
  predicate Proceeds(c: Core, refresh: bool, now: nat) {
    && (refresh || c.client.None?)
    && !Recent(c.failure, now)
    && !(refresh && Recent(c.refreshed, now))
  }

  /** A refresh is marked when it starts, before its outcome is known. */
  function Begun(c: Core, refresh: bool, now: nat): Core {
    if refresh then c.(refreshed := Some(now)) else c
  }

  function Ended(c: Core, now: nat, client: Option<Client>): Core {
    if client.Some? then c.(client := client, failure := None) else c.(failure := Some(now))
  }

  predicate Free(s: State) { forall t :: t in s.tasks ==> !s.tasks[t].Fetching? }

  function Goto(s: State, t: TaskId, task: Task): State { s.(tasks := s.tasks[t := task]) }

  function Leave(s: State, t: TaskId): State { s.(tasks := s.tasks - {t}) }

  function Step(s: State, a: Action): State {
    match a
    case Pass(dt) => s.(now := s.now + dt)
    case Call(t, refresh) =>
      if t in s.tasks then s
      else Goto(s, t, if !refresh && s.core.client.Some? then Returning(false) else Waiting(refresh))
    case Lock(t) =>
      if !(t in s.tasks && s.tasks[t].Waiting? && Free(s)) then s
      else
        var refresh := s.tasks[t].refresh;
        if !Proceeds(s.core, refresh, s.now) then Goto(s, t, Returning(refresh))
        else Goto(s, t, Fetching(refresh, s.now)).(
          core := Begun(s.core, refresh, s.now),
          books := Rates.Begin(s.books, s.now),
          refreshes := s.refreshes + if refresh then [s.now] else [])
    case Discovered(t, client) =>
      if !(t in s.tasks && s.tasks[t].Fetching?) then s
      else
        var task := s.tasks[t];
        Goto(s, t, Returning(task.refresh)).(
          core := Ended(s.core, s.now, client),
          done := s.done + [Attempt(task.refresh, task.start, s.now, client.Some?)],
          books := Rates.Complete(s.books, client.None? || task.refresh))
    case Return(t) =>
      if !(t in s.tasks && s.tasks[t].Returning?) then s
      else Leave(s, t).(answers := s.answers + if s.tasks[t].refresh then [] else [s.core.client])
    case Cancel(t) =>
      if t !in s.tasks then s
      else Leave(s, t).(books := if s.tasks[t].Fetching? then Rates.Abandon(s.books) else s.books)
  }

  function Run(s: State, acts: seq<Action>): State
    decreases acts
  {
    if acts == [] then s else Run(Step(s, acts[0]), acts[1..])
  }

  // ---- what every step keeps --------------------------------------------------------

  ghost predicate SingleFlight(s: State) {
    forall t, u :: t in s.tasks && u in s.tasks && s.tasks[t].Fetching? && s.tasks[u].Fetching? ==> t == u
  }

  /** There is a client exactly if some attempt succeeded; an ordinary one only runs without. */
  ghost predicate ClientKept(s: State) {
    && (s.core.client.Some? <==> exists i :: 0 <= i < |s.done| && s.done[i].ok)
    && (forall i, j :: 0 <= i < j < |s.done| && s.done[i].ok ==> s.done[j].refresh)
    && (forall t :: t in s.tasks && s.tasks[t].Fetching? && !s.tasks[t].refresh ==> s.core.client.None?)
  }

  /** The cooldown marks remember the last completed attempt. */
  ghost predicate MarksKept(s: State) {
    s.done != [] ==>
      var last := s.done[|s.done| - 1];
      && last.start <= last.end <= s.now
      && (!last.ok ==> s.core.failure == Some(last.end))
      && (last.refresh ==> s.core.refreshed.Some? && last.start <= s.core.refreshed.value)
  }

  /** `start` is far enough from the attempts that completed before it. */
  ghost predicate After(done: seq<Attempt>, start: nat) {
    done != [] ==>
      var last := done[|done| - 1];
      && last.end <= start
      && (!last.ok ==> last.end + COOLDOWN <= start)
      && (!last.Uncooled() ==> last.start + COOLDOWN <= start)
  }

  ghost predicate FlightKept(s: State) {
    forall t :: t in s.tasks && s.tasks[t].Fetching? ==>
      && s.tasks[t].start <= s.now && After(s.done, s.tasks[t].start)
      && (s.tasks[t].refresh ==> s.core.refreshed.Some? && s.tasks[t].start <= s.core.refreshed.value)
  }

  ghost predicate HistoryKept(s: State) {
    forall i :: 0 <= i < |s.done| ==> After(s.done[..i], s.done[i].start) && s.done[i].start <= s.done[i].end
  }

  ghost predicate Inv(s: State) {
    SingleFlight(s) && ClientKept(s) && MarksKept(s) && FlightKept(s) && HistoryKept(s)
  }

  lemma StepKeepsSingleFlight(s: State, a: Action)
    requires SingleFlight(s)
    ensures SingleFlight(Step(s, a))
  {}

  lemma DiscoveredKeepsClient(s: State, t: TaskId, client: Option<Client>)
    requires SingleFlight(s) && ClientKept(s) && t in s.tasks && s.tasks[t].Fetching?
    ensures ClientKept(Step(s, Discovered(t, client)))
  {
    var s' := Step(s, Discovered(t, client));
    var last := |s.done|;
    assert forall i :: 0 <= i < last ==> s'.done[i] == s.done[i];
    if s.core.client.Some? {
      var i :| 0 <= i < last && s.done[i].ok;
      assert s'.done[i].ok;
    }
    if client.Some? { assert s'.done[last].ok; }
  }

  lemma StepKeepsClient(s: State, a: Action)
    requires SingleFlight(s) && ClientKept(s)
    ensures ClientKept(Step(s, a))
  {
    if a.Discovered? && a.t in s.tasks && s.tasks[a.t].Fetching? {
      DiscoveredKeepsClient(s, a.t, a.client);
    } else {
      assert Step(s, a).done == s.done && Step(s, a).core.client == s.core.client;
    }
  }

  lemma StepKeepsMarks(s: State, a: Action)
    requires MarksKept(s) && FlightKept(s)
    ensures MarksKept(Step(s, a))
  {}

  /** The gate lets a fetch begin only after the cooldowns of what completed before it. */
  lemma GateKeepsDistance(s: State, refresh: bool)
    requires ClientKept(s) && MarksKept(s) && Proceeds(s.core, refresh, s.now)
    ensures After(s.done, s.now)
  {
    if s.done != [] && s.done[|s.done| - 1].ok { assert s.core.client.Some?; }
  }

  lemma StepKeepsFlight(s: State, a: Action)
    requires SingleFlight(s) && FlightKept(s)
    requires a.Lock? && a.t in s.tasks && s.tasks[a.t].Waiting? && Proceeds(s.core, s.tasks[a.t].refresh, s.now) ==>
        After(s.done, s.now)
    ensures FlightKept(Step(s, a))
  {}

  lemma StepKeepsHistory(s: State, a: Action)
    requires FlightKept(s) && HistoryKept(s)
    ensures HistoryKept(Step(s, a))
  {
    var s' := Step(s, a);
    forall i | 0 <= i < |s'.done| ensures After(s'.done[..i], s'.done[i].start) && s'.done[i].start <= s'.done[i].end {
      if i < |s.done| {
        assert s'.done[..i] == s.done[..i] && s'.done[i] == s.done[i];
      } else {
        assert s'.done[..i] == s.done;
      }
    }
  }

  lemma StepKeeps(s: State, a: Action)
    requires Inv(s)
    ensures Inv(Step(s, a))
  {
    StepKeepsSingleFlight(s, a);
    StepKeepsClient(s, a);
    StepKeepsMarks(s, a);
    if a.Lock? && a.t in s.tasks && s.tasks[a.t].Waiting? && Proceeds(s.core, s.tasks[a.t].refresh, s.now) {
      GateKeepsDistance(s, s.tasks[a.t].refresh);
    }
    StepKeepsFlight(s, a);
    StepKeepsHistory(s, a);
  }

  lemma {:induction false} RunKeeps(s: State, acts: seq<Action>)
    requires Inv(s)
    ensures Inv(Run(s, acts))
    decreases acts
  {
    if acts != [] {
      StepKeeps(s, acts[0]);
      RunKeeps(Step(s, acts[0]), acts[1..]);
    }
  }

  // ---- the main results ---------------------------------------------------------------

  function Starts(done: seq<Attempt>): seq<nat> { seq(|done|, i requires 0 <= i < |done| => done[i].start) }

  /**
   In every run at most one attempt is in flight, completed ones never overlap, and one starts a
   cooldown after the start of the one before it, and after its end if it failed, except right
   after the first discovery.
   */
  lemma AttemptsAreSpaced(acts: seq<Action>, i: nat)
    ensures SingleFlight(Run(INIT, acts))
    ensures var done := Run(INIT, acts).done;
            i + 1 < |done| ==>
              && done[i].start <= done[i].end <= done[i + 1].start
              && (!done[i].ok ==> done[i].end + COOLDOWN <= done[i + 1].start)
              && (|| done[i].start + COOLDOWN <= done[i + 1].start
                  || (done[i].Uncooled() && forall j :: 0 <= j < i ==> !done[j].ok))
  {
    RunKeeps(INIT, acts);
    if i + 1 < |Run(INIT, acts).done| { NextIsSpaced(Run(INIT, acts), i); }
  }

  lemma NextIsSpaced(s: State, i: nat)
    requires ClientKept(s) && HistoryKept(s) && i + 1 < |s.done|
    ensures var one, next := s.done[i], s.done[i + 1];
            && one.start <= one.end <= next.start
            && (!one.ok ==> one.end + COOLDOWN <= next.start)
            && (|| one.start + COOLDOWN <= next.start
                || (one.Uncooled() && forall j :: 0 <= j < i ==> !s.done[j].ok))
  {
    assert s.done[..i + 1][i] == s.done[i];
    assert After(s.done[..i + 1], s.done[i + 1].start);
  }

  /**
   In every run, a window of length `span` sees at most `2 + span / COOLDOWN` completed
   attempts start, and at most `1 + span / COOLDOWN` as long as none has succeeded.
   */
  lemma CompletedAttemptsAreRare(acts: seq<Action>, lo: nat, span: nat)
    ensures var done := Run(INIT, acts).done;
            && Rates.CountIn(Starts(done), lo, lo + span) <= 2 + span / COOLDOWN
            && ((forall i :: 0 <= i < |done| ==> !done[i].ok) ==>
                Rates.CountIn(Starts(done), lo, lo + span) <= 1 + span / COOLDOWN)
  {
    RunKeeps(INIT, acts);
    var done := Run(INIT, acts).done;
    if forall i :: 0 <= i < |done| ==> !done[i].ok {
      forall i | 0 <= i < |done| - 1 ensures Starts(done)[i] + COOLDOWN <= Starts(done)[i + 1] {
        AttemptsAreSpaced(acts, i);
      }
      Rates.WindowBound(Starts(done), COOLDOWN, -1, lo, span);
    }
    var first := SomeFirst(done);
    DoneSpaced(acts, first);
    Rates.WindowBound(Starts(done), COOLDOWN, first, lo, span);
  }

  // ---- when an attempt begins -------------------------------------------------------------

  /** A success takes the failure mark away. */
  ghost predicate FailureKept(s: State) {
    s.done == [] || s.done[|s.done| - 1].ok ==> s.core.failure == None
  }

  lemma StepKeepsFailure(s: State, a: Action)
    requires FailureKept(s)
    ensures FailureKept(Step(s, a))
  {}

  lemma {:induction false} RunKeepsFailure(s: State, acts: seq<Action>)
    requires FailureKept(s)
    ensures FailureKept(Run(s, acts))
    decreases acts
  {
    if acts != [] {
      StepKeepsFailure(s, acts[0]);
      RunKeepsFailure(Step(s, acts[0]), acts[1..]);
    }
  }

  /** Whether the attempts made so far leave room for another. */
  predicate Due(s: State, refresh: bool) {
    var done, begun := s.done, s.refreshes;
    && (refresh || forall i :: 0 <= i < |done| ==> !done[i].ok)
    && (done == [] || done[|done| - 1].ok || done[|done| - 1].end + 30_000 <= s.now)
    && (refresh ==> begun == [] || begun[|begun| - 1] + 30_000 <= s.now)
  }

  /**
   In every run, a waiting call that gets the mutex begins an attempt exactly if it wants a new
   client or none was ever discovered, the last attempt did not fail in the last 30 seconds,
   and, for a refresh, none began in the last 30 seconds. Otherwise it returns at once.
   */
  lemma LockAttemptsExactly(acts: seq<Action>, t: TaskId)
    requires var s := Run(INIT, acts);
             t in s.tasks && s.tasks[t].Waiting? && forall u :: u in s.tasks ==> !s.tasks[u].Fetching?
    ensures var s, s' := Run(INIT, acts), Step(Run(INIT, acts), Lock(t));
            var refresh := s.tasks[t].refresh;
            t in s'.tasks && s'.tasks[t] == if Due(s, refresh) then Fetching(refresh, s.now) else Returning(refresh)
  {
    RunKeeps(INIT, acts);
    RunKeepsRefreshes(INIT, acts);
    RunKeepsFailure(INIT, acts);
    GateIsDue(Run(INIT, acts), Run(INIT, acts).tasks[t].refresh);
  }

  lemma GateIsDue(s: State, refresh: bool)
    requires ClientKept(s) && MarksKept(s) && RefreshesKept(s) && FailureKept(s)
    ensures Proceeds(s.core, refresh, s.now) <==> Due(s, refresh)
  {
    if forall i :: 0 <= i < |s.done| ==> !s.done[i].ok { assert s.core.client.None?; }
  }

  /** How an attempt ends: a success replaces the client, a failure leaves it and is marked. */
  lemma AttemptEnds(s: State, t: TaskId, client: Option<Client>)
    requires t in s.tasks && s.tasks[t].Fetching?
    ensures var s' := Step(s, Discovered(t, client));
            && s'.core.client == (if client.Some? then client else s.core.client)
            && s'.core.failure == (if client.Some? then None else Some(s.now))
            && s'.core.refreshed == s.core.refreshed
            && t in s'.tasks && s'.tasks[t] == Returning(s.tasks[t].refresh)
  {}

  // ---- attempts begun ---------------------------------------------------------------------

  /** A refresh is marked when it begins, and the mark is never taken back. */
  ghost predicate RefreshesKept(s: State) {
    && s.core.refreshed == (if s.refreshes == [] then None else Some(s.refreshes[|s.refreshes| - 1]))
    && (s.refreshes != [] ==> s.refreshes[|s.refreshes| - 1] <= s.now)
    && Rates.Spaced(s.refreshes, COOLDOWN, -1)
  }

  /** A refresh is begun by the lock that goes on to fetch, if at all. */
  lemma RefreshesNext(s: State, a: Action)
    requires RefreshesKept(s)
    ensures var s' := Step(s, a);
            || (s'.refreshes == s.refreshes && s'.core.refreshed == s.core.refreshed && s.now <= s'.now)
            || (s'.refreshes == s.refreshes + [s.now] && s'.core.refreshed == Some(s.now) && s'.now == s.now
                && (s.refreshes != [] ==> Rates.Last(s.refreshes) + COOLDOWN <= s.now))
  {}

  lemma StepKeepsRefreshes(s: State, a: Action)
    requires RefreshesKept(s)
    ensures RefreshesKept(Step(s, a))
  {
    RefreshesNext(s, a);
  }

  lemma {:induction false} RunKeepsRefreshes(s: State, acts: seq<Action>)
    requires RefreshesKept(s)
    ensures RefreshesKept(Run(s, acts))
    decreases acts
  {
    if acts != [] {
      StepKeepsRefreshes(s, acts[0]);
      RunKeepsRefreshes(Step(s, acts[0]), acts[1..]);
    }
  }

  /**
   In every run a window of length `span` sees at most `1 + span / COOLDOWN` refreshes begin,
   cancelled ones included.
   */
  lemma BegunRefreshesAreRare(acts: seq<Action>, lo: nat, span: nat)
    ensures Rates.CountIn(Run(INIT, acts).refreshes, lo, lo + span) <= 1 + span / COOLDOWN
  {
    RunKeepsRefreshes(INIT, acts);
    Rates.WindowBound(Run(INIT, acts).refreshes, COOLDOWN, -1, lo, span);
  }

  /** Whether a task that asks for the mutex gets it, and begins to fetch. */
  predicate Fetches(s: State, t: TaskId) {
    t in s.tasks && s.tasks[t].Waiting? && Free(s) && Proceeds(s.core, s.tasks[t].refresh, s.now)
  }

  /** The books agree with the tasks and the history; only the first discovery leaves a short gap. */
  ghost predicate Booked(s: State) {
    && (forall t :: t in s.tasks && s.tasks[t].Fetching? ==>
          Rates.InFlight(s.books) && Rates.Last(s.books.begun) == s.tasks[t].start)
    && ((forall t :: t in s.tasks ==> !s.tasks[t].Fetching?) ==> !Rates.InFlight(s.books))
    && s.books.completed == Starts(s.done)
    && (s.core.client.None? ==> s.books.short == -1)
    && (s.books.fate.Completed? && s.books.short != |s.books.begun| - 1 ==>
          s.done != [] && !s.done[|s.done| - 1].Uncooled())
  }

  /** What a step does to the books. */
  function BooksAfter(s: State, a: Action): Rates.Books {
    match a
    case Lock(t) => if Fetches(s, t) then Rates.Begin(s.books, s.now) else s.books
    case Discovered(t, client) =>
      if !(t in s.tasks && s.tasks[t].Fetching?) then s.books
      else Rates.Complete(s.books, client.None? || s.tasks[t].refresh)
    case Cancel(t) => if t in s.tasks && s.tasks[t].Fetching? then Rates.Abandon(s.books) else s.books
    case _ => s.books
  }

  lemma StepBooks(s: State, a: Action)
    ensures Step(s, a).books == BooksAfter(s, a) && s.now <= Step(s, a).now
  {}

  lemma NoFlight(s: State, t: TaskId)
    requires Booked(s) && Fetches(s, t)
    ensures !Rates.InFlight(s.books)
  {}

  lemma DiscoveredKeepsBooked(s: State, t: TaskId, client: Option<Client>)
    requires SingleFlight(s) && Booked(s) && t in s.tasks && s.tasks[t].Fetching?
    ensures Booked(Step(s, Discovered(t, client)))
  {
    var task := s.tasks[t];
    assert Starts(s.done + [Attempt(task.refresh, task.start, s.now, client.Some?)]) == Starts(s.done) + [task.start];
  }

  lemma CancelKeepsBooked(s: State, t: TaskId)
    requires SingleFlight(s) && Booked(s) && t in s.tasks && s.tasks[t].Fetching?
    ensures Booked(Step(s, Cancel(t)))
  {}

  lemma LockKeepsBooked(s: State, t: TaskId)
    requires Booked(s)
    ensures Booked(Step(s, Lock(t)))
  {
    if Fetches(s, t) { assert Step(s, Lock(t)).tasks[t] == Fetching(s.tasks[t].refresh, s.now); }
  }

  /** Everything else leaves the attempts alone. */
  lemma OtherKeepsAttempts(s: State, a: Action)
    requires !a.Lock? && !((a.Discovered? || a.Cancel?) && a.t in s.tasks && s.tasks[a.t].Fetching?)
    ensures var s' := Step(s, a);
            && s'.done == s.done && s'.books == s.books && s'.core == s.core
            && (forall u :: u in s.tasks && s.tasks[u].Fetching? ==> u in s'.tasks && s'.tasks[u] == s.tasks[u])
            && (forall u :: u in s'.tasks && s'.tasks[u].Fetching? ==> u in s.tasks && s'.tasks[u] == s.tasks[u])
  {}

  lemma StepKeepsBooked(s: State, a: Action)
    requires SingleFlight(s) && Booked(s)
    ensures Booked(Step(s, a))
  {
    if a.Lock? {
      LockKeepsBooked(s, a.t);
    } else if a.Cancel? && a.t in s.tasks && s.tasks[a.t].Fetching? {
      CancelKeepsBooked(s, a.t);
    } else if a.Discovered? && a.t in s.tasks && s.tasks[a.t].Fetching? {
      DiscoveredKeepsBooked(s, a.t, a.client);
    } else {
      OtherKeepsAttempts(s, a);
    }
  }

  /** Whether the attempt an action ends starts a cooldown. */
  predicate Cools(s: State, a: Action) {
    !(a.Discovered? && a.t in s.tasks && s.tasks[a.t].Fetching? && a.client.Some? && !s.tasks[a.t].refresh)
  }

  lemma OneShortGap(s: State, a: Action)
    requires ClientKept(s) && Booked(s) && !Cools(s, a)
    ensures s.books.short == -1
  {}

  ghost predicate BooksKept(s: State) { Rates.LatestKept(s.books, s.now) && Rates.FarIfApart(s.books, COOLDOWN) }

  lemma StepKeepsBooks(s: State, a: Action)
    requires ClientKept(s) && Booked(s) && BooksKept(s)
    ensures BooksKept(Step(s, a))
  {
    StepBooks(s, a);
    if !Cools(s, a) { OneShortGap(s, a); }
    Rates.LatestEnds(s.books, s.now, Cools(s, a));
    Rates.FarEnds(s.books, s.now, COOLDOWN, Cools(s, a));
    Rates.LatestBegins(s.books, s.now, s.now);
    Rates.LatestBegins(s.books, Step(s, a).now, s.now);
    Rates.FarBegins(s.books, s.now, s.now, COOLDOWN);
  }

  lemma StepKeepsBalance(s: State, a: Action, lo: nat, hi: nat)
    requires Booked(s) && Rates.Balanced(s.books, lo, hi)
    ensures Rates.Balanced(Step(s, a).books, lo, hi)
  {
    StepBooks(s, a);
    Rates.BooksBalance(s.books, s.now, Cools(s, a), lo, hi);
    if a.Lock? && Fetches(s, a.t) { NoFlight(s, a.t); }
  }

  lemma {:induction false} RunKeepsBooks(s: State, acts: seq<Action>, lo: nat, hi: nat)
    requires Inv(s) && Booked(s) && Rates.Balanced(s.books, lo, hi)
    ensures Booked(Run(s, acts)) && Rates.Balanced(Run(s, acts).books, lo, hi)
    decreases acts
  {
    if acts != [] {
      StepKeeps(s, acts[0]);
      StepKeepsBooked(s, acts[0]);
      StepKeepsBalance(s, acts[0], lo, hi);
      RunKeepsBooks(Step(s, acts[0]), acts[1..], lo, hi);
    }
  }

  /** The first success, after which one gap may be short; -1 if there is none. */
  ghost predicate IsFirst(done: seq<Attempt>, first: int) {
    if 0 <= first < |done| then done[first].Uncooled()
    else first == -1 && forall i :: 0 <= i < |done| ==> !done[i].Uncooled()
  }

  lemma DoneSpaced(acts: seq<Action>, first: int)
    requires IsFirst(Run(INIT, acts).done, first)
    ensures Rates.Spaced(Starts(Run(INIT, acts).done), COOLDOWN, first)
  {
    var done := Run(INIT, acts).done;
    forall i | 0 <= i < |done| - 1
      ensures Starts(done)[i] + (if i == first then 0 else COOLDOWN) <= Starts(done)[i + 1]
    {
      AttemptsAreSpaced(acts, i);
      if done[i].Uncooled() { OneUncooled(acts, i, first); }
    }
  }

  /** The attempt in flight is spaced from the last that completed, unless that was the first success. */
  lemma FlightAfterLast(acts: seq<Action>, t: TaskId)
    requires t in Run(INIT, acts).tasks && Run(INIT, acts).tasks[t].Fetching? && Run(INIT, acts).done != []
    ensures var last := Run(INIT, acts).done[|Run(INIT, acts).done| - 1];
            last.start + (if last.Uncooled() then 0 else COOLDOWN) <= Run(INIT, acts).tasks[t].start
  {
    RunKeeps(INIT, acts);
    LastGap(Run(INIT, acts), t);
  }

  lemma LastGap(s: State, t: TaskId)
    requires FlightKept(s) && HistoryKept(s) && t in s.tasks && s.tasks[t].Fetching? && s.done != []
    ensures var last := s.done[|s.done| - 1]; last.start + (if last.Uncooled() then 0 else COOLDOWN) <= s.tasks[t].start
  {
    assert After(s.done, s.tasks[t].start);
  }

  lemma FlightSpaced(acts: seq<Action>, first: int, t: TaskId)
    requires IsFirst(Run(INIT, acts).done, first) && t in Run(INIT, acts).tasks && Run(INIT, acts).tasks[t].Fetching?
    ensures Rates.Spaced(Starts(Run(INIT, acts).done) + [Run(INIT, acts).tasks[t].start], COOLDOWN, first)
  {
    var done := Run(INIT, acts).done;
    DoneSpaced(acts, first);
    if done != [] {
      FlightAfterLast(acts, t);
      if done[|done| - 1].Uncooled() { OneUncooled(acts, |done| - 1, first); }
    }
  }

  lemma SomeFirst(done: seq<Attempt>) returns (first: int)
    ensures IsFirst(done, first)
  {
    first := -1;
    if i :| 0 <= i < |done| && done[i].Uncooled() { first := i; }
  }

  lemma OneUncooled(acts: seq<Action>, i: nat, j: int)
    requires var done := Run(INIT, acts).done;
             i < |done| && done[i].Uncooled() && 0 <= j < |done| && done[j].Uncooled()
    ensures i == j
  {
    RunKeeps(INIT, acts);
  }

  /**
   Of the attempts begun a window sees at most `2 + span / COOLDOWN`, once those whose caller
   was cancelled while fetching are set aside.
   */
  lemma BegunAttemptsAreRareUnlessAbandoned(acts: seq<Action>, lo: nat, span: nat)
    ensures var b := Run(INIT, acts).books;
            Rates.CountIn(b.begun, lo, lo + span) <= 2 + span / COOLDOWN + Rates.CountIn(b.abandoned, lo, lo + span)
  {
    RunKeepsBooks(INIT, acts, lo, lo + span);
    var s := Run(INIT, acts);
    var first := SomeFirst(s.done);
    if Rates.InFlight(s.books) {
      var t :| t in s.tasks && s.tasks[t].Fetching?;
      FlightSpaced(acts, first, t);
    } else {
      DoneSpaced(acts, first);
    }
    Rates.BegunBound(s.books, COOLDOWN, first, lo, span);
  }

  /** A task that begins an attempt does so a cooldown after every attempt that was abandoned began. */
  ghost predicate WaitsOut(s: State, a: Action) {
    a.Lock? && Fetches(s, a.t) ==> Rates.WaitsOut(s.books, s.now, COOLDOWN)
  }

  ghost predicate AlwaysWaitsOut(s: State, acts: seq<Action>)
    decreases acts
  {
    acts == [] || (WaitsOut(s, acts[0]) && AlwaysWaitsOut(Step(s, acts[0]), acts[1..]))
  }

  /** An attempt that begins right after a completed one is a cooldown later, but after the first discovery. */
  lemma BegunAfterCompleted(s: State, t: TaskId)
    requires ClientKept(s) && MarksKept(s) && Booked(s) && BooksKept(s) && Fetches(s, t)
    ensures s.books.fate.Completed? && s.books.short != |s.books.begun| - 1 ==>
              s.books.begun != [] && Rates.Last(s.books.begun) + COOLDOWN <= s.now
  {
    GateKeepsDistance(s, s.tasks[t].refresh);
    if s.books.fate.Completed? && s.books.short != |s.books.begun| - 1 {
      assert Rates.Last(Starts(s.done)) == s.done[|s.done| - 1].start;
    }
  }

  lemma StepIsExact(s: State, a: Action)
    requires Inv(s) && Booked(s) && BooksKept(s)
    ensures Rates.Apart(Step(s, a).books, COOLDOWN) <==> Rates.Apart(s.books, COOLDOWN) && WaitsOut(s, a)
  {
    StepBooks(s, a);
    if !Cools(s, a) { OneShortGap(s, a); }
    Rates.FarEnds(s.books, s.now, COOLDOWN, Cools(s, a));
    if a.Lock? && Fetches(s, a.t) {
      NoFlight(s, a.t);
      BegunAfterCompleted(s, a.t);
      Rates.BeginIsExact(s.books, s.now, s.now, COOLDOWN);
    }
  }

  lemma {:induction false} RunIsExact(s: State, acts: seq<Action>)
    requires Inv(s) && Booked(s) && BooksKept(s)
    ensures Rates.Apart(Run(s, acts).books, COOLDOWN) <==> Rates.Apart(s.books, COOLDOWN) && AlwaysWaitsOut(s, acts)
    ensures Booked(Run(s, acts)) && BooksKept(Run(s, acts))
    decreases acts
  {
    if acts != [] {
      StepKeeps(s, acts[0]);
      StepKeepsBooked(s, acts[0]);
      StepKeepsBooks(s, acts[0]);
      StepIsExact(s, acts[0]);
      RunIsExact(Step(s, acts[0]), acts[1..]);
    }
  }

  /**
   When there is one attempt per window. In every run the attempts begun are a cooldown apart,
   but for the gap after the first discovery, if and only if none begins within a cooldown of
   one that was abandoned. While nothing has been discovered there is no such gap.
   */
  lemma BegunAttemptsAreSpacedExactly(acts: seq<Action>)
    ensures Rates.Apart(Run(INIT, acts).books, COOLDOWN) <==> AlwaysWaitsOut(INIT, acts)
    ensures Run(INIT, acts).core.client.None? ==>
              (Rates.Spaced(Run(INIT, acts).books.begun, COOLDOWN, -1) <==> AlwaysWaitsOut(INIT, acts))
  {
    RunIsExact(INIT, acts);
  }

  /** And then a window sees at most `2 + span / COOLDOWN` of them, one less while nothing was discovered. */
  lemma BegunAttemptsAreRareIfWaitedOut(acts: seq<Action>, lo: nat, span: nat)
    requires AlwaysWaitsOut(INIT, acts)
    ensures var s := Run(INIT, acts);
            Rates.CountIn(s.books.begun, lo, lo + span) <= span / COOLDOWN + if s.core.client.None? then 1 else 2
  {
    BegunAttemptsAreSpacedExactly(acts);
    var s := Run(INIT, acts);
    Rates.WindowBound(s.books.begun, COOLDOWN, if s.core.client.None? then -1 else s.books.short, lo, span);
  }

  function ImpatientTimes(t: TaskId, n: nat): seq<Action> {
    if n == 0 then [] else [Call(t, false), Lock(t), Cancel(t)] + ImpatientTimes(t, n - 1)
  }

  lemma ImpatientOnce(s: State, t: TaskId)
    requires t !in s.tasks && Free(s) && Proceeds(s.core, false, s.now)
    ensures Step(Step(Step(s, Call(t, false)), Lock(t)), Cancel(t)) ==
              s.(books := Rates.Abandon(Rates.Begin(s.books, s.now)))
  {
    var s1 := Step(s, Call(t, false));
    assert s1.tasks == s.tasks[t := Waiting(false)] && Free(s1);
    var s2 := Step(s1, Lock(t));
    assert s2.tasks == s.tasks[t := Fetching(false, s.now)];
    assert s2.tasks - {t} == s.tasks;
    assert s.refreshes + [] == s.refreshes;
  }

  /**
   The "one attempt per window" of the constant's comment fails: a cancelled discovery marks
   nothing, so from every state whose gate is open any number of them can begin at one instant.
   */
  lemma {:induction false} AbandonedAttemptsAreUnbounded(s: State, t: TaskId, n: nat)
    requires t !in s.tasks && Free(s) && Proceeds(s.core, false, s.now)
    ensures var s' := Run(s, ImpatientTimes(t, n));
            && s'.books.begun == s.books.begun + seq(n, _ => s.now)
            && s'.books.abandoned == s.books.abandoned + seq(n, _ => s.now)
            && s'.now == s.now && s'.done == s.done
    decreases n
  {
    if n > 0 {
      ImpatientOnce(s, t);
      var s' := s.(books := Rates.Abandon(Rates.Begin(s.books, s.now)));
      RunThree(s, [Call(t, false), Lock(t), Cancel(t)], ImpatientTimes(t, n - 1));
      AbandonedAttemptsAreUnbounded(s', t, n - 1);
      assert [s.now] + seq(n - 1, _ => s.now) == seq(n, _ => s.now);
    }
  }

  lemma RunThree(s: State, acts: seq<Action>, rest: seq<Action>)
    requires |acts| == 3
    ensures Run(s, acts + rest) == Run(Step(Step(Step(s, acts[0]), acts[1]), acts[2]), rest)
  {
    var all := acts + rest;
    var s1 := Step(s, all[0]);
    var s2 := Step(s1, all[1]);
    assert all[1..][1..] == all[2..] && all[2..][1..] == all[3..] && all[3..] == rest;
    assert Run(s1, all[1..]) == Run(s2, all[2..]);
    assert Run(s2, all[2..]) == Run(Step(s2, all[2]), all[3..]);
  }

  /** Once discovered, the provider is never forgotten, whatever fails later. */
  lemma {:induction false} ClientIsNeverLost(s: State, acts: seq<Action>)
    requires s.core.client.Some?
    ensures Run(s, acts).core.client.Some?
    decreases acts
  {
    if acts != [] { ClientIsNeverLost(Step(s, acts[0]), acts[1..]); }
  }

  // ---- the provider itself ---------------------------------------------------------------

  /** One uninterrupted discovery. */
  function DiscoveredCore(c: Core, refresh: bool, at: nat, end: nat, fetched: Option<Client>): Core {
    if Proceeds(c, refresh, at) then Ended(Begun(c, refresh, at), end, fetched) else c
  }

  /**
   What it comes to: with a client, or within 30 seconds of a mark that counts, nothing; otherwise
   a refresh is marked as begun, a success replaces the client and clears the failure, and a
   failure is marked.
   */
  lemma DiscoveredIsExact(c: Core, refresh: bool, at: nat, end: nat, fetched: Option<Client>)
    ensures var c' := DiscoveredCore(c, refresh, at, end, fetched);
            var barred := || (!refresh && c.client.Some?)
                          || (c.failure.Some? && at < c.failure.value + 30_000)
                          || (refresh && c.refreshed.Some? && at < c.refreshed.value + 30_000);
            && (barred ==> c' == c)
            && (!barred ==>
                  && c'.refreshed == (if refresh then Some(at) else c.refreshed)
                  && (fetched.Some? ==> c'.client == fetched && c'.failure == None)
                  && (fetched.None? ==> c'.client == c.client && c'.failure == Some(end)))
  {}

  /** That run is a run of the machine, and `client` answers what the cell then holds. */
  lemma DiscoverIsARun(s: State, refresh: bool, dt: nat, fetched: Option<Client>)
    requires s.tasks == map[]
    ensures var quick := !refresh && s.core.client.Some?;
            var gate := if quick then [] else [Lock(0), Pass(dt), Discovered(0, fetched)];
            var s' := Run(s, [Call(0, refresh)] + gate + [Return(0)]);
            var c := if quick then s.core else DiscoveredCore(s.core, refresh, s.now, s.now + dt, fetched);
            s'.core == c && s'.answers == s.answers + (if refresh then [] else [c.client])
  {
    if !refresh && s.core.client.Some? {
      assert [Call(0, refresh)] + [] + [Return(0)] == [Call(0, refresh), Return(0)];
      RunTwo(s, Call(0, refresh), Return(0));
    } else {
      var first, second := [Call(0, refresh), Lock(0), Pass(dt)], [Discovered(0, fetched), Return(0)];
      assert [Call(0, refresh)] + [Lock(0), Pass(dt), Discovered(0, fetched)] + [Return(0)] == first + second;
      RunThree(s, first, second);
      RunTwo(Step(Step(Step(s, first[0]), first[1]), first[2]), second[0], second[1]);
      GatePassed(s, refresh, dt, fetched);
    }
  }

  /** The steps of a call that finds no client, or wants a new one. */
  lemma GatePassed(s: State, refresh: bool, dt: nat, fetched: Option<Client>)
    requires s.tasks == map[] && (refresh || s.core.client.None?)
    ensures var s3 := Step(Step(Step(s, Call(0, refresh)), Lock(0)), Pass(dt));
            var s5 := Step(Step(s3, Discovered(0, fetched)), Return(0));
            var c := DiscoveredCore(s.core, refresh, s.now, s.now + dt, fetched);
            s5.core == c && s5.answers == s.answers + (if refresh then [] else [c.client])
  {}

  lemma RunTwo(s: State, a: Action, b: Action)
    ensures Run(s, [a, b]) == Step(Step(s, a), b)
  {
    var acts := [a, b];
    assert acts[1..] == [b];
    assert Run(Step(s, a), [b]) == Step(Step(s, a), b);
  }

  class Provider {
    var cell: Option<Client>
    var failure: Option<nat>
    var refreshed: Option<nat>

    ghost function View(): Core reads this { Core(cell, failure, refreshed) }

    constructor ()
      ensures View() == Core(None, None, None)
    {
      cell, failure, refreshed := None, None, None;
    }

    /** The single-flight section, uninterrupted; `fetched` is what a fetch would bring. */
    method Discover(refresh: bool, at: nat, end: nat, fetched: Option<Client>)
      modifies this
      ensures View() == DiscoveredCore(old(View()), refresh, at, end, fetched)
    {
      if !refresh && cell.Some? { return; }
      if Recent(failure, at) || (refresh && Recent(refreshed, at)) { return; }
      if refresh { refreshed := Some(at); }
      match fetched {
        case Some(c) =>
          cell := Some(c);
          failure := None;
        case None =>
          failure := Some(end);
      }
    }

    method GetClient(at: nat, end: nat, fetched: Option<Client>) returns (client: Option<Client>)
      modifies this
      ensures client == cell
      ensures View() == if old(cell).Some? then old(View()) else DiscoveredCore(old(View()), false, at, end, fetched)
    {
      if cell.Some? { return cell; }
      Discover(false, at, end, fetched);
      client := cell;
    }

    method Rediscover(at: nat, end: nat, fetched: Option<Client>)
      modifies this
      ensures View() == DiscoveredCore(old(View()), true, at, end, fetched)
    {
      Discover(true, at, end, fetched);
    }
  }
}
