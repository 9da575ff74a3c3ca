/**
 The key refresh of `JwksStore::validate_for` in `src/auth.rs`: any number of concurrent
 validations around one mutex that is held across the fetch.

 The machine interleaves the tasks at their await points, and a task may be cancelled at
 any of them. An action that is not enabled changes nothing, so every sequence of actions
 is a run. Times are milliseconds.
 */
module Jwks {
  import opened Clocks
  import opened Options
  import Rates

  const REFRESH_COOLDOWN: nat := 60_000

  type Kid = string
  type TaskId = nat

  /** Where a validation stands; `Fetching` and `Storing` hold the mutex. */
  datatype Task =
    | Waiting(kid: Kid)
    | Fetching(kid: Kid, start: nat)
    | Storing(kid: Kid, fetched: set<Kid>)
    | Deciding(kid: Kid)
  {
    predicate Holds() { Fetching? || Storing? }
  }

  /** A fetch that ran to its end, whether or not it succeeded. */
  datatype Refresh = Refresh(start: nat, end: nat)

  datatype Verdict = Verdict(kid: Kid, known: bool)

  /** What the store itself keeps. */
  datatype Core = Core(keys: set<Kid>, last: Option<nat>)

  datatype State = State(
    now: nat,
    core: Core,
    tasks: map<TaskId, Task>,
    done: seq<Refresh>,
    books: Rates.Books,
    verdicts: seq<Verdict>)

  datatype Action =
    | Pass(dt: nat)
    | Call(t: TaskId, kid: Kid)
    | Lock(t: TaskId)
    | Fetched(t: TaskId, keys: Option<set<Kid>>)
    | Store(t: TaskId)
    | Decide(t: TaskId)
    | Cancel(t: TaskId)

  function Init(keys: set<Kid>): State {
    State(0, Core(keys, None), map[], [], Rates.BLANK, [])
  }

  // ---- the atomic sections ---------------------------------------------------

  datatype Gate = Known | Cooling | Fetch

  /** What a task does once it has the mutex. */
  function Decision(c: Core, kid: Kid, now: nat): Gate {
    if kid in c.keys then Known
    else if c.last.Some? && Elapsed(now, c.last.value) < REFRESH_COOLDOWN then Cooling
    else Fetch
  }

  predicate Free(s: State) { forall t :: t in s.tasks ==> !s.tasks[t].Holds() }

  function Goto(s: State, t: TaskId, task: Task): State { s.(tasks := s.tasks[t := task]) }

  function Leave(s: State, t: TaskId): State { s.(tasks := s.tasks - {t}) }

  function Answer(s: State, t: TaskId, kid: Kid, known: bool): State {
    Leave(s, t).(verdicts := s.verdicts + [Verdict(kid, known)])
  }

  function Step(s: State, a: Action): State {
    match a
    case Pass(dt) => s.(now := s.now + dt)
    case Call(t, kid) =>
      if t in s.tasks then s else Goto(s, t, if kid in s.core.keys then Deciding(kid) else Waiting(kid))
    case Lock(t) =>
      if !(t in s.tasks && s.tasks[t].Waiting? && Free(s)) then s
      else
        var kid := s.tasks[t].kid;
        (match Decision(s.core, kid, s.now)
         case Known => Goto(s, t, Deciding(kid))
         case Cooling => Answer(s, t, kid, false)
         case Fetch => Goto(s, t, Fetching(kid, s.now)).(books := Rates.Begin(s.books, s.now)))
    case Fetched(t, keys) =>
      if !(t in s.tasks && s.tasks[t].Fetching?) then s
      else
        var task := s.tasks[t];
        var armed := s.(core := s.core.(last := Some(s.now)), done := s.done + [Refresh(task.start, s.now)],
          books := Rates.Complete(s.books, true));
        (match keys
         case None => Answer(armed, t, task.kid, false)
         case Some(k) => Goto(armed, t, Storing(task.kid, k)))
    case Store(t) =>
      if !(t in s.tasks && s.tasks[t].Storing?) then s
      else Goto(s, t, Deciding(s.tasks[t].kid)).(core := s.core.(keys := s.tasks[t].fetched))
    case Decide(t) =>
      if !(t in s.tasks && s.tasks[t].Deciding?) then s
      else Answer(s, t, s.tasks[t].kid, s.tasks[t].kid in s.core.keys)
    case Cancel(t) =>
      if t !in s.tasks then s
      else Leave(s, t).(books := if s.tasks[t].Fetching? then Rates.Abandon(s.books) else s.books)
  }

  function Run(s: State, acts: seq<Action>): State
    decreases acts
  {
    if acts == [] then s else Run(Step(s, acts[0]), acts[1..])
  }

  // ---- what every step keeps ---------------------------------------------------

  /** One task at most holds the mutex, and it fetches for a key the store does not have. */
  ghost predicate SingleFlight(s: State) {
    && (forall t, u :: t in s.tasks && u in s.tasks && s.tasks[t].Holds() && s.tasks[u].Holds() ==> t == u)
    && (forall t :: t in s.tasks && s.tasks[t].Holds() ==> s.tasks[t].kid !in s.core.keys)
  }

  predicate After(done: seq<Refresh>, start: nat) {
    done == [] || done[|done| - 1].end + REFRESH_COOLDOWN <= start
  }

  /** The mark is the end of the last completed fetch, failed ones included. */
  ghost predicate MarkKept(s: State) {
    && s.core.last == (if s.done == [] then None else Some(s.done[|s.done| - 1].end))
    && (s.done != [] ==> s.done[|s.done| - 1].end <= s.now)
  }

  /** The fetch in flight began a cooldown after the last one that completed. */
  ghost predicate FlightKept(s: State) {
    forall t :: t in s.tasks && s.tasks[t].Fetching? ==> s.tasks[t].start <= s.now && After(s.done, s.tasks[t].start)
  }

  /** Each completed fetch began a cooldown after the one before it had ended. */
  ghost predicate HistoryKept(s: State) {
    && (forall i :: 0 <= i < |s.done| ==> s.done[i].start <= s.done[i].end)
    && (forall i :: 0 <= i < |s.done| - 1 ==> s.done[i].end + REFRESH_COOLDOWN <= s.done[i + 1].start)
  }

  ghost predicate CooldownKept(s: State) { MarkKept(s) && FlightKept(s) && HistoryKept(s) }

  function Starts(done: seq<Refresh>): seq<nat> { seq(|done|, i requires 0 <= i < |done| => done[i].start) }

  function Ends(done: seq<Refresh>): seq<nat> { seq(|done|, i requires 0 <= i < |done| => done[i].end) }

  /** The books agree with the tasks and the history, and every refresh arms the cooldown. */
  ghost predicate Booked(s: State) {
    && (forall t :: t in s.tasks && s.tasks[t].Fetching? ==>
          Rates.InFlight(s.books) && Rates.Last(s.books.begun) == s.tasks[t].start)
    && ((forall t :: t in s.tasks ==> !s.tasks[t].Fetching?) ==> !Rates.InFlight(s.books))
    && s.books.completed == Starts(s.done) && s.books.short == -1
  }

  lemma StepKeepsSingleFlight(s: State, a: Action)
    requires SingleFlight(s)
    ensures SingleFlight(Step(s, a))
  {}

  lemma StepKeepsMark(s: State, a: Action)
    requires MarkKept(s)
    ensures MarkKept(Step(s, a))
  {}

  lemma StepKeepsFlight(s: State, a: Action)
    requires SingleFlight(s) && MarkKept(s) && FlightKept(s)
    ensures FlightKept(Step(s, a))
  {
    var s' := Step(s, a);
    forall t | t in s'.tasks && s'.tasks[t].Fetching?
      ensures s'.tasks[t].start <= s'.now && After(s'.done, s'.tasks[t].start)
    {
      FlightStaysAfter(s, a, t);
    }
  }

  lemma FlightStaysAfter(s: State, a: Action, t: TaskId)
    requires SingleFlight(s) && MarkKept(s) && FlightKept(s)
    requires t in Step(s, a).tasks && Step(s, a).tasks[t].Fetching?
    ensures Step(s, a).tasks[t].start <= Step(s, a).now && After(Step(s, a).done, Step(s, a).tasks[t].start)
  {}

  lemma StepKeepsHistory(s: State, a: Action)
    requires FlightKept(s) && HistoryKept(s)
    ensures HistoryKept(Step(s, a))
  {}

  /** Whether a task that asks for the mutex gets it, and begins to fetch. */
  predicate Fetches(s: State, t: TaskId) {
    t in s.tasks && s.tasks[t].Waiting? && Free(s) && Decision(s.core, s.tasks[t].kid, s.now).Fetch?
  }

  /** What a step does to the books. */
  function BooksAfter(s: State, a: Action): Rates.Books {
    match a
    case Lock(t) => if Fetches(s, t) then Rates.Begin(s.books, s.now) else s.books
    case Fetched(t, _) => if t in s.tasks && s.tasks[t].Fetching? then Rates.Complete(s.books, true) else s.books
    case Cancel(t) => if t in s.tasks && s.tasks[t].Fetching? then Rates.Abandon(s.books) else s.books
    case _ => s.books
  }

  lemma StepBooks(s: State, a: Action)
    ensures Step(s, a).books == BooksAfter(s, a) && s.now <= Step(s, a).now
  {}

  lemma NoFlight(s: State, t: TaskId)
    requires Booked(s) && Fetches(s, t)
    ensures !Rates.InFlight(s.books)
  {}

  lemma EndKeepsBooked(s: State, a: Action)
    requires SingleFlight(s) && Booked(s) && (a.Fetched? || a.Cancel?) && a.t in s.tasks && s.tasks[a.t].Fetching?
    ensures Booked(Step(s, a))
  {
    var start := s.tasks[a.t].start;
    assert Starts(s.done + [Refresh(start, s.now)]) == Starts(s.done) + [start];
  }

  lemma LockKeepsBooked(s: State, t: TaskId)
    requires Booked(s)
    ensures Booked(Step(s, Lock(t)))
  {
    if Fetches(s, t) { assert Step(s, Lock(t)).tasks[t] == Fetching(s.tasks[t].kid, s.now); }
  }

  lemma StepKeepsBooked(s: State, a: Action)
    requires SingleFlight(s) && Booked(s)
    ensures Booked(Step(s, a))
  {
    if a.Lock? {
      LockKeepsBooked(s, a.t);
    } else if (a.Fetched? || a.Cancel?) && a.t in s.tasks && s.tasks[a.t].Fetching? {
      EndKeepsBooked(s, a);
    } else {
      OtherKeepsFetches(s, a);
    }
  }

  /** Everything else leaves the fetches alone. */
  lemma OtherKeepsFetches(s: State, a: Action)
    requires !a.Lock? && !((a.Fetched? || a.Cancel?) && a.t in s.tasks && s.tasks[a.t].Fetching?)
    ensures var s' := Step(s, a);
            && s'.done == s.done && s'.books == s.books
            && (forall u :: u in s.tasks && s.tasks[u].Fetching? ==> u in s'.tasks && s'.tasks[u] == s.tasks[u])
            && (forall u :: u in s'.tasks && s'.tasks[u].Fetching? ==> u in s.tasks && s'.tasks[u] == s.tasks[u])
  {}

  lemma StepKeepsBalance(s: State, a: Action, lo: nat, hi: nat)
    requires Booked(s) && Rates.Balanced(s.books, lo, hi)
    ensures Rates.Balanced(Step(s, a).books, lo, hi)
  {
    StepBooks(s, a);
    Rates.BooksBalance(s.books, s.now, true, lo, hi);
    if a.Lock? && Fetches(s, a.t) { NoFlight(s, a.t); }
  }

  ghost predicate BooksKept(s: State) {
    Rates.LatestKept(s.books, s.now) && Rates.FarIfApart(s.books, REFRESH_COOLDOWN)
  }

  lemma StepKeepsBooks(s: State, a: Action)
    requires Booked(s) && BooksKept(s)
    ensures BooksKept(Step(s, a))
  {
    StepBooks(s, a);
    Rates.LatestEnds(s.books, s.now, true);
    Rates.FarEnds(s.books, s.now, REFRESH_COOLDOWN, true);
    Rates.LatestBegins(s.books, s.now, s.now);
    Rates.LatestBegins(s.books, Step(s, a).now, s.now);
    Rates.FarBegins(s.books, s.now, s.now, REFRESH_COOLDOWN);
  }

  ghost predicate Inv(s: State) {
    SingleFlight(s) && CooldownKept(s) && Booked(s) && BooksKept(s)
  }

  lemma StepKeeps(s: State, a: Action)
    requires Inv(s)
    ensures Inv(Step(s, a))
  {
    StepKeepsSingleFlight(s, a);
    StepKeepsMark(s, a);
    StepKeepsFlight(s, a);
    StepKeepsHistory(s, a);
    StepKeepsBooked(s, a);
    StepKeepsBooks(s, a);
  }

  lemma {:induction false} RunKeeps(s: State, acts: seq<Action>)
    requires Inv(s)
    ensures Inv(Run(s, acts))
    decreases acts
  {
    if acts != [] {
      StepKeeps(s, acts[0]);
      RunKeeps(Step(s, acts[0]), acts[1..]);
    }
  }

  lemma {:induction false} RunKeepsBalance(s: State, acts: seq<Action>, lo: nat, hi: nat)
    requires Inv(s) && Rates.Balanced(s.books, lo, hi)
    ensures Rates.Balanced(Run(s, acts).books, lo, hi)
    decreases acts
  {
    if acts != [] {
      StepKeeps(s, acts[0]);
      StepKeepsBalance(s, acts[0], lo, hi);
      RunKeepsBalance(Step(s, acts[0]), acts[1..], lo, hi);
    }
  }

  // ---- the main results -------------------------------------------------------

  /** In every run at most one refresh is in flight, and only for a key that is still missing. */
  lemma OneRefreshAtATime(keys: set<Kid>, acts: seq<Action>)
    ensures SingleFlight(Run(Init(keys), acts)) && CooldownKept(Run(Init(keys), acts))
  {
    RunKeeps(Init(keys), acts);
  }

  /**
   In every run, cancelled validations included, a window of length `span` sees at most
   `1 + span / REFRESH_COOLDOWN` completed refreshes, counted by their starts or their ends.
   */
  lemma CompletedRefreshesAreRare(keys: set<Kid>, acts: seq<Action>, lo: nat, span: nat)
    ensures var done := Run(Init(keys), acts).done;
            && Rates.CountIn(Starts(done), lo, lo + span) <= 1 + span / REFRESH_COOLDOWN
            && Rates.CountIn(Ends(done), lo, lo + span) <= 1 + span / REFRESH_COOLDOWN
  {
    RunKeeps(Init(keys), acts);
    var done := Run(Init(keys), acts).done;
    Rates.WindowBound(Starts(done), REFRESH_COOLDOWN, -1, lo, span);
    Rates.WindowBound(Ends(done), REFRESH_COOLDOWN, -1, lo, span);
  }

  /** The refreshes that complete, and the one in flight, are a cooldown apart. */
  lemma LastingAreSpaced(s: State)
    requires Inv(s)
    ensures Rates.Spaced(Rates.Lasting(s.books), REFRESH_COOLDOWN, -1)
  {
    if Rates.InFlight(s.books) {
      var t :| t in s.tasks && s.tasks[t].Fetching?;
      assert After(s.done, s.tasks[t].start);
    }
  }

  /**
   Of the fetches begun, a window sees no more than that either, once those abandoned by a
   cancelled validation are set aside: every fetch begun is completed, abandoned or in flight.
   */
  lemma BegunRefreshesAreRareUnlessAbandoned(keys: set<Kid>, acts: seq<Action>, lo: nat, span: nat)
    ensures var b := Run(Init(keys), acts).books;
            Rates.CountIn(b.begun, lo, lo + span)
              <= 1 + span / REFRESH_COOLDOWN + Rates.CountIn(b.abandoned, lo, lo + span)
  {
    RunKeeps(Init(keys), acts);
    RunKeepsBalance(Init(keys), acts, lo, lo + span);
    LastingAreSpaced(Run(Init(keys), acts));
    Rates.BegunBound(Run(Init(keys), acts).books, REFRESH_COOLDOWN, -1, lo, span);
  }

  /** A task that begins to fetch does so a cooldown after every fetch that was abandoned began. */
  ghost predicate WaitsOut(s: State, a: Action) {
    a.Lock? && Fetches(s, a.t) ==> Rates.WaitsOut(s.books, s.now, REFRESH_COOLDOWN)
  }

  ghost predicate AlwaysWaitsOut(s: State, acts: seq<Action>)
    decreases acts
  {
    acts == [] || (WaitsOut(s, acts[0]) && AlwaysWaitsOut(Step(s, acts[0]), acts[1..]))
  }

  /** A fetch that begins right after one that completed is a cooldown later. */
  lemma GateKeepsDistance(s: State, t: TaskId)
    requires Inv(s) && Fetches(s, t)
    ensures s.books.fate.Completed? ==> s.books.begun != [] && Rates.Last(s.books.begun) + REFRESH_COOLDOWN <= s.now
  {
    if s.done != [] { assert s.done[|s.done| - 1].start <= s.done[|s.done| - 1].end; }
  }

  lemma StepIsExact(s: State, a: Action)
    requires Inv(s)
    ensures Rates.Apart(Step(s, a).books, REFRESH_COOLDOWN)
       <==> Rates.Apart(s.books, REFRESH_COOLDOWN) && WaitsOut(s, a)
  {
    StepBooks(s, a);
    Rates.FarEnds(s.books, s.now, REFRESH_COOLDOWN, true);
    if a.Lock? && Fetches(s, a.t) {
      NoFlight(s, a.t);
      GateKeepsDistance(s, a.t);
      Rates.BeginIsExact(s.books, s.now, s.now, REFRESH_COOLDOWN);
    }
  }

  lemma {:induction false} RunIsExact(s: State, acts: seq<Action>)
    requires Inv(s)
    ensures Rates.Apart(Run(s, acts).books, REFRESH_COOLDOWN) <==>
              Rates.Apart(s.books, REFRESH_COOLDOWN) && AlwaysWaitsOut(s, acts)
    decreases acts
  {
    if acts != [] {
      StepKeeps(s, acts[0]);
      StepIsExact(s, acts[0]);
      RunIsExact(Step(s, acts[0]), acts[1..]);
    }
  }

  /**
   When there is one fetch per interval. In every run the fetches begun are a cooldown apart if
   and only if none begins within a cooldown of one that was abandoned.
   */
  lemma BegunRefreshesAreSpacedExactly(keys: set<Kid>, acts: seq<Action>)
    ensures Rates.Spaced(Run(Init(keys), acts).books.begun, REFRESH_COOLDOWN, -1) <==> AlwaysWaitsOut(Init(keys), acts)
  {
    RunIsExact(Init(keys), acts);
    RunKeeps(Init(keys), acts);
  }

  /** And then a window sees at most `1 + span / REFRESH_COOLDOWN` of them. */
  lemma BegunRefreshesAreRareIfWaitedOut(keys: set<Kid>, acts: seq<Action>, lo: nat, span: nat)
    requires AlwaysWaitsOut(Init(keys), acts)
    ensures Rates.CountIn(Run(Init(keys), acts).books.begun, lo, lo + span) <= 1 + span / REFRESH_COOLDOWN
  {
    BegunRefreshesAreSpacedExactly(keys, acts);
    Rates.WindowBound(Run(Init(keys), acts).books.begun, REFRESH_COOLDOWN, -1, lo, span);
  }

  /**
   And a fetch is never put off longer than that. In every run, a waiting validation that gets the
   mutex while its key is missing begins to fetch if no fetch has completed in the last 60
   seconds, and is refused at once if one has.
   */
  lemma LockFetchesExactly(keys: set<Kid>, acts: seq<Action>, t: TaskId)
    requires var s := Run(Init(keys), acts);
             && t in s.tasks && s.tasks[t].Waiting? && s.tasks[t].kid !in s.core.keys
             && forall u :: u in s.tasks ==> !s.tasks[u].Fetching? && !s.tasks[u].Storing?
    ensures var s, s' := Run(Init(keys), acts), Run(Init(keys), acts + [Lock(t)]);
            var kid := s.tasks[t].kid;
            && (s.done == [] || s.done[|s.done| - 1].end + 60_000 <= s.now <==>
                t in s'.tasks && s'.tasks[t] == Fetching(kid, s.now) && s'.verdicts == s.verdicts)
            && (s.done != [] && s.now < s.done[|s.done| - 1].end + 60_000 <==>
                t !in s'.tasks && s'.verdicts == s.verdicts + [Verdict(kid, false)])
  {
    RunKeeps(Init(keys), acts);
    RunLast(Init(keys), acts, Lock(t));
  }

  lemma {:induction false} RunLast(s: State, acts: seq<Action>, a: Action)
    ensures Run(s, acts + [a]) == Step(Run(s, acts), a)
    decreases acts
  {
    if acts == [] {
      assert acts + [a] == [a];
      assert Run(Step(s, a), []) == Step(s, a);
    } else {
      assert (acts + [a])[1..] == acts[1..] + [a];
      RunLast(Step(s, acts[0]), acts[1..], a);
    }
  }

  /** A key at hand is found at once, whoever holds the mutex. */
  lemma KnownKeyNeverWaits(s: State, t: TaskId, kid: Kid)
    requires t !in s.tasks && kid in s.core.keys
    ensures Step(Step(s, Call(t, kid)), Decide(t)) == s.(verdicts := s.verdicts + [Verdict(kid, true)])
  {
    assert Step(s, Call(t, kid)).tasks - {t} == s.tasks;
  }

  function ImpatientTimes(t: TaskId, kid: Kid, n: nat): seq<Action> {
    if n == 0 then [] else [Call(t, kid), Lock(t), Cancel(t)] + ImpatientTimes(t, kid, n - 1)
  }

  lemma ImpatientOnce(s: State, t: TaskId, kid: Kid)
    requires t !in s.tasks && Free(s) && Decision(s.core, kid, s.now).Fetch?
    ensures var s' := Step(Step(Step(s, Call(t, kid)), Lock(t)), Cancel(t));
            s' == s.(books := Rates.Abandon(Rates.Begin(s.books, s.now)))
  {
    var s1 := Step(s, Call(t, kid));
    assert s1.tasks == s.tasks[t := Waiting(kid)] && Free(s1);
    var s2 := Step(s1, Lock(t));
    assert s2.tasks == s.tasks[t := Fetching(kid, s.now)];
    assert s2.tasks - {t} == s.tasks;
  }

  /**
   The promise of the constant's comment, one fetch per interval "regardless of load", fails:
   a fetch whose task is dropped never arms the cooldown, so from every state whose gate is
   open any number of fetches can begin at one instant.
   */
  lemma {:induction false} AbandonedFetchesAreUnbounded(s: State, t: TaskId, kid: Kid, n: nat)
    requires t !in s.tasks && Free(s) && Decision(s.core, kid, s.now).Fetch?
    ensures var s' := Run(s, ImpatientTimes(t, kid, n));
            && s'.books.begun == s.books.begun + seq(n, _ => s.now)
            && s'.books.abandoned == s.books.abandoned + seq(n, _ => s.now)
            && s'.now == s.now && s'.done == s.done
    decreases n
  {
    if n > 0 {
      var first := [Call(t, kid), Lock(t), Cancel(t)];
      ImpatientOnce(s, t, kid);
      var s' := s.(books := Rates.Abandon(Rates.Begin(s.books, s.now)));
      RunThree(s, first, ImpatientTimes(t, kid, n - 1));
      AbandonedFetchesAreUnbounded(s', t, kid, n - 1);
      assert [s.now] + seq(n - 1, _ => s.now) == seq(n, _ => s.now);
    }
  }

  // ---- the store itself -------------------------------------------------------

  /** The uninterrupted run of one validation: the new state, and whether its key is known. */
  function Validated(c: Core, kid: Kid, at: nat, end: nat, fetched: Option<set<Kid>>): (Core, bool) {
    match Decision(c, kid, at)
    case Known => (c, true)
    case Cooling => (c, false)
    case Fetch =>
      match fetched
      case None => (c.(last := Some(end)), false)
      case Some(keys) => (Core(keys, Some(end)), kid in keys)
  }

  /**
   What it comes to: a key at hand is known and nothing is fetched; within 60 seconds of the mark
   a missing one is not, and nothing is fetched either; otherwise the mark moves, and the keys
   and the verdict are those of the fetch, if it succeeds.
   */
  lemma ValidatedIsExact(c: Core, kid: Kid, at: nat, end: nat, fetched: Option<set<Kid>>)
    ensures var (c', known) := Validated(c, kid, at, end, fetched);
            && (kid in c.keys ==> c' == c && known)
            && (kid !in c.keys && c.last.Some? && at < c.last.value + 60_000 ==> c' == c && !known)
            && (kid !in c.keys && (c.last.None? || c.last.value + 60_000 <= at) ==>
                  && c'.last == Some(end)
                  && (fetched.None? ==> c'.keys == c.keys && !known)
                  && (fetched.Some? ==> c'.keys == fetched.value && (known <==> kid in fetched.value)))
  {}

  /** That run is a run of the machine, ending with the same state and the same verdict. */
  lemma ValidatedIsARun(s: State, kid: Kid, dt: nat, fetched: Option<set<Kid>>)
    requires s.tasks == map[]
    ensures var fetch := if Decision(s.core, kid, s.now).Fetch? then [Pass(dt), Fetched(0, fetched), Store(0)] else [];
            var s' := Run(s, [Call(0, kid), Lock(0)] + fetch + [Decide(0)]);
            var (c, known) := Validated(s.core, kid, s.now, s.now + dt, fetched);
            s'.core == c && s'.verdicts == s.verdicts + [Verdict(kid, known)]
  {
    if Decision(s.core, kid, s.now).Fetch? {
      var first, second := [Call(0, kid), Lock(0), Pass(dt)], [Fetched(0, fetched), Store(0), Decide(0)];
      assert [Call(0, kid), Lock(0)] + [Pass(dt), Fetched(0, fetched), Store(0)] + [Decide(0)] == first + second;
      assert second + [] == second;
      var s3 := Step(Step(Step(s, first[0]), first[1]), first[2]);
      RunThree(s, first, second);
      RunThree(s3, second, []);
    } else {
      var acts := [Call(0, kid), Lock(0), Decide(0)];
      assert [Call(0, kid), Lock(0)] + [] + [Decide(0)] == acts + [];
      RunThree(s, acts, []);
    }
  }

  lemma RunThree(s: State, acts: seq<Action>, rest: seq<Action>)
    requires |acts| == 3
    ensures Run(s, acts + rest) == Run(Step(Step(Step(s, acts[0]), acts[1]), acts[2]), rest)
  {
    var all := acts + rest;
    var s1 := Step(s, all[0]);
    var s2 := Step(s1, all[1]);
    assert all[1..][1..] == all[2..] && all[2..][1..] == all[3..] && all[3..] == rest;
    assert Run(s1, all[1..]) == Run(s2, all[2..]);
    assert Run(s2, all[2..]) == Run(Step(s2, all[2]), all[3..]);
  }

  /** The store as the program keeps it, updated under its locks. */
  class JwksStore {
    var keys: set<Kid>
    var lastRefresh: Option<nat>

    ghost function View(): Core reads this { Core(keys, lastRefresh) }

    constructor (initial: set<Kid>)
      ensures View() == Core(initial, None)
    {
      keys := initial;
      lastRefresh := None;
    }

    /**
     The key lookup of one validation that nothing interrupts; `kid` is absent when the header
     has none. `at` and `end` are the readings before and after a fetch.
     */
    method FindKey(kid: Option<Kid>, at: nat, end: nat, fetched: Option<set<Kid>>) returns (known: bool)
      modifies this
      ensures kid.None? ==> !known && View() == old(View())
      ensures kid.Some? ==> (View(), known) == Validated(old(View()), kid.value, at, end, fetched)
      ensures kid.Some? && kid.value in old(keys) ==> known && View() == old(View())
      ensures kid.Some? && kid.value !in old(keys) ==>
                if old(lastRefresh).Some? && at < old(lastRefresh).value + 60_000 then !known && View() == old(View())
                else
                  && lastRefresh == Some(end) && keys == (if fetched.Some? then fetched.value else old(keys))
                  && (known <==> fetched.Some? && kid.value in fetched.value)
    {
      if kid.None? { return false; }
      var k := kid.value;
      if k !in keys {
        if lastRefresh.Some? && Elapsed(at, lastRefresh.value) < REFRESH_COOLDOWN { return false; }
        lastRefresh := Some(end);
        match fetched {
          case Some(latest) => keys := latest;
          case None => return false;
        }
      }
      known := k in keys;
    }
  }
}
