/**
 The health handle of `src/wg/forward.rs`: the stack task publishes the handshake age in
 one atomic and stamps it in another, and readers on other threads combine the two.

 The machine interleaves the single loads and stores, in program order and sequentially
 consistent. The stack task may stop for good at any point: a run need not contain any
 more of its steps. Each published value carries, for the specification only, the instant
 it was measured at and the handshake it is about. Times are nanoseconds since `origin`, the
 resolution of the program's clock.
 */
module Health {
  import opened Clocks
  import opened Options

  const HANDSHAKE_STALE_SECS: nat := 180
  const HEALTH_FRESH_MS: nat := 5_000
  const SECOND: nat := 1_000_000_000
  const MILLISECOND: nat := 1_000_000

  /** The oldest handshake of which the age cell still says less than the limit, and the oldest fresh stamp. */
  const OLDEST_AGE: nat := HANDSHAKE_STALE_SECS * SECOND - 1
  const OLDEST_STAMP: nat := HEALTH_FRESH_MS * MILLISECOND - 1

  /** The age cell: whole seconds, of a measurement, of a handshake. */
  datatype Published = Published(secs: nat, measured: nat, handshake: nat)

  /** The stamp cell: whole milliseconds, at an instant, for a measurement. */
  datatype Stamp = Stamp(ms: nat, at: nat, measured: nat)

  /** A tick measures the age, stores it, reads the clock for the stamp, and stores that. */
  datatype Writer = Idle | Measured(at: nat, handshake: Option<nat>) | Stored(at: nat) | Stamping(at: nat, read: nat)

  /** A reader takes the time, loads the stamp, and loads the age if the stamp is fresh. */
  datatype Reader = Clocked(read: nat) | Alive(read: nat) | Done(read: nat, ok: bool)

  datatype State = State(
    now: nat,
    handshakes: set<nat>,
    secs: Option<Published>,
    stamp: Stamp,
    writer: Writer,
    readers: map<nat, Reader>,
    lag: nat)

  const INIT := State(0, {}, None, Stamp(0, 0, 0), Idle, map[], 0)

  datatype Action =
    | Pass(dt: nat)
    | Handshake
    | Measure(handshake: Option<nat>)
    | StoreSecs
    | ReadClock
    | StoreStamp
    | Begin(r: nat)
    | LoadStamp(r: nat)
    | LoadSecs(r: nat)

  function Max(a: nat, b: nat): nat { if a >= b then a else b }

  function Set(s: State, r: nat, reader: Reader): State { s.(readers := s.readers[r := reader]) }

  function Step(s: State, a: Action): State {
    match a
    case Pass(dt) => s.(now := s.now + dt)
    case Handshake => s.(handshakes := s.handshakes + {s.now})
    case Measure(h) =>
      if s.writer.Idle? && (h.Some? ==> h.value in s.handshakes) then s.(writer := Measured(s.now, h)) else s
    case StoreSecs =>
      if !s.writer.Measured? then s
      else
        var at := s.writer.at;
        s.(writer := Stored(at),
           secs := match s.writer.handshake
                   case None => None
                   case Some(h) => Some(Published(SaturatingSub(at, h) / SECOND, at, h)))
    case ReadClock => if !s.writer.Stored? then s else s.(writer := Stamping(s.writer.at, s.now))
    case StoreStamp =>
      if !s.writer.Stamping? then s
      else
        var read := s.writer.read;
        s.(writer := Idle,
           stamp := Stamp(read / MILLISECOND, read, s.writer.at),
           lag := Max(s.lag, SaturatingSub(read, s.writer.at)))
    case Begin(r) => if r in s.readers then s else Set(s, r, Clocked(s.now))
    case LoadStamp(r) =>
      if !(r in s.readers && s.readers[r].Clocked?) then s
      else
        var read := s.readers[r].read;
        var inTime := SaturatingSub(read / MILLISECOND, s.stamp.ms) < HEALTH_FRESH_MS;
        Set(s, r, if inTime then Alive(read) else Done(read, false))
    case LoadSecs(r) =>
      if !(r in s.readers && s.readers[r].Alive?) then s
      else Set(s, r, Done(s.readers[r].read, s.secs.Some? && s.secs.value.secs < HANDSHAKE_STALE_SECS))
  }

  function Run(s: State, acts: seq<Action>): State
    decreases acts
  {
    if acts == [] then s else Run(Step(s, acts[0]), acts[1..])
  }

  // ---- what every step keeps ----------------------------------------------------------

  ghost predicate StampKept(s: State) {
    && s.stamp.measured <= s.stamp.at <= s.now && s.stamp.at - s.stamp.measured <= s.lag
    && s.stamp.ms == s.stamp.at / MILLISECOND
  }

  ghost predicate WriterKept(s: State) {
    match s.writer
    case Idle => true
    case Measured(at, h) => s.stamp.at <= at <= s.now && (h.Some? ==> h.value in s.handshakes && h.value <= at)
    case Stored(at) => s.stamp.at <= at <= s.now && (s.secs.Some? ==> s.secs.value.measured == at)
    case Stamping(at, read) => s.stamp.at <= at <= read <= s.now && (s.secs.Some? ==> s.secs.value.measured == at)
  }

  ghost predicate AgeKept(s: State) {
    s.secs.Some? ==>
      var p := s.secs.value;
      && p.handshake in s.handshakes && p.handshake <= p.measured <= s.now
      && p.secs == (p.measured - p.handshake) / SECOND
      // the age is never older than the stamp beside it
      && (p.measured == s.stamp.measured || s.stamp.at <= p.measured)
  }

  ghost predicate CellsKept(s: State) {
    (forall h :: h in s.handshakes ==> h <= s.now) && StampKept(s) && WriterKept(s) && AgeKept(s)
  }

  /** Some handshake completed within both limits, and the lag, before `read`. */
  ghost predicate Recent(handshakes: set<nat>, read: nat, lag: nat) {
    exists h :: h in handshakes && read <= h + OLDEST_AGE + OLDEST_STAMP + lag
  }

  ghost predicate ReadersKept(s: State) {
    forall r :: r in s.readers ==>
      match s.readers[r]
      case Clocked(read) => true
      case Alive(read) => read <= s.stamp.at + OLDEST_STAMP
      case Done(read, ok) => ok ==> Recent(s.handshakes, read, s.lag)
  }

  lemma StepKeepsAge(s: State, a: Action)
    requires CellsKept(s)
    ensures AgeKept(Step(s, a))
  {}

  lemma StepKeepsCells(s: State, a: Action)
    requires CellsKept(s)
    ensures CellsKept(Step(s, a))
  {
    StepKeepsAge(s, a);
  }

  lemma StampFreshness(s: State, read: nat)
    requires CellsKept(s) && SaturatingSub(read / MILLISECOND, s.stamp.ms) < HEALTH_FRESH_MS
    ensures read <= s.stamp.at + OLDEST_STAMP
  {}

  lemma AgeIsRecent(s: State, read: nat)
    requires CellsKept(s) && read <= s.stamp.at + OLDEST_STAMP
    requires s.secs.Some? && s.secs.value.secs < HANDSHAKE_STALE_SECS
    ensures Recent(s.handshakes, read, s.lag)
  {
    var p := s.secs.value;
    assert p.measured - p.handshake <= OLDEST_AGE;
    assert p.handshake in s.handshakes;
  }

  lemma StepKeepsReaders(s: State, a: Action)
    requires CellsKept(s) && ReadersKept(s)
    ensures ReadersKept(Step(s, a))
  {
    var s' := Step(s, a);
    forall r | r in s.readers && s.readers[r].Done? && s.readers[r].ok
      ensures Recent(s'.handshakes, s.readers[r].read, s'.lag)
    {
      var h :| h in s.handshakes && s.readers[r].read <= h + OLDEST_AGE + OLDEST_STAMP + s.lag;
      assert h in s'.handshakes;
    }
    if a.LoadStamp? && a.r in s.readers && s'.readers[a.r].Alive? && s.readers[a.r].Clocked? {
      StampFreshness(s, s.readers[a.r].read);
    }
    if a.LoadSecs? && a.r in s.readers && s.readers[a.r].Alive? && s'.readers[a.r].ok {
      AgeIsRecent(s, s.readers[a.r].read);
    }
  }

  lemma {:induction false} RunKeeps(s: State, acts: seq<Action>)
    requires CellsKept(s) && ReadersKept(s)
    ensures CellsKept(Run(s, acts)) && ReadersKept(Run(s, acts))
    decreases acts
  {
    if acts != [] {
      StepKeepsCells(s, acts[0]);
      StepKeepsReaders(s, acts[0]);
      RunKeeps(Step(s, acts[0]), acts[1..]);
    }
  }

  // ---- the main results ------------------------------------------------------------------

  /**
   Health is truthful. However ticks and readers interleave, and whether or not the stack
   task is still alive, a reader that answers ok at `read` does so because a handshake
   completed at most 184.999999998 seconds, plus the longest time a tick took from measuring
   the age to reading the clock for its stamp, before.
   */
  lemma HealthIsTruthful(acts: seq<Action>, r: nat, read: nat)
    requires r in Run(INIT, acts).readers && Run(INIT, acts).readers[r] == Done(read, true)
    ensures var s := Run(INIT, acts);
            exists h :: h in s.handshakes && h <= s.now && read <= h + 184_999_999_998 + s.lag
  {
    RunKeeps(INIT, acts);
    var s := Run(INIT, acts);
    var h :| h in s.handshakes && read <= h + OLDEST_AGE + OLDEST_STAMP + s.lag;
    assert h <= s.now;
  }

  /** When the first handshake must be for the stamp to fall on a whole millisecond. */
  function Onset(lag: nat): nat { (MILLISECOND - (OLDEST_AGE + lag) % MILLISECOND) % MILLISECOND }

  function MeasuredTick(h: nat): seq<Action> { [Pass(h), Handshake, Pass(OLDEST_AGE), Measure(Some(h))] }

  function StampedTick(lag: nat): seq<Action> { [Pass(lag), StoreSecs, ReadClock, StoreStamp] }

  function LateReader(r: nat): seq<Action> { [Pass(OLDEST_STAMP), Begin(r), LoadStamp(r), LoadSecs(r)] }

  /** A tick delayed by `lag`, and a reader that comes as late as it can. */
  function LateTick(h: nat, lag: nat, r: nat): seq<Action> { MeasuredTick(h) + (StampedTick(lag) + LateReader(r)) }

  /** The state when the age has just been measured, as late as it can be. */
  function AtMeasuring(h: nat): State {
    State(h + OLDEST_AGE, {h}, None, Stamp(0, 0, 0), Measured(h + OLDEST_AGE, Some(h)), map[], 0)
  }

  /** And when the late stamp has been made. */
  function AtStamping(h: nat, lag: nat): State {
    var stamped := h + OLDEST_AGE + lag;
    State(stamped, {h}, Some(Published(HANDSHAKE_STALE_SECS - 1, h + OLDEST_AGE, h)),
          Stamp(stamped / MILLISECOND, stamped, h + OLDEST_AGE), Idle, map[], lag)
  }

  lemma LateTickAnswers(h: nat, lag: nat, r: nat)
    requires (h + OLDEST_AGE + lag) % MILLISECOND == 0
    ensures var s := Run(INIT, LateTick(h, lag, r));
            && s.lag == lag && s.handshakes == {h}
            && r in s.readers && s.readers[r] == Done(h + OLDEST_AGE + lag + OLDEST_STAMP, true)
  {
    MeasuringIsReached(INIT, h, StampedTick(lag) + LateReader(r));
    StampingIsReached(h, lag, LateReader(r));
    LateReaderAnswers(AtStamping(h, lag), r);
  }

  /** The bound is attained, whatever the delay: by a run with just that delay and one handshake. */
  lemma LagIsAttained(lag: nat, r: nat)
    ensures var s := Run(INIT, LateTick(Onset(lag), lag, r));
            && s.lag == lag && s.handshakes == {Onset(lag)}
            && r in s.readers && s.readers[r] == Done(Onset(lag) + 184_999_999_998 + lag, true)
  {
    OnsetFalls(lag);
    LateTickAnswers(Onset(lag), lag, r);
  }

  lemma OnsetFalls(lag: nat)
    ensures (Onset(lag) + OLDEST_AGE + lag) % MILLISECOND == 0
  {}

  lemma MeasuringIsReached(s: State, h: nat, rest: seq<Action>)
    requires s == INIT
    ensures Run(s, MeasuredTick(h) + rest) == Run(AtMeasuring(h), rest)
  {
    RunFour(s, Pass(h), Handshake, Pass(OLDEST_AGE), Measure(Some(h)), rest);
    assert s.handshakes + {h} == {h};
  }

  lemma StampingIsReached(h: nat, lag: nat, rest: seq<Action>)
    ensures Run(AtMeasuring(h), StampedTick(lag) + rest) == Run(AtStamping(h, lag), rest)
  {
    RunFour(AtMeasuring(h), Pass(lag), StoreSecs, ReadClock, StoreStamp, rest);
    assert OLDEST_AGE / SECOND == HANDSHAKE_STALE_SECS - 1;
  }

  /** The stamp is on a whole millisecond, and has just not gone stale. */
  lemma LateReaderAnswers(s: State, r: nat)
    requires s.readers == map[] && s.stamp.ms == s.now / MILLISECOND && s.now % MILLISECOND == 0
    requires s.secs.Some? && s.secs.value.secs < HANDSHAKE_STALE_SECS
    ensures var s' := Run(s, LateReader(r));
            && s'.lag == s.lag && s'.handshakes == s.handshakes
            && r in s'.readers && s'.readers[r] == Done(s.now + OLDEST_STAMP, true)
  {
    assert (s.now + OLDEST_STAMP) / MILLISECOND == s.now / MILLISECOND + HEALTH_FRESH_MS - 1;
    RunFour(s, Pass(OLDEST_STAMP), Begin(r), LoadStamp(r), LoadSecs(r), []);
    assert LateReader(r) + [] == LateReader(r);
  }

  /** Every reader of every run delayed by `most` at most that answers ok does so within 185 seconds of a handshake. */
  ghost predicate Within185Seconds(most: nat) {
    forall acts, r: nat, read: nat ::
      var s := Run(INIT, acts);
      r in s.readers && s.readers[r] == Done(read, true) && s.lag <= most ==>
        exists h :: h in s.handshakes && read < h + 185 * SECOND
  }

  /**
   The delay matters: the two limits together bound the age of the handshake by themselves if
   and only if no tick takes more than a nanosecond from measuring the age to reading the clock.
   */
  lemma LagMatters(most: nat)
    ensures Within185Seconds(most) <==> most <= 1
  {
    if most <= 1 {
      forall acts, r: nat, read: nat |
        && r in Run(INIT, acts).readers && Run(INIT, acts).readers[r] == Done(read, true)
        && Run(INIT, acts).lag <= most
        ensures exists h :: h in Run(INIT, acts).handshakes && read < h + 185 * SECOND
      {
        HealthIsTruthful(acts, r, read);
      }
    } else {
      LagIsAttained(2, 0);
      var s := Run(INIT, LateTick(Onset(2), 2, 0));
      assert !(exists h :: h in s.handshakes && s.readers[0].read < h + 185 * SECOND);
    }
  }

  /** What a reader answers, exactly: the floor to milliseconds shortens the stamp's five seconds. */
  lemma LiveTunnelReadsHealthy(acts: seq<Action>, r: nat)
    requires r !in Run(INIT, acts).readers
    ensures var s := Run(INIT, acts);
            var ok := && s.now < s.stamp.at - s.stamp.at % MILLISECOND + 5_000_000_000
                      && s.secs.Some? && s.secs.value.measured - s.secs.value.handshake < 180_000_000_000;
            Step(Step(Step(s, Begin(r)), LoadStamp(r)), LoadSecs(r)).readers[r] == Done(s.now, ok)
  {
    RunKeeps(INIT, acts);
    var s := Run(INIT, acts);
    FreshInMillis(s.now, s.stamp.at);
  }

  lemma FreshInMillis(now: nat, at: nat)
    ensures SaturatingSub(now / MILLISECOND, at / MILLISECOND) < HEALTH_FRESH_MS
       <==> now < at - at % MILLISECOND + HEALTH_FRESH_MS * MILLISECOND
  {}

  /** A stack task that stamped nothing for the last five seconds never reads as healthy. */
  lemma DeadTaskReadsUnhealthy(acts: seq<Action>, r: nat)
    requires var s := Run(INIT, acts); r !in s.readers && s.stamp.at + 5_000_000_000 <= s.now
    ensures var s := Run(INIT, acts);
            Step(Step(Step(s, Begin(r)), LoadStamp(r)), LoadSecs(r)).readers[r] == Done(s.now, false)
  {
    RunKeeps(INIT, acts);
  }

  lemma RunFour(s: State, a: Action, b: Action, c: Action, d: Action, rest: seq<Action>)
    ensures Run(s, [a, b, c, d] + rest) == Run(Step(Step(Step(Step(s, a), b), c), d), rest)
  {
    assert [a, b, c, d] + rest == [a] + ([b] + ([c] + ([d] + rest)));
    RunOne(s, a, [b] + ([c] + ([d] + rest)));
    RunOne(Step(s, a), b, [c] + ([d] + rest));
    RunOne(Step(Step(s, a), b), c, [d] + rest);
    RunOne(Step(Step(Step(s, a), b), c), d, rest);
  }

  lemma RunOne(s: State, a: Action, rest: seq<Action>)
    ensures Run(s, [a] + rest) == Run(Step(s, a), rest)
  {
    assert ([a] + rest)[1..] == rest;
  }

  // ---- the handle itself ---------------------------------------------------------------------

  function WholeSeconds(age: Option<nat>): Option<nat> {
    match age case None => None case Some(d) => Some(d / SECOND)
  }

  /** The two cells: the age in seconds, if there is one, and the stamp in milliseconds. */
  datatype Cells = Cells(secs: Option<nat>, ms: nat)

  function CellsOf(s: State): Cells { Cells(if s.secs.Some? then Some(s.secs.value.secs) else None, s.stamp.ms) }

  function PublishedCells(age: Option<nat>, at: nat): Cells { Cells(WholeSeconds(age), at / MILLISECOND) }

  /** The cells hold an age and a stamp cut to whole units: they count the ones that fit, and no fewer. */
  lemma PublishedIsCut(age: Option<nat>, at: nat)
    ensures var c := PublishedCells(age, at);
            && c.ms * 1_000_000 <= at < (c.ms + 1) * 1_000_000
            && (c.secs.Some? <==> age.Some?)
            && (age.Some? ==> c.secs.value * 1_000_000_000 <= age.value < (c.secs.value + 1) * 1_000_000_000)
  {}

  /** Publishing, uninterrupted, is a run of the machine. */
  lemma PublishIsARun(s: State, handshake: Option<nat>)
    requires s.writer.Idle? && (handshake.Some? ==> handshake.value in s.handshakes && handshake.value <= s.now)
    ensures var s' := Run(s, [Measure(handshake), StoreSecs, ReadClock, StoreStamp] + []);
            var age := if handshake.Some? then Some(s.now - handshake.value) else None;
            CellsOf(s') == PublishedCells(age, s.now) && s'.writer.Idle?
  {
    RunFour(s, Measure(handshake), StoreSecs, ReadClock, StoreStamp, []);
  }

  /** What the cells say at a given time. */
  predicate Healthy(c: Cells, at: nat) {
    at < c.ms * 1_000_000 + 5_000_000_000 && c.secs.Some? && c.secs.value < 180
  }

  /** And so is reading them. */
  lemma ReadIsARun(s: State, r: nat)
    requires r !in s.readers
    ensures Step(Step(Step(s, Begin(r)), LoadStamp(r)), LoadSecs(r)).readers[r]
         == Done(s.now, Healthy(CellsOf(s), s.now))
  {}

  /** The handle as the program keeps it; no handshake yet is `None` here. */
  class WgHealth {
    var lastHandshakeSecs: Option<nat>
    var updatedAtMs: nat

    constructor ()
      ensures lastHandshakeSecs == None && updatedAtMs == 0
    {
      lastHandshakeSecs, updatedAtMs := None, 0;
    }

    ghost function View(): Cells reads this { Cells(lastHandshakeSecs, updatedAtMs) }

    method Set(age: Option<nat>, at: nat)
      modifies this
      ensures View() == PublishedCells(age, at)
    {
      lastHandshakeSecs := match age case None => None case Some(d) => Some(d / SECOND);
      updatedAtMs := at / MILLISECOND;
    }

    method StackAlive(at: nat) returns (alive: bool)
      ensures at < updatedAtMs * 1_000_000 + 5_000_000_000 <==> alive
    {
      alive := SaturatingSub(at / MILLISECOND, updatedAtMs) < HEALTH_FRESH_MS;
    }

    method LastHandshakeSecs(at: nat) returns (secs: Option<nat>)
      ensures secs == if at < updatedAtMs * 1_000_000 + 5_000_000_000 then lastHandshakeSecs else None
    {
      var alive := StackAlive(at);
      secs := if alive then lastHandshakeSecs else None;
    }

    /** Ok means published in the last five seconds with an age under three minutes. */
    method HandshakeOk(at: nat) returns (ok: bool)
      ensures ok <==> Healthy(View(), at)
      ensures ok <==>
                && at < updatedAtMs * 1_000_000 + 5_000_000_000
                && lastHandshakeSecs.Some? && lastHandshakeSecs.value < 180
    {
      var secs := LastHandshakeSecs(at);
      ok := secs.Some? && secs.value < HANDSHAKE_STALE_SECS;
    }
  }
}
