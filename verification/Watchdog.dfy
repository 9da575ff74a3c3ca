/**
 The self-heal watchdog of the stack task in `src/wg/forward.rs`: `last_healthy` moves on
 a fresh handshake and on a successful rebuild, and a tick that finds it too far back
 bounces the tunnel. Times are nanoseconds on one non-decreasing clock.
 */
module Watchdog {
  import opened Clocks
  import opened Options
  import Health

  const REHANDSHAKE_AFTER: nat := 30_000_000_000

  /** A rebuild of the tunnel: whether it succeeded, and when it was over. */
  datatype Rebuild = Rebuild(ok: bool, done: nat)

  /**
   What can be seen of the stack task: a timer tick, with the handshake age it read and the
   bounce it made, if it made one; and a receive that failed, with the rebuild that follows.
   */
  datatype Event =
    | Tick(at: nat, age: Option<nat>, bounce: Option<Rebuild>)
    | ReceiveFailed(at: nat, rebuild: Rebuild)

  predicate Fresh(age: Option<nat>) { age.Some? && age.value / Health.SECOND < Health.HANDSHAKE_STALE_SECS }

  function End(e: Event): nat {
    match e
    case Tick(at, _, bounce) => if bounce.Some? then bounce.value.done else at
    case ReceiveFailed(_, rebuild) => rebuild.done
  }

  predicate Timely(now: nat, es: seq<Event>)
    decreases es
  {
    es == [] || (now <= es[0].at <= End(es[0]) && Timely(End(es[0]), es[1..]))
  }

  // ---- the program ----------------------------------------------------------------------

  predicate Due(lastHealthy: nat, at: nat, age: Option<nat>) {
    !Fresh(age) && Elapsed(at, lastHealthy) > REHANDSHAKE_AFTER
  }

  /** The program makes this event: a tick bounces when it is due, and only then. */
  predicate Makes(lastHealthy: nat, e: Event) { e.Tick? ==> (e.bounce.Some? <==> Due(lastHealthy, e.at, e.age)) }

  function After(lastHealthy: nat, e: Event): nat {
    match e
    case Tick(at, age, bounce) =>
      if Fresh(age) then at
      else if bounce.Some? && bounce.value.ok then bounce.value.done
      else lastHealthy
    case ReceiveFailed(_, rebuild) => if rebuild.ok then rebuild.done else lastHealthy
  }

  /** A history the program can have, given the marker it starts with. */
  predicate Follows(lastHealthy: nat, es: seq<Event>)
    decreases es
  {
    es == [] || (Makes(lastHealthy, es[0]) && Follows(After(lastHealthy, es[0]), es[1..]))
  }

  // ---- the promise ----------------------------------------------------------------------

  /**
   When an event saw the tunnel well, if it did: a handshake less than 180 seconds old, or a
   rebuild that succeeded.
   */
  function WellAt(e: Event): Option<nat> {
    if e.Tick? && e.age.Some? && e.age.value < 180_000_000_000 then Some(e.at)
    else if e.Tick? && e.bounce.Some? && e.bounce.value.ok then Some(e.bounce.value.done)
    else if e.ReceiveFailed? && e.rebuild.ok then Some(e.rebuild.done)
    else None
  }

  /** For more than 30 seconds before the i-th event nothing saw it well, nor had the task just started. */
  ghost predicate Unwell(start: nat, es: seq<Event>, i: nat)
    requires i < |es|
  {
    && start + 30_000_000_000 < es[i].at
    && forall j :: 0 <= j < i && WellAt(es[j]).Some? ==> WellAt(es[j]).value + 30_000_000_000 < es[i].at
  }

  ghost predicate KeepsPromise(start: nat, es: seq<Event>, i: nat)
    requires i < |es|
  {
    es[i].Tick? ==>
      (es[i].bounce.Some? <==>
       (es[i].age.None? || es[i].age.value >= 180_000_000_000) && Unwell(start, es, i))
  }

  lemma UnwellLater(start: nat, es: seq<Event>, i: nat)
    requires Timely(start, es) && 0 < i < |es|
    ensures Unwell(start, es, i) <==> Unwell(After(start, es[0]), es[1..], i - 1)
  {
    var rest := es[1..];
    assert rest[i - 1] == es[i];
    assert forall j :: 0 <= j < i - 1 ==> rest[j] == es[j + 1];
    if Unwell(After(start, es[0]), rest, i - 1) {
      forall j | 0 <= j < i && WellAt(es[j]).Some? ensures WellAt(es[j]).value + 30_000_000_000 < es[i].at {
        if j > 0 { assert es[j] == rest[j - 1]; }
      }
    }
  }

  lemma TimelyTail(start: nat, es: seq<Event>)
    requires Timely(start, es) && es != []
    ensures Timely(After(start, es[0]), es[1..])
  {}

  /**
   The watchdog is exact. A history of the stack task is one the program can have if and only if
   each of its ticks bounces the tunnel exactly when it reads no handshake, or one 180 seconds
   old, and for more than 30 seconds no tick has read a younger one and no rebuild has
   succeeded, nor has the task only just started.
   */
  lemma {:induction false} WatchdogIsExact(start: nat, es: seq<Event>)
    requires Timely(start, es)
    ensures Follows(start, es) <==> forall i :: 0 <= i < |es| ==> KeepsPromise(start, es, i)
    decreases es
  {
    if es != [] {
      var next, rest := After(start, es[0]), es[1..];
      TimelyTail(start, es);
      WatchdogIsExact(next, rest);
      assert Makes(start, es[0]) <==> KeepsPromise(start, es, 0);
      forall i | 0 < i < |es| ensures KeepsPromise(start, es, i) <==> KeepsPromise(next, rest, i - 1) {
        UnwellLater(start, es, i);
      }
      if forall i :: 0 <= i < |es| ==> KeepsPromise(start, es, i) {
        forall i | 0 <= i < |rest| ensures KeepsPromise(next, rest, i) { assert KeepsPromise(start, es, i + 1); }
      }
    }
  }

  // ---- the marker -----------------------------------------------------------------------

  /** The marker as the stack task keeps it. */
  class Marker {
    var lastHealthy: nat

    constructor (at: nat)
      ensures lastHealthy == at
    {
      lastHealthy := at;
    }

    /**
     The timer arm: publish the age, then judge it. `rebuild` is how a bounce would end; the
     answer is the bounce made.
     */
    method TimerTick(health: Health.WgHealth, at: nat, age: Option<nat>, rebuild: Rebuild)
      returns (bounce: Option<Rebuild>)
      modifies this, health
      ensures Makes(old(lastHealthy), Tick(at, age, bounce)) && (bounce.Some? ==> bounce.value == rebuild)
      ensures lastHealthy == After(old(lastHealthy), Tick(at, age, bounce))
      ensures age.Some? && age.value < 180_000_000_000 ==> bounce == None && lastHealthy == at
      ensures age.None? || age.value >= 180_000_000_000 ==>
                && (bounce.Some? <==> old(lastHealthy) + 30_000_000_000 < at)
                && lastHealthy == if bounce.Some? && rebuild.ok then rebuild.done else old(lastHealthy)
      ensures health.View() == Health.PublishedCells(age, at)
    {
      health.Set(age, at);
      bounce := None;
      if age.Some? && age.value / Health.SECOND < Health.HANDSHAKE_STALE_SECS {
        lastHealthy := at;
      } else if Elapsed(at, lastHealthy) > REHANDSHAKE_AFTER {
        bounce := Some(rebuild);
        if rebuild.ok { lastHealthy := rebuild.done; }
      }
    }

    /** The receive arm, when the socket itself failed. */
    method ReceiveError(at: nat, rebuild: Rebuild)
      modifies this
      ensures lastHealthy == After(old(lastHealthy), ReceiveFailed(at, rebuild))
      ensures lastHealthy == if rebuild.ok then rebuild.done else old(lastHealthy)
    {
      if rebuild.ok { lastHealthy := rebuild.done; }
    }
  }
}
