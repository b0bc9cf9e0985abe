/**
 * The timer state machine that rate-limits sensor polling:
 * Wait -> Waiting(start) -> Ready -> Wait, with no terminal state.
 * The wall clock is an explicit parameter `now`, a count of nanoseconds;
 * a duration is compared against the elapsed time truncated to the
 * duration's own unit, as `as_millis`, `as_micros`, `as_nanos` and
 * `as_secs` truncate.
 */
module Timers {

  import opened Wrappers

  /** A configured interval: a magnitude in one of four units. */
  datatype Duration = Millis(ms: nat) | Micros(us: nat) | Nanos(ns: nat) | Secs(s: nat)

  /** Wait asks the timer to start; Waiting remembers when it did; Ready notifies. */
  datatype State = Wait | Waiting(start: nat) | Ready

  /** Nanoseconds in one unit of the duration. */
  function UnitNanos(d: Duration): (k: nat)
    ensures k > 0
  {
    match d
    case Millis(_) => 1_000_000
    case Micros(_) => 1_000
    case Nanos(_) => 1
    case Secs(_) => 1_000_000_000
  }

  function Magnitude(d: Duration): nat
  {
    match d
    case Millis(m) => m
    case Micros(m) => m
    case Nanos(m) => m
    case Secs(m) => m
  }

  /** The duration as a number of nanoseconds. */
  function TotalNanos(d: Duration): nat
  {
    Magnitude(d) * UnitNanos(d)
  }

  /**
   * Whether `elapsed` nanoseconds, truncated to the duration's unit, reach
   * the duration's magnitude.  This is how the source compares.
   */
  predicate Reached(d: Duration, elapsed: nat)
  {
    elapsed / UnitNanos(d) >= Magnitude(d)
  }

  /**
   * Truncating to the unit loses nothing for the comparison: the duration
   * is reached exactly when the elapsed nanoseconds reach its full length.
   */
  lemma {:induction false} ReachedIffTotal(d: Duration, elapsed: nat)
    ensures Reached(d, elapsed) <==> elapsed >= TotalNanos(d)
  {
    FloorDivAtLeast(elapsed, UnitNanos(d), Magnitude(d));
  }

  /** For a positive divisor k, n / k >= m exactly when n >= m * k. */
  lemma {:induction false} FloorDivAtLeast(n: nat, k: nat, m: nat)
    requires k > 0
    ensures n / k >= m <==> n >= m * k
  {
    var q, r := n / k, n % k;
    assert n == q * k + r && 0 <= r < k;
    if q >= m {
      MulMonotone(m, q, k);
    } else {
      MulMonotone(q + 1, m, k);
      assert n < (q + 1) * k;
    }
  }

  lemma {:induction false} MulMonotone(a: nat, b: nat, k: nat)
    requires a <= b
    ensures a * k <= b * k
  {
    assert b * k == a * k + (b - a) * k;
  }

  /** What `update` may be asked to do: a clock never behind the recorded start. */
  predicate CanUpdate(s: State, now: nat)
  {
    s.Waiting? ==> s.start <= now
  }

  /** The state `update` leaves when called at time `now`. */
  function Next(d: Duration, s: State, now: nat): (r: State)
    requires CanUpdate(s, now)
    ensures s.Wait? ==> r == Waiting(now)
    ensures s.Waiting? ==> (r.Ready? <==> now - s.start >= TotalNanos(d))
    ensures s.Waiting? && !r.Ready? ==> r == s
    ensures s.Ready? ==> r == Wait
  {
    match s
    case Wait => Waiting(now)
    case Waiting(start) =>
      ReachedIffTotal(d, now - start);
      if Reached(d, now - start) then Ready else s
    case Ready => Wait
  }

  /** The effect of one `timer_system` pass on one timer: only timers that are not ready advance. */
  function Pass(d: Duration, s: State, now: nat): (r: State)
    requires CanUpdate(s, now)
    ensures s.Ready? ==> r == Ready
    ensures !s.Ready? ==> r != Wait
  {
    if s == Ready then s else Next(d, s, now)
  }

  /**
   * Registering `timer_system` twice in one stage makes two passes per run,
   * each reading the clock afresh (`now1 <= now2`), possibly with other
   * systems between them.  The duplicate is not harmless:
   * - a waiting timer ends as if passed once at the later reading, so it
   *   can turn Ready one run earlier;
   * - a timer in Wait can go through Waiting to Ready within one run once
   *   the clock has advanced by the duration between the two passes;
   * - a timer consumed by a `check_timer!` consumer between the two passes
   *   starts waiting again in the same run.
   */
  lemma DuplicateTimerSystem(d: Duration, s: State, now1: nat, now2: nat)
    requires CanUpdate(s, now1) && now1 <= now2
    ensures CanUpdate(Pass(d, s, now1), now2) && CanUpdate(Gate(Pass(d, s, now1)).1, now2)
    ensures s.Ready? ==> Pass(d, Pass(d, s, now1), now2) == Ready
    ensures s.Waiting? ==> Pass(d, Pass(d, s, now1), now2) == Pass(d, s, now2)
    ensures s.Wait? ==> Pass(d, Pass(d, s, now1), now2) == (if now2 - now1 >= TotalNanos(d) then Ready else Waiting(now1))
    ensures Pass(d, s, now1).Ready? ==> Pass(d, Gate(Pass(d, s, now1)).1, now2) == Waiting(now2)
  {
  }

  /** Clock readings at which passes happen never run behind the recorded start. */
  predicate Monotone(nows: seq<nat>)
  {
    forall i, j | 0 <= i < j < |nows| :: nows[i] <= nows[j]
  }

  /** A timer state that every later clock reading may update. */
  predicate StartsBy(s: State, nows: seq<nat>)
  {
    forall i | 0 <= i < |nows| :: CanUpdate(s, nows[i])
  }

  /** The state after one `timer_system` pass at each of the given clock readings. */
  function Passes(d: Duration, s: State, nows: seq<nat>): (r: State)
    requires Monotone(nows) && StartsBy(s, nows)
    decreases |nows|
  {
    if nows == [] then s
    else
      var s' := Pass(d, s, nows[0]);
      assert StartsBy(s', nows[1..]) by {
        forall i | 0 <= i < |nows[1..]| ensures CanUpdate(s', nows[1..][i]) {
          assert nows[0] <= nows[1..][i];
        }
      }
      Passes(d, s', nows[1..])
  }

  /** A Ready timer stays Ready across any number of `timer_system` passes. */
  lemma {:induction false} ReadyStaysReady(d: Duration, nows: seq<nat>)
    requires Monotone(nows)
    ensures Passes(d, Ready, nows) == Ready
    decreases |nows|
  {
    if nows != [] {
      ReadyStaysReady(d, nows[1..]);
    }
  }

  /** Once a timer has started waiting, passes before the duration is up leave it waiting from the same start. */
  lemma {:induction false} WaitingUntilReached(d: Duration, start: nat, nows: seq<nat>)
    requires Monotone(nows) && StartsBy(Waiting(start), nows)
    requires forall i | 0 <= i < |nows| :: nows[i] - start < TotalNanos(d)
    ensures Passes(d, Waiting(start), nows) == Waiting(start)
    decreases |nows|
  {
    if nows != [] {
      assert Pass(d, Waiting(start), nows[0]) == Waiting(start);
      WaitingUntilReached(d, start, nows[1..]);
    }
  }

  /**
   * The `check_timer!` gate on a timer's state: whether the guarded work
   * proceeds, and the state it leaves.  A ready timer is consumed (updated
   * back to Wait) and the work proceeds; any other state skips the work and
   * is left as it was.
   */
  function Gate(s: State): (r: (bool, State))
    ensures r.0 <==> s.Ready?
    ensures r.0 ==> r.1 == Wait
    ensures !r.0 ==> r.1 == s
  {
    if s.Ready? then (true, Wait) else (false, s)
  }

  /**
   * One `run` of a stage holding `timer_system` followed by a consumer
   * system that guards its work with `check_timer!`: the state afterwards
   * and whether the consumer did its work.
   */
  function Tick(d: Duration, s: State, now: nat): (r: (State, bool))
    requires CanUpdate(s, now)
  {
    var g := Gate(Pass(d, s, now));
    (g.1, g.0)
  }

  /** The number of ticks, at the given clock readings, in which the guarded work ran. */
  function Reads(d: Duration, s: State, nows: seq<nat>): nat
    requires Monotone(nows) && StartsBy(s, nows)
    decreases |nows|
  {
    if nows == [] then 0
    else
      var t := Tick(d, s, nows[0]);
      assert StartsBy(t.0, nows[1..]) by {
        forall i | 0 <= i < |nows[1..]| ensures CanUpdate(t.0, nows[1..][i]) {
          assert nows[0] <= nows[1..][i];
        }
      }
      (if t.1 then 1 else 0) + Reads(d, t.0, nows[1..])
  }

  /**
   * A gated consumer does its work at most once per Ready transition: right
   * after it has run, the timer is back in Wait, so the next tick only
   * starts it waiting again.  From any state, n ticks run the work at most
   * ceil(n / 2) times, not once per `run`.
   */
  lemma {:induction false} ReadsAtMostEveryOtherTick(d: Duration, s: State, nows: seq<nat>)
    requires Monotone(nows) && StartsBy(s, nows)
    ensures Reads(d, s, nows) <= (|nows| + 1) / 2
    decreases |nows|
  {
    if nows != [] {
      var t := Tick(d, s, nows[0]);
      var rest := nows[1..];
      assert StartsBy(t.0, rest) by {
        forall i | 0 <= i < |rest| ensures CanUpdate(t.0, rest[i]) {
          assert nows[0] <= rest[i];
        }
      }
      if !t.1 {
        ReadsAtMostEveryOtherTick(d, t.0, rest);
      } else if rest != [] {
        assert t.0 == Wait;
        var u := Tick(d, t.0, rest[0]);
        assert u.0 == Waiting(rest[0]) && !u.1;
        assert StartsBy(u.0, rest[1..]) by {
          forall i | 0 <= i < |rest[1..]| ensures CanUpdate(u.0, rest[1..][i]) {
            assert rest[0] <= rest[1..][i];
          }
        }
        ReadsAtMostEveryOtherTick(d, u.0, rest[1..]);
      }
    }
  }

  /**
   * The rate limit: after the gated work has run the timer is in Wait, and
   * the next tick (at `nows[0]`) starts it waiting.  The work does not run
   * again at any tick whose reading is less than the duration past that one.
   */
  lemma {:induction false} QuietAfterRead(d: Duration, nows: seq<nat>)
    requires Monotone(nows)
    requires forall i | 0 <= i < |nows| :: nows[i] - nows[0] < TotalNanos(d)
    ensures Reads(d, Wait, nows) == 0
  {
    if nows != [] {
      assert Tick(d, Wait, nows[0]) == (Waiting(nows[0]), false);
      var rest := nows[1..];
      forall i | 0 <= i < |rest| ensures nows[0] <= rest[i] && rest[i] - nows[0] < TotalNanos(d) {
        assert rest[i] == nows[i + 1];
      }
      QuietWhileWaiting(d, nows[0], rest);
    }
  }

  /** While the duration has not elapsed since `start`, a waiting timer lets no gated work run. */
  lemma {:induction false} QuietWhileWaiting(d: Duration, start: nat, nows: seq<nat>)
    requires Monotone(nows) && StartsBy(Waiting(start), nows)
    requires forall i | 0 <= i < |nows| :: nows[i] - start < TotalNanos(d)
    ensures Reads(d, Waiting(start), nows) == 0
    decreases |nows|
  {
    if nows != [] {
      assert Tick(d, Waiting(start), nows[0]) == (Waiting(start), false);
      var rest := nows[1..];
      forall i | 0 <= i < |rest| ensures start <= rest[i] && rest[i] - start < TotalNanos(d) {
        assert rest[i] == nows[i + 1];
      }
      QuietWhileWaiting(d, start, rest);
    }
  }

  /**
   * The other direction: after the tick that starts a timer waiting, the
   * gated work runs at the next tick exactly when the clock has advanced by
   * the duration.
   */
  lemma {:induction false} ReadOnceDurationElapsed(d: Duration, a: nat, b: nat)
    requires a <= b
    ensures Monotone([a, b]) && StartsBy(Wait, [a, b])
    ensures Reads(d, Wait, [a, b]) == (if b - a >= TotalNanos(d) then 1 else 0)
  {
    assert Monotone([a, b]);
    var t := Tick(d, Wait, a);
    assert t == (Waiting(a), false);
    assert [a, b][1..] == [b];
    assert [b][1..] == [];
    var u := Tick(d, Waiting(a), b);
    assert u.1 <==> b - a >= TotalNanos(d);
    assert Reads(d, u.0, []) == 0;
    assert Reads(d, Waiting(a), [b]) == (if u.1 then 1 else 0);
    assert Reads(d, Wait, [a, b]) == Reads(d, Waiting(a), [b]);
  }

  /** A timer component. */
  class Timer {
    const duration: Duration
    var state: State

    /** `Timer::new`: a timer starts in Wait, so it is not ready. */
    constructor (duration: Duration)
      ensures this.duration == duration && state == Wait && !IsReady()
    {
      this.duration := duration;
      state := Wait;
    }

    /** Ready exactly in the Ready state; reading it changes nothing. */
    predicate IsReady()
      reads this
      ensures IsReady() <==> Gate(state).0
    {
      state == Ready
    }

    /** `update`, with the clock passed in; the source panics when the clock is behind the start. */
    method Update(now: nat)
      requires CanUpdate(state, now)
      modifies this
      ensures state == Next(duration, old(state), now)
    {
      match state
      case Wait =>
        state := Waiting(now);
      case Waiting(start) =>
        var elapsed := now - start;
        var reached := match duration
          case Millis(m) => elapsed / 1_000_000 >= m
          case Micros(m) => elapsed / 1_000 >= m
          case Nanos(m) => elapsed >= m
          case Secs(m) => elapsed / 1_000_000_000 >= m;
        if reached {
          state := Ready;
        }
      case Ready =>
        state := Wait;
    }
  }

  /**
   * `timer_system`: one pass over every timer in the store, updating each
   * one that is not ready.  The query yields each timer component once, and
   * each `update` reads the clock afresh: `nows[i]` is the reading the i-th
   * timer's update sees, never earlier than the previous one.
   */
  method TimerSystem(timers: seq<Timer>, nows: seq<nat>)
    requires |nows| == |timers| && Monotone(nows)
    requires forall i, j | 0 <= i < j < |timers| :: timers[i] != timers[j]
    requires forall i | 0 <= i < |timers| :: CanUpdate(timers[i].state, nows[i])
    modifies set t | t in timers
    ensures forall i | 0 <= i < |timers| :: timers[i].state == Pass(timers[i].duration, old(timers[i].state), nows[i])
  {
    for n := 0 to |timers|
      invariant forall i | 0 <= i < n :: timers[i].state == Pass(timers[i].duration, old(timers[i].state), nows[i])
      invariant forall i | n <= i < |timers| :: timers[i].state == old(timers[i].state)
    {
      var t := timers[n];
      if !t.IsReady() {
        t.Update(nows[n]);
      }
    }
  }

  /**
   * `check_timer!` on an optional timer: with no timer the work proceeds;
   * a ready timer is reset to Wait and the work proceeds; a timer that is
   * not ready makes the caller skip this entity, and is left unchanged.
   */
  method CheckTimer(timer: Option<Timer>, now: nat) returns (proceed: bool)
    modifies if timer.Some? then {timer.value} else {}
    ensures timer.None? ==> proceed
    ensures timer.Some? ==> proceed == Gate(old(timer.value.state)).0
    ensures timer.Some? ==> timer.value.state == Gate(old(timer.value.state)).1
  {
    proceed := true;
    if timer.Some? {
      var t := timer.value;
      if t.IsReady() {
        t.Update(now);
      } else {
        proceed := false;
      }
    }
  }
}
