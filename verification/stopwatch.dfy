/**
 * The stopwatch: three module-level variables (`stopwatchInterval`,
 * `startTime`, `elapsedMs`) that the start/pause button and the reset button
 * update, and `renderStopwatch`, which shows a millisecond count as `MM:SS.T`.
 *
 * Time is a natural number of milliseconds read from a monotonic clock and
 * passed in as `now`; the 100 ms interval that re-renders a running watch is
 * the `Tick` method, called by whoever owns the timer.
 */
module StopwatchEngine {
  import opened Wrappers
  import opened Decimal

  /**
   * The stopwatch variables: `running` stands for `stopwatchInterval` being
   * set, `anchor` for `startTime` (null until the first start) and
   * `elapsedMs` for the time banked by earlier runs.
   */
  datatype State = State(running: bool, anchor: Option<nat>, elapsedMs: nat)

  /** The state the script starts in. */
  const Initial := State(false, None, 0)

  /** A running watch has an anchor no later than `now`. */
  predicate NotBefore(st: State, now: nat)
  {
    st.running ==> st.anchor.Some? && st.anchor.value <= now
  }

  /** The time the watch stands for at `now`: the banked time plus the current run, if any. */
  function Total(st: State, now: nat): (r: nat)
    requires NotBefore(st, now)
    ensures r >= st.elapsedMs
    ensures !st.running ==> r == st.elapsedMs
    ensures st.running ==> r - st.elapsedMs == now - st.anchor.value
  {
    st.elapsedMs + (if st.running then now - st.anchor.value else 0)
  }

  /**
   * `startStopwatch` at time `now`: a running watch pauses and banks the
   * current run; a stopped one starts a run anchored at `now`.
   */
  function AfterPress(st: State, now: nat): (r: State)
    requires NotBefore(st, now)
    ensures r.running == !st.running
    ensures r.running ==> r.anchor == Some(now) && r.elapsedMs == st.elapsedMs
    ensures !r.running ==> r.anchor == st.anchor && r.elapsedMs == Total(st, now)
    ensures NotBefore(r, now) && Total(r, now) == Total(st, now)
    ensures r.elapsedMs >= st.elapsedMs
  {
    if st.running then State(false, st.anchor, st.elapsedMs + (now - st.anchor.value))
    else State(true, Some(now), st.elapsedMs)
  }

  /** `resetStopwatch`: stopped, nothing banked; `startTime` is left as it was. */
  function AfterReset(st: State): (r: State)
    ensures !r.running && r.elapsedMs == 0 && r.anchor == st.anchor
    ensures forall now: nat :: Total(r, now) == 0
  {
    State(false, st.anchor, 0)
  }

  // ---------------------------------------------------------------------
  // Sequences of presses

  /** Press times read from a monotonic clock: each no earlier than the one before. */
  predicate Sorted(times: seq<nat>)
  {
    forall i :: 0 < i < |times| ==> times[i - 1] <= times[i]
  }

  /** The state after pressing start/pause at each of `times` in turn. */
  function Replay(st: State, times: seq<nat>): State
    requires Sorted(times) && (times != [] ==> NotBefore(st, times[0]))
    decreases |times|
  {
    if times == [] then st
    else Replay(AfterPress(st, times[0]), times[1..])
  }

  /** The lengths of the runs that `times` delimits: (t1 - t0) + (t3 - t2) + …; a last unpaired start adds nothing. */
  function RunTime(times: seq<nat>): nat
    requires Sorted(times)
    decreases |times|
  {
    if |times| < 2 then 0 else times[1] - times[0] + RunTime(times[2..])
  }

  /** From a stopped watch, a start at `times[0]` and a pause at `times[1]` bank one run and leave it stopped. */
  lemma FirstCycle(st: State, times: seq<nat>)
    requires !st.running && Sorted(times) && |times| >= 2
    ensures Sorted(times[2..])
    ensures var paused := AfterPress(AfterPress(st, times[0]), times[1]);
      && !paused.running && paused.elapsedMs == st.elapsedMs + (times[1] - times[0])
      && Replay(st, times) == Replay(paused, times[2..])
  {
    var started := AfterPress(st, times[0]);
    var paused := AfterPress(started, times[1]);
    assert Sorted(times[1..]);
    assert Replay(st, times) == Replay(started, times[1..]);
    assert times[1..][0] == times[1] && times[1..][1..] == times[2..];
  }

  /**
   * From a stopped watch, presses at `times` bank exactly the lengths of the
   * runs they delimit, and the watch ends up running exactly when it was
   * pressed an odd number of times.
   */
  lemma {:induction false} ReplayBanksRuns(st: State, times: seq<nat>)
    requires !st.running && Sorted(times)
    ensures Replay(st, times).elapsedMs == st.elapsedMs + RunTime(times)
    ensures Replay(st, times).running == (|times| % 2 == 1)
    decreases |times|
  {
    if |times| >= 2 {
      FirstCycle(st, times);
      ReplayBanksRuns(AfterPress(AfterPress(st, times[0]), times[1]), times[2..]);
    } else if |times| == 1 {
      assert Replay(st, times) == Replay(AfterPress(st, times[0]), []);
    }
  }

  /** Two start/pause cycles of lengths d1 and d2 bank d1 + d2. */
  lemma TwoCycles(t0: nat, t1: nat, t2: nat, t3: nat)
    requires t0 <= t1 <= t2 <= t3
    ensures Replay(Initial, [t0, t1, t2, t3]).elapsedMs == (t1 - t0) + (t3 - t2)
    ensures !Replay(Initial, [t0, t1, t2, t3]).running
  {
    var times := [t0, t1, t2, t3];
    ReplayBanksRuns(Initial, times);
    assert times[2..] == [t2, t3] && [t2, t3][2..] == [];
    assert RunTime([t2, t3]) == t3 - t2;
    assert RunTime(times) == (t1 - t0) + RunTime([t2, t3]);
  }

  /** Presses never take banked time away; only a reset does. */
  lemma {:induction false} ReplayNeverLoses(st: State, times: seq<nat>)
    requires Sorted(times) && (times != [] ==> NotBefore(st, times[0]))
    ensures Replay(st, times).elapsedMs >= st.elapsedMs
    decreases |times|
  {
    if times != [] {
      ReplayNeverLoses(AfterPress(st, times[0]), times[1..]);
    }
  }

  // ---------------------------------------------------------------------
  // The display

  function Minutes(ms: nat): nat { ms / 60000 }
  function Seconds(ms: nat): nat { (ms / 1000) % 60 }
  function Tenths(ms: nat): nat { (ms % 1000) / 100 }

  /** `renderStopwatch(ms)` for a whole number of milliseconds. */
  function Render(ms: nat): (r: string)
    ensures |r| >= 7
    ensures r[|r| - 2] == '.' && IsDigit(r[|r| - 1])
  {
    Pad2(Minutes(ms)) + ":" + Pad2(Seconds(ms)) + "." + NatToString(Tenths(ms))
  }

  /**
   * The three fields split `ms` exactly, down to the hundreds of
   * milliseconds: seconds below 60, tenths below 10, and what they stand
   * for is at most `ms` and less than 100 ms short of it (tenths are cut,
   * not rounded).
   */
  lemma RenderFields(ms: nat)
    ensures Seconds(ms) < 60 && Tenths(ms) < 10
    ensures var shown := Minutes(ms) * 60000 + Seconds(ms) * 1000 + Tenths(ms) * 100;
      shown <= ms < shown + 100
  {
    var k, r1 := ms / 1000, ms % 1000;
    var q, s := k / 60, k % 60;
    var t, r2 := r1 / 100, r1 % 100;
    assert ms == 60000 * q + 1000 * s + 100 * t + r2;
    assert ms / 60000 == q;
  }

  /**
   * The script computes the fields in floating point from `ms / 1000`:
   * `Math.floor(totalSeconds / 60)`, `Math.floor(totalSeconds % 60)` and
   * `Math.floor((totalSeconds - Math.floor(totalSeconds)) * 10)`. In exact
   * arithmetic these are the whole-number fields above.
   */
  lemma SourceArithmetic(ms: nat)
    ensures var x := ms as real / 1000.0;
      && (x / 60.0).Floor == Minutes(ms)
      && (x - 60.0 * (x / 60.0).Floor as real).Floor == Seconds(ms)
      && ((x - x.Floor as real) * 10.0).Floor == Tenths(ms)
  {
    var x := ms as real / 1000.0;
    var k, r1 := ms / 1000, ms % 1000;
    var q, s := k / 60, k % 60;
    var t, r2 := r1 / 100, r1 % 100;
    assert ms == 60000 * q + 1000 * s + 100 * t + r2;
    assert ms / 60000 == q;
    assert x == (60000 * q + 1000 * s + 100 * t + r2) as real / 1000.0;
    assert x / 60.0 == q as real + (1000 * s + 100 * t + r2) as real / 60000.0;
    assert (x / 60.0).Floor == q;
    assert x - 60.0 * q as real == s as real + (100 * t + r2) as real / 1000.0;
    assert x.Floor == k;
    assert (x - k as real) * 10.0 == t as real + r2 as real / 100.0;
  }

  /** Reads a stopwatch string back: minutes (two or more digits), ':', two digits, '.', one digit. */
  function ParseStopwatch(r: string): Option<(nat, nat, nat)>
  {
    if |r| < 7 then None
    else
      var k := |r| - 5;
      var m, s, t := r[..k], r[k + 1..k + 3], r[k + 4..];
      if r[k] == ':' && r[k + 3] == '.' && AllDigits(m) && AllDigits(s) && AllDigits(t)
      then Some((Value(m), Value(s), Value(t)))
      else None
  }

  /** Any string laid out as minutes, ':', two digits, '.', one digit reads back as those three numbers. */
  lemma ParseStopwatchLayout(r: string, m: string, s: string, t: string)
    requires r == m + ":" + s + "." + t
    requires |m| >= 2 && |s| == 2 && |t| == 1
    requires AllDigits(m) && AllDigits(s) && AllDigits(t)
    ensures ParseStopwatch(r) == Some((Value(m), Value(s), Value(t)))
  {
    var k := |r| - 5;
    assert |m| == k && r[..k] == m && r[k] == ':' && r[k + 1..k + 3] == s && r[k + 3] == '.' && r[k + 4..] == t;
  }

  /**
   * The display determines the fields: minutes are padded to at least two
   * digits but never cut, seconds take exactly two and tenths one.
   */
  lemma ParseRender(ms: nat)
    ensures |Render(ms)| >= 7
    ensures Minutes(ms) < 100 ==> |Render(ms)| == 7
    ensures ParseStopwatch(Render(ms)) == Some((Minutes(ms), Seconds(ms), Tenths(ms)))
  {
    RenderFields(ms);
    Pad2Digits(Minutes(ms));
    Pad2Digits(Seconds(ms));
    NatToStringLength(Tenths(ms));
    ValueOfNatToString(Tenths(ms));
    ParseStopwatchLayout(Render(ms), Pad2(Minutes(ms)), Pad2(Seconds(ms)), NatToString(Tenths(ms)));
  }

  /** The display at start-up and after a reset. */
  lemma RenderZero()
    ensures Render(0) == "00:00.0"
  {
    assert Minutes(0) == 0 && Seconds(0) == 0 && Tenths(0) == 0;
    assert Pad2(0) == "00" by { Pad2Small(0); }
    assert NatToString(0) == "0";
  }

  // ---------------------------------------------------------------------
  // The stopwatch object

  /** The stopwatch variables and the buttons that change them. */
  class Stopwatch {
    var running: bool
    var startTime: Option<nat>
    var elapsedMs: nat

    function Current(): State
      reads this
    {
      State(running, startTime, elapsedMs)
    }

    /** The script's start-up: stopped, no start time, nothing banked; the display shows `Render(0)`. */
    constructor ()
      ensures Current() == Initial
    {
      running, startTime, elapsedMs := false, None, 0;
    }

    /** The start/pause button, pressed at time `now`. */
    method StartStop(now: nat)
      requires NotBefore(Current(), now)
      modifies this
      ensures Current() == AfterPress(old(Current()), now)
      ensures NotBefore(Current(), now)
    {
      if running {
        running := false;
        elapsedMs := elapsedMs + (now - startTime.value);
      } else {
        startTime := Some(now);
        running := true;
      }
    }

    /** The reset button: from any state, stopped with nothing banked, showing "00:00.0". */
    method Reset() returns (display: string)
      modifies this
      ensures Current() == AfterReset(old(Current()))
      ensures display == "00:00.0"
    {
      running := false;
      elapsedMs := 0;
      display := Render(0);
      RenderZero();
    }

    /** One 100 ms tick of a running watch: what it shows at `now`. */
    method Tick(now: nat) returns (display: string)
      requires running && NotBefore(Current(), now)
      ensures display == Render(Total(Current(), now))
    {
      var total := elapsedMs + (now - startTime.value);
      assert total == Total(Current(), now);
      display := Render(total);
    }
  }
}
