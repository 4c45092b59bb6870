/**
 * The command sequencer of neigh/vibrator.py: `vibrate` queues commands,
 * `set_vibration_level` stores the background level, and `update_vibrator`
 * drains the queue one command at a time, returning to the background level
 * after a command when nothing follows it or when it has a rest.
 *
 * The drain is modelled over a snapshot of the queue with no other producer
 * running, as the trace of calls and sleeps it makes.
 */
module Vibrator {
  import opened PyNum
  import opened Device

  /** One queued request: vibrate at `amount` for `onTime` seconds, then rest `offTime` seconds. */
  datatype Command = Command(amount: real, onTime: real, offTime: real)

  /** The queued commands, front first, and the stored background level. */
  datatype VibratorState = VibratorState(queue: seq<Command>, level: real)

  /** `Vibrator.create`: nothing queued and a background level of 0.0. */
  const Created: VibratorState := VibratorState([], 0.0)

  /**
   * `vibrate(amount, on_time, off_time=0.0)` (the patterns call it
   * `enqueue`): one command joins the back of the queue.
   */
  function Enqueue(st: VibratorState, amount: real, onTime: real, offTime: real := 0.0): (r: VibratorState)
    ensures |r.queue| == |st.queue| + 1 && r.queue[..|st.queue|] == st.queue
    ensures r.queue[|st.queue|] == Command(amount, onTime, offTime)
    ensures r.level == st.level
  {
    VibratorState(st.queue + [Command(amount, onTime, offTime)], st.level)
  }

  /** `set_vibration_level(amount)`: store the level and send it to the device at once. */
  function SetVibrationLevel(st: VibratorState, amount: real): (r: (VibratorState, seq<Event>))
    ensures r.0.level == amount && r.0.queue == st.queue
    ensures DeviceCalls(r.1) == [Vibrate(amount)]
  {
    FilterSingle(Vibrate(amount), IsCall);
    (VibratorState(st.queue, amount), [Vibrate(amount)])
  }

  // ----- Draining the queue -----

  /**
   * After holding command `i` of a drained snapshot, the loop goes back to
   * the background level when the queue is then empty (the command was the
   * last) or the command has a rest.
   */
  predicate Restores(q: seq<Command>, i: nat)
    requires i < |q|
  {
    i == |q| - 1 || q[i].offTime > 0.0
  }

  /** One pass of the loop: vibrate, hold, go back to the level if `restore`, rest. */
  function CommandTrace(c: Command, restore: bool, level: real): (r: seq<Event>)
    ensures |r| == if restore then 4 else 3
    ensures r[0] == Vibrate(c.amount) && r[1] == Sleep(c.onTime) && r[|r| - 1] == Sleep(c.offTime)
    ensures restore ==> r[2] == Vibrate(level)
  {
    [Vibrate(c.amount), Sleep(c.onTime)] + (if restore then [Vibrate(level)] else []) + [Sleep(c.offTime)]
  }

  /** The trace of the first `n` commands of the snapshot `q`. */
  function DrainUpTo(q: seq<Command>, level: real, n: nat): seq<Event>
    requires n <= |q|
    decreases n
  {
    if n == 0 then [] else DrainUpTo(q, level, n - 1) + CommandTrace(q[n - 1], Restores(q, n - 1), level)
  }

  /**
   * The trace of draining the whole snapshot: three or four events per
   * command, as many as the commands' segments together.
   */
  function Drain(q: seq<Command>, level: real): (r: seq<Event>)
    ensures |r| == Offset(q, |q|)
    ensures 3 * |q| <= |r| <= 4 * |q|
  {
    DrainLength(q, level, |q|);
    DrainUpTo(q, level, |q|)
  }

  /**
   * `update_vibrator` run until the queue is empty: take the front command,
   * vibrate and hold, restore the level when the queue is now empty or the
   * command rests, then rest.
   */
  method UpdateVibrator(st: VibratorState) returns (trace: seq<Event>)
    ensures trace == Drain(st.queue, st.level)
  {
    var queue := st.queue;
    trace := [];
    while queue != []
      invariant |queue| <= |st.queue| && queue == st.queue[|st.queue| - |queue|..]
      invariant trace == DrainUpTo(st.queue, st.level, |st.queue| - |queue|)
      decreases |queue|
    {
      var c := queue[0];
      queue := queue[1..];
      var step := [Vibrate(c.amount), Sleep(c.onTime)];
      if queue == [] || c.offTime > 0.0 {
        step := step + [Vibrate(st.level)];
      }
      step := step + [Sleep(c.offTime)];
      trace := trace + step;
    }
  }

  // ----- Where each command's events sit in the trace -----

  /** The number of events command `i` produces. */
  function SegmentLength(q: seq<Command>, i: nat): nat
    requires i < |q|
  {
    if Restores(q, i) then 4 else 3
  }

  /** Where command `i`'s events begin: the events of the commands before it. */
  function Offset(q: seq<Command>, i: nat): (r: nat)
    requires i <= |q|
    ensures 3 * i <= r <= 4 * i
    decreases i
  {
    if i == 0 then 0 else Offset(q, i - 1) + SegmentLength(q, i - 1)
  }

  lemma {:induction false} OffsetMonotone(q: seq<Command>, i: nat, j: nat)
    requires i <= j <= |q|
    ensures Offset(q, i) <= Offset(q, j)
    decreases j
  {
    if i < j {
      OffsetMonotone(q, i, j - 1);
    }
  }

  lemma {:induction false} DrainLength(q: seq<Command>, level: real, n: nat)
    requires n <= |q|
    ensures |DrainUpTo(q, level, n)| == Offset(q, n)
    decreases n
  {
    if n > 0 {
      DrainLength(q, level, n - 1);
    }
  }

  /**
   * Commands run one at a time in queue order: the events of command `i`
   * are exactly positions `Offset(q, i)` to `Offset(q, i + 1)` of the trace,
   * and they are `Vibrate(amount)`, `Sleep(onTime)`, `Vibrate(level)` when
   * and only when the command restores, then `Sleep(offTime)`.
   */
  lemma {:induction false} DrainSegment(q: seq<Command>, level: real, n: nat, i: nat)
    requires i < n <= |q|
    ensures Offset(q, i + 1) <= |DrainUpTo(q, level, n)|
    ensures DrainUpTo(q, level, n)[Offset(q, i)..Offset(q, i + 1)] == CommandTrace(q[i], Restores(q, i), level)
    decreases n
  {
    var prefix := DrainUpTo(q, level, n - 1);
    var last := CommandTrace(q[n - 1], Restores(q, n - 1), level);
    DrainLength(q, level, n - 1);
    if i < n - 1 {
      DrainSegment(q, level, n - 1, i);
      OffsetMonotone(q, i + 1, n - 1);
      SliceOfLeft(prefix, last, Offset(q, i), Offset(q, i + 1));
    } else {
      SliceOfRight(prefix, last);
    }
  }

  /** A command's trace in four pieces: vibrate, hold, the optional restore, rest. */
  lemma CommandTracePieces(c: Command, restore: bool, level: real)
    ensures CommandTrace(c, restore, level)
         == [Vibrate(c.amount)] + [Sleep(c.onTime)] + (if restore then [Vibrate(level)] else []) + [Sleep(c.offTime)]
  {
  }

  /** The events of one command that reach the device: its amount, then the level if it restores. */
  lemma CommandTraceCalls(c: Command, restore: bool, level: real)
    ensures DeviceCalls(CommandTrace(c, restore, level)) ==
      if restore then [Vibrate(c.amount), Vibrate(level)] else [Vibrate(c.amount)]
  {
    var hold := [Vibrate(c.amount)] + [Sleep(c.onTime)];
    var opt: seq<Event> := if restore then [Vibrate(level)] else [];
    HoldCalls(c);
    CommandTracePieces(c, restore, level);
    DeviceCallsAppend(hold + opt, [Sleep(c.offTime)]);
    FilterSingle(Sleep(c.offTime), IsCall);
    if restore {
      DeviceCallsAppend(hold, opt);
      FilterSingle(Vibrate(level), IsCall);
    } else {
      assert hold + opt == hold;
    }
  }

  /** Vibrating and holding reaches the device as the amount alone. */
  lemma HoldCalls(c: Command)
    ensures DeviceCalls([Vibrate(c.amount)] + [Sleep(c.onTime)]) == [Vibrate(c.amount)]
  {
    DeviceCallsAppend([Vibrate(c.amount)], [Sleep(c.onTime)]);
    FilterSingle(Vibrate(c.amount), IsCall);
    FilterSingle(Sleep(c.onTime), IsCall);
  }

  /** The vibrate commands of one command's trace: its amount, then the level if it restores. */
  lemma CommandTraceVibrates(c: Command, restore: bool, level: real)
    ensures Vibrates(CommandTrace(c, restore, level)) ==
      if restore then [Vibrate(c.amount), Vibrate(level)] else [Vibrate(c.amount)]
  {
    var hold := [Vibrate(c.amount)] + [Sleep(c.onTime)];
    var opt: seq<Event> := if restore then [Vibrate(level)] else [];
    HoldVibrates(c);
    CommandTracePieces(c, restore, level);
    VibratesAppend(hold + opt, [Sleep(c.offTime)]);
    FilterSingle(Sleep(c.offTime), IsVibrate);
    if restore {
      VibratesAppend(hold, opt);
      FilterSingle(Vibrate(level), IsVibrate);
    } else {
      assert hold + opt == hold;
    }
  }

  /** Vibrating and holding sends the amount alone. */
  lemma HoldVibrates(c: Command)
    ensures Vibrates([Vibrate(c.amount)] + [Sleep(c.onTime)]) == [Vibrate(c.amount)]
  {
    VibratesAppend([Vibrate(c.amount)], [Sleep(c.onTime)]);
    FilterSingle(Vibrate(c.amount), IsVibrate);
    FilterSingle(Sleep(c.onTime), IsVibrate);
  }

  /** One command sleeps its hold and then its rest. */
  lemma CommandTraceSleep(c: Command, restore: bool, level: real)
    ensures TotalSleep(CommandTrace(c, restore, level)) == c.onTime + c.offTime
  {
    var opt: seq<Event> := if restore then [Vibrate(level)] else [];
    CommandTracePieces(c, restore, level);
    TotalSleepAppend([Vibrate(c.amount)] + [Sleep(c.onTime)] + opt, [Sleep(c.offTime)]);
    TotalSleepAppend([Vibrate(c.amount)] + [Sleep(c.onTime)], opt);
    TotalSleepAppend([Vibrate(c.amount)], [Sleep(c.onTime)]);
  }

  // ----- Counting over a drain -----

  /** How many of the first `n` commands restore the level. */
  function RestoreCount(q: seq<Command>, n: nat): (r: nat)
    requires n <= |q|
    ensures r <= n
    decreases n
  {
    if n == 0 then 0 else RestoreCount(q, n - 1) + (if Restores(q, n - 1) then 1 else 0)
  }

  /** The total hold and rest time of the first `n` commands. */
  function QueuedTime(q: seq<Command>, n: nat): real
    requires n <= |q|
    decreases n
  {
    if n == 0 then 0.0 else QueuedTime(q, n - 1) + q[n - 1].onTime + q[n - 1].offTime
  }

  /** Every command sends its amount, and every restore sends one more vibrate command. */
  lemma {:induction false} DrainVibrateCount(q: seq<Command>, level: real, n: nat)
    requires n <= |q|
    ensures |Vibrates(DrainUpTo(q, level, n))| == n + RestoreCount(q, n)
    decreases n
  {
    if n > 0 {
      DrainVibrateCount(q, level, n - 1);
      CommandTraceVibrates(q[n - 1], Restores(q, n - 1), level);
      VibratesAppend(DrainUpTo(q, level, n - 1), CommandTrace(q[n - 1], Restores(q, n - 1), level));
    }
  }

  /** Draining `n >= 1` commands sends between `n + 1` and `2n` vibrate commands. */
  lemma VibrateCountBounds(q: seq<Command>, level: real)
    requires |q| >= 1
    ensures |q| + 1 <= |Vibrates(Drain(q, level))| <= 2 * |q|
  {
    DrainVibrateCount(q, level, |q|);
    assert RestoreCount(q, |q|) >= 1;
  }

  /** The drain sleeps exactly the commands' hold and rest times. */
  lemma {:induction false} DrainSleeps(q: seq<Command>, level: real, n: nat)
    requires n <= |q|
    ensures TotalSleep(DrainUpTo(q, level, n)) == QueuedTime(q, n)
    decreases n
  {
    if n > 0 {
      DrainSleeps(q, level, n - 1);
      CommandTraceSleep(q[n - 1], Restores(q, n - 1), level);
      TotalSleepAppend(DrainUpTo(q, level, n - 1), CommandTrace(q[n - 1], Restores(q, n - 1), level));
    }
  }

  /** A drained queue leaves the device at the background level: the last call sent is `Vibrate(level)`. */
  lemma DrainEndsAtLevel(q: seq<Command>, level: real)
    requires |q| >= 1
    ensures var calls := DeviceCalls(Drain(q, level));
      |calls| >= 2 && calls[|calls| - 1] == Vibrate(level)
  {
    var n := |q|;
    CommandTraceCalls(q[n - 1], true, level);
    DeviceCallsAppend(DrainUpTo(q, level, n - 1), CommandTrace(q[n - 1], true, level));
  }

  /** Every vibrate command in a drain is one of the queued amounts or the background level. */
  lemma {:induction false} DrainSendsOnlyAmountsAndLevel(q: seq<Command>, level: real, n: nat)
    requires n <= |q|
    ensures forall e :: e in DrainUpTo(q, level, n) && e.Vibrate? ==>
      e == Vibrate(level) || exists i :: 0 <= i < n && e == Vibrate(q[i].amount)
    decreases n
  {
    if n > 0 {
      DrainSendsOnlyAmountsAndLevel(q, level, n - 1);
    }
  }

  /**
   * `set_vibration_level(L)` sends `L` at once, and a drain afterwards goes
   * back to `L`: its last call is `Vibrate(L)`.
   */
  lemma SetLevelThenDrain(st: VibratorState, newLevel: real)
    requires |st.queue| >= 1
    ensures var (st', sent) := SetVibrationLevel(st, newLevel);
      var calls := DeviceCalls(sent + Drain(st'.queue, st'.level));
      |calls| >= 2 && calls[0] == Vibrate(newLevel) && calls[|calls| - 1] == Vibrate(newLevel)
  {
    var (st', sent) := SetVibrationLevel(st, newLevel);
    DeviceCallsAppend(sent, Drain(st'.queue, st'.level));
    DrainEndsAtLevel(st'.queue, st'.level);
  }

  /**
   * A freshly created vibrator has background level 0.0, so draining whatever
   * was queued after `create` ends by switching the device off.
   */
  lemma DrainAfterCreateEndsOff(cmds: seq<Command>)
    requires |cmds| >= 1
    ensures var st := VibratorState(Created.queue + cmds, Created.level);
      var calls := DeviceCalls(Drain(st.queue, st.level));
      |calls| >= 2 && calls[|calls| - 1] == Vibrate(0.0)
  {
    assert Created.queue + cmds == cmds;
    DrainEndsAtLevel(cmds, Created.level);
  }
}
