/**
 * The five vibration patterns of neigh/vibrate_patterns.py, each a fixed
 * burst of commands queued on the sequencer, and what draining them does.
 */
module Patterns {
  import opened PyNum
  import opened Device
  import opened Vibrator

  /** The commands a pattern added to the back of the queue. */
  function Added(before: VibratorState, after: VibratorState): seq<Command>
    requires |before.queue| <= |after.queue|
  {
    after.queue[|before.queue|..]
  }

  /** Intensities in [0, 1] and no negative duration. */
  predicate WellFormed(cmds: seq<Command>)
  {
    forall k :: 0 <= k < |cmds| ==>
      0.0 <= cmds[k].amount <= 1.0 && cmds[k].onTime >= 0.0 && cmds[k].offTime >= 0.0
  }

  // ----- The patterns -----

  /**
   * `pattern_basic`: one command at `round(random.uniform(0.4, 1.0), 2)`,
   * held 1.3 s with no rest. `u` is the value `random.uniform` returned,
   * which lies in [0.4, 1.0].
   */
  function PatternBasic(st: VibratorState, u: real): (r: VibratorState)
    requires 0.4 <= u <= 1.0
    ensures |r.queue| == |st.queue| + 1 && r.queue[..|st.queue|] == st.queue && r.level == st.level
    ensures var c := r.queue[|st.queue|];
      0.4 <= c.amount <= 1.0 && AbsReal(c.amount - u) <= 0.005 && c.onTime == 1.3 && c.offTime == 0.0
  {
    RoundHalfEvenMonotone(40.0, u * 100.0);
    RoundHalfEvenMonotone(u * 100.0, 100.0);
    Enqueue(st, Round2(u), 1.3)
  }

  /** `pattern_burst`: three strong pulses with short rests. */
  function PatternBurst(st: VibratorState): (r: VibratorState)
    ensures |r.queue| == |st.queue| + 3 && r.queue[..|st.queue|] == st.queue && r.level == st.level
  {
    var st := Enqueue(st, 0.8, 1.2, 0.2);
    var st := Enqueue(st, 0.8, 1.2, 0.2);
    Enqueue(st, 0.8, 1.2, 0.2)
  }

  /** `pattern_burst_pulse`: five short pulses. */
  function PatternBurstPulse(st: VibratorState): (r: VibratorState)
    ensures |r.queue| == |st.queue| + 5 && r.queue[..|st.queue|] == st.queue && r.level == st.level
  {
    var st := Enqueue(st, 0.8, 0.1, 0.1);
    var st := Enqueue(st, 0.8, 0.1, 0.1);
    var st := Enqueue(st, 0.8, 0.1, 0.1);
    var st := Enqueue(st, 0.8, 0.1, 0.1);
    Enqueue(st, 0.8, 0.1, 0.1)
  }

  /** `pattern_burst_linger`: three full-strength pulses and a longer fourth. */
  function PatternBurstLinger(st: VibratorState): (r: VibratorState)
    ensures |r.queue| == |st.queue| + 4 && r.queue[..|st.queue|] == st.queue && r.level == st.level
  {
    var st := Enqueue(st, 1.0, 0.7, 0.2);
    var st := Enqueue(st, 1.0, 0.7, 0.2);
    var st := Enqueue(st, 1.0, 0.7, 0.2);
    Enqueue(st, 1.0, 1.7, 0.2)
  }

  /** One repetition of `pattern_rising`: 0.3 up to 0.9 briefly, then 1.0 held and rested. */
  function RisingRound(st: VibratorState): (r: VibratorState)
    ensures |r.queue| == |st.queue| + 8 && r.queue[..|st.queue|] == st.queue && r.level == st.level
  {
    var st := Enqueue(st, 0.3, 0.1);
    var st := Enqueue(st, 0.4, 0.1);
    var st := Enqueue(st, 0.5, 0.1);
    var st := Enqueue(st, 0.6, 0.1);
    var st := Enqueue(st, 0.7, 0.1);
    var st := Enqueue(st, 0.8, 0.1);
    var st := Enqueue(st, 0.9, 0.1);
    Enqueue(st, 1.0, 0.3, 0.2)
  }

  /** `for _ in range(n)` around one repetition. */
  function RisingRepeat(st: VibratorState, n: nat): (r: VibratorState)
    ensures |r.queue| == |st.queue| + 8 * n && r.queue[..|st.queue|] == st.queue && r.level == st.level
    decreases n
  {
    if n == 0 then st
    else
      var next := RisingRound(st);
      assert next.queue[..|st.queue|] == st.queue;
      var r := RisingRepeat(next, n - 1);
      assert r.queue[..|st.queue|] == r.queue[..|next.queue|][..|st.queue|];
      r
  }

  /** `pattern_rising`: three rising repetitions. */
  function PatternRising(st: VibratorState): (r: VibratorState)
    ensures |r.queue| == |st.queue| + 24 && r.queue[..|st.queue|] == st.queue && r.level == st.level
  {
    RisingRepeat(st, 3)
  }

  // ----- What each pattern queues -----

  const BurstCommand: Command := Command(0.8, 1.2, 0.2)
  const PulseCommand: Command := Command(0.8, 0.1, 0.1)

  /** `pattern_burst` queues exactly three (0.8, 1.2, 0.2) commands behind what was queued. */
  lemma BurstQueues(st: VibratorState)
    ensures PatternBurst(st).queue == st.queue + [BurstCommand, BurstCommand, BurstCommand]
    ensures PatternBurst(st).level == st.level
  {
  }

  /** `pattern_burst_pulse` queues exactly five (0.8, 0.1, 0.1) commands. */
  lemma BurstPulseQueues(st: VibratorState)
    ensures PatternBurstPulse(st).queue == st.queue + [PulseCommand, PulseCommand, PulseCommand, PulseCommand, PulseCommand]
    ensures PatternBurstPulse(st).level == st.level
  {
  }

  /** `pattern_burst_linger` queues four commands at 1.0, held 0.7, 0.7, 0.7 and 1.7 s, each resting 0.2 s. */
  lemma BurstLingerQueues(st: VibratorState)
    ensures PatternBurstLinger(st).queue ==
      st.queue + [Command(1.0, 0.7, 0.2), Command(1.0, 0.7, 0.2), Command(1.0, 0.7, 0.2), Command(1.0, 1.7, 0.2)]
    ensures PatternBurstLinger(st).level == st.level
  {
  }

  /** The `k`-th command of a rising repetition, `k` in 0..7. */
  function RisingStep(k: nat): Command
  {
    if k == 7 then Command(1.0, 0.3, 0.2) else Command((3 + k) as real / 10.0, 0.1, 0.0)
  }

  /** The 24 commands of `pattern_rising`, as a formula in their index. */
  function RisingReference(): (r: seq<Command>)
    ensures |r| == 24
  {
    seq(24, i requires 0 <= i < 24 => RisingStep(i % 8))
  }

  /** One repetition queues the eight steps in order. */
  lemma RisingRoundQueues(st: VibratorState)
    ensures RisingRound(st).queue == st.queue + RisingRoundSteps()
    ensures RisingRound(st).level == st.level
  {
  }

  /** The eight steps of one repetition. */
  function RisingRoundSteps(): seq<Command>
  {
    [RisingStep(0), RisingStep(1), RisingStep(2), RisingStep(3), RisingStep(4), RisingStep(5), RisingStep(6), RisingStep(7)]
  }

  /** The reference is the repetition three times over. */
  lemma RisingReferenceIsThreeRounds()
    ensures RisingReference() == RisingRoundSteps() + RisingRoundSteps() + RisingRoundSteps()
  {
    var r := RisingRoundSteps();
    forall i | 0 <= i < 24
      ensures (r + r + r)[i] == RisingReference()[i]
    {
      if i < 8 {
      } else if i < 16 {
        assert (r + r + r)[i] == r[i - 8];
      } else {
        assert (r + r + r)[i] == r[i - 16];
      }
    }
  }

  /** Three appends of the same run, regrouped. */
  lemma AppendThrice<T>(a: seq<T>, r: seq<T>)
    ensures a + r + r + r == a + (r + r + r)
  {
  }

  /** `pattern_rising` queues the 24 commands of the reference behind what was queued. */
  lemma RisingQueues(st: VibratorState)
    ensures PatternRising(st).queue == st.queue + RisingReference()
    ensures PatternRising(st).level == st.level
  {
    var r := RisingRoundSteps();
    var st1 := RisingRound(st);
    var st2 := RisingRound(st1);
    RisingRoundQueues(st);
    RisingRoundQueues(st1);
    RisingRoundQueues(st2);
    assert PatternRising(st) == RisingRound(st2);
    AppendThrice(st.queue, r);
    RisingReferenceIsThreeRounds();
  }

  /** Within one repetition the intensities rise strictly. */
  lemma RisingRises(i: nat, j: nat)
    requires i < j < 24 && i / 8 == j / 8
    ensures RisingReference()[i].amount < RisingReference()[j].amount
  {
    assert i % 8 < j % 8;
  }

  /** Only the 1.0 step of each repetition rests, for 0.2 s. */
  lemma RisingRests(i: nat)
    requires i < 24
    ensures RisingReference()[i].offTime > 0.0 <==> i % 8 == 7
    ensures RisingReference()[i].offTime > 0.0 ==> RisingReference()[i].offTime == 0.2 && RisingReference()[i].amount == 1.0
  {
  }

  // ----- Well-formedness -----

  /** What a pattern adds, once its queue is known. */
  lemma AddedIs(before: VibratorState, after: VibratorState, cmds: seq<Command>)
    requires after.queue == before.queue + cmds
    ensures Added(before, after) == cmds
  {
  }

  /** `pattern_basic` queues a well-formed command. */
  lemma BasicWellFormed(st: VibratorState, u: real)
    requires 0.4 <= u <= 1.0
    ensures WellFormed(Added(st, PatternBasic(st, u)))
  {
  }

  /** The burst patterns queue intensities in [0, 1] and non-negative durations. */
  lemma BurstsWellFormed(st: VibratorState)
    ensures WellFormed(Added(st, PatternBurst(st)))
    ensures WellFormed(Added(st, PatternBurstPulse(st)))
    ensures WellFormed(Added(st, PatternBurstLinger(st)))
  {
    BurstQueues(st);
    AddedIs(st, PatternBurst(st), [BurstCommand, BurstCommand, BurstCommand]);
    BurstPulseQueues(st);
    AddedIs(st, PatternBurstPulse(st), [PulseCommand, PulseCommand, PulseCommand, PulseCommand, PulseCommand]);
    BurstLingerQueues(st);
    AddedIs(st, PatternBurstLinger(st),
      [Command(1.0, 0.7, 0.2), Command(1.0, 0.7, 0.2), Command(1.0, 0.7, 0.2), Command(1.0, 1.7, 0.2)]);
  }

  /** `pattern_rising` queues intensities from 0.3 to 1.0 and non-negative durations. */
  lemma RisingWellFormed(st: VibratorState)
    ensures WellFormed(Added(st, PatternRising(st)))
  {
    RisingQueues(st);
    AddedIs(st, PatternRising(st), RisingReference());
  }

  // ----- Draining a pattern -----

  /** A command with a rest always restores the level, whatever follows it. */
  lemma {:induction false} RestingCommandsAllRestore(q: seq<Command>, n: nat)
    requires n <= |q|
    requires forall k :: 0 <= k < |q| ==> q[k].offTime > 0.0
    ensures RestoreCount(q, n) == n
    decreases n
  {
    if n > 0 {
      RestingCommandsAllRestore(q, n - 1);
    }
  }

  /** Draining commands that all rest sends two vibrate commands per command. */
  lemma RestingDrainVibrates(q: seq<Command>, level: real)
    requires forall k :: 0 <= k < |q| ==> q[k].offTime > 0.0
    ensures |Vibrates(Drain(q, level))| == 2 * |q|
  {
    RestingCommandsAllRestore(q, |q|);
    DrainVibrateCount(q, level, |q|);
  }

  /** The burst's three commands, each resting, drain as three full passes. */
  lemma BurstQueueDrain(level: real)
    ensures Drain([BurstCommand, BurstCommand, BurstCommand], level) ==
      CommandTrace(BurstCommand, true, level) + CommandTrace(BurstCommand, true, level) + CommandTrace(BurstCommand, true, level)
  {
    var q := [BurstCommand, BurstCommand, BurstCommand];
    var seg := CommandTrace(BurstCommand, true, level);
    assert Restores(q, 0) && Restores(q, 1) && Restores(q, 2);
    assert DrainUpTo(q, level, 1) == seg;
    assert DrainUpTo(q, level, 2) == seg + seg;
  }

  /**
   * Drained from an empty queue at level `L`, `pattern_burst` sends 0.8,
   * waits 1.2 s, goes back to `L`, waits 0.2 s, three times over.
   */
  lemma BurstDrain(level: real)
    ensures Drain(PatternBurst(VibratorState([], level)).queue, level) ==
      [Vibrate(0.8), Sleep(1.2), Vibrate(level), Sleep(0.2),
       Vibrate(0.8), Sleep(1.2), Vibrate(level), Sleep(0.2),
       Vibrate(0.8), Sleep(1.2), Vibrate(level), Sleep(0.2)]
  {
    var q := [BurstCommand, BurstCommand, BurstCommand];
    BurstQueues(VibratorState([], level));
    assert [] + q == q;
    BurstQueueDrain(level);
  }

  /** What reaches the device from a burst on an empty queue: 0.8 and back to `L`, three times. */
  lemma BurstDeviceCalls(level: real)
    ensures DeviceCalls(Drain(PatternBurst(VibratorState([], level)).queue, level)) ==
      [Vibrate(0.8), Vibrate(level), Vibrate(0.8), Vibrate(level), Vibrate(0.8), Vibrate(level)]
  {
    var q := [BurstCommand, BurstCommand, BurstCommand];
    BurstQueues(VibratorState([], level));
    assert [] + q == q;
    BurstQueueDrain(level);
    var seg := CommandTrace(BurstCommand, true, level);
    CommandTraceCalls(BurstCommand, true, level);
    DeviceCallsAppend(seg + seg, seg);
    DeviceCallsAppend(seg, seg);
  }

  /** `pattern_burst_pulse` drained from an empty queue sends ten vibrate commands, five of them back to the level. */
  lemma BurstPulseDrainVibrates(level: real)
    ensures |Vibrates(Drain(PatternBurstPulse(VibratorState([], level)).queue, level))| == 10
  {
    var q := [PulseCommand, PulseCommand, PulseCommand, PulseCommand, PulseCommand];
    BurstPulseQueues(VibratorState([], level));
    assert [] + q == q;
    RestingDrainVibrates(q, level);
  }

  /** `pattern_burst_linger` drained from an empty queue sends eight vibrate commands. */
  lemma BurstLingerDrainVibrates(level: real)
    ensures |Vibrates(Drain(PatternBurstLinger(VibratorState([], level)).queue, level))| == 8
  {
    var q := [Command(1.0, 0.7, 0.2), Command(1.0, 0.7, 0.2), Command(1.0, 0.7, 0.2), Command(1.0, 1.7, 0.2)];
    BurstLingerQueues(VibratorState([], level));
    assert [] + q == q;
    RestingDrainVibrates(q, level);
  }

  /** In the rising pattern's drain, command `i` restores the level exactly when it is a 1.0 step. */
  lemma RisingRestoresAtTop(i: nat)
    requires i < 24
    ensures Restores(RisingReference(), i) <==> i % 8 == 7
  {
    RisingRests(i);
  }

  /** Restores counted over the first `n` rising commands: one per completed repetition. */
  lemma {:induction false} RisingCount(n: nat)
    requires n <= 24
    ensures RestoreCount(RisingReference(), n) == n / 8
    decreases n
  {
    if n > 0 {
      RisingCount(n - 1);
      RisingRestoresAtTop(n - 1);
    }
  }

  /**
   * Drained from an empty queue, `pattern_rising` restores the level three
   * times (after commands 7, 15 and 23), so it sends 27 vibrate commands.
   */
  lemma RisingDrainRestoresThrice(level: real)
    ensures RestoreCount(RisingReference(), 24) == 3
    ensures |Vibrates(Drain(PatternRising(VibratorState([], level)).queue, level))| == 27
  {
    var q := RisingReference();
    RisingCount(24);
    RisingQueues(VibratorState([], level));
    assert [] + q == q;
    DrainVibrateCount(q, level, 24);
  }
}
