/**
 * The voice-activity recorder of neigh/recorder.py: `listen_and_record`
 * as a pure step function over the loop's local state and a run over a
 * finite stream of blocks, a closed-form description of what a run
 * records, and the `trim_or_pad` normaliser.
 *
 * The audio stream is an input: a sequence of blocks, each carrying its
 * bytes and the RMS value the audio library reports for it.
 */
module Recorder {
  import opened PyNum

  /** One block read from the stream, with its RMS loudness. */
  datatype Block = Block(data: seq<byte>, rms: int)

  /**
   * The parameters of one listen call once converted to block counts:
   * the RMS threshold, the length of the loudness window (blocks of silence
   * that end a recording) and the length of the pre-roll deque.
   */
  datatype VadConfig = VadConfig(recordVol: int, silenceBlocks: nat, prevBlocks: nat)

  /**
   * The loop's local state: `volume_log`, `prev_audio_blocks`,
   * `active_recording` and `recording_started`.
   */
  datatype VadState = VadState(window: seq<int>, prev: seq<seq<byte>>, active: seq<byte>, started: bool)

  datatype StepResult = Continue(state: VadState) | Finish(data: seq<byte>)

  /**
   * The outcome of feeding a finite stream: either recording stopped at block
   * index `stop` with the bytes kept, or the stream ran out first.
   */
  datatype RunResult = Listening(state: VadState) | Recorded(data: seq<byte>, stop: nat)

  const Initial: VadState := VadState([], [], [], false)

  /** Some level in `levels[lo..hi]` is strictly above `vol`, searched from the right. */
  predicate AboveIn(levels: seq<int>, vol: int, lo: nat, hi: nat)
    requires lo <= hi <= |levels|
    decreases hi - lo
  {
    lo < hi && (levels[hi - 1] > vol || AboveIn(levels, vol, lo, hi - 1))
  }

  lemma {:induction false} AboveInIff(levels: seq<int>, vol: int, lo: nat, hi: nat)
    requires lo <= hi <= |levels|
    ensures AboveIn(levels, vol, lo, hi) <==> exists k :: lo <= k < hi && levels[k] > vol
    decreases hi - lo
  {
    if lo < hi {
      AboveInIff(levels, vol, lo, hi - 1);
    }
  }

  /** Searching a copy of `s[lo..lo + k]` is searching `s` between `lo` and `lo + k`. */
  lemma {:induction false} AboveInShift(s: seq<int>, w: seq<int>, vol: int, lo: nat, k: nat)
    requires lo + k <= |s| && k <= |w|
    requires forall j :: 0 <= j < k ==> w[j] == s[lo + j]
    ensures AboveIn(w, vol, 0, k) == AboveIn(s, vol, lo, lo + k)
    decreases k
  {
    if k > 0 {
      AboveInShift(s, w, vol, lo, k - 1);
    }
  }

  /** Searching the slice `s[lo..hi]` whole is searching `s` between `lo` and `hi`. */
  lemma AboveInSlice(s: seq<int>, vol: int, lo: nat, hi: nat)
    requires lo <= hi <= |s|
    ensures AboveIn(s[lo..hi], vol, 0, hi - lo) == AboveIn(s, vol, lo, hi)
  {
    AboveInShift(s, s[lo..hi], vol, lo, hi - lo);
  }

  /** `any(v > vol for v in window)`: some loudness value in the window is strictly above the threshold. */
  predicate AnyAbove(window: seq<int>, vol: int)
  {
    AboveIn(window, vol, 0, |window|)
  }

  /** The bounds the two deques keep. */
  predicate Bounded(cfg: VadConfig, st: VadState)
  {
    |st.window| <= cfg.silenceBlocks && |st.prev| <= cfg.prevBlocks
  }

  /** The level just appended is in the window, so a level above the threshold makes the window loud. */
  lemma LoudLevelMakesWindowLoud(w: seq<int>, x: int, vol: int, n: nat)
    ensures n >= 1 && x > vol ==> AnyAbove(DequeAppend(w, x, n), vol)
  {
    if n >= 1 {
      var window := DequeAppend(w, x, n);
      LastNIsSuffix(w + [x], n);
      assert window[|window| - 1] == x;
    }
  }

  /**
   * One iteration of the loop in `listen_and_record` for the block just read.
   * Recording only ends once it has started; while recording, every block is
   * appended and the pre-roll is left alone; before it starts, nothing is
   * recorded; and a block louder than the threshold never ends a recording.
   */
  function Step(cfg: VadConfig, st: VadState, b: Block): (r: StepResult)
    ensures r.Finish? ==> st.started && r.data == Flatten(st.prev) + st.active
    ensures r.Continue? && r.state.started ==> r.state.active == st.active + b.data && r.state.prev == st.prev
    ensures r.Continue? && !r.state.started ==> !st.started && r.state.active == st.active
    ensures cfg.silenceBlocks >= 1 && b.rms > cfg.recordVol ==> r.Continue? && r.state.started
  {
    LoudLevelMakesWindowLoud(st.window, b.rms, cfg.recordVol, cfg.silenceBlocks);
    var window := DequeAppend(st.window, b.rms, cfg.silenceBlocks);
    if AnyAbove(window, cfg.recordVol) then
      Continue(VadState(window, st.prev, st.active + b.data, true))
    else if st.started then
      Finish(Flatten(st.prev) + st.active)
    else
      Continue(VadState(window, DequeAppend(st.prev, b.data, cfg.prevBlocks), st.active, false))
  }

  /**
   * A step keeps both deques within their lengths, and once recording has
   * started the pre-roll is frozen: only the window and the recording move.
   */
  lemma StepKeepsBounds(cfg: VadConfig, st: VadState, b: Block)
    requires Bounded(cfg, st)
    ensures Step(cfg, st, b).Continue? ==> Bounded(cfg, Step(cfg, st, b).state)
    ensures st.started && Step(cfg, st, b).Continue? ==>
      Step(cfg, st, b).state.prev == st.prev && Step(cfg, st, b).state.started
  {
    DequeAppendSpec(st.window, b.rms, cfg.silenceBlocks);
    DequeAppendSpec(st.prev, b.data, cfg.prevBlocks);
  }

  /** Feed blocks `i..` of the stream to the loop, starting in state `st`. */
  function RunFrom(cfg: VadConfig, blocks: seq<Block>, i: nat, st: VadState): (r: RunResult)
    requires i <= |blocks|
    ensures r.Recorded? ==> i <= r.stop < |blocks|
    decreases |blocks| - i, 1
  {
    if i == |blocks| then Listening(st) else ReadBlock(cfg, blocks, i, st)
  }

  /** Read block `i`: stop with the recording, or carry on with the next block. */
  function ReadBlock(cfg: VadConfig, blocks: seq<Block>, i: nat, st: VadState): (r: RunResult)
    requires i < |blocks|
    ensures r.Recorded? ==> i <= r.stop < |blocks|
    decreases |blocks| - i, 0
  {
    match Step(cfg, st, blocks[i])
    case Finish(data) => Recorded(data, i)
    case Continue(st') => RunFrom(cfg, blocks, i + 1, st')
  }

  /**
   * `listen_and_record` over a finite stream, from a fresh loop state: a
   * recording stops at a block of the stream, and an empty stream leaves the
   * loop listening in its initial state.
   */
  function Listen(cfg: VadConfig, blocks: seq<Block>): (r: RunResult)
    ensures r.Recorded? ==> r.stop < |blocks|
    ensures blocks == [] ==> r == Listening(Initial)
  {
    RunFrom(cfg, blocks, 0, Initial)
  }

  // ----- The loop's state, block by block -----

  /** The loudness deque after the blocks before `i` have been read. */
  function WindowAt(cfg: VadConfig, blocks: seq<Block>, i: nat): (r: seq<int>)
    requires i <= |blocks|
    decreases i
  {
    if i == 0 then [] else DequeAppend(WindowAt(cfg, blocks, i - 1), blocks[i - 1].rms, cfg.silenceBlocks)
  }

  /** The pre-roll deque after the blocks before `i` have been read without recording. */
  function PrevAt(cfg: VadConfig, blocks: seq<Block>, i: nat): (r: seq<seq<byte>>)
    requires i <= |blocks|
    decreases i
  {
    if i == 0 then [] else DequeAppend(PrevAt(cfg, blocks, i - 1), blocks[i - 1].data, cfg.prevBlocks)
  }

  /** The bytes of blocks `t..i`, appended one block at a time. */
  function Recording(blocks: seq<Block>, t: nat, i: nat): (r: seq<byte>)
    requires t <= i <= |blocks|
    decreases i - t
  {
    if i == t then [] else Recording(blocks, t, i - 1) + blocks[i - 1].data
  }

  /** The RMS value of every block, in stream order. */
  function Levels(blocks: seq<Block>): (r: seq<int>)
    ensures |r| == |blocks|
  {
    seq(|blocks|, k requires 0 <= k < |blocks| => blocks[k].rms)
  }

  /** The bytes of every block, in stream order. */
  function Chunks(blocks: seq<Block>): (r: seq<seq<byte>>)
    ensures |r| == |blocks|
  {
    seq(|blocks|, k requires 0 <= k < |blocks| => blocks[k].data)
  }

  /**
   * Block `i` is heard as loud when one of the last `silenceBlocks` levels
   * up to and including it is strictly above the threshold.
   */
  predicate Loud(cfg: VadConfig, blocks: seq<Block>, i: nat)
    requires i < |blocks|
  {
    AboveIn(Levels(blocks), cfg.recordVol, Max(0, i + 1 - cfg.silenceBlocks), i + 1)
  }

  /** Some level among the last `width` up to index `j` is strictly above `vol`. */
  predicate WindowAbove(levels: seq<int>, vol: int, width: int, j: nat)
    requires j < |levels|
  {
    exists k :: Max(0, j + 1 - width) <= k <= j && levels[k] > vol
  }

  /** The state of a run that has read the blocks before `i` without its window ever being loud. */
  function SilentState(cfg: VadConfig, blocks: seq<Block>, i: nat): VadState
    requires i <= |blocks|
  {
    VadState(WindowAt(cfg, blocks, i), PrevAt(cfg, blocks, i), [], false)
  }

  /** The state of a run that started recording at block `t` and has read the blocks before `i`. */
  function ActiveState(cfg: VadConfig, blocks: seq<Block>, t: nat, i: nat): VadState
    requires t < i <= |blocks|
  {
    VadState(WindowAt(cfg, blocks, i), PrevAt(cfg, blocks, t), Recording(blocks, t, i), true)
  }

  // ----- A closed-form description of a run -----

  /** The first block at or after `from` whose window is loud (or quiet, when `loud` is false). */
  function FirstWithWindow(cfg: VadConfig, blocks: seq<Block>, from: nat, loud: bool): (r: Option<nat>)
    requires from <= |blocks|
    ensures r.Some? ==> from <= r.value < |blocks|
    decreases |blocks| - from
  {
    if from == |blocks| then None
    else if Loud(cfg, blocks, from) == loud then Some(from)
    else FirstWithWindow(cfg, blocks, from + 1, loud)
  }

  /**
   * The search finds the first window of the kind sought, and fails only when
   * there is none: every block `j` from `from` on is of the other kind if it
   * comes before the result, and of the kind sought if it is the result.
   */
  lemma {:induction false} FirstWithWindowIsFirst(cfg: VadConfig, blocks: seq<Block>, from: nat, loud: bool, j: nat)
    requires from <= j < |blocks|
    ensures match FirstWithWindow(cfg, blocks, from, loud)
      case Some(s) => (j < s ==> Loud(cfg, blocks, j) != loud) && (j == s ==> Loud(cfg, blocks, j) == loud)
      case None => Loud(cfg, blocks, j) != loud
    decreases |blocks| - from
  {
    if from < j && Loud(cfg, blocks, from) != loud {
      FirstWithWindowIsFirst(cfg, blocks, from + 1, loud, j);
    }
  }

  /** The trigger block and the stop block of the first recording in the stream, if it completes. */
  function UtteranceBounds(cfg: VadConfig, blocks: seq<Block>): (r: Option<(nat, nat)>)
    ensures r.Some? ==> r.value.0 < r.value.1 < |blocks|
  {
    match FirstWithWindow(cfg, blocks, 0, true)
    case None => None
    case Some(t) =>
      match FirstWithWindow(cfg, blocks, t + 1, false)
      case None => None
      case Some(s) => Some((t, s))
  }

  /** What a run does from block `i` on, once recording started at trigger `t`. */
  function ActiveFrom(cfg: VadConfig, blocks: seq<Block>, t: nat, i: nat): RunResult
    requires t < i <= |blocks|
  {
    match FirstWithWindow(cfg, blocks, i, false)
    case None => Listening(ActiveState(cfg, blocks, t, |blocks|))
    case Some(s) => Recorded(Flatten(PrevAt(cfg, blocks, t)) + Recording(blocks, t, s), s)
  }

  /** What a run does from block `i` on, while it has not started recording. */
  function SilentFrom(cfg: VadConfig, blocks: seq<Block>, i: nat): RunResult
    requires i <= |blocks|
  {
    match FirstWithWindow(cfg, blocks, i, true)
    case None => Listening(SilentState(cfg, blocks, |blocks|))
    case Some(t) => ActiveFrom(cfg, blocks, t, t + 1)
  }

  /**
   * The reference outcome: recording starts at the first loud window `t` with
   * the pre-roll as it stood before `t`, and stops at the first quiet window
   * after `t`, keeping the pre-roll and blocks `t..s` but not the stop block.
   */
  function Expected(cfg: VadConfig, blocks: seq<Block>): RunResult
  {
    match FirstWithWindow(cfg, blocks, 0, true)
    case None => Listening(SilentState(cfg, blocks, |blocks|))
    case Some(t) =>
      match FirstWithWindow(cfg, blocks, t + 1, false)
      case None => Listening(ActiveState(cfg, blocks, t, |blocks|))
      case Some(s) => Recorded(Flatten(PrevAt(cfg, blocks, t)) + Recording(blocks, t, s), s)
  }

  /** Reading block `i` before recording: a loud window starts the recording with that block. */
  lemma SilentStep(cfg: VadConfig, blocks: seq<Block>, i: nat)
    requires i < |blocks|
    ensures Step(cfg, SilentState(cfg, blocks, i), blocks[i]) ==
      if Loud(cfg, blocks, i) then Continue(ActiveState(cfg, blocks, i, i + 1))
      else Continue(SilentState(cfg, blocks, i + 1))
  {
    WindowLoud(cfg, blocks, i);
    assert Recording(blocks, i, i + 1) == [] + blocks[i].data;
  }

  /** Reading block `i` while recording: a loud window appends it, a quiet one ends the run. */
  lemma ActiveStep(cfg: VadConfig, blocks: seq<Block>, t: nat, i: nat)
    requires t < i < |blocks|
    ensures Step(cfg, ActiveState(cfg, blocks, t, i), blocks[i]) ==
      if Loud(cfg, blocks, i) then Continue(ActiveState(cfg, blocks, t, i + 1))
      else Finish(Flatten(PrevAt(cfg, blocks, t)) + Recording(blocks, t, i))
  {
    WindowLoud(cfg, blocks, i);
  }

  /** If the run from `i + 1` matches the closed form while recording, so does the run from `i`. */
  lemma ActiveAgrees(cfg: VadConfig, blocks: seq<Block>, t: nat, i: nat)
    requires t < i < |blocks|
    requires RunFrom(cfg, blocks, i + 1, ActiveState(cfg, blocks, t, i + 1)) == ActiveFrom(cfg, blocks, t, i + 1)
    ensures RunFrom(cfg, blocks, i, ActiveState(cfg, blocks, t, i)) == ActiveFrom(cfg, blocks, t, i)
  {
    ActiveStep(cfg, blocks, t, i);
  }

  /** A stream that ends while recording leaves the run listening, with the recording so far. */
  lemma ActiveEnd(cfg: VadConfig, blocks: seq<Block>, t: nat)
    requires t < |blocks|
    ensures RunFrom(cfg, blocks, |blocks|, ActiveState(cfg, blocks, t, |blocks|)) == ActiveFrom(cfg, blocks, t, |blocks|)
  {
  }

  /** Once started at `t`, the run keeps the pre-roll it had and appends every block until a quiet window. */
  lemma {:induction false} ActiveRun(cfg: VadConfig, blocks: seq<Block>, t: nat, i: nat)
    requires t < i <= |blocks|
    ensures RunFrom(cfg, blocks, i, ActiveState(cfg, blocks, t, i)) == ActiveFrom(cfg, blocks, t, i)
    decreases |blocks| - i
  {
    if i == |blocks| {
      ActiveEnd(cfg, blocks, t);
    } else {
      ActiveRun(cfg, blocks, t, i + 1);
      ActiveAgrees(cfg, blocks, t, i);
    }
  }

  /** The first loud window starts the recording, and the run goes on as the closed form says. */
  lemma SilentLoudAgrees(cfg: VadConfig, blocks: seq<Block>, i: nat)
    requires i < |blocks| && Loud(cfg, blocks, i)
    ensures RunFrom(cfg, blocks, i, SilentState(cfg, blocks, i)) == SilentFrom(cfg, blocks, i)
  {
    SilentLoudStep(cfg, blocks, i);
    ActiveRun(cfg, blocks, i, i + 1);
    SilentFromLoud(cfg, blocks, i);
  }

  lemma SilentLoudStep(cfg: VadConfig, blocks: seq<Block>, i: nat)
    requires i < |blocks| && Loud(cfg, blocks, i)
    ensures RunFrom(cfg, blocks, i, SilentState(cfg, blocks, i)) == RunFrom(cfg, blocks, i + 1, ActiveState(cfg, blocks, i, i + 1))
  {
    SilentStep(cfg, blocks, i);
  }

  lemma SilentFromLoud(cfg: VadConfig, blocks: seq<Block>, i: nat)
    requires i < |blocks| && Loud(cfg, blocks, i)
    ensures SilentFrom(cfg, blocks, i) == ActiveFrom(cfg, blocks, i, i + 1)
  {
  }

  /** A quiet window before recording only feeds the pre-roll. */
  lemma SilentQuietAgrees(cfg: VadConfig, blocks: seq<Block>, i: nat)
    requires i < |blocks| && !Loud(cfg, blocks, i)
    requires RunFrom(cfg, blocks, i + 1, SilentState(cfg, blocks, i + 1)) == SilentFrom(cfg, blocks, i + 1)
    ensures RunFrom(cfg, blocks, i, SilentState(cfg, blocks, i)) == SilentFrom(cfg, blocks, i)
  {
    SilentStep(cfg, blocks, i);
  }

  /** If the run from `i + 1` matches the closed form before recording, so does the run from `i`. */
  lemma SilentAgrees(cfg: VadConfig, blocks: seq<Block>, i: nat)
    requires i < |blocks|
    requires RunFrom(cfg, blocks, i + 1, SilentState(cfg, blocks, i + 1)) == SilentFrom(cfg, blocks, i + 1)
    ensures RunFrom(cfg, blocks, i, SilentState(cfg, blocks, i)) == SilentFrom(cfg, blocks, i)
  {
    if Loud(cfg, blocks, i) {
      SilentLoudAgrees(cfg, blocks, i);
    } else {
      SilentQuietAgrees(cfg, blocks, i);
    }
  }

  /** A stream that ends before any loud window leaves the run listening with only the pre-roll. */
  lemma SilentEnd(cfg: VadConfig, blocks: seq<Block>)
    ensures RunFrom(cfg, blocks, |blocks|, SilentState(cfg, blocks, |blocks|)) == SilentFrom(cfg, blocks, |blocks|)
  {
  }

  /** Before the first loud window every block feeds the pre-roll. */
  lemma {:induction false} SilentRun(cfg: VadConfig, blocks: seq<Block>, i: nat)
    requires i <= |blocks|
    ensures RunFrom(cfg, blocks, i, SilentState(cfg, blocks, i)) == SilentFrom(cfg, blocks, i)
    decreases |blocks| - i
  {
    if i == |blocks| {
      SilentEnd(cfg, blocks);
    } else {
      SilentRun(cfg, blocks, i + 1);
      SilentAgrees(cfg, blocks, i);
    }
  }

  /** The step-by-step recorder agrees with the closed form on every finite stream. */
  lemma ListenMatchesExpected(cfg: VadConfig, blocks: seq<Block>)
    ensures Listen(cfg, blocks) == Expected(cfg, blocks)
  {
    assert SilentState(cfg, blocks, 0) == Initial;
    SilentRun(cfg, blocks, 0);
  }

  // ----- What the state and the window test mean in terms of the stream -----

  /** The loudness deque holds the last `silenceBlocks` levels read. */
  lemma {:induction false} WindowIsLastLevels(cfg: VadConfig, blocks: seq<Block>, i: nat)
    requires i <= |blocks|
    ensures WindowAt(cfg, blocks, i) == LastN(Levels(blocks)[..i], cfg.silenceBlocks)
    decreases i
  {
    if i > 0 {
      var levels := Levels(blocks);
      WindowIsLastLevels(cfg, blocks, i - 1);
      LastNAppend(levels[..i - 1], levels[i - 1], cfg.silenceBlocks);
      TakeSnoc(levels, i);
    }
  }

  /** The loop's test on the deque after reading block `i` is the loudness of block `i`. */
  lemma WindowLoud(cfg: VadConfig, blocks: seq<Block>, i: nat)
    requires i < |blocks|
    ensures AnyAbove(WindowAt(cfg, blocks, i + 1), cfg.recordVol) == Loud(cfg, blocks, i)
  {
    WindowIsSlice(cfg, blocks, i);
    AboveInSlice(Levels(blocks), cfg.recordVol, Max(0, i + 1 - cfg.silenceBlocks), i + 1);
  }

  /** After reading block `i` the deque holds the levels of the last `silenceBlocks` blocks up to `i`. */
  lemma WindowIsSlice(cfg: VadConfig, blocks: seq<Block>, i: nat)
    requires i < |blocks|
    ensures WindowAt(cfg, blocks, i + 1) == Levels(blocks)[Max(0, i + 1 - cfg.silenceBlocks)..i + 1]
  {
    WindowIsLastLevels(cfg, blocks, i + 1);
    LastNIsSuffix(Levels(blocks)[..i + 1], cfg.silenceBlocks);
  }

  /** The pre-roll deque holds the last `prevBlocks` blocks read. */
  lemma {:induction false} PrevIsLastChunks(cfg: VadConfig, blocks: seq<Block>, i: nat)
    requires i <= |blocks|
    ensures PrevAt(cfg, blocks, i) == LastN(Chunks(blocks)[..i], cfg.prevBlocks)
    decreases i
  {
    if i > 0 {
      var chunks := Chunks(blocks);
      PrevIsLastChunks(cfg, blocks, i - 1);
      LastNAppend(chunks[..i - 1], chunks[i - 1], cfg.prevBlocks);
      TakeSnoc(chunks, i);
    }
  }

  /** The recording is the concatenated bytes of blocks `t..i`. */
  lemma {:induction false} RecordingIsJoin(blocks: seq<Block>, t: nat, i: nat)
    requires t <= i <= |blocks|
    ensures Recording(blocks, t, i) == Flatten(Chunks(blocks)[t..i])
    decreases i - t
  {
    if i > t {
      RecordingIsJoin(blocks, t, i - 1);
      FlattenSliceSnoc(Chunks(blocks), t, i);
    }
  }

  /** The pre-roll before `t` followed by blocks `t..s` is the slice from `max(0, t - prevBlocks)` to `s`. */
  lemma SavedIsSlice(cfg: VadConfig, blocks: seq<Block>, t: nat, s: nat)
    requires t <= s <= |blocks|
    ensures Flatten(PrevAt(cfg, blocks, t)) + Recording(blocks, t, s)
         == Flatten(Chunks(blocks)[Max(0, t - cfg.prevBlocks)..s])
  {
    var chunks := Chunks(blocks);
    var lo := Max(0, t - cfg.prevBlocks);
    PrevIsLastChunks(cfg, blocks, t);
    RecordingIsJoin(blocks, t, s);
    LastNOfPrefix(chunks, t, cfg.prevBlocks);
    AdjacentSlices(chunks, lo, t, s);
    FlattenAppend(chunks[lo..t], chunks[t..s]);
  }

  /** A window is loud exactly when one of the last `silenceBlocks` levels up to `i` is above the threshold. */
  lemma LoudIff(cfg: VadConfig, blocks: seq<Block>, i: nat)
    requires i < |blocks|
    ensures Loud(cfg, blocks, i) <==>
            exists k :: Max(0, i + 1 - cfg.silenceBlocks) <= k <= i && Levels(blocks)[k] > cfg.recordVol
  {
    AboveInIff(Levels(blocks), cfg.recordVol, Max(0, i + 1 - cfg.silenceBlocks), i + 1);
  }

  /** The first index at or after `from` whose level is strictly above `vol`. */
  function FirstAbove(levels: seq<int>, vol: int, from: nat): (r: Option<nat>)
    requires from <= |levels|
    ensures r.Some? ==> from <= r.value < |levels| && levels[r.value] > vol
    ensures r.Some? ==> forall j :: from <= j < r.value ==> levels[j] <= vol
    ensures r.None? ==> forall j :: from <= j < |levels| ==> levels[j] <= vol
    decreases |levels| - from
  {
    if from == |levels| then None
    else if levels[from] > vol then Some(from)
    else FirstAbove(levels, vol, from + 1)
  }

  /**
   * With a window of at least one block, recording starts at the first block
   * whose level is strictly above the threshold; a level equal to it never
   * starts a recording.
   */
  lemma {:induction false} TriggerIsFirstLoudBlock(cfg: VadConfig, blocks: seq<Block>, from: nat)
    requires cfg.silenceBlocks >= 1
    requires from <= |blocks|
    requires forall j :: 0 <= j < from ==> Levels(blocks)[j] <= cfg.recordVol
    ensures FirstWithWindow(cfg, blocks, from, true) == FirstAbove(Levels(blocks), cfg.recordVol, from)
    decreases |blocks| - from
  {
    if from < |blocks| {
      LoudIff(cfg, blocks, from);
      if Levels(blocks)[from] <= cfg.recordVol {
        TriggerIsFirstLoudBlock(cfg, blocks, from + 1);
      }
    }
  }

  /** With a window of no levels no block is ever heard as loud. */
  lemma {:induction false} EmptyWindowNeverLoud(cfg: VadConfig, blocks: seq<Block>, from: nat)
    requires cfg.silenceBlocks == 0 && from <= |blocks|
    ensures FirstWithWindow(cfg, blocks, from, true).None?
    decreases |blocks| - from
  {
    if from < |blocks| {
      assert !Loud(cfg, blocks, from);
      EmptyWindowNeverLoud(cfg, blocks, from + 1);
    }
  }

  /**
   * A window of no levels (`deque(maxlen=0)`) stays empty, so `any` over it is
   * false at every block: the loop never starts recording, whatever the
   * levels, and only feeds the pre-roll.
   */
  lemma ZeroWindowNeverRecords(cfg: VadConfig, blocks: seq<Block>)
    requires cfg.silenceBlocks == 0
    ensures Listen(cfg, blocks).Listening?
    ensures !Listen(cfg, blocks).state.started && Listen(cfg, blocks).state.active == []
    ensures Listen(cfg, blocks).state.prev == LastN(Chunks(blocks), cfg.prevBlocks)
  {
    ListenMatchesExpected(cfg, blocks);
    EmptyWindowNeverLoud(cfg, blocks, 0);
    PrevIsLastChunks(cfg, blocks, |blocks|);
    assert Chunks(blocks)[..|blocks|] == Chunks(blocks);
  }

  /**
   * With a window of at least one block, the trigger is the first block whose
   * level is strictly above the threshold, and no block above it means no
   * recording starts.
   */
  lemma TriggerIsFirstAbove(cfg: VadConfig, blocks: seq<Block>)
    requires cfg.silenceBlocks >= 1
    ensures match FirstWithWindow(cfg, blocks, 0, true)
      case None => forall j :: 0 <= j < |blocks| ==> Levels(blocks)[j] <= cfg.recordVol
      case Some(t) =>
        && Levels(blocks)[t] > cfg.recordVol
        && forall j :: 0 <= j < t ==> Levels(blocks)[j] <= cfg.recordVol
  {
    TriggerIsFirstLoudBlock(cfg, blocks, 0);
  }

  /** A quiet window right after a loud one, past a loud trigger with nothing loud before it. */
  lemma QuietWindowAfterTrigger(cfg: VadConfig, blocks: seq<Block>, t: nat, s: nat)
    requires cfg.silenceBlocks >= 1 && t < s < |blocks|
    requires Levels(blocks)[t] > cfg.recordVol
    requires forall j :: 0 <= j < t ==> Levels(blocks)[j] <= cfg.recordVol
    requires !Loud(cfg, blocks, s) && Loud(cfg, blocks, s - 1)
    ensures s >= t + cfg.silenceBlocks
    ensures forall k :: s - cfg.silenceBlocks < k <= s ==> Levels(blocks)[k] <= cfg.recordVol
    ensures exists k :: s - cfg.silenceBlocks <= k < s && t <= k && Levels(blocks)[k] > cfg.recordVol
  {
    var levels := Levels(blocks);
    LoudIff(cfg, blocks, s);
    LoudIff(cfg, blocks, s - 1);
    var k :| Max(0, s - cfg.silenceBlocks) <= k <= s - 1 && levels[k] > cfg.recordVol;
    assert s - cfg.silenceBlocks <= k < s && t <= k;
  }

  /**
   * Recording stops at `s` exactly when the last `silenceBlocks` levels up to
   * `s` are all at or below the threshold; since the trigger block is loud,
   * that needs `silenceBlocks` quiet blocks after it, and at most
   * `silenceBlocks - 1` quiet blocks end the slice that is kept.
   */
  lemma StopAfterQuietWindow(cfg: VadConfig, blocks: seq<Block>)
    requires cfg.silenceBlocks >= 1
    ensures match UtteranceBounds(cfg, blocks)
      case None =>
        (match FirstWithWindow(cfg, blocks, 0, true)
         case None => forall j :: 0 <= j < |blocks| ==> Levels(blocks)[j] <= cfg.recordVol
         case Some(t) =>
           && Levels(blocks)[t] > cfg.recordVol
           && forall j :: t < j < |blocks| ==> WindowAbove(Levels(blocks), cfg.recordVol, cfg.silenceBlocks, j))
      case Some((t, s)) =>
        var levels := Levels(blocks);
        && t < s < |levels|
        && levels[t] > cfg.recordVol
        && (forall j :: 0 <= j < t ==> levels[j] <= cfg.recordVol)
        && s >= t + cfg.silenceBlocks
        && (forall k :: s - cfg.silenceBlocks < k <= s ==> levels[k] <= cfg.recordVol)
        && (exists k :: s - cfg.silenceBlocks <= k < s && t <= k && levels[k] > cfg.recordVol)
        && (forall j :: t < j < s ==> WindowAbove(levels, cfg.recordVol, cfg.silenceBlocks, j))
  {
    match UtteranceBounds(cfg, blocks)
    case None =>
      TriggerIsFirstAbove(cfg, blocks);
      match FirstWithWindow(cfg, blocks, 0, true) {
        case None =>
        case Some(t) =>
          LoudAfterTriggerWithoutStop(cfg, blocks, t);
      }
    case Some((t, s)) =>
      StopFollowsLoud(cfg, blocks, t, s);
      TriggerIsAbove(cfg, blocks, t, s);
      QuietWindowAfterTrigger(cfg, blocks, t, s);
      NoQuietWindowBeforeStop(cfg, blocks, t, s);
  }

  /** Between the trigger and the stop block every window still holds a level above the threshold. */
  lemma NoQuietWindowBeforeStop(cfg: VadConfig, blocks: seq<Block>, t: nat, s: nat)
    requires t < |blocks| && FirstWithWindow(cfg, blocks, t + 1, false) == Some(s)
    ensures forall j :: t < j < s ==> WindowAbove(Levels(blocks), cfg.recordVol, cfg.silenceBlocks, j)
  {
    forall j | t < j < s
      ensures WindowAbove(Levels(blocks), cfg.recordVol, cfg.silenceBlocks, j)
    {
      SkippedIsOtherKind(cfg, blocks, t + 1, false, s, j);
      LoudIff(cfg, blocks, j);
    }
  }

  /** When no quiet window follows the trigger, every window after it holds a level above the threshold. */
  lemma LoudAfterTriggerWithoutStop(cfg: VadConfig, blocks: seq<Block>, t: nat)
    requires t < |blocks| && FirstWithWindow(cfg, blocks, t + 1, false).None?
    ensures forall j :: t < j < |blocks| ==> WindowAbove(Levels(blocks), cfg.recordVol, cfg.silenceBlocks, j)
  {
    forall j | t < j < |blocks|
      ensures WindowAbove(Levels(blocks), cfg.recordVol, cfg.silenceBlocks, j)
    {
      FirstWithWindowIsFirst(cfg, blocks, t + 1, false, j);
      LoudIff(cfg, blocks, j);
    }
  }

  /** The stop block's window is quiet and the one before it is loud. */
  lemma StopFollowsLoud(cfg: VadConfig, blocks: seq<Block>, t: nat, s: nat)
    requires t < |blocks| && FirstWithWindow(cfg, blocks, 0, true) == Some(t)
    requires FirstWithWindow(cfg, blocks, t + 1, false) == Some(s)
    ensures t < s < |blocks| && !Loud(cfg, blocks, s) && Loud(cfg, blocks, s - 1)
  {
    FoundIsOfKind(cfg, blocks, t + 1, false, s);
    if s - 1 == t {
      FoundIsOfKind(cfg, blocks, 0, true, t);
    } else {
      SkippedIsOtherKind(cfg, blocks, t + 1, false, s, s - 1);
    }
  }

  /** What the search returns is of the kind sought. */
  lemma FoundIsOfKind(cfg: VadConfig, blocks: seq<Block>, from: nat, loud: bool, s: nat)
    requires from <= |blocks| && FirstWithWindow(cfg, blocks, from, loud) == Some(s)
    ensures from <= s < |blocks| && Loud(cfg, blocks, s) == loud
  {
    FirstWithWindowIsFirst(cfg, blocks, from, loud, s);
  }

  /** What the search passes over is of the other kind. */
  lemma SkippedIsOtherKind(cfg: VadConfig, blocks: seq<Block>, from: nat, loud: bool, s: nat, j: nat)
    requires from <= j < s && from <= |blocks| && FirstWithWindow(cfg, blocks, from, loud) == Some(s)
    ensures s < |blocks| && Loud(cfg, blocks, j) != loud
  {
    FirstWithWindowIsFirst(cfg, blocks, from, loud, j);
  }

  /** The trigger of a completed recording is the first block above the threshold. */
  lemma TriggerIsAbove(cfg: VadConfig, blocks: seq<Block>, t: nat, s: nat)
    requires cfg.silenceBlocks >= 1
    requires UtteranceBounds(cfg, blocks) == Some((t, s))
    ensures t < |blocks| && Levels(blocks)[t] > cfg.recordVol
    ensures forall j :: 0 <= j < t ==> Levels(blocks)[j] <= cfg.recordVol
  {
    TriggerIsFirstAbove(cfg, blocks);
  }

  /**
   * A completed recording is the slice of blocks from `max(0, t - prevBlocks)`
   * to the stop block: it holds the trigger block, the pre-roll is the last
   * `min(prevBlocks, t)` blocks before the trigger, and the stop block itself
   * is left out.
   */
  lemma RecordedSlice(cfg: VadConfig, blocks: seq<Block>)
    ensures Listen(cfg, blocks).Recorded? <==> UtteranceBounds(cfg, blocks).Some?
    ensures match UtteranceBounds(cfg, blocks)
      case None => true
      case Some((t, s)) =>
        var lo := Max(0, t - cfg.prevBlocks);
        && lo <= t < s
        && t - lo == Min(t, cfg.prevBlocks)
        && Listen(cfg, blocks) == Recorded(Flatten(Chunks(blocks)[lo..s]), s)
  {
    ListenMatchesExpected(cfg, blocks);
    match UtteranceBounds(cfg, blocks)
    case None =>
    case Some((t, s)) =>
      SavedIsSlice(cfg, blocks, t, s);
  }

  /** The recording between trigger `t` and stop `s` splits around the trigger block. */
  lemma RecordingAroundTrigger(cfg: VadConfig, blocks: seq<Block>, t: nat, s: nat)
    requires UtteranceBounds(cfg, blocks) == Some((t, s))
    ensures var chunks := Chunks(blocks);
      var lo := Max(0, t - cfg.prevBlocks);
      Listen(cfg, blocks) == Recorded(Flatten(chunks[lo..t]) + blocks[t].data + Flatten(chunks[t + 1..s]), s)
  {
    RecordedSlice(cfg, blocks);
    FlattenSplit(Chunks(blocks), Max(0, t - cfg.prevBlocks), t, s);
  }

  /**
   * A completed recording holds the trigger block whole, between the pre-roll
   * (at most `prevBlocks` blocks just before it) and the blocks that followed
   * it up to the stop block; a trigger block with bytes makes the output
   * non-empty.
   */
  lemma RecordingHoldsTrigger(cfg: VadConfig, blocks: seq<Block>)
    ensures match UtteranceBounds(cfg, blocks)
      case None => true
      case Some((t, s)) =>
        && Listen(cfg, blocks).Recorded?
        && Listen(cfg, blocks).data ==
             Flatten(Chunks(blocks)[Max(0, t - cfg.prevBlocks)..t]) + blocks[t].data + Flatten(Chunks(blocks)[t + 1..s])
        && (exists pre, post :: Listen(cfg, blocks).data == pre + blocks[t].data + post)
        && |Listen(cfg, blocks).data| >= |blocks[t].data|
  {
    match UtteranceBounds(cfg, blocks)
    case None =>
    case Some((t, s)) =>
      RecordingAroundTrigger(cfg, blocks, t, s);
  }

  /** Seven one-byte blocks with levels 50, 50, 250, 260, 240, 50, 50. */
  const Scenario: seq<Block> := [Block([0], 50), Block([1], 50), Block([2], 250), Block([3], 260),
                                  Block([4], 240), Block([5], 50), Block([6], 50)]

  /**
   * With a threshold of 200, a two-block window and a two-block pre-roll,
   * block 2 triggers, block 5 is kept because its window still holds 240,
   * and block 6 ends the recording: the output is blocks 0 to 5.
   */
  lemma ScenarioKeepsOneQuietBlock()
    ensures Listen(VadConfig(200, 2, 2), Scenario) == Recorded([0, 1, 2, 3, 4, 5], 6)
  {
    ScenarioBounds();
    RecordedSlice(VadConfig(200, 2, 2), Scenario);
    ScenarioBytes();
  }

  /** In the scenario the trigger is block 2 and the stop block is block 6. */
  lemma ScenarioBounds()
    ensures UtteranceBounds(VadConfig(200, 2, 2), Scenario) == Some((2, 6))
  {
    var cfg := VadConfig(200, 2, 2);
    assert !Loud(cfg, Scenario, 0) && !Loud(cfg, Scenario, 1) && Loud(cfg, Scenario, 2);
    assert Loud(cfg, Scenario, 3) && Loud(cfg, Scenario, 4) && Loud(cfg, Scenario, 5);
    assert !Loud(cfg, Scenario, 6);
  }

  /** The scenario's first six one-byte blocks joined are the bytes 0 to 5. */
  lemma ScenarioBytes()
    ensures Flatten(Chunks(Scenario)[0..6]) == [0, 1, 2, 3, 4, 5]
  {
    var kept := Chunks(Scenario)[0..6];
    FlattenSingletons(kept);
    assert Flatten(kept) == [0, 1, 2, 3, 4, 5];
  }

  // ----- Stream geometry and trim_or_pad -----

  /** The parameters of the audio stream a Recorder owns. */
  datatype StreamFormat = StreamFormat(samplerate: int, blocksize: int, samplesize: int, channels: int)

  /** The stream main.py opens: 16 kHz, mono, 16-bit, with the default block size of 1000 frames. */
  const MainFormat: StreamFormat := StreamFormat(16000, 1000, 2, 1)

  /** `deque(maxlen=round(x))`: a negative length raises ValueError. */
  function DequeLength(x: real): (r: Result<nat>)
    ensures r.Success? <==> RoundHalfEven(x) >= 0
    ensures r.Success? ==> AbsReal(r.value as real - x) <= 0.5 && r.value == RoundHalfEven(x)
    ensures r.Failure? ==> r.error == ValueError
  {
    var n := RoundHalfEven(x);
    if n < 0 then Failure(ValueError) else Success(n)
  }

  /** `samplerate / blocksize`: how many blocks the stream delivers per second. */
  function BlocksPerSecond(fmt: StreamFormat): (r: real)
    requires fmt.blocksize != 0
    ensures r * fmt.blocksize as real == fmt.samplerate as real
  {
    fmt.samplerate as real / fmt.blocksize as real
  }

  /**
   * `listen_and_record(record_vol, max_silence_s, prev_audio_s)` over a finite
   * stream: the two deque lengths come from the stream's blocks per second.
   */
  function ListenAndRecord(fmt: StreamFormat, recordVol: int, maxSilenceS: real, prevAudioS: real,
                           blocks: seq<Block>): (r: Result<RunResult>)
    ensures fmt.blocksize == 0 <==> r == Failure(ZeroDivisionError)
    ensures r.Success? ==> exists cfg: VadConfig :: cfg.recordVol == recordVol && r.value == Listen(cfg, blocks)
    ensures fmt.blocksize != 0 ==>
      var n := RoundHalfEven(BlocksPerSecond(fmt) * maxSilenceS);
      var m := RoundHalfEven(prevAudioS * BlocksPerSecond(fmt));
      && (r.Success? <==> n >= 0 && m >= 0)
      && (r.Success? ==> r.value == Listen(VadConfig(recordVol, n, m), blocks))
      && (r.Failure? ==> r.error == ValueError)
  {
    if fmt.blocksize == 0 then Failure(ZeroDivisionError)
    else
      var silence := DequeLength(BlocksPerSecond(fmt) * maxSilenceS);
      var prev := DequeLength(prevAudioS * BlocksPerSecond(fmt));
      if silence.Failure? then Failure(silence.error)
      else if prev.Failure? then Failure(prev.error)
      else Success(Listen(VadConfig(recordVol, silence.value, prev.value), blocks))
  }

  /** With main.py's stream and durations (0.1 s and 0.2 s) the window holds 2 blocks and the pre-roll 3. */
  lemma MainWindowSizes(recordVol: int, blocks: seq<Block>)
    ensures ListenAndRecord(MainFormat, recordVol, 0.1, 0.2, blocks) == Success(Listen(VadConfig(recordVol, 2, 3), blocks))
  {
    RoundHalfEvenIsNearest(16.0 * 0.1, 2);
    RoundHalfEvenIsNearest(0.2 * 16.0, 3);
  }

  /**
   * With main.py's stream, a silence time of 0 s rounds the window to no
   * levels: `listen_and_record` then reads the whole stream without ever
   * recording.
   */
  lemma MainZeroSilenceNeverRecords(recordVol: int, blocks: seq<Block>)
    ensures ListenAndRecord(MainFormat, recordVol, 0.0, 0.2, blocks) == Success(Listen(VadConfig(recordVol, 0, 3), blocks))
    ensures Listen(VadConfig(recordVol, 0, 3), blocks).Listening?
  {
    RoundHalfEvenIsNearest(16.0 * 0.0, 0);
    RoundHalfEvenIsNearest(0.2 * 16.0, 3);
    ZeroWindowNeverRecords(VadConfig(recordVol, 0, 3), blocks);
  }

  /**
   * `int(length_s * samplerate * samplesize * channels)`: the byte length
   * trim_or_pad aims for, the whole part of the product truncated toward zero.
   */
  function DesiredLength(fmt: StreamFormat, lengthS: real): (r: int)
    ensures var x := lengthS * fmt.samplerate as real * fmt.samplesize as real * fmt.channels as real;
      && (x >= 0.0 ==> 0 <= r && r as real <= x < r as real + 1.0)
      && (x < 0.0 ==> r <= 0 && r as real - 1.0 < x <= r as real)
  {
    TruncToInt(lengthS * fmt.samplerate as real * fmt.samplesize as real * fmt.channels as real)
  }

  /**
   * `trim_or_pad`: right-pad with zero bytes up to `desired`, then keep the
   * prefix `[:desired]` (a negative `desired` drops that many bytes from the
   * end, as Python slicing does).
   */
  function TrimOrPad(data: seq<byte>, desired: int): (r: seq<byte>)
    ensures desired >= 0 ==> |r| == desired
    ensures |data| < desired ==> r[..|data|] == data && forall k :: |data| <= k < |r| ==> r[k] == 0
    ensures 0 <= desired <= |data| ==> r == data[..desired]
    ensures desired < 0 ==> r == data[..Max(0, |data| + desired)]
  {
    var padded := if |data| < desired then data + Zeros(desired - |data|) else data;
    PrefixSlice(padded, desired)
  }

  /** Normalising an already normalised recording changes nothing. */
  lemma TrimOrPadIdempotent(data: seq<byte>, desired: nat)
    ensures TrimOrPad(TrimOrPad(data, desired), desired) == TrimOrPad(data, desired)
  {
  }

  /** main.py calls `trim_or_pad(1.0)`: every recording becomes exactly 32000 bytes. */
  lemma MainRecordingIsOneSecond(data: seq<byte>)
    ensures |TrimOrPad(data, DesiredLength(MainFormat, 1.0))| == 32000
  {
    assert DesiredLength(MainFormat, 1.0) == 32000;
  }
}
