/**
 * The older single-file program neigh.py: its recording loop
 * `listen_and_record_speech`, written as the imperative loop it is and
 * proved to record exactly what the Recorder model records, its constants,
 * and `trim_and_pad_bytes`.
 */
module Legacy {
  import opened PyNum
  import opened Recorder

  // ----- Constants -----

  const SampleRate: int := 16000
  const FormatWidthInBytes: int := 2
  const Channels: int := 1
  /** Frames read per block. */
  const Chunk: int := 1024
  /** RMS threshold above which recording starts. */
  const RecordVol: int := 200
  /** Seconds of silence that end a recording. */
  const MaxSilenceS: real := 0.1
  /** Seconds of audio kept from before the trigger. */
  const PrevAudioS: real := 0.2
  /** The volume `curve_linear` maps to full strength. */
  const MaxExpectedVol: int := 2000

  /** The stream neigh.py opens: 16 kHz, mono, 16-bit, 1024 frames per block. */
  const LegacyFormat: StreamFormat := StreamFormat(SampleRate, Chunk, FormatWidthInBytes, Channels)

  /** `CHUNKS_PER_SECOND`: blocks in one second of audio. */
  const ChunksPerSecond: real := SampleRate as real / Chunk as real

  /**
   * The two deque lengths `listen_and_record_speech` creates, as Python
   * computes them: `round(MAX_SILENCE_S * CHUNKS_PER_SECOND)` and
   * `round(PREV_AUDIO_S * CHUNKS_PER_SECOND)`.
   */
  function SpeechConfig(): (r: Result<VadConfig>)
    ensures r.Success? <==> RoundHalfEven(MaxSilenceS * ChunksPerSecond) >= 0 && RoundHalfEven(PrevAudioS * ChunksPerSecond) >= 0
    ensures r.Success? ==> r.value.recordVol == RecordVol
    ensures r.Success? ==> AbsReal(r.value.silenceBlocks as real - MaxSilenceS * ChunksPerSecond) <= 0.5
    ensures r.Success? ==> AbsReal(r.value.prevBlocks as real - PrevAudioS * ChunksPerSecond) <= 0.5
  {
    match DequeLength(MaxSilenceS * ChunksPerSecond)
    case Failure(e) => Failure(e)
    case Success(n) =>
      match DequeLength(PrevAudioS * ChunksPerSecond)
      case Failure(e) => Failure(e)
      case Success(m) => Success(VadConfig(RecordVol, n, m))
  }

  /** With 15.625 blocks per second, round(1.5625) = 2 blocks of silence and round(3.125) = 3 of pre-roll. */
  lemma SpeechConfigSizes()
    ensures SpeechConfig() == Success(VadConfig(200, 2, 3))
  {
    assert ChunksPerSecond == 15.625;
    RoundHalfEvenIsNearest(MaxSilenceS * ChunksPerSecond, 2);
    RoundHalfEvenIsNearest(PrevAudioS * ChunksPerSecond, 3);
  }

  /**
   * The legacy settings are the ones `listen_and_record` derives for
   * neigh.py's stream: recording with them runs the same loop.
   */
  lemma SpeechConfigIsListenConfig(blocks: seq<Block>)
    ensures SpeechConfig().Success?
    ensures ListenAndRecord(LegacyFormat, RecordVol, MaxSilenceS, PrevAudioS, blocks) ==
            Success(Listen(SpeechConfig().value, blocks))
  {
    SpeechConfigSizes();
    assert BlocksPerSecond(LegacyFormat) == ChunksPerSecond;
  }

  // ----- The recording loop -----

  /** `any([volume > vol for volume in window])`, one element at a time. */
  method AnyAboveThreshold(window: seq<int>, vol: int) returns (found: bool)
    ensures found <==> exists k :: 0 <= k < |window| && window[k] > vol
  {
    found := false;
    var k := 0;
    while k < |window|
      invariant 0 <= k <= |window|
      invariant found <==> exists j :: 0 <= j < k && window[j] > vol
    {
      if window[k] > vol {
        found := true;
      }
      k := k + 1;
    }
  }

  /**
   * `listen_and_record_speech` over a finite stream of blocks: the bytes it
   * returns, or None when the stream runs out before a recording ends. It
   * returns what the Recorder model records for the same blocks and window
   * sizes, and so the slice of the stream from `max(0, t - prevBlocks)` up
   * to the stop block.
   */
  method ListenAndRecordSpeech(cfg: VadConfig, blocks: seq<Block>) returns (r: Option<seq<byte>>)
    ensures r.Some? <==> Listen(cfg, blocks).Recorded?
    ensures r.Some? ==> r.value == Listen(cfg, blocks).data
    ensures match UtteranceBounds(cfg, blocks)
      case None => r.None?
      case Some((t, s)) => r == Some(Flatten(Chunks(blocks)[Max(0, t - cfg.prevBlocks)..s]))
  {
    RecordedSlice(cfg, blocks);
    var outSpeechSamples: seq<byte> := [];
    var recordingStarted := false;
    var slidingWindow: seq<int> := [];
    var prevAudio: seq<seq<byte>> := [];
    var i := 0;
    while i < |blocks|
      invariant i <= |blocks|
      invariant RunFrom(cfg, blocks, i, VadState(slidingWindow, prevAudio, outSpeechSamples, recordingStarted))
             == Listen(cfg, blocks)
      decreases |blocks| - i
    {
      var currentData := blocks[i];
      slidingWindow := DequeAppend(slidingWindow, currentData.rms, cfg.silenceBlocks);
      var loud := AnyAboveThreshold(slidingWindow, cfg.recordVol);
      AboveInIff(slidingWindow, cfg.recordVol, 0, |slidingWindow|);
      if loud {
        recordingStarted := true;
        outSpeechSamples := outSpeechSamples + currentData.data;
      } else if recordingStarted {
        r := Some(Flatten(prevAudio) + outSpeechSamples);
        return;
      } else {
        prevAudio := DequeAppend(prevAudio, currentData.data, cfg.prevBlocks);
      }
      i := i + 1;
    }
    r := None;
  }

  // ----- trim_and_pad_bytes -----

  /**
   * `trim_and_pad_bytes(data, seconds)`: zero-pad or truncate to
   * `int(seconds * SAMPLE_RATE * FORMAT_WIDTH_IN_BYTES * CHANNELS)` bytes.
   */
  function TrimAndPadBytes(data: seq<byte>, seconds: real): (r: seq<byte>)
    ensures seconds >= 0.0 ==> |r| == (seconds * 32000.0).Floor
    ensures |data| <= |r| ==> r[..|data|] == data && forall k :: |data| <= k < |r| ==> r[k] == 0
    ensures |r| < |data| ==> r == data[..|r|]
  {
    TrimOrPad(data, TruncToInt(seconds * SampleRate as real * FormatWidthInBytes as real * Channels as real))
  }

  /** `trim_and_pad_bytes(speech_bytes, 1.0)`: every recording becomes 32000 bytes. */
  lemma OneSecondIs32000Bytes(data: seq<byte>)
    ensures |TrimAndPadBytes(data, 1.0)| == 32000
  {
  }

  /**
   * The legacy normaliser and the Recorder's `trim_or_pad` on main.py's
   * stream produce the same bytes: the two streams differ only in block size.
   */
  lemma TrimAndPadMatchesTrimOrPad(data: seq<byte>, seconds: real)
    ensures TrimAndPadBytes(data, seconds) == TrimOrPad(data, DesiredLength(MainFormat, seconds))
  {
    assert DesiredLength(MainFormat, seconds) == DesiredLength(LegacyFormat, seconds);
  }
}
