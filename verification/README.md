# neigh, modelled in Dafny

neigh listens to a microphone and cuts out each utterance with a small
voice-activity recorder. A classifier labels the utterance. When it hears an
animal sound, neigh drives a Buttplug vibration device. This project models
the sequential core of the program:

- **The recorder** (`recorder.dfy`, `legacy.dfy`). These are the
  `listen_and_record` loop of `neigh/recorder.py` and its older twin
  `listen_and_record_speech` in `neigh.py`.
  - Audio arrives as a finite stream of blocks, each carrying its bytes and
    its RMS level.
  - The loop keeps a loudness window of the last N levels and a pre-roll
    deque of the last M quiet blocks.
  - It starts recording at the first window holding a level strictly above
    the threshold, and stops at the first quiet window after that.
  - `Recorder.Step` is one iteration of the loop. `Recorder.Listen` runs it
    over the stream.
  - `Recorder.UtteranceBounds` gives a closed-form description: the trigger
    block `t` and the stop block `s`. The recording is proved to be exactly
    the blocks `max(0, t - M) .. s - 1` joined.
  - The legacy loop is written as the imperative `while` it is, and is
    proved to return the same bytes.
  - `trim_or_pad` and `trim_and_pad_bytes` are the byte normalisers that
    follow each recording.
- **The command sequencer** (`vibrator.dfy`). `vibrate` queues
  `(amount, on_time, off_time)` commands, `set_vibration_level` stores the
  background level, and `update_vibrator` drains the queue.
  - A drain is modelled as the trace of device calls and sleeps it makes:
    `Device.Event` is `Vibrate`, `Sleep` or `Stop`.
- **The five vibration patterns** (`patterns.dfy`), and what draining them
  sends to the device.
- **The helpers of the two main programs** (`speech.dfy`,
  `neigh_main.dfy`):
  - the label picked from the classifier's output;
  - `curve_linear`;
  - the pruning of recent detection timestamps;
  - main.py's `vibrate_worker`.
- **Python semantics the code relies on** (`pynum.dfy`):
  - `round` (half to even) and `int()` (truncation);
  - slicing with negative bounds and negative list indexing;
  - `deque(maxlen=…)`;
  - `b''.join` and list comprehensions with a condition.

Intensities and durations are exact reals, so `round` and `int()` act on
exact values rather than binary floats (see "## Left out"). A timestamp is
an integer count of microseconds.

Levels 50, 50, 250, 260, 240, 50, 50 with a two-block window show how the
loop ends. The recording does not end right after the 240 block, because the
window [240, 50] is still loud, so the first 50 after the burst is recorded.
It stops at the second 50. `Recorder.ScenarioKeepsOneQuietBlock` proves this
outcome.

The patterns in `neigh/vibrate_patterns.py` call `vibrator.enqueue(...)`,
but `Vibrator` only defines `vibrate`. Both are modelled as the one queueing
operation `Vibrator.Enqueue`.

## Model

| member | source | states |
|---|---|---|
| Recorder.StepKeepsBounds | neigh/recorder.py:59-90 | One loop iteration keeps the loudness window within N levels and the pre-roll within M blocks. Once recording has started, the pre-roll is frozen and stays started. |
| Recorder.Step | neigh/recorder.py:69-90 | One iteration of the loop. Recording ends only after it has started, and then returns the joined pre-roll followed by the active recording. While recording, each block is appended and the pre-roll is left alone; before the trigger nothing is recorded. With a window of at least one level, a block whose own level is above the threshold never ends a recording. |
| Recorder.Listen | neigh/recorder.py:64-90 | Run from the initial state (no bytes, not started, empty deques), a recording always stops at a block of the stream, and an empty stream leaves the loop listening in that state. |
| Recorder.ListenMatchesExpected | neigh/recorder.py:69-90 | Running the loop over any stream gives the closed-form outcome. The stream runs out while listening unless a trigger and a stop block exist. Otherwise the result is the pre-roll plus the blocks from the trigger to the stop block. |
| Recorder.WindowIsSlice | neigh/recorder.py:59-76 | After reading block i, the `volume_log` deque holds exactly the levels of the last min(N, i+1) blocks, in order. |
| Recorder.WindowLoud | neigh/recorder.py:76-79 | The loop's `any(volume > record_vol …)` test on the deque agrees with "some level among the last N up to block i is strictly above the threshold". |
| Recorder.LoudIff | neigh/recorder.py:79 | A window is loud if and only if some level in it is strictly above `record_vol`; a level equal to the threshold never counts. |
| Recorder.PrevIsLastChunks | neigh/recorder.py:62-90 | The pre-roll deque, fed only while not started, is the last min(M, i) blocks before i, in order. |
| Recorder.RecordingIsJoin | neigh/recorder.py:82 | The active recording built with `+=` from trigger t up to i is the join of blocks t..i-1. |
| Recorder.TriggerIsFirstAbove | neigh/recorder.py:76-82 | With a window of at least one level, recording starts at the first block whose own level is strictly above the threshold; with no such block it never starts. |
| Recorder.StopAfterQuietWindow | neigh/recorder.py:69-90 | With a window of at least one level, recording stops at s exactly when the window at s is the first quiet one after the trigger t. So t is the first block above the threshold, s comes at least N blocks after t, the N levels ending at s are all at or below the threshold, and every window strictly between t and s still holds a level above it. When no recording completes, either no level ever exceeds the threshold, or one does and every window after it holds a loud level. At most N-1 trailing quiet blocks are kept. |
| Recorder.ZeroWindowNeverRecords | neigh/recorder.py:59-90 | With a window of no levels (`deque(maxlen=0)`), `any` over the always-empty window is false at every block. The loop never starts recording, whatever the levels, and ends the stream listening, with the pre-roll holding the last M blocks. |
| Recorder.RecordedSlice | neigh/recorder.py:84-87 | A recording ends if and only if bounds exist. The bytes are then the contiguous slice of blocks from max(0, t-M) up to but excluding the stop block, with min(t, M) blocks of pre-roll. |
| Recorder.RecordingHoldsTrigger | neigh/recorder.py:69-87 | A completed recording is the pre-roll (the up to M blocks just before the trigger t), then the trigger block whole, then the blocks after it up to the excluded stop block s. So it is at least as long as the trigger block. |
| Recorder.ScenarioKeepsOneQuietBlock | neigh/recorder.py:59-90 | Levels 50, 50, 250, 260, 240, 50, 50 with N = M = 2 and threshold 200 record blocks 0 to 5 and stop at block 6: the first quiet block after the burst is kept. |
| Recorder.ListenAndRecord | neigh/recorder.py:40-62 | `listen_and_record` raises ZeroDivisionError exactly for a zero block size. Otherwise, with b = samplerate / blocksize, it runs the loop with threshold `record_vol`, a window of round(b × max_silence_s) levels and a pre-roll of round(prev_audio_s × b) blocks. When either length rounds below zero, `deque` raises ValueError instead. |
| Recorder.MainWindowSizes | neigh/recorder.py:56-62 | With main.py's 16 kHz stream of 1000-frame blocks and 0.1 s / 0.2 s, the window holds round(1.6) = 2 levels and the pre-roll round(3.2) = 3 blocks. |
| Recorder.MainZeroSilenceNeverRecords | neigh/recorder.py:56-90 | With main.py's stream and a silence time of 0 s, the window rounds to no levels and the pre-roll to 3 blocks, and `listen_and_record` reads the whole stream without recording. |
| Recorder.BlocksPerSecond | neigh/recorder.py:56 | `samplerate / blocksize` is the number of blocks per second: times the block size it gives the sample rate. |
| Recorder.DequeLength | neigh/recorder.py:59-62 | `deque(maxlen=round(x))` succeeds exactly when round(x) is non-negative, with that length, which lies within one half of x; otherwise it raises ValueError. |
| Recorder.TrimOrPad | neigh/recorder.py:107-122 | The result has exactly the desired length. A shorter input is a prefix followed by zero bytes; a longer input is cut to its prefix. A negative length follows Python slicing. |
| Recorder.DesiredLength | neigh/recorder.py:110-114 | `int(...)` of the product of seconds, sample rate, sample size and channels: its floor when the product is non-negative, and minus the floor of its negation otherwise. |
| Recorder.TrimOrPadIdempotent | neigh/recorder.py:116-122 | For a non-negative length, normalising twice equals normalising once. |
| Recorder.MainRecordingIsOneSecond | neigh/recorder.py:110-114 | main.py's `trim_or_pad(1.0)` on a 16 kHz mono 16-bit stream always leaves 32000 bytes. |
| Legacy.SpeechConfigSizes | neigh.py:33-48 | With CHUNK 1024 at 16 kHz (15.625 blocks per second), the silence window is round(1.5625) = 2 and the pre-roll round(3.125) = 3, with RECORD_VOL 200. |
| Legacy.SpeechConfig | neigh.py:74-81 | The legacy deque lengths are the integers nearest (within one half) to MAX_SILENCE_S × CHUNKS_PER_SECOND and PREV_AUDIO_S × CHUNKS_PER_SECOND, with threshold RECORD_VOL. It fails exactly when either rounds below zero. |
| Legacy.SpeechConfigIsListenConfig | neigh.py:74-81 | The legacy settings are the ones `listen_and_record` derives for neigh.py's 16 kHz stream of 1024-frame blocks with the same durations, so both loops run with the same window and pre-roll. |
| Legacy.AnyAboveThreshold | neigh.py:91 | `any([volume > RECORD_VOL …])` is true exactly when some window element is strictly above the threshold. |
| Legacy.ListenAndRecordSpeech | neigh.py:59-102 | The legacy loop returns bytes exactly when the Recorder model records, and the same bytes. These are the slice from max(0, t-M) to the excluded stop block, and it returns nothing when no utterance completes. |
| Legacy.TrimAndPadBytes | neigh.py:142-153 | For non-negative seconds the result has floor(seconds × 32000) bytes. For any seconds, a result at least as long as the input is the input followed by zeros, and a shorter one is a prefix of the input. |
| Legacy.OneSecondIs32000Bytes | neigh.py:225 | `trim_and_pad_bytes(b, 1.0)` always returns 32000 bytes. |
| Legacy.TrimAndPadMatchesTrimOrPad | neigh.py:142-153 | The legacy normaliser and the Recorder's `trim_or_pad` on main.py's stream produce the same bytes for every input and duration. |
| Vibrator.Enqueue | neigh/vibrator.py:39-40 | `vibrate` appends exactly one command `(amount, on_time, off_time)` at the back, with `off_time` 0.0 by default, and leaves the rest of the queue and the level alone. |
| Vibrator.SetVibrationLevel | neigh/vibrator.py:42-44 | The level is stored, the queue is untouched, and the one device call sent is `Vibrate(amount)`. |
| Vibrator.SetLevelThenDrain | neigh/vibrator.py:34-44 | After `set_vibration_level(L)` the first call sent is L, and a later drain's last call restores L. |
| Vibrator.DrainAfterCreateEndsOff | neigh/vibrator.py:18-37 | A new vibrator's level is 0.0, so draining whatever was queued after `create` ends by sending `Vibrate(0.0)`. |
| Vibrator.UpdateVibrator | neigh/vibrator.py:26-37 | The drain loop over a queue snapshot produces exactly the reference trace `Drain`: commands in FIFO order, one segment each. |
| Vibrator.Drain | neigh/vibrator.py:26-37 | Draining n commands makes their segments one after another: as many events as the segments hold together, between 3n and 4n. |
| Vibrator.DrainSegment | neigh/vibrator.py:27-37 | The events of command i sit at a fixed offset of the trace and form its segment, in queue order. Each segment is vibrate at the amount, hold, optionally restore the level, then rest. |
| Vibrator.CommandTrace | neigh/vibrator.py:30-37 | A segment always begins `Vibrate(amount)`, `Sleep(on_time)` and ends `Sleep(off_time)`. The restore `Vibrate(level)` sits in between exactly when the command restores. |
| Vibrator.DrainVibrateCount | neigh/vibrator.py:30-35 | A drain sends one vibrate call per command plus one per command after which the queue is empty or whose rest is positive. |
| Vibrator.VibrateCountBounds | neigh/vibrator.py:34-35 | Draining n ≥ 1 commands sends between n+1 and 2n vibrate calls. |
| Vibrator.DrainEndsAtLevel | neigh/vibrator.py:34-35 | The final device call of a drain of at least one command is `Vibrate(level)`. |
| Vibrator.DrainSleeps | neigh/vibrator.py:32-37 | The total time slept in a drain is the sum of `on_time + off_time` over the commands. |
| Vibrator.DrainSendsOnlyAmountsAndLevel | neigh/vibrator.py:30-35 | Every vibrate call in a drain sends a queued amount or the background level. |
| Patterns.PatternBasic | neigh/vibrate_patterns.py:3-5 | `pattern_basic` queues one command held 1.3 s with no rest. Its amount lies in [0.4, 1.0], within 0.005 of the random draw. |
| Patterns.PatternBurst | neigh/vibrate_patterns.py:7-10 | `pattern_burst` adds three commands behind the queue and leaves the earlier commands and the level unchanged. |
| Patterns.PatternBurstPulse | neigh/vibrate_patterns.py:12-17 | `pattern_burst_pulse` adds five commands behind the queue and leaves the earlier commands and the level unchanged. |
| Patterns.PatternBurstLinger | neigh/vibrate_patterns.py:19-23 | `pattern_burst_linger` adds four commands behind the queue and leaves the earlier commands and the level unchanged. |
| Patterns.RisingRound | neigh/vibrate_patterns.py:27-34 | One turn of the loop adds eight commands behind the queue and leaves the earlier commands and the level unchanged. |
| Patterns.RisingRepeat | neigh/vibrate_patterns.py:26-34 | n turns of the loop add 8n commands behind the queue and leave the earlier commands and the level unchanged. |
| Patterns.PatternRising | neigh/vibrate_patterns.py:25-34 | `pattern_rising` adds 24 commands behind the queue and leaves the earlier commands and the level unchanged. |
| Patterns.BurstQueues | neigh/vibrate_patterns.py:7-10 | `pattern_burst` queues exactly three (0.8, 1.2, 0.2) commands behind the existing queue. |
| Patterns.BurstPulseQueues | neigh/vibrate_patterns.py:12-17 | `pattern_burst_pulse` queues exactly five (0.8, 0.1, 0.1) commands. |
| Patterns.BurstLingerQueues | neigh/vibrate_patterns.py:19-23 | `pattern_burst_linger` queues four commands at 1.0, held 0.7, 0.7, 0.7 and 1.7 s, each resting 0.2 s. |
| Patterns.RisingQueues | neigh/vibrate_patterns.py:25-34 | `pattern_rising` queues the 24 commands of a reference formula. Command i has amount (3 + i mod 8)/10 and hold 0.1 with no rest, except i mod 8 = 7, which is (1.0, 0.3, 0.2). |
| Patterns.RisingRises | neigh/vibrate_patterns.py:25-34 | Within one repetition the intensities rise strictly. |
| Patterns.RisingRests | neigh/vibrate_patterns.py:25-34 | Only the 1.0 step of each repetition has a nonzero rest, of 0.2 s. |
| Patterns.BasicWellFormed | neigh/vibrate_patterns.py:3-5 | `pattern_basic` queues an intensity in [0, 1] and non-negative durations. |
| Patterns.BurstsWellFormed | neigh/vibrate_patterns.py:7-23 | The three burst patterns queue intensities in [0, 1] and non-negative durations. |
| Patterns.RisingWellFormed | neigh/vibrate_patterns.py:25-34 | `pattern_rising` queues intensities in [0, 1] and non-negative durations. |
| Patterns.BurstDrain | neigh/vibrate_patterns.py:7-10 | Drained from an empty queue at level L, the burst makes exactly the trace 0.8, wait 1.2, L, wait 0.2, three times over. |
| Patterns.BurstDeviceCalls | neigh/vibrate_patterns.py:7-10 | Drained from an empty queue at level L, the burst sends exactly 0.8, L, 0.8, L, 0.8, L to the device. |
| Patterns.BurstPulseDrainVibrates | neigh/vibrate_patterns.py:12-17 | Every pulse rests, so draining `pattern_burst_pulse` sends ten vibrate calls. |
| Patterns.BurstLingerDrainVibrates | neigh/vibrate_patterns.py:19-23 | Every linger command rests, so draining `pattern_burst_linger` sends eight vibrate calls. |
| Patterns.RisingRestoresAtTop | neigh/vibrate_patterns.py:25-34 | In a drain of `pattern_rising`, command i restores the level if and only if it is a 1.0 step (i = 7, 15, 23). |
| Patterns.RisingDrainRestoresThrice | neigh/vibrate_patterns.py:25-34 | Drained from an empty queue, `pattern_rising` restores the level exactly three times, so it sends 27 vibrate calls. |
| NeighMain.WorkerPositions | neigh/main.py:105-113 | The worker handles each queued strength in FIFO order as `Vibrate(max(0.1, s))`, `Sleep(1)`, `Stop`: the k-th strength taken occupies positions 3k, 3k+1 and 3k+2 of the trace. |
| NeighMain.WorkerTrace | neigh/main.py:105-113 | The worker makes exactly three device events per strength it takes from the queue. |
| NeighMain.WorkerFloor | neigh/main.py:109 | The worker never sends a strength below 0.1, and sends the queued strength itself when it is at least 0.1. |
| NeighMain.WorkerSleeps | neigh/main.py:112 | The worker sleeps one second per strength served. |
| NeighMain.WorkerFifo | neigh/main.py:105-113 | Serving two batches in turn equals serving them together. |
| NeighMain.PredictedLabel | neigh/main.py:99-102 | A classifier score at or below 0.5 gives 'animal' and a score above 0.5 gives 'other'. |
| NeighMain.CurvesAtSettings | neigh/main.py:46-47 | `curve_linear` at max_expected_vol 1600, and neigh.py's at 2000, never exceeds 1.0, is non-negative for a non-negative volume, and saturates at 1.0 from the maximum up. |
| NeighMain.RecordAnimal | neigh/main.py:146-150 | As the code is written: the new stamp comes last, preceded in order by the earlier stamps whose `.seconds` age is under 60. The list grows by at most one. |
| NeighMain.RecordAnimalWithinADay | neigh/main.py:146-150 | While every stamp is less than a day old and not in the future, the loop keeps exactly the stamps younger than 60 seconds, followed by the new one. |
| NeighMain.RecordAnimalKeepsDayOldStamp | neigh/main.py:149-150 | A detection one day and five seconds after the previous one keeps both stamps. |
| Speech.LabelOf | neigh.py:155-162 | `sorted(labels)[index]` succeeds exactly for -2 ≤ index < 2 and raises IndexError otherwise. |
| Speech.LabelMapping | neigh/main.py:101-102 | Index 0 (and -2) is 'animal'; index 1 (and -1) is 'other'. |
| Speech.SortedPair | neigh/main.py:102 | `sorted` of two strings is a permutation of them in non-decreasing order. |
| Speech.CurveLinear | neigh.py:169-170 | `curve_linear` never exceeds 1.0, is non-negative for a non-negative volume, reaches 1.0 from the maximum volume up, and raises ZeroDivisionError for a zero maximum. |
| Speech.CurveLinearMonotone | neigh/main.py:46-47 | A louder volume never gives a weaker strength. |
| Speech.TimedeltaSeconds | neigh.py:238 | `timedelta.seconds` lies in [0, 86400) and counts the whole seconds of a difference after removing whole days. |
| Speech.PruneAsWritten | neigh.py:238 | What the comprehension computes: the result holds exactly the stamps whose `.seconds` age, with whole days dropped, is below the period. |
| Speech.Prune | neigh.py:238 | The intended pruning, not what the line computes (see Findings): the result holds exactly the stamps younger than the period. `Speech.PruneKeepsOrder` states that they keep their order. |
| Speech.PruneKeepsOrder | neigh/main.py:149-150 | Pruning distributes over concatenation, so survivors keep their relative order. |
| Speech.RecordDetection | neigh.py:235-238 | With the intended pruning by age: appending `now` and pruning gives the old survivors followed by `now`, so the newest entry is always kept and the list grows by at most one. |
| Speech.RecordDetectionAsWritten | neigh.py:235-238 | As the code is written: appending `now` and pruning by `.seconds` gives the old `.seconds` survivors followed by `now`, whose zero age always passes, so the list grows by at most one. |
| Speech.PruneAsWrittenWithinADay | neigh.py:238 | When every stamp is less than a day old and not in the future, the pruning as written agrees with pruning by age. |
| Speech.DayOldStampSurvives | neigh/main.py:149-150 | A stamp one day and five seconds old survives the pruning as written, but not pruning by age. |

## Left out

- Audio capture is not modelled: the `sounddevice` and `pyaudio` streams, starting and stopping them, and the overflow message. The block stream is an input, and each block's RMS comes with it, because `audioop.rms` is a library call.
- The stream's unbounded `while True` is modelled as a finite stream. When the stream runs out before a recording ends, the result is `Listening` in the Recorder model and `None` in the legacy loop.
- Writing WAV files and `print_volume_loop` are I/O and are left out. (`print_volume_loop` also reads an undefined `rms`.)
- The classifier is left out: librosa MFCCs and the Keras model are opaque. Only the mapping from its output to a label is modelled.
- `curve_evil` is left out. It is sigmoid and exponential floating-point arithmetic; `curve_linear` is modelled instead.
- Buttplug setup is left out: starting the server, websocket connection, scanning, `Vibrator.create`'s device lookup, `stop` and `disconnect`. Only the initial level 0.0 of `create` is kept, as `Vibrator.Created`.
- asyncio concurrency is left out. Drains run over a snapshot of the queue with no producer racing the emptiness test. The worker serves a finite list of strengths.
- Real time is left out: a sleep is a `Sleep(seconds)` event, and "now" is a parameter.
- The main loops that glue the pieces together are left out: saving each recording, dispatching the strength, and `calculate_vibration_strength`, which only calls the curve. `neigh.py`'s `start_listening` sends vibrate, sleep and stop inline; its shape is the worker's, without the 0.1 floor.
- settings.py holds only constants. `max_expected_vol` (1600) is `NeighMain.MaxExpectedVol`. `record_vol` (160) is left a parameter, because the recorder's lemmas hold for every threshold. main.py passes its own MAX_SILENCE_S and PREV_AUDIO_S (0.1 and 0.2), which `Recorder.MainWindowSizes` uses as literals. The paths and `vibrate_factor` are not used by the modelled code.
- Recorder.TriggerIsFirstAbove: stated for a window of at least one level. A zero-length window, which `round` gives for silence times up to 1/32 s at 16 blocks per second, never starts a recording; `Recorder.ZeroWindowNeverRecords` states that case, and the real loop then never returns.
- Recorder.StopAfterQuietWindow: stated for a window of at least one level. With a zero-length window there is no trigger and no stop; `Recorder.ZeroWindowNeverRecords` states that case.
- `random.uniform` in `pattern_basic` becomes a parameter in [0.4, 1.0].
- Recorder.DesiredLength: `int()` is taken of the exact real product, while the program multiplies binary floats. Where the float product falls just below an integer, the program truncates one lower: at 0.25025 s, Python's product is 8007.999999999999, giving 8007 bytes, where the model gives 8008. main.py only calls `trim_or_pad(1.0)`, where both give 32000 (`Recorder.MainRecordingIsOneSecond`).
- Legacy.TrimAndPadBytes: like `Recorder.DesiredLength`, its length is `int()` of the exact product, so the program can end one byte shorter on float products just below an integer (0.25025 s: 8007 against 8008). neigh.py only calls it with 1.0, where both give 32000 (`Legacy.OneSecondIs32000Bytes`).
- Round2: Python's `round(x, 2)` and the `/` before it act on binary floats. The model rounds the exact real half to even, so ties that binary floats shift may round differently.
- Speech.PruneAsWritten: the code calls `datetime.now()` once per element. The model uses one `now` for the whole comprehension.
- Speech.Prune: like the pruning as written, it uses one `now` for the whole comprehension.

## Findings

| source | as written | input that shows it | evidently intended | confidence | as-written member | corrected member |
|---|---|---|---|---|---|---|
| neigh.py:238 (and neigh/main.py:149-150) | `(now - ts).seconds < 60` reads only the seconds field of the timedelta, which drops whole days | a stamp taken 1 day and 5 seconds ago: `.seconds` is 5, so it is kept | keep only stamps less than 60 seconds old, i.e. `(now - ts).total_seconds() < 60` | not executed | Speech.DayOldStampSurvives | Speech.Prune |
