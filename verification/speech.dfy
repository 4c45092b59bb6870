/**
 * The small pure helpers neigh/main.py and neigh.py share: the mapping from
 * the classifier's output index to a label, `curve_linear`, and the pruning
 * of the list of recent detection timestamps.
 */
module Speech {
  import opened PyNum

  // ----- Labels -----

  /** `labels = ['animal', 'other']`. */
  const Labels: seq<string> := ["animal", "other"]

  /** Python's `<` on strings: lexicographic by code point. */
  predicate StrLess(a: string, b: string)
    decreases |a|
  {
    if a == [] then b != []
    else if b == [] then false
    else if a[0] != b[0] then a[0] < b[0]
    else StrLess(a[1..], b[1..])
  }

  /** `sorted([a, b])`: the two strings in order, the first kept first when neither is smaller. */
  function SortedPair(a: string, b: string): (r: seq<string>)
    ensures |r| == 2 && multiset(r) == multiset([a, b])
    ensures !StrLess(r[1], r[0])
  {
    if StrLess(b, a) then StrLessAsymmetric(b, a); [b, a] else [a, b]
  }

  lemma {:induction false} StrLessAsymmetric(a: string, b: string)
    requires StrLess(a, b)
    ensures !StrLess(b, a)
    decreases |a|
  {
    if a != [] && b != [] && a[0] == b[0] {
      StrLessAsymmetric(a[1..], b[1..]);
    }
  }

  /** `sorted(labels)`. */
  function SortedLabels(): seq<string>
  {
    SortedPair(Labels[0], Labels[1])
  }

  /**
   * `sorted(labels)[index]`: the label for a class index, with Python's
   * negative indexing and an IndexError outside the list.
   */
  function LabelOf(index: int): (r: Result<string>)
    ensures r.Success? <==> -2 <= index < 2
    ensures r.Failure? ==> r.error == IndexError
  {
    PyIndex(SortedLabels(), index)
  }

  /** Index 0 (and -2) is 'animal', index 1 (and -1) is 'other'. */
  lemma LabelMapping()
    ensures LabelOf(0) == Success("animal") && LabelOf(1) == Success("other")
    ensures LabelOf(-1) == Success("other") && LabelOf(-2) == Success("animal")
  {
    assert StrLess("animal", "other");
  }

  // ----- curve_linear -----

  /**
   * `curve_linear(volume, recent_speech_count)`:
   * `min(1.0, round(volume / max_expected_vol, 2))`. The count is unused by
   * `curve_linear`; a zero `max_expected_vol` raises ZeroDivisionError.
   */
  function CurveLinear(volume: int, maxExpectedVol: int): (r: Result<real>)
    ensures r.Failure? <==> maxExpectedVol == 0
    ensures r.Failure? ==> r.error == ZeroDivisionError
    ensures r.Success? ==> r.value <= 1.0
    ensures r.Success? && volume >= 0 && maxExpectedVol > 0 ==> r.value >= 0.0
    ensures r.Success? && 0 < maxExpectedVol <= volume ==> r.value == 1.0
  {
    if maxExpectedVol == 0 then Failure(ZeroDivisionError)
    else
      var q := volume as real / maxExpectedVol as real;
      QuotientBounds(volume, maxExpectedVol);
      Success(MinReal(1.0, Round2(q)))
  }

  /** The sign and saturation of `volume / max_expected_vol` for a positive maximum. */
  lemma QuotientBounds(volume: int, maxExpectedVol: int)
    requires maxExpectedVol != 0
    ensures maxExpectedVol > 0 && volume >= 0 ==> volume as real / maxExpectedVol as real >= 0.0
    ensures 0 < maxExpectedVol <= volume ==> volume as real / maxExpectedVol as real >= 1.0
  {
    var q := volume as real / maxExpectedVol as real;
    assert q * maxExpectedVol as real == volume as real;
  }

  /** A louder sound never yields a weaker strength. */
  lemma CurveLinearMonotone(v1: int, v2: int, maxExpectedVol: int)
    requires v1 <= v2 && maxExpectedVol > 0
    ensures CurveLinear(v1, maxExpectedVol).value <= CurveLinear(v2, maxExpectedVol).value
  {
    var m := maxExpectedVol as real;
    assert v1 as real / m <= v2 as real / m;
    RoundHalfEvenMonotone(v1 as real / m * 100.0, v2 as real / m * 100.0);
  }

  // ----- Pruning the recent detections -----

  /** Microseconds in one second and in one day. */
  const Second: int := 1_000_000
  const Day: int := 86_400 * 1_000_000

  /**
   * `timedelta.seconds` for a difference of `us` microseconds: the seconds
   * within the last day, ignoring whole days (a timedelta normalises to
   * days, seconds in [0, 86400) and microseconds).
   */
  function TimedeltaSeconds(us: int): (r: int)
    ensures 0 <= r < 86_400
    ensures exists days: int :: days * Day + r * Second <= us < days * Day + (r + 1) * Second
  {
    var whole := us / Second;
    assert whole / 86_400 * Day + whole % 86_400 * Second == whole * Second;
    whole % 86_400
  }

  /**
   * The pruning as written:
   * `[ts for ts in stamps if (now - ts).seconds < period]`.
   */
  function PruneAsWritten(stamps: seq<int>, now: int, period: int): (r: seq<int>)
    ensures |r| <= |stamps|
    ensures forall k :: 0 <= k < |r| ==> r[k] in stamps && TimedeltaSeconds(now - r[k]) < period
    ensures forall k :: 0 <= k < |stamps| && TimedeltaSeconds(now - stamps[k]) < period ==> stamps[k] in r
  {
    Filter(stamps, t => TimedeltaSeconds(now - t) < period)
  }

  /** The pruning as intended: keep the stamps less than `period` seconds old. */
  function Prune(stamps: seq<int>, now: int, period: int): (r: seq<int>)
    ensures |r| <= |stamps|
    ensures forall k :: 0 <= k < |r| ==> r[k] in stamps && now - r[k] < period * Second
    ensures forall k :: 0 <= k < |stamps| && now - stamps[k] < period * Second ==> stamps[k] in r
  {
    Filter(stamps, t => now - t < period * Second)
  }

  /** Pruning a list is pruning its two halves: survivors keep their relative order. */
  lemma PruneKeepsOrder(a: seq<int>, b: seq<int>, now: int, period: int)
    ensures Prune(a + b, now, period) == Prune(a, now, period) + Prune(b, now, period)
  {
    FilterAppend(a, b, t => now - t < period * Second);
  }

  /**
   * Record a detection at `now` and prune: the survivors of the old list,
   * in their order, followed by the new stamp; the list grows by at most one.
   */
  lemma RecordDetection(stamps: seq<int>, now: int, period: int)
    requires period > 0
    ensures Prune(stamps + [now], now, period) == Prune(stamps, now, period) + [now]
    ensures |Prune(stamps + [now], now, period)| <= |stamps| + 1
  {
    FilterAppend(stamps, [now], t => now - t < period * Second);
    assert Filter([now], t => now - t < period * Second) == [now] by {
      assert [now][..0] == [];
    }
  }

  /**
   * Record a detection at `now` and prune as the code is written: the old
   * survivors of `.seconds`-based pruning, in their order, followed by the
   * new stamp, whose age of zero seconds always survives.
   */
  lemma RecordDetectionAsWritten(stamps: seq<int>, now: int, period: int)
    requires period > 0
    ensures PruneAsWritten(stamps + [now], now, period) == PruneAsWritten(stamps, now, period) + [now]
    ensures |PruneAsWritten(stamps + [now], now, period)| <= |stamps| + 1
  {
    FilterAppend(stamps, [now], t => TimedeltaSeconds(now - t) < period);
    FilterSingle(now, t => TimedeltaSeconds(now - t) < period);
  }

  /** When every stamp is less than a day old and not in the future, the code as written prunes as intended. */
  lemma PruneAsWrittenWithinADay(stamps: seq<int>, now: int, period: int)
    requires forall k :: 0 <= k < |stamps| ==> 0 <= now - stamps[k] < Day
    ensures PruneAsWritten(stamps, now, period) == Prune(stamps, now, period)
  {
    forall k | 0 <= k < |stamps|
      ensures (TimedeltaSeconds(now - stamps[k]) < period) == (now - stamps[k] < period * Second)
    {
      var us := now - stamps[k];
      assert us / Second < 86_400;
      assert TimedeltaSeconds(us) == us / Second;
    }
    FilterCongruent(stamps, t => TimedeltaSeconds(now - t) < period, t => now - t < period * Second);
  }

  /**
   * A stamp one day and five seconds old survives the pruning as written,
   * because `.seconds` drops the day; the intended pruning removes it.
   */
  lemma DayOldStampSurvives()
    ensures PruneAsWritten([0], Day + 5 * Second, 60) == [0]
    ensures Prune([0], Day + 5 * Second, 60) == []
  {
    assert TimedeltaSeconds(Day + 5 * Second) == 5;
    assert [0][..0] == [];
  }
}
