/**
 * The hit detector of src/hooks/useAudioDetection.ts. One call of `Detector.Analyze`
 * is one animation-frame tick of `analyze`: band features are extracted from one
 * frequency snapshot, the current level is pushed into a 10-slot history, the noise
 * floor is calibrated over the first 100 levels since start, and the detector state
 * is updated, counting a hit when the four-check classifier `DetectHit` fires and the
 * last hit is at least `minHitInterval` milliseconds back.
 *
 * Levels are exact reals; the browser computes them in binary floating point.
 */
module AudioDetection {

  /** One magnitude of a `Uint8Array` frequency snapshot. */
  type byte = x: int | 0 <= x < 256

  const LowMidHz: nat := 3000
  const HighMidHz: nat := 6000
  /** Used when the audio context reports no sample rate (`sampleRate || 44100`). */
  const DefaultSampleRate: nat := 44100
  const HistorySize: nat := 10
  const CalibrationSamples: nat := 100
  const AttackWindow: nat := 5

  /** `AudioDetectionConfig`; fixed for the lifetime of a detector. */
  datatype Config = Config(sensitivity: int, minHitInterval: int, frequencyMin: nat, frequencyMax: nat)

  /** `AudioDetectionState`, the React state of the hook. */
  datatype DetectorState = DetectorState(
    isActive: bool,
    isListening: bool,
    audioLevel: real,
    hitCount: nat,
    lastHitTime: int)

  /** The refs `previousLevelsRef`, `backgroundNoiseRef` and `noiseCalibrationCountRef`. */
  datatype Calibration = Calibration(history: seq<real>, noiseFloor: real, count: nat)

  /** The bin boundaries of one snapshot. */
  datatype Bins = Bins(minBin: nat, lowMidBin: nat, highMidBin: nat, maxBin: nat)

  /** What `analyze` derives from one snapshot. */
  datatype Features = Features(
    lowMidAvg: real,
    highAvg: real,
    veryHighAvg: real,
    peak: nat,
    normalizedLevel: real,
    currentLevel: real)

  function Min(a: int, b: int): int { if a <= b then a else b }
  function RMax(a: real, b: real): real { if a >= b then a else b }

  // ---------------------------------------------------------------------------
  // Band features
  // ---------------------------------------------------------------------------

  /** `audioContext.sampleRate || 44100` */
  function EffectiveSampleRate(sampleRate: nat): (r: nat)
    ensures r > 0
    ensures sampleRate > 0 ==> r == sampleRate
    ensures sampleRate == 0 ==> r == DefaultSampleRate
  {
    if sampleRate == 0 then DefaultSampleRate else sampleRate
  }

  /** `Math.floor(freq / binSize)` with `binSize = (sampleRate / 2) / n`, in integers. */
  function BinIndex(freq: nat, n: nat, sampleRate: nat): nat
    requires sampleRate > 0
  {
    (2 * freq * n) / sampleRate
  }

  /** The integer formula is the floor of the real quotient the source computes. */
  lemma BinIndexIsFloor(freq: nat, n: nat, sampleRate: nat)
    requires n > 0 && sampleRate > 0
    ensures BinIndex(freq, n, sampleRate) == (freq as real / ((sampleRate as real / 2.0) / n as real)).Floor
  {
    var a := 2 * freq * n;
    var q, r := a / sampleRate, a % sampleRate;
    assert a == q * sampleRate + r && 0 <= r < sampleRate;
    var x := freq as real / ((sampleRate as real / 2.0) / n as real);
    assert x == a as real / sampleRate as real;
    assert a as real == q as real * sampleRate as real + r as real;
    assert x == q as real + r as real / sampleRate as real;
    assert 0.0 <= r as real / sampleRate as real < 1.0;
  }

  function BinsFor(cfg: Config, n: nat, sampleRate: nat): Bins {
    var sr := EffectiveSampleRate(sampleRate);
    Bins(BinIndex(cfg.frequencyMin, n, sr), BinIndex(LowMidHz, n, sr),
         BinIndex(HighMidHz, n, sr), BinIndex(cfg.frequencyMax, n, sr))
  }

  /** Every band is non-empty and inside the snapshot, so no average divides by zero. */
  predicate WellFormed(b: Bins, n: nat) {
    b.minBin < b.lowMidBin < b.highMidBin < b.maxBin <= n
  }

  /** The sum of `s[lo..hi]`. */
  function SumRange(s: seq<byte>, lo: nat, hi: nat): int
    requires lo <= hi <= |s|
    decreases hi - lo
  {
    if lo == hi then 0 else SumRange(s, lo, hi - 1) + s[hi - 1]
  }

  /** The largest of `s[lo..hi]`, or 0 for an empty range. */
  function PeakRange(s: seq<byte>, lo: nat, hi: nat): nat
    requires lo <= hi <= |s|
    decreases hi - lo
  {
    if lo == hi then 0
    else var p := PeakRange(s, lo, hi - 1); if p >= s[hi - 1] then p else s[hi - 1]
  }

  lemma {:induction false} SumRangeBounds(s: seq<byte>, lo: nat, hi: nat)
    requires lo <= hi <= |s|
    ensures 0 <= SumRange(s, lo, hi) <= 255 * (hi - lo)
    decreases hi - lo
  {
    if lo < hi {
      SumRangeBounds(s, lo, hi - 1);
    }
  }

  lemma {:induction false} PeakRangeBounds(s: seq<byte>, lo: nat, hi: nat)
    requires lo <= hi <= |s|
    ensures PeakRange(s, lo, hi) <= 255
    ensures forall i :: lo <= i < hi ==> s[i] <= PeakRange(s, lo, hi)
    ensures lo < hi ==> exists i :: lo <= i < hi && s[i] == PeakRange(s, lo, hi)
    decreases hi - lo
  {
    if lo < hi {
      PeakRangeBounds(s, lo, hi - 1);
    }
  }

  /** The average of a band holding `sum` over `width` bins. */
  function Average(sum: int, width: nat): real
    requires width > 0
  {
    sum as real / width as real
  }

  /** The features of one snapshot (useAudioDetection.ts:126-154). */
  function FeaturesOf(s: seq<byte>, b: Bins): Features
    requires WellFormed(b, |s|)
  {
    var lowMidSum := SumRange(s, b.minBin, b.lowMidBin);
    var highSum := SumRange(s, b.lowMidBin, b.highMidBin);
    var veryHighSum := SumRange(s, b.highMidBin, b.maxBin);
    var peak := PeakRange(s, b.lowMidBin, b.highMidBin);
    var lowMidAvg := Average(lowMidSum, b.lowMidBin - b.minBin);
    var highAvg := Average(highSum, b.highMidBin - b.lowMidBin);
    var veryHighAvg := Average(veryHighSum, b.maxBin - b.highMidBin);
    var averageAmplitude := Average(lowMidSum + highSum + veryHighSum, b.maxBin - b.minBin);
    Features(lowMidAvg, highAvg, veryHighAvg, peak,
             RMax(averageAmplitude / 255.0, peak as real / 255.0 * 0.7),
             RMax(RMax(lowMidAvg, highAvg), veryHighAvg) / 255.0)
  }

  /** The bounds every snapshot of bytes keeps. */
  ghost predicate Bounded(f: Features) {
    0.0 <= f.lowMidAvg <= 255.0 && 0.0 <= f.highAvg <= 255.0 && 0.0 <= f.veryHighAvg <= 255.0 &&
    f.peak <= 255 &&
    0.0 <= f.currentLevel <= 1.0 && 0.0 <= f.normalizedLevel <= 1.0
  }

  lemma AverageBounds(sum: int, width: nat)
    requires width > 0 && 0 <= sum <= 255 * width
    ensures 0.0 <= Average(sum, width) <= 255.0
  {
    assert sum as real <= 255.0 * width as real;
  }

  /**
   * Each band average lies in [0, 255]; the current level, the loudest band over
   * 255, lies in [0, 1]; the displayed level lies in [0, 1] and is at least the
   * overall band average over 255 and 0.7 of the middle-band peak over 255.
   */
  lemma FeaturesBounded(s: seq<byte>, b: Bins)
    requires WellFormed(b, |s|)
    ensures Bounded(FeaturesOf(s, b))
    ensures var f := FeaturesOf(s, b);
      f.currentLevel * 255.0 == RMax(RMax(f.lowMidAvg, f.highAvg), f.veryHighAvg) &&
      f.normalizedLevel >= f.peak as real / 255.0 * 0.7 &&
      f.normalizedLevel >= Average(SumRange(s, b.minBin, b.lowMidBin) + SumRange(s, b.lowMidBin, b.highMidBin) +
                                   SumRange(s, b.highMidBin, b.maxBin), b.maxBin - b.minBin) / 255.0 &&
      f.peak == PeakRange(s, b.lowMidBin, b.highMidBin)
  {
    SumRangeBounds(s, b.minBin, b.lowMidBin);
    SumRangeBounds(s, b.lowMidBin, b.highMidBin);
    SumRangeBounds(s, b.highMidBin, b.maxBin);
    PeakRangeBounds(s, b.lowMidBin, b.highMidBin);
    var lowMidSum := SumRange(s, b.minBin, b.lowMidBin);
    var highSum := SumRange(s, b.lowMidBin, b.highMidBin);
    var veryHighSum := SumRange(s, b.highMidBin, b.maxBin);
    AverageBounds(lowMidSum, b.lowMidBin - b.minBin);
    AverageBounds(highSum, b.highMidBin - b.lowMidBin);
    AverageBounds(veryHighSum, b.maxBin - b.highMidBin);
    AverageBounds(lowMidSum + highSum + veryHighSum, b.maxBin - b.minBin);
  }

  /**
   * The three summing loops of `analyze` (useAudioDetection.ts:126-151), over the
   * snapshot array.
   */
  method ExtractFeatures(data: array<byte>, b: Bins) returns (f: Features)
    requires WellFormed(b, data.Length)
    ensures f == FeaturesOf(data[..], b)
    ensures Bounded(f)
  {
    ghost var s := data[..];
    var lowMidSum: int := 0;
    var i := b.minBin;
    while i < b.lowMidBin
      invariant b.minBin <= i <= b.lowMidBin
      invariant lowMidSum == SumRange(s, b.minBin, i)
    {
      lowMidSum := lowMidSum + data[i];
      i := i + 1;
    }
    var lowMidAvg := lowMidSum as real / (b.lowMidBin - b.minBin) as real;

    var highSum: int := 0;
    var maxAmplitude: nat := 0;
    i := b.lowMidBin;
    while i < b.highMidBin
      invariant b.lowMidBin <= i <= b.highMidBin
      invariant highSum == SumRange(s, b.lowMidBin, i)
      invariant maxAmplitude == PeakRange(s, b.lowMidBin, i)
    {
      highSum := highSum + data[i];
      maxAmplitude := if maxAmplitude >= data[i] then maxAmplitude else data[i];
      i := i + 1;
    }
    var highAvg := highSum as real / (b.highMidBin - b.lowMidBin) as real;

    var veryHighSum: int := 0;
    i := b.highMidBin;
    while i < b.maxBin
      invariant b.highMidBin <= i <= b.maxBin
      invariant veryHighSum == SumRange(s, b.highMidBin, i)
    {
      veryHighSum := veryHighSum + data[i];
      i := i + 1;
    }
    var veryHighAvg := veryHighSum as real / (b.maxBin - b.highMidBin) as real;

    var averageAmplitude := (lowMidSum + highSum + veryHighSum) as real / (b.maxBin - b.minBin) as real;
    var normalizedLevel := RMax(averageAmplitude / 255.0, maxAmplitude as real / 255.0 * 0.7);
    var currentLevel := RMax(RMax(lowMidAvg, highAvg), veryHighAvg) / 255.0;
    f := Features(lowMidAvg, highAvg, veryHighAvg, maxAmplitude, normalizedLevel, currentLevel);
    FeaturesBounded(s, b);
  }

  // ---------------------------------------------------------------------------
  // Level history and noise calibration
  // ---------------------------------------------------------------------------

  /** The sum of a sequence of levels. */
  function Sum(s: seq<real>): real {
    if s == [] then 0.0 else Sum(s[..|s| - 1]) + s[|s| - 1]
  }

  /** The arithmetic mean of a sequence of levels; 0 for the empty sequence. */
  function Mean(s: seq<real>): real {
    if s == [] then 0.0 else Sum(s) / |s| as real
  }

  /** The last `n` elements of `s` (all of it when shorter). */
  function LastN(s: seq<real>, n: nat): (r: seq<real>)
    ensures |r| == Min(|s|, n)
  {
    s[|s| - Min(|s|, n)..]
  }

  /** `previousLevelsRef.current.push(level)`, then `shift()` once when over 10 (lines 155-158). */
  function PushLevel(history: seq<real>, level: real): seq<real> {
    var pushed := history + [level];
    if |pushed| > HistorySize then pushed[1..] else pushed
  }

  /**
   * The history never exceeds 10 entries, ends with the new level, and keeps the
   * old entries in order except that only the oldest is dropped when full.
   */
  lemma PushLevelWindow(history: seq<real>, level: real)
    requires |history| <= HistorySize
    ensures var h := PushLevel(history, level);
      |h| == Min(|history| + 1, HistorySize) && h[|h| - 1] == level &&
      (|history| < HistorySize ==> h[..|h| - 1] == history) &&
      (|history| == HistorySize ==> h[..|h| - 1] == history[1..])
  {
  }

  /** The calibration step and history push of one tick (lines 155-164). */
  function Record(cal: Calibration, level: real): Calibration {
    Calibration(
      PushLevel(cal.history, level),
      if cal.count < CalibrationSamples
      then (cal.noiseFloor * cal.count as real + level) / (cal.count + 1) as real
      else cal.noiseFloor,
      if cal.count < CalibrationSamples then cal.count + 1 else cal.count)
  }

  /** The refs as `startDetection` leaves them (lines 82-84). */
  const Reset: Calibration := Calibration([], 0.0, 0)

  /** The calibration after recording `levels`, oldest first, since the last start. */
  function RecordAll(levels: seq<real>): Calibration {
    if levels == [] then Reset else Record(RecordAll(levels[..|levels| - 1]), levels[|levels| - 1])
  }

  lemma LastNStep(s: seq<real>, x: real)
    ensures LastN(s + [x], HistorySize) == PushLevel(LastN(s, HistorySize), x)
  {
  }

  lemma RecordAllSnoc(levels: seq<real>, x: real)
    ensures RecordAll(levels + [x]) == Record(RecordAll(levels), x)
  {
    assert (levels + [x])[..|levels|] == levels;
  }

  lemma MeanTimesCount(s: seq<real>)
    ensures Mean(s) * |s| as real == Sum(s)
  {
  }

  lemma {:induction false} RecordAllHistory(levels: seq<real>)
    ensures RecordAll(levels).history == LastN(levels, HistorySize)
  {
    if levels != [] {
      var init, x := levels[..|levels| - 1], levels[|levels| - 1];
      assert levels == init + [x];
      RecordAllHistory(init);
      LastNStep(init, x);
    }
  }

  lemma {:induction false} RecordAllCount(levels: seq<real>)
    ensures RecordAll(levels).count == Min(|levels|, CalibrationSamples)
  {
    if levels != [] {
      RecordAllCount(levels[..|levels| - 1]);
    }
  }

  lemma MeanStep(s: seq<real>, x: real)
    ensures Mean(s + [x]) == (Mean(s) * |s| as real + x) / (|s| + 1) as real
  {
    assert (s + [x])[..|s|] == s;
    assert Sum(s + [x]) == Sum(s) + x;
    MeanTimesCount(s);
  }

  /** While calibrating, recording a level turns the mean of `s` into the mean of `s + [x]`. */
  lemma FloorStep(cal: Calibration, s: seq<real>, x: real)
    requires cal.count == |s| < CalibrationSamples && cal.noiseFloor == Mean(s)
    ensures Record(cal, x).noiseFloor == Mean(s + [x])
  {
    MeanStep(s, x);
  }

  lemma {:induction false} RecordAllFloor(levels: seq<real>)
    ensures RecordAll(levels).noiseFloor == Mean(levels[..Min(|levels|, CalibrationSamples)])
  {
    if levels != [] {
      var init, x := levels[..|levels| - 1], levels[|levels| - 1];
      assert levels == init + [x];
      RecordAllFloor(init);
      RecordAllCount(init);
      var cal := RecordAll(init);
      assert RecordAll(levels) == Record(cal, x);
      if |init| < CalibrationSamples {
        assert init[..|init|] == init;
        assert levels[..|levels|] == levels;
        FloorStep(cal, init, x);
      } else {
        assert Record(cal, x).noiseFloor == cal.noiseFloor;
        assert init[..CalibrationSamples] == levels[..CalibrationSamples];
      }
    }
  }

  /**
   * After the levels `levels` since start, the history is their last 10, the
   * calibration count is min(k, 100), and the noise floor is the arithmetic mean of
   * the first min(k, 100) of them; it no longer changes after the 100th.
   */
  lemma CalibrationIsMean(levels: seq<real>)
    ensures RecordAll(levels) ==
      Calibration(LastN(levels, HistorySize), Mean(levels[..Min(|levels|, CalibrationSamples)]),
                  Min(|levels|, CalibrationSamples))
  {
    RecordAllHistory(levels);
    RecordAllCount(levels);
    RecordAllFloor(levels);
  }

  /** Levels that all equal `c` sum to their number times `c`. */
  lemma {:induction false} SumConstant(s: seq<real>, c: real)
    requires forall i :: 0 <= i < |s| ==> s[i] == c
    ensures Sum(s) == |s| as real * c
  {
    if s != [] {
      SumConstant(s[..|s| - 1], c);
    }
  }

  // ---------------------------------------------------------------------------
  // The classifier
  // ---------------------------------------------------------------------------

  /** `Math.max(sensitivity / 100, backgroundNoise * 3)` */
  function AdaptiveThreshold(sensitivity: int, noiseFloor: real): real {
    RMax(sensitivity as real / 100.0, noiseFloor * 3.0)
  }

  /** `previousLevelsRef.current.slice(-5)` */
  function RecentLevels(history: seq<real>): seq<real> {
    LastN(history, AttackWindow)
  }

  ghost predicate NonNegative(s: seq<real>) {
    forall i :: 0 <= i < |s| ==> s[i] >= 0.0
  }

  /** The four checks of `detectHit` (useAudioDetection.ts:193-225), each on its own. */
  predicate PassesThreshold(sensitivity: int, cal: Calibration, f: Features) {
    f.currentLevel >= AdaptiveThreshold(sensitivity, cal.noiseFloor)
  }

  lemma SumNonNegative(s: seq<real>)
    requires NonNegative(s)
    ensures Sum(s) >= 0.0
  {
    if s != [] {
      SumNonNegative(s[..|s| - 1]);
    }
  }

  /** The mean of the recent window without its newest entry. */
  function RecentAverage(recent: seq<real>): (avg: real)
    requires |recent| > 2 && NonNegative(recent)
    ensures avg >= 0.0
  {
    var older := recent[..|recent| - 1];
    SumNonNegative(older);
    Sum(older) / (|recent| - 1) as real
  }

  /** The attack check: skipped with two or fewer entries in the recent window. */
  predicate PassesAttack(cal: Calibration, f: Features)
    requires NonNegative(cal.history)
  {
    var recent := RecentLevels(cal.history);
    |recent| <= 2 || f.currentLevel / (RecentAverage(recent) + 0.01) >= 2.5
  }

  predicate PassesSpectrum(f: Features)
    requires f.lowMidAvg >= 0.0
  {
    (f.highAvg + f.veryHighAvg) / (f.lowMidAvg + 1.0) >= 0.8
  }

  predicate PassesPeak(sensitivity: int, cal: Calibration, f: Features) {
    var t := AdaptiveThreshold(sensitivity, cal.noiseFloor);
    f.highAvg / 255.0 >= t || f.veryHighAvg / 255.0 >= t
  }

  /**
   * `detectHit`: the checks in the source's order, each returning false on
   * failure. `cal` is the calibration after the current level was recorded.
   */
  function DetectHit(sensitivity: int, cal: Calibration, f: Features): bool
    requires NonNegative(cal.history) && f.lowMidAvg >= 0.0
  {
    var adaptiveThreshold := AdaptiveThreshold(sensitivity, cal.noiseFloor);
    if f.currentLevel < adaptiveThreshold then false
    else
      var recent := RecentLevels(cal.history);
      if |recent| > 2 && f.currentLevel / (RecentAverage(recent) + 0.01) < 2.5 then false
      else if (f.highAvg + f.veryHighAvg) / (f.lowMidAvg + 1.0) < 0.8 then false
      else if f.highAvg / 255.0 < adaptiveThreshold && f.veryHighAvg / 255.0 < adaptiveThreshold then false
      else true
  }

  lemma RecentNonNegative(history: seq<real>)
    requires NonNegative(history)
    ensures NonNegative(RecentLevels(history))
  {
  }

  /** A hit is exactly a snapshot passing all four checks, in either order. */
  lemma DetectHitIffAllChecks(sensitivity: int, cal: Calibration, f: Features)
    requires NonNegative(cal.history) && f.lowMidAvg >= 0.0
    ensures DetectHit(sensitivity, cal, f) <==>
      PassesThreshold(sensitivity, cal, f) && PassesAttack(cal, f) &&
      PassesSpectrum(f) && PassesPeak(sensitivity, cal, f)
  {
    RecentNonNegative(cal.history);
  }

  /** A level below `max(sensitivity/100, 3 * noiseFloor)` is never a hit, whatever else. */
  lemma QuietNeverHits(sensitivity: int, cal: Calibration, f: Features)
    requires NonNegative(cal.history) && f.lowMidAvg >= 0.0
    requires f.currentLevel < RMax(sensitivity as real / 100.0, 3.0 * cal.noiseFloor)
    ensures !DetectHit(sensitivity, cal, f)
  {
  }

  /**
   * With at least three entries in the window, a level less than 2.5 times the
   * average of the older entries (plus 0.01) is never a hit, however loud.
   */
  lemma SlowAttackNeverHits(sensitivity: int, cal: Calibration, f: Features)
    requires NonNegative(cal.history) && f.lowMidAvg >= 0.0
    requires |cal.history| >= 3
    requires f.currentLevel / (RecentAverage(RecentLevels(cal.history)) + 0.01) < 2.5
    ensures !DetectHit(sensitivity, cal, f)
  {
  }

  /** With at most two entries the attack check cannot reject. */
  lemma ShortHistorySkipsAttack(cal: Calibration, f: Features)
    requires NonNegative(cal.history) && |cal.history| <= 2
    ensures PassesAttack(cal, f)
  {
  }

  /** Levels that all equal `c` have mean `c`. */
  lemma {:induction false} ConstantMean(s: seq<real>, c: real)
    requires s != []
    requires forall i :: 0 <= i < |s| ==> s[i] == c
    ensures Mean(s) == c
  {
    SumConstant(s, c);
    var n := |s| as real;
    assert Sum(s) == n * c;
    assert Mean(s) == Sum(s) / n;
  }

  /** When every recorded level equals `c`, the noise floor and every history entry are `c`. */
  lemma {:induction false} ConstantCalibration(levels: seq<real>, c: real)
    requires levels != []
    requires forall i :: 0 <= i < |levels| ==> levels[i] == c
    ensures RecordAll(levels).noiseFloor == c
    ensures forall i :: 0 <= i < |RecordAll(levels).history| ==> RecordAll(levels).history[i] == c
  {
    RecordAllFloor(levels);
    RecordAllHistory(levels);
    ConstantMean(levels[..Min(|levels|, CalibrationSamples)], c);
  }

  /**
   * A sustained tone never counts: when every level since start equals the same
   * positive `c`, the noise floor is `c`, so the threshold `3c` exceeds the level.
   */
  lemma SustainedToneNeverHits(sensitivity: int, levels: seq<real>, c: real, f: Features)
    requires levels != [] && c > 0.0 && f.currentLevel == c && f.lowMidAvg >= 0.0
    requires forall i :: 0 <= i < |levels| ==> levels[i] == c
    ensures NonNegative(RecordAll(levels).history)
    ensures !DetectHit(sensitivity, RecordAll(levels), f)
  {
    ConstantCalibration(levels, c);
    QuietNeverHits(sensitivity, RecordAll(levels), f);
  }

  /**
   * An isolated transient counts. After a calibrated baseline whose level is 0.05
   * (band averages 12.75, 10.2 and 5.1), a spike whose band averages are 60, 204
   * and 153 has level 204 / 255 = 0.8 and is a hit at sensitivity 25; the baseline
   * snapshot that follows it is not. Each level is derived from the band averages
   * as `FeaturesOf` derives it.
   */
  lemma IsolatedTransientHits(spike: Features, quiet: Features)
    requires spike.lowMidAvg == 60.0 && spike.highAvg == 204.0 && spike.veryHighAvg == 153.0
    requires spike.currentLevel == RMax(RMax(spike.lowMidAvg, spike.highAvg), spike.veryHighAvg) / 255.0
    requires quiet.lowMidAvg == 12.75 && quiet.highAvg == 10.2 && quiet.veryHighAvg == 5.1
    requires quiet.currentLevel == RMax(RMax(quiet.lowMidAvg, quiet.highAvg), quiet.veryHighAvg) / 255.0
    ensures quiet.currentLevel == 0.05 && spike.currentLevel == 0.8
    ensures var base := Calibration([0.05, 0.05, 0.05, 0.05, 0.05, 0.05, 0.05, 0.05, 0.05, 0.05], 0.05, 100);
      var afterSpike := Record(base, spike.currentLevel);
      DetectHit(25, afterSpike, spike) &&
      !DetectHit(25, Record(afterSpike, quiet.currentLevel), quiet)
  {
    var base := Calibration([0.05, 0.05, 0.05, 0.05, 0.05, 0.05, 0.05, 0.05, 0.05, 0.05], 0.05, 100);
    var afterSpike := Record(base, 0.8);
    assert afterSpike.history == [0.05, 0.05, 0.05, 0.05, 0.05, 0.05, 0.05, 0.05, 0.05, 0.8];
    var recent := RecentLevels(afterSpike.history);
    assert recent == [0.05, 0.05, 0.05, 0.05, 0.8];
    SumConstant(recent[..4], 0.05);
  }

  // ---------------------------------------------------------------------------
  // The state transition of one tick
  // ---------------------------------------------------------------------------

  /**
   * The `setState` updater of one tick (useAudioDetection.ts:166-187); `cal` is the
   * calibration after recording this tick's level.
   */
  function Updater(cfg: Config, cal: Calibration, f: Features, now: int, prev: DetectorState): DetectorState
    requires NonNegative(cal.history) && f.lowMidAvg >= 0.0
  {
    if !prev.isActive then prev.(audioLevel := f.normalizedLevel)
    else if now - prev.lastHitTime < cfg.minHitInterval then prev.(audioLevel := f.normalizedLevel)
    else if DetectHit(cfg.sensitivity, cal, f) then
      prev.(audioLevel := f.normalizedLevel, hitCount := prev.hitCount + 1, lastHitTime := now)
    else prev.(audioLevel := f.normalizedLevel)
  }

  /**
   * Inactive or within `minHitInterval` of the last hit, only the displayed level
   * changes. Otherwise the count rises by one exactly when `DetectHit` fires, and
   * then the hit is stamped `now`, at least `minHitInterval` after the previous one.
   */
  lemma UpdaterTransition(cfg: Config, cal: Calibration, f: Features, now: int, prev: DetectorState)
    requires NonNegative(cal.history) && f.lowMidAvg >= 0.0
    ensures var next := Updater(cfg, cal, f, now, prev);
      next.audioLevel == f.normalizedLevel &&
      next.isActive == prev.isActive && next.isListening == prev.isListening &&
      (!prev.isActive || now - prev.lastHitTime < cfg.minHitInterval ==>
        next == prev.(audioLevel := f.normalizedLevel)) &&
      (next.hitCount == prev.hitCount || next.hitCount == prev.hitCount + 1) &&
      (next.hitCount == prev.hitCount + 1 <==>
        prev.isActive && now - prev.lastHitTime >= cfg.minHitInterval && DetectHit(cfg.sensitivity, cal, f)) &&
      (next.hitCount == prev.hitCount + 1 ==> next.lastHitTime == now && now - prev.lastHitTime >= cfg.minHitInterval) &&
      (next.hitCount == prev.hitCount ==> next.lastHitTime == prev.lastHitTime)
  {
  }

  /** Levels in [0, 1] keep every entry of the history non-negative. */
  lemma RecordAllNonNegative(levels: seq<real>)
    requires forall i :: 0 <= i < |levels| ==> 0.0 <= levels[i] <= 1.0
    ensures NonNegative(RecordAll(levels).history)
  {
    RecordAllHistory(levels);
  }

  lemma HistoryNonNegativeAfter(levels: seq<real>, x: real)
    requires forall i :: 0 <= i < |levels| ==> 0.0 <= levels[i] <= 1.0
    requires 0.0 <= x <= 1.0
    ensures forall i :: 0 <= i < |levels + [x]| ==> 0.0 <= (levels + [x])[i] <= 1.0
    ensures NonNegative(RecordAll(levels + [x]).history)
  {
    RecordAllNonNegative(levels + [x]);
  }

  // ---------------------------------------------------------------------------
  // The hook's state and refs
  // ---------------------------------------------------------------------------

  /** The detector of one `useAudioDetection(config)` instance. */
  class Detector {
    const config: Config
    /** Whether the audio context and analyser exist. */
    var audioReady: bool
    var isActive: bool
    var isListening: bool
    var audioLevel: real
    var hitCount: nat
    var lastHitTime: int
    var history: seq<real>
    var noiseFloor: real
    var calibrationCount: nat
    /** The current levels recorded since the last start, oldest first. */
    ghost var levels: seq<real>

    function State(): DetectorState
      reads this
    {
      DetectorState(isActive, isListening, audioLevel, hitCount, lastHitTime)
    }

    function Refs(): Calibration
      reads this
    {
      Calibration(history, noiseFloor, calibrationCount)
    }

    /** The refs are what recording `levels` from a reset gives; every level lies in [0, 1]. */
    ghost predicate Valid()
      reads this
    {
      Refs() == RecordAll(levels) &&
      (forall i :: 0 <= i < |levels| ==> 0.0 <= levels[i] <= 1.0)
    }

    constructor (config: Config)
      ensures Valid() && this.config == config && !audioReady
      ensures State() == DetectorState(false, false, 0.0, 0, 0) && levels == []
    {
      this.config := config;
      audioReady := false;
      isActive, isListening, audioLevel, hitCount, lastHitTime := false, false, 0.0, 0, 0;
      history, noiseFloor, calibrationCount := [], 0.0, 0;
      levels := [];
    }

    /**
     * `startDetection` (lines 75-89): when the audio graph is missing it is first
     * initialised, and a failed initialisation (`initOk` false) changes nothing.
     * Otherwise the refs are reset, the detector is active, and the count is 0;
     * `lastHitTime` is kept.
     */
    method StartDetection(initOk: bool) returns (ok: bool)
      requires Valid()
      modifies this
      ensures Valid()
      ensures ok == (old(audioReady) || initOk)
      ensures !ok ==> State() == old(State()) && Refs() == old(Refs()) && levels == old(levels) && !audioReady
      ensures ok ==> (audioReady && Refs() == Reset && levels == [] &&
        State() == old(State()).(isActive := true, hitCount := 0,
                                 isListening := old(audioReady) ==> old(isListening)))
    {
      if !audioReady {
        if !initOk {
          return false;
        }
        audioReady := true;
        isListening := true;
      }
      history := [];
      noiseFloor := 0.0;
      calibrationCount := 0;
      levels := [];
      isActive := true;
      hitCount := 0;
      ok := true;
    }

    /** `stopDetection` (lines 91-96): only `isActive` is cleared. */
    method StopDetection()
      modifies this
      ensures State() == old(State()).(isActive := false)
      ensures Refs() == old(Refs()) && levels == old(levels) && audioReady == old(audioReady)
    {
      isActive := false;
    }

    /** `resetCounter` (lines 98-100): the count and the last hit time go to 0. */
    method ResetCounter()
      modifies this
      ensures State() == old(State()).(hitCount := 0, lastHitTime := 0)
      ensures Refs() == old(Refs()) && levels == old(levels) && audioReady == old(audioReady)
    {
      hitCount := 0;
      lastHitTime := 0;
    }

    /**
     * The ref updates of one tick (lines 155-164): push the level into the history,
     * dropping the oldest beyond 10, and fold it into the noise floor while fewer
     * than 100 levels have been calibrated.
     */
    method RecordLevel(level: real)
      modifies this
      ensures Refs() == Record(old(Refs()), level)
      ensures State() == old(State()) && levels == old(levels) && audioReady == old(audioReady)
    {
      var pushed := history + [level];
      if |pushed| > HistorySize {
        pushed := pushed[1..];
      }
      var floor, count := noiseFloor, calibrationCount;
      if calibrationCount < CalibrationSamples {
        floor := (noiseFloor * calibrationCount as real + level) / (calibrationCount + 1) as real;
        count := calibrationCount + 1;
      }
      ghost var next := Record(Refs(), level);
      assert pushed == next.history;
      assert floor == next.noiseFloor;
      assert count == next.count;
      history, noiseFloor, calibrationCount := pushed, floor, count;
    }

    /** `setState` with the state an updater computed; the refs are untouched. */
    method SetState(next: DetectorState)
      modifies this
      ensures State() == next
      ensures Refs() == old(Refs()) && levels == old(levels) && audioReady == old(audioReady)
    {
      isActive, isListening, audioLevel := next.isActive, next.isListening, next.audioLevel;
      hitCount, lastHitTime := next.hitCount, next.lastHitTime;
    }

    /**
     * The part of a tick after feature extraction (lines 153-187): record the
     * current level in the refs, then apply the `setState` updater.
     */
    method Step(f: Features, now: int)
      requires Valid() && Bounded(f)
      modifies this
      ensures Valid() && audioReady == old(audioReady)
      ensures levels == old(levels) + [f.currentLevel]
      ensures Refs() == Record(old(Refs()), f.currentLevel) && NonNegative(history)
      ensures State() == Updater(config, Refs(), f, now, old(State()))
    {
      RecordAllSnoc(levels, f.currentLevel);
      HistoryNonNegativeAfter(levels, f.currentLevel);
      levels := levels + [f.currentLevel];
      RecordLevel(f.currentLevel);
      SetState(Updater(config, Refs(), f, now, State()));
    }

    /**
     * One tick of `analyze` (lines 109-190) on the snapshot `data`, whose length is
     * the analyser's bin count, at time `now` in milliseconds.
     */
    method Analyze(data: array<byte>, sampleRate: nat, now: int)
      requires Valid()
      requires WellFormed(BinsFor(config, data.Length, sampleRate), data.Length)
      modifies this
      ensures Valid() && audioReady == old(audioReady)
      ensures var f := FeaturesOf(data[..], BinsFor(config, data.Length, sampleRate));
        levels == old(levels) + [f.currentLevel] &&
        Refs() == Record(old(Refs()), f.currentLevel) &&
        NonNegative(history) && f.lowMidAvg >= 0.0 &&
        State() == Updater(config, Refs(), f, now, old(State()))
      ensures hitCount == old(hitCount) || hitCount == old(hitCount) + 1
      ensures hitCount == old(hitCount) + 1 ==>
        lastHitTime == now && now - old(lastHitTime) >= config.minHitInterval
    {
      var bins := BinsFor(config, data.Length, sampleRate);
      var f := ExtractFeatures(data, bins);
      ghost var prev := State();
      Step(f, now);
      UpdaterTransition(config, Refs(), f, now, prev);
    }
  }
}
