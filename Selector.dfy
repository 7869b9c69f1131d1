/** Mapping the potentiometer reading onto the choice of the current
    selection screen. The reading comes from a 10-bit converter; the code
    scales it with the Arduino call map(raw, 0, 1023, 0, k), which on a
    non-negative reading is raw * k / 1023, and does not clamp the result. */
module Selector {

  /** Full scale of the converter. */
  const PotMax: int := 1023

  /** A potentiometer reading as analogRead returns it. */
  type PotReading = x: int | 0 <= x <= PotMax

  /** Number of enumerators of Mode, Train and Diff. */
  const ModeCount: int := 2
  const TrainCount: int := 4
  const DiffCount: int := 5

  /** Readings below this select DROITIER, the others GAUCHER. */
  const ModeThreshold: int := 512

  /** map(raw, 0, 1023, 0, k). Every result lies in 0..k; the top value k,
      one past the last enumerator, is reached at full scale and only there. */
  function MapPot(raw: PotReading, k: nat): (r: int)
    requires k <= PotMax
    ensures 0 <= r <= k
    ensures raw == 0 ==> r == 0
    ensures raw == PotMax ==> r == k
    ensures raw < PotMax && k > 0 ==> r < k
  {
    BelowFullScale(raw, k);
    raw * k / PotMax
  }

  /** raw * k stays below PotMax * k while raw < PotMax. */
  lemma BelowFullScale(raw: PotReading, k: nat)
    ensures raw * k <= PotMax * k
    ensures raw < PotMax && k > 0 ==> raw * k < PotMax * k
  {
  }

  /** Handedness ordinal chosen by the reading: 0 (DROITIER) below the
      threshold, 1 (GAUCHER) from it on. */
  function SelectMode(raw: PotReading): (m: int)
    ensures 0 <= m < ModeCount
    ensures m == 0 <==> raw < ModeThreshold
  {
    if raw < ModeThreshold then 0 else 1
  }

  /** Training-type ordinal chosen by the reading. */
  function SelectTrain(raw: PotReading): (t: int)
    ensures 0 <= t <= TrainCount
  {
    MapPot(raw, TrainCount)
  }

  /** Difficulty ordinal chosen by the reading. */
  function SelectDiff(raw: PotReading): (d: int)
    ensures 0 <= d <= DiffCount
  {
    MapPot(raw, DiffCount)
  }

  /** Turning the knob up never lowers the selected ordinal. */
  lemma MapPotMonotone(a: PotReading, b: PotReading, k: nat)
    requires k <= PotMax
    requires a <= b
    ensures MapPot(a, k) <= MapPot(b, k)
  {
  }

  /** The least reading that selects ordinal j out of k. */
  function Threshold(j: int, k: int): int
    requires 0 < k
  {
    (j * PotMax + k - 1) / k
  }

  /** Every ordinal 0..k is selectable, and Threshold(j, k) is the least
      reading that selects it: readings below it select less than j. */
  lemma ThresholdSelects(j: int, k: nat, raw: PotReading)
    requires 0 < k <= PotMax && 0 <= j <= k
    ensures 0 <= Threshold(j, k) <= PotMax
    ensures MapPot(Threshold(j, k) as PotReading, k) == j
    ensures raw < Threshold(j, k) ==> MapPot(raw, k) < j
  {
    var t := Threshold(j, k);
    ThresholdBounds(j, k);
    ExactQuotient(t * k, j);
    if raw < t {
      BelowThreshold(raw, t, j, k);
      ExactQuotientBelow(raw * k, j);
    }
  }

  /** Threshold(j, k) * k lies in j * PotMax .. j * PotMax + k - 1, and the
      threshold is itself a reading. */
  lemma ThresholdBounds(j: int, k: nat)
    requires 0 < k <= PotMax && 0 <= j <= k
    ensures 0 <= Threshold(j, k) <= PotMax
    ensures j * PotMax <= Threshold(j, k) * k < (j + 1) * PotMax
    ensures Threshold(j, k) * k < j * PotMax + k
  {
    var n := j * PotMax + k - 1;
    var t := n / k;
    assert t * k <= n < t * k + k;
    assert j * PotMax <= t * k;
    assert t * k < (j + 1) * PotMax;
    assert t * k <= PotMax * k + k - 1;
    CancelFactor(t, PotMax + 1, k);
  }

  /** a * k < b * k with k > 0 gives a < b. */
  lemma CancelFactor(a: int, b: int, k: int)
    requires k > 0 && a * k < b * k
    ensures a < b
  {
  }

  /** A reading below the threshold of j scales to less than j * PotMax. */
  lemma BelowThreshold(raw: int, t: int, j: int, k: nat)
    requires 0 <= raw < t && k > 0
    requires j * PotMax <= t * k && t * k - k < j * PotMax
    ensures raw * k < j * PotMax
  {
    assert raw * k <= (t - 1) * k;
  }

  lemma ExactQuotient(x: int, j: int)
    requires j * PotMax <= x < (j + 1) * PotMax
    ensures x / PotMax == j
  {
  }

  lemma ExactQuotientBelow(x: int, j: int)
    requires 0 <= x < j * PotMax
    ensures x / PotMax < j
  {
  }

  /** The handedness threshold agrees with map(raw, 0, 1023, 0, 2) everywhere
      but at full scale, where the map would give 2 and the threshold keeps 1. */
  lemma ModeIsClampedMap(raw: PotReading)
    ensures raw < PotMax ==> SelectMode(raw) == MapPot(raw, ModeCount)
    ensures MapPot(PotMax, ModeCount) == ModeCount && SelectMode(PotMax) == ModeCount - 1
  {
  }

  /** At full scale Train and Diff get one past their last enumerator
      (4 and 5); every other reading gives a valid enumerator. */
  lemma FullScaleOverflows(raw: PotReading)
    ensures SelectTrain(raw) == TrainCount <==> raw == PotMax
    ensures SelectDiff(raw) == DiffCount <==> raw == PotMax
  {
  }

  /** The reading ranges that select each training type. */
  lemma TrainBands()
    ensures Threshold(1, TrainCount) == 256
    ensures Threshold(2, TrainCount) == 512
    ensures Threshold(3, TrainCount) == 768
    ensures Threshold(4, TrainCount) == 1023
  {
  }
}
