/**
 * Training-time frame masking and the prefix-length curriculum
 * (opensora/utils/train_utils.py).
 *
 * A mask has one boolean per frame: true means the frame is denoised and
 * carries the loss, false means it is a clean condition frame.
 */
module TrainUtils {
  import opened Wrappers
  import opened PyRandom

  // ---------------------------------------------------------------------------
  // Mask strategies and the ratio table
  // ---------------------------------------------------------------------------

  const MaskNo := "mask_no"
  const MaskQuarterRandom := "mask_quarter_random"
  const MaskQuarterHead := "mask_quarter_head"
  const MaskQuarterTail := "mask_quarter_tail"
  const MaskQuarterHeadTail := "mask_quarter_head_tail"
  const MaskImageRandom := "mask_image_random"
  const MaskImageHead := "mask_image_head"
  const MaskImageTail := "mask_image_tail"
  const MaskImageHeadTail := "mask_image_head_tail"

  /** The names a ratio table may use. */
  const ValidMaskNames: seq<string> := [
    MaskNo,
    MaskQuarterRandom, MaskQuarterHead, MaskQuarterTail, MaskQuarterHeadTail,
    MaskImageRandom, MaskImageHead, MaskImageTail, MaskImageHeadTail
  ]

  /** A strategy name → ratio dictionary, in its insertion order. */
  type RatioTable = seq<(string, real)>

  /** Why construction or masking fails. */
  datatype MaskError =
    | InvalidMaskName        // assertion on the key set
    | NegativeMaskRatio      // assertion `mask_ratio >= 0`
    | MaskRatioAboveOne      // assertion `mask_ratio <= 1`
    | RatiosDoNotSumToOne    // assertion `math.isclose(sum, 1.0, abs_tol=1e-6)`
    | EmptyRunLengthRange    // `random.randint(1, 0)` raises ValueError
    | EmptyBatch             // `torch.stack([])` raises

  /** Sum of the first `k` ratios, accumulated left to right as `sum` and `prob_acc` do. */
  function PrefixSum(t: RatioTable, k: nat): real
    requires k <= |t|
  {
    if k == 0 then 0.0 else PrefixSum(t, k - 1) + t[k - 1].1
  }

  function RatioSum(t: RatioTable): real {
    PrefixSum(t, |t|)
  }

  function Abs(x: real): real {
    if x < 0.0 then -x else x
  }

  function Max(x: real, y: real): real {
    if x < y then y else x
  }

  const RelTol: real := 0.000000001
  const AbsTol: real := 0.000001

  /** Python's `math.isclose(a, b, rel_tol, abs_tol)`. */
  predicate IsClose(a: real, b: real, relTol: real, absTol: real) {
    Abs(a - b) <= Max(relTol * Max(Abs(a), Abs(b)), absTol)
  }

  /** `math.isclose(s, 1.0, abs_tol=1e-6)` with the default relative tolerance is |s - 1| <= 1e-6. */
  lemma IsCloseToOne(s: real)
    ensures IsClose(s, 1.0, RelTol, AbsTol) <==> Abs(s - 1.0) <= AbsTol
  {
  }

  /** Every key of the table is a known strategy name. */
  predicate KnownNames(t: RatioTable) {
    forall i :: 0 <= i < |t| ==> t[i].0 in ValidMaskNames
  }

  predicate RatiosNonNegative(t: RatioTable) {
    forall i :: 0 <= i < |t| ==> t[i].1 >= 0.0
  }

  predicate RatiosAtMostOne(t: RatioTable) {
    forall i :: 0 <= i < |t| ==> t[i].1 <= 1.0
  }

  /** A table the constructor accepts: known names, ratios in [0, 1] summing to 1 within 1e-6. */
  ghost predicate ValidMaskRatios(t: RatioTable) {
    && KnownNames(t)
    && RatiosNonNegative(t)
    && RatiosAtMostOne(t)
    && Abs(RatioSum(t) - 1.0) <= AbsTol
  }

  /**
   * The constructor's four assertions, in their order; None when all pass, otherwise
   * the first that fails.
   */
  function CheckMaskRatios(t: RatioTable): (e: Option<MaskError>)
    ensures e.None? <==> ValidMaskRatios(t)
    ensures e == Some(InvalidMaskName) <==> !KnownNames(t)
    ensures e == Some(NegativeMaskRatio) <==> KnownNames(t) && exists i :: 0 <= i < |t| && t[i].1 < 0.0
    ensures e == Some(MaskRatioAboveOne) <==>
      KnownNames(t) && RatiosNonNegative(t) && exists i :: 0 <= i < |t| && t[i].1 > 1.0
    ensures e == Some(RatiosDoNotSumToOne) <==>
      KnownNames(t) && RatiosNonNegative(t) && RatiosAtMostOne(t) && Abs(RatioSum(t) - 1.0) > AbsTol
  {
    IsCloseToOne(RatioSum(t));
    if !KnownNames(t) then Some(InvalidMaskName)
    else if !RatiosNonNegative(t) then Some(NegativeMaskRatio)
    else if !RatiosAtMostOne(t) then Some(MaskRatioAboveOne)
    else if !IsClose(RatioSum(t), 1.0, RelTol, AbsTol) then Some(RatiosDoNotSumToOne)
    else None
  }

  // ---------------------------------------------------------------------------
  // Strategy selection: the first entry whose running sum exceeds the draw
  // ---------------------------------------------------------------------------

  /** The index the scan over the first `k` entries selects, if any. */
  function SelectedIndexIn(t: RatioTable, u: real, k: nat): (r: Option<nat>)
    requires k <= |t|
    ensures r.Some? ==> r.value < k && u < PrefixSum(t, r.value + 1)
    ensures r.Some? ==> forall j :: 1 <= j <= r.value ==> PrefixSum(t, j) <= u
    ensures r.None? ==> forall j :: 1 <= j <= k ==> PrefixSum(t, j) <= u
  {
    if k == 0 then None
    else match SelectedIndexIn(t, u, k - 1)
      case Some(i) => Some(i)
      case None => if u < PrefixSum(t, k) then Some(k - 1) else None
  }

  function SelectedIndex(t: RatioTable, u: real): Option<nat> {
    SelectedIndexIn(t, u, |t|)
  }

  /** The strategy name `get_mask` settles on for draw `u` (None: no strategy). */
  function SelectedName(t: RatioTable, u: real): (name: Option<string>)
    ensures name.Some? <==> SelectedIndex(t, u).Some?
  {
    match SelectedIndex(t, u)
    case Some(i) => Some(t[i].0)
    case None => None
  }

  /** The selected index is the unique first index whose running sum exceeds the draw. */
  lemma SelectedIndexUnique(t: RatioTable, u: real, k: nat, i: nat)
    requires i < k <= |t|
    requires u < PrefixSum(t, i + 1)
    requires forall j :: 1 <= j <= i ==> PrefixSum(t, j) <= u
    ensures SelectedIndexIn(t, u, k) == Some(i)
  {
  }

  /** With non-negative ratios the running sums never decrease. */
  lemma {:induction false} PrefixSumMonotone(t: RatioTable, i: nat, j: nat)
    requires i <= j <= |t|
    requires forall k :: 0 <= k < |t| ==> t[k].1 >= 0.0
    ensures PrefixSum(t, i) <= PrefixSum(t, j)
  {
    if i < j {
      PrefixSumMonotone(t, i, j - 1);
    }
  }

  /**
   * With non-negative ratios, entry `i` is selected exactly for the draws in
   * [PrefixSum(i), PrefixSum(i + 1)), an interval as wide as its ratio: a uniform
   * draw selects each strategy with the probability of its ratio.
   */
  lemma SelectionInterval(t: RatioTable, u: real, i: nat)
    requires i < |t| && IsUnitDraw(u)
    requires forall k :: 0 <= k < |t| ==> t[k].1 >= 0.0
    ensures SelectedIndex(t, u) == Some(i) <==> PrefixSum(t, i) <= u < PrefixSum(t, i + 1)
    ensures PrefixSum(t, i + 1) - PrefixSum(t, i) == t[i].1
  {
    if PrefixSum(t, i) <= u < PrefixSum(t, i + 1) {
      forall j | 1 <= j <= i ensures PrefixSum(t, j) <= u {
        PrefixSumMonotone(t, j, i);
      }
      SelectedIndexUnique(t, u, |t|, i);
    }
    if SelectedIndex(t, u) == Some(i) && i > 0 {
      assert PrefixSum(t, i) <= u;
    }
  }

  /**
   * With non-negative ratios no strategy is selected exactly when the draw is at
   * least the total: a table summing to slightly less than 1 leaves such draws unmasked.
   */
  lemma NoSelectionIffDrawAtLeastSum(t: RatioTable, u: real)
    requires IsUnitDraw(u)
    requires forall k :: 0 <= k < |t| ==> t[k].1 >= 0.0
    ensures SelectedIndex(t, u).None? <==> RatioSum(t) <= u
  {
    if RatioSum(t) <= u {
      forall j | 1 <= j <= |t| ensures PrefixSum(t, j) <= u {
        PrefixSumMonotone(t, j, |t|);
      }
    }
    if SelectedIndex(t, u).None? && |t| > 0 {
      assert PrefixSum(t, |t|) <= u;
    }
  }

  // ---------------------------------------------------------------------------
  // Declarative specification of one mask
  // ---------------------------------------------------------------------------

  /** Where a strategy puts its run of condition frames. */
  datatype Placement = Head | Tail | HeadTail | Anywhere

  function PlacementOf(name: Option<string>): Option<Placement> {
    if name == Some(MaskQuarterHead) || name == Some(MaskImageHead) then Some(Head)
    else if name == Some(MaskQuarterTail) || name == Some(MaskImageTail) then Some(Tail)
    else if name == Some(MaskQuarterHeadTail) || name == Some(MaskImageHeadTail) then Some(HeadTail)
    else if name == Some(MaskQuarterRandom) || name == Some(MaskImageRandom) then Some(Anywhere)
    else None
  }

  /** The "quarter" family draws its run length; the "image" family uses 1. */
  predicate IsQuarter(name: Option<string>) {
    name == Some(MaskQuarterRandom) || name == Some(MaskQuarterHead)
    || name == Some(MaskQuarterTail) || name == Some(MaskQuarterHeadTail)
  }

  /** Run length: `randint(1, n // 4)` for the quarter family, 1 otherwise. */
  function RunLength(name: Option<string>, n: nat, sizeDraw: real): (k: Option<int>)
    requires IsUnitDraw(sizeDraw)
    ensures k.None? <==> IsQuarter(name) && n / 4 == 0
    ensures k.Some? && IsQuarter(name) ==> 1 <= k.value <= n / 4
    ensures k.Some? && !IsQuarter(name) ==> k.value == 1
  {
    if IsQuarter(name) then RandInt(1, n / 4, sizeDraw) else Some(1)
  }

  /** Start of a randomly placed run: `randint(0, n - k)`. */
  function RunStart(n: nat, k: nat, posDraw: real): (pos: nat)
    requires k <= n && IsUnitDraw(posDraw)
    ensures pos + k <= n
  {
    RandInt(0, n - k, posDraw).value
  }

  /** Whether position `i` of an `n`-frame mask is a condition frame. */
  predicate Cleared(p: Option<Placement>, n: int, k: int, pos: int, i: int) {
    match p
    case Some(Head) => i < k
    case Some(Tail) => n - k <= i
    case Some(HeadTail) => i < k || n - k <= i
    case Some(Anywhere) => pos <= i < pos + k
    case None => false
  }

  /** The mask `get_mask` returns for strategy `name` over `n` frames, given its draws. */
  function ExpectedMask(name: Option<string>, n: nat, sizeDraw: real, posDraw: real): (r: Result<seq<bool>, MaskError>)
    requires IsUnitDraw(sizeDraw) && IsUnitDraw(posDraw)
    ensures r.Failure? <==> n > 1 && IsQuarter(name) && n / 4 == 0
    ensures r.Failure? ==> r.error == EmptyRunLengthRange
    ensures r.Success? ==> |r.value| == n
    ensures n <= 1 ==> r.Success? && forall i :: 0 <= i < n ==> r.value[i]
  {
    if n <= 1 then Success(seq(n, _ => true))
    else match RunLength(name, n, sizeDraw)
      case None => Failure(EmptyRunLengthRange)
      case Some(k) =>
        var pos := RunStart(n, k, posDraw);
        Success(seq(n, i => !Cleared(PlacementOf(name), n, k, pos, i)))
  }

  /** Number of condition frames in a mask. */
  function CountFalse(s: seq<bool>): nat {
    if s == [] then 0 else CountFalse(s[..|s| - 1]) + (if s[|s| - 1] then 0 else 1)
  }

  /** A mask that is false exactly on [a, b) and on [c, d) has (b - a) + (d - c) condition frames. */
  lemma {:induction false} CountTwoRuns(s: seq<bool>, a: int, b: int, c: int, d: int)
    requires 0 <= a <= b <= c <= d <= |s|
    requires forall i :: 0 <= i < |s| ==> s[i] == !(a <= i < b || c <= i < d)
    ensures CountFalse(s) == (b - a) + (d - c)
  {
    if |s| > 0 {
      var n := |s| - 1;
      var s' := s[..n];
      if d == |s| && c < d {
        CountTwoRuns(s', a, b, c, n);
      } else if d == |s| && b == |s| {
        if a < b {
          CountTwoRuns(s', a, n, n, n);
        } else {
          CountTwoRuns(s', n, n, n, n);
        }
      } else if d == |s| {
        CountTwoRuns(s', a, b, n, n);
      } else {
        CountTwoRuns(s', a, b, c, d);
      }
    }
  }

  /**
   * Head and tail clear exactly `k` frames, head-and-tail exactly `2k` (the two runs
   * are disjoint), a random run `k` frames inside the mask, and the others none, where
   * `k` is the run length the strategy draws.
   */
  lemma MaskConditionFrames(name: Option<string>, n: nat, sizeDraw: real, posDraw: real)
    requires IsUnitDraw(sizeDraw) && IsUnitDraw(posDraw)
    requires n > 1 && ExpectedMask(name, n, sizeDraw, posDraw).Success?
    ensures var k := RunLength(name, n, sizeDraw).value;
            var mask := ExpectedMask(name, n, sizeDraw, posDraw).value;
            CountFalse(mask) == match PlacementOf(name)
              case Some(HeadTail) => 2 * k
              case Some(_) => k
              case None => 0
  {
    var k := RunLength(name, n, sizeDraw).value;
    var pos := RunStart(n, k, posDraw);
    var mask := ExpectedMask(name, n, sizeDraw, posDraw).value;
    assert k <= n - k;
    match PlacementOf(name)
    case Some(Head) => CountTwoRuns(mask, 0, k, n, n);
    case Some(Tail) => CountTwoRuns(mask, n - k, n, n, n);
    case Some(HeadTail) => CountTwoRuns(mask, 0, k, n - k, n);
    case Some(Anywhere) => CountTwoRuns(mask, pos, pos + k, n, n);
    case None => CountTwoRuns(mask, 0, 0, 0, 0);
  }

  /** A mask that clears what `Cleared` says, with the drawn run, is the expected one. */
  lemma ExpectedMaskOf(name: Option<string>, n: nat, sizeDraw: real, posDraw: real, k: int, pos: int, mask: seq<bool>)
    requires IsUnitDraw(sizeDraw) && IsUnitDraw(posDraw) && n > 1
    requires RunLength(name, n, sizeDraw) == Some(k)
    requires PlacementOf(name) == Some(Anywhere) ==> 0 <= k <= n && pos == RunStart(n, k, posDraw)
    requires |mask| == n
    requires forall i :: 0 <= i < n ==> mask[i] == !Cleared(PlacementOf(name), n, k, pos, i)
    ensures ExpectedMask(name, n, sizeDraw, posDraw) == Success(mask)
  {
    var expected := ExpectedMask(name, n, sizeDraw, posDraw).value;
    forall i | 0 <= i < n ensures expected[i] == mask[i] {
    }
    assert expected == mask;
  }

  /** Strategy draw, run-length draw and position draw of one `get_mask` call. */
  datatype MaskDraws = MaskDraws(strategy: real, size: real, pos: real) {
    predicate Valid() {
      IsUnitDraw(strategy) && IsUnitDraw(size) && IsUnitDraw(pos)
    }
  }

  // ---------------------------------------------------------------------------
  // MaskGenerator
  // ---------------------------------------------------------------------------

  /** Sets `mask[lo:hi] = 0`. */
  method ClearRange(mask: array<bool>, lo: nat, hi: nat)
    requires lo <= hi <= mask.Length
    modifies mask
    ensures forall i :: 0 <= i < mask.Length ==> mask[i] == (old(mask[i]) && !(lo <= i < hi))
  {
    forall i | lo <= i < hi {
      mask[i] := false;
    }
  }

  class MaskGenerator {
    const maskRatios: RatioTable

    /** The table passed the constructor's assertions. */
    ghost predicate Valid() {
      ValidMaskRatios(maskRatios)
    }

    constructor (maskRatios: RatioTable)
      requires ValidMaskRatios(maskRatios)
      ensures this.maskRatios == maskRatios && Valid()
    {
      this.maskRatios := maskRatios;
    }

    /** The running-sum scan over the table. */
    method SelectMaskName(u: real) returns (maskName: Option<string>)
      ensures maskName == SelectedName(maskRatios, u)
    {
      maskName := None;
      var probAcc := 0.0;
      var i := 0;
      while i < |maskRatios|
        invariant 0 <= i <= |maskRatios|
        invariant probAcc == PrefixSum(maskRatios, i)
        invariant SelectedIndexIn(maskRatios, u, i).None?
      {
        probAcc := probAcc + maskRatios[i].1;
        if u < probAcc {
          SelectedIndexUnique(maskRatios, u, |maskRatios|, i);
          maskName := Some(maskRatios[i].0);
          return;
        }
        i := i + 1;
      }
    }

    /** `get_mask`: one mask over `numFrames` frames (`x.shape[2]`). */
    method GetMask(numFrames: nat, draws: MaskDraws) returns (r: Result<seq<bool>, MaskError>)
      requires draws.Valid()
      ensures r == ExpectedMask(SelectedName(maskRatios, draws.strategy), numFrames, draws.size, draws.pos)
    {
      var maskName := SelectMaskName(draws.strategy);
      var n := numFrames;
      var conditionFramesMax := n / 4;
      var mask := new bool[n](_ => true);
      if n <= 1 {
        assert mask[..] == seq(n, _ => true);
        return Success(mask[..]);
      }
      if maskName == Some(MaskQuarterRandom) {
        var size := RandInt(1, conditionFramesMax, draws.size);
        if size.None? {
          return Failure(EmptyRunLengthRange);
        }
        var randomPos := RandInt(0, n - size.value, draws.pos).value;
        ClearRange(mask, randomPos, randomPos + size.value);
        ExpectedMaskOf(maskName, n, draws.size, draws.pos, size.value, randomPos, mask[..]);
      } else if maskName == Some(MaskImageRandom) {
        var randomSize := 1;
        var randomPos := RandInt(0, n - randomSize, draws.pos).value;
        ClearRange(mask, randomPos, randomPos + randomSize);
        ExpectedMaskOf(maskName, n, draws.size, draws.pos, randomSize, randomPos, mask[..]);
      } else if maskName == Some(MaskQuarterHead) {
        var size := RandInt(1, conditionFramesMax, draws.size);
        if size.None? {
          return Failure(EmptyRunLengthRange);
        }
        ClearRange(mask, 0, size.value);
        ExpectedMaskOf(maskName, n, draws.size, draws.pos, size.value, 0, mask[..]);
      } else if maskName == Some(MaskImageHead) {
        ClearRange(mask, 0, 1);
        ExpectedMaskOf(maskName, n, draws.size, draws.pos, 1, 0, mask[..]);
      } else if maskName == Some(MaskQuarterTail) {
        var size := RandInt(1, conditionFramesMax, draws.size);
        if size.None? {
          return Failure(EmptyRunLengthRange);
        }
        ClearRange(mask, n - size.value, n);
        ExpectedMaskOf(maskName, n, draws.size, draws.pos, size.value, 0, mask[..]);
      } else if maskName == Some(MaskImageTail) {
        ClearRange(mask, n - 1, n);
        ExpectedMaskOf(maskName, n, draws.size, draws.pos, 1, 0, mask[..]);
      } else if maskName == Some(MaskQuarterHeadTail) {
        var size := RandInt(1, conditionFramesMax, draws.size);
        if size.None? {
          return Failure(EmptyRunLengthRange);
        }
        ClearRange(mask, 0, size.value);
        ClearRange(mask, n - size.value, n);
        ExpectedMaskOf(maskName, n, draws.size, draws.pos, size.value, 0, mask[..]);
      } else if maskName == Some(MaskImageHeadTail) {
        ClearRange(mask, 0, 1);
        ClearRange(mask, n - 1, n);
        ExpectedMaskOf(maskName, n, draws.size, draws.pos, 1, 0, mask[..]);
      } else {
        ExpectedMaskOf(maskName, n, draws.size, draws.pos, 1, 0, mask[..]);
      }
      r := Success(mask[..]);
    }

    /** `get_masks`: one mask per batch element, each drawn afresh; stacking none raises. */
    method GetMasks(batch: nat, numFrames: nat, draws: seq<MaskDraws>) returns (r: Result<seq<seq<bool>>, MaskError>)
      requires |draws| == batch
      requires forall b :: 0 <= b < batch ==> IsUnitDraw(draws[b].strategy) && IsUnitDraw(draws[b].size) && IsUnitDraw(draws[b].pos)
      ensures r.Success? <==>
        batch > 0 && forall b :: 0 <= b < batch ==> ExpectedMask(SelectedName(maskRatios, draws[b].strategy), numFrames, draws[b].size, draws[b].pos).Success?
      ensures r.Success? ==> |r.value| == batch
      ensures r.Success? ==> forall b :: 0 <= b < batch ==>
        r.value[b] == ExpectedMask(SelectedName(maskRatios, draws[b].strategy), numFrames, draws[b].size, draws[b].pos).value
      ensures r.Failure? ==> r.error == (if batch == 0 then EmptyBatch else EmptyRunLengthRange)
    {
      var masks: seq<seq<bool>> := [];
      var b := 0;
      while b < batch
        invariant 0 <= b <= batch
        invariant |masks| == b
        invariant forall j :: 0 <= j < b ==>
          ExpectedMask(SelectedName(maskRatios, draws[j].strategy), numFrames, draws[j].size, draws[j].pos) == Success(masks[j])
      {
        var mask := GetMask(numFrames, draws[b]);
        if mask.Failure? {
          return Failure(mask.error);
        }
        masks := masks + [mask.value];
        b := b + 1;
      }
      if batch == 0 {
        return Failure(EmptyBatch);
      }
      r := Success(masks);
    }
  }

  /** `MaskGenerator(mask_ratios)`: the constructor raises on an invalid table. */
  method NewMaskGenerator(maskRatios: RatioTable) returns (r: Result<MaskGenerator, MaskError>)
    ensures r.Failure? <==> !ValidMaskRatios(maskRatios)
    ensures r.Failure? ==> Some(r.error) == CheckMaskRatios(maskRatios)
    ensures r.Success? ==> fresh(r.value) && r.value.maskRatios == maskRatios && r.value.Valid()
  {
    var e := CheckMaskRatios(maskRatios);
    if e.Some? {
      return Failure(e.value);
    }
    var g := new MaskGenerator(maskRatios);
    r := Success(g);
  }

  // ---------------------------------------------------------------------------
  // Prefix-length curriculum
  // ---------------------------------------------------------------------------

  /** `_get_prefix_len_choices` stops: the sequence grows, or is empty from the start. */
  predicate ChoicesTerminate(arSize: int, maxLength: int, nGivenFrames: int) {
    arSize > 0 || nGivenFrames >= maxLength
  }

  /** The values nGivenFrames, nGivenFrames + arSize, … that are below maxLength. */
  function PrefixLenChoices(arSize: int, maxLength: int, nGivenFrames: int): (r: seq<int>)
    requires ChoicesTerminate(arSize, maxLength, nGivenFrames)
    ensures forall i :: 0 <= i < |r| ==> r[i] == nGivenFrames + i * arSize && r[i] < maxLength
    ensures nGivenFrames + |r| * arSize >= maxLength
    decreases if nGivenFrames < maxLength then maxLength - nGivenFrames else 0
  {
    if nGivenFrames >= maxLength then []
    else [nGivenFrames] + PrefixLenChoices(arSize, maxLength, nGivenFrames + arSize)
  }

  /** The loop of `_get_prefix_len_choices`. */
  method GetPrefixLenChoices(arSize: int, maxLength: int, nGivenFrames: int) returns (prefixLenChoices: seq<int>)
    requires ChoicesTerminate(arSize, maxLength, nGivenFrames)
    ensures prefixLenChoices == PrefixLenChoices(arSize, maxLength, nGivenFrames)
  {
    prefixLenChoices := [];
    var accumulateFrames := nGivenFrames;
    while accumulateFrames < maxLength
      invariant ChoicesTerminate(arSize, maxLength, accumulateFrames)
      invariant prefixLenChoices + PrefixLenChoices(arSize, maxLength, accumulateFrames)
        == PrefixLenChoices(arSize, maxLength, nGivenFrames)
      decreases maxLength - accumulateFrames
    {
      prefixLenChoices := prefixLenChoices + [accumulateFrames];
      accumulateFrames := accumulateFrames + arSize;
    }
  }

  /**
   * A value is a choice exactly when it is nGivenFrames + i * arSize for some i >= 0
   * and is below maxLength; it then sits at position i.
   */
  lemma ChoiceMembership(arSize: int, maxLength: int, nGivenFrames: int, i: nat)
    requires arSize > 0
    ensures var r := PrefixLenChoices(arSize, maxLength, nGivenFrames);
            nGivenFrames + i * arSize < maxLength <==> i < |r| && r[i] == nGivenFrames + i * arSize
  {
  }

  /** The choices are strictly increasing. */
  lemma ChoicesIncreasing(arSize: int, maxLength: int, nGivenFrames: int, i: nat, j: nat)
    requires arSize > 0
    requires i < j < |PrefixLenChoices(arSize, maxLength, nGivenFrames)|
    ensures PrefixLenChoices(arSize, maxLength, nGivenFrames)[i] < PrefixLenChoices(arSize, maxLength, nGivenFrames)[j]
  {
  }

  /**
   * There are no choices exactly when nGivenFrames >= maxLength; otherwise the
   * shortest denoised part, maxLength minus the last choice, lies in [1, arSize].
   */
  lemma MinDenoiseLen(arSize: int, maxLength: int, nGivenFrames: int)
    requires arSize > 0
    ensures var r := PrefixLenChoices(arSize, maxLength, nGivenFrames);
            (r == [] <==> nGivenFrames >= maxLength)
            && (r != [] ==> 1 <= maxLength - r[|r| - 1] <= arSize)
  {
  }

  datatype SamplerError =
    | NotImplemented   // a sampling strategy is set: `NotImplementedError("TODO")`
    | EmptyChoices     // `pL_choices[-1]` / `random.choice([])` raise IndexError

  /** `PrefixLenSampler`: a uniform prefix length, with the choice lists memoised per max_len. */
  class PrefixLenSampler {
    const arSize: int
    const nGivenFrames: int
    const samplingStrategy: Option<string>
    var prefixLenChoices: map<int, seq<int>>

    /** Every memoised list is the choice list of its key. */
    ghost predicate Valid()
      reads this
    {
      forall m :: m in prefixLenChoices ==>
        ChoicesTerminate(arSize, m, nGivenFrames) && prefixLenChoices[m] == PrefixLenChoices(arSize, m, nGivenFrames)
    }

    constructor (arSize: int, nGivenFrames: int, samplingStrategy: Option<string>)
      ensures Valid()
      ensures this.arSize == arSize && this.nGivenFrames == nGivenFrames
      ensures this.samplingStrategy == samplingStrategy && prefixLenChoices == map[]
    {
      this.arSize := arSize;
      this.nGivenFrames := nGivenFrames;
      this.samplingStrategy := samplingStrategy;
      prefixLenChoices := map[];
    }

    /** `random_choose(max_len)`, with `draw` the value behind `random.choice`. */
    method RandomChoose(maxLen: int, draw: real) returns (r: Result<int, SamplerError>)
      requires Valid() && IsUnitDraw(draw)
      requires samplingStrategy.Some? || ChoicesTerminate(arSize, maxLen, nGivenFrames)
      modifies this
      ensures Valid()
      ensures samplingStrategy.Some? ==> r == Failure(NotImplemented) && prefixLenChoices == old(prefixLenChoices)
      ensures samplingStrategy.None? ==>
        prefixLenChoices == old(prefixLenChoices)[maxLen := PrefixLenChoices(arSize, maxLen, nGivenFrames)]
      ensures samplingStrategy.None? && maxLen in old(prefixLenChoices) ==> prefixLenChoices == old(prefixLenChoices)
      ensures samplingStrategy.None? ==>
        r == match Choice(PrefixLenChoices(arSize, maxLen, nGivenFrames), draw)
             case None => Failure(EmptyChoices)
             case Some(pL) => Success(pL)
      ensures r.Success? ==> r.value in PrefixLenChoices(arSize, maxLen, nGivenFrames)
    {
      if samplingStrategy.Some? {
        return Failure(NotImplemented);
      }
      var pLChoices: seq<int>;
      if maxLen in prefixLenChoices {
        pLChoices := prefixLenChoices[maxLen];
      } else {
        pLChoices := GetPrefixLenChoices(arSize, maxLen, nGivenFrames);
        prefixLenChoices := prefixLenChoices[maxLen := pLChoices];
        if pLChoices == [] {
          return Failure(EmptyChoices);
        }
      }
      var pL := Choice(pLChoices, draw);
      if pL.None? {
        return Failure(EmptyChoices);
      }
      r := Success(pL.value);
    }
  }
}
