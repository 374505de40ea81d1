/**
 * The sample generator of the loader interface: the validator guarding each
 * image/label pair, the expansion of a validated pair into sample records,
 * and the generator loop over the index stream.
 */
module Samples {
  import opened Wrappers
  import opened Arrays

  /** The four arrays of one sample, named as in the validator's messages. */
  datatype ArrayName = MovingImage | FixedImage | MovingLabel | FixedLabel

  /** The ValueErrors raised while validating one sample. */
  datatype ValidationError =
    | ImageMissing                          // an image is None
    | LabelPresenceMismatch                 // exactly one label is None
    | ZeroSizeArray(name: ArrayName)        // np.min of an empty array raises
    | ValueOutOfRange(name: ArrayName)      // a value below 0 or above 1
    | ImageNotThreeD(name: ArrayName)       // an image is not 3-D
    | LabelNotThreeOrFourD(name: ArrayName) // a label is neither 3-D nor 4-D
    | LabelCountMismatch(moving: nat, fixed: nat)

  /** The value check of one array passes: it is absent, or non-empty with every value in [0, 1]. */
  predicate ValuesPass(arr: Option<NdArray>)
  {
    arr.None? || (|arr.value.values| > 0 && InUnitRange(arr.value))
  }

  /** The error raised for a present array whose value check fails. */
  function RangeError(name: ArrayName, a: NdArray): ValidationError
  {
    if |a.values| == 0 then ZeroSizeArray(name) else ValueOutOfRange(name)
  }

  /** Array `i` is the first whose value check fails, with error `e`. */
  predicate FirstFailureAt(arrays: seq<(ArrayName, Option<NdArray>)>, i: int, e: ValidationError)
  {
    && 0 <= i < |arrays| && arrays[i].1.Some? && !ValuesPass(arrays[i].1)
    && e == RangeError(arrays[i].0, arrays[i].1.value)
    && forall j :: 0 <= j < i ==> ValuesPass(arrays[j].1)
  }

  /** A first failure in the tail, behind a passing head, is the first failure of the whole list. */
  lemma FirstFailureShift(arrays: seq<(ArrayName, Option<NdArray>)>, i: int, e: ValidationError)
    requires |arrays| > 0 && ValuesPass(arrays[0].1) && FirstFailureAt(arrays[1..], i, e)
    ensures FirstFailureAt(arrays, i + 1, e)
  {
    assert arrays[i + 1] == arrays[1..][i];
    forall j | 0 <= j < i + 1 ensures ValuesPass(arrays[j].1) {
      if j > 0 { assert arrays[j] == arrays[1..][j - 1]; }
    }
  }

  /** The loop over the four arrays that skips absent ones and tests `min < 0 or max > 1`. */
  function CheckValueRanges(arrays: seq<(ArrayName, Option<NdArray>)>): (r: Outcome<ValidationError>)
    ensures r.Pass? <==> forall i :: 0 <= i < |arrays| ==> ValuesPass(arrays[i].1)
    ensures r.Fail? ==> exists i :: FirstFailureAt(arrays, i, r.error)
  {
    if arrays == [] then Pass
    else
      var (name, arr) := arrays[0];
      if arr.Some? && |arr.value.values| == 0 then
        assert FirstFailureAt(arrays, 0, ZeroSizeArray(name));
        Fail(ZeroSizeArray(name))
      else if arr.Some? && (SeqMin(arr.value.values) < 0.0 || SeqMax(arr.value.values) > 1.0) then
        MinMaxOutOfRange(arr.value);
        assert FirstFailureAt(arrays, 0, ValueOutOfRange(name));
        Fail(ValueOutOfRange(name))
      else
        assert arr.Some? ==> (MinMaxOutOfRange(arr.value); ValuesPass(arr));
        var rest := CheckValueRanges(arrays[1..]);
        assert forall i :: 1 <= i < |arrays| ==> arrays[i] == arrays[1..][i - 1];
        if rest.Fail? then
          var i :| FirstFailureAt(arrays[1..], i, rest.error);
          FirstFailureShift(arrays, i, rest.error);
          rest
        else
          rest
  }

  /** A label has rank 3 or 4. */
  predicate LabelRank(a: NdArray)
  {
    |a.shape| == 3 || |a.shape| == 4
  }

  /** The number of label channels: 1 for a 3-D label, the size of the last axis of a 4-D one. */
  function NumLabels(a: NdArray): nat
    requires LabelRank(a)
  {
    if |a.shape| == 3 then 1 else LastDim(a.shape)
  }

  /** Declarative statement of what the validator accepts. */
  predicate Accepted(mi: Option<NdArray>, fi: Option<NdArray>, ml: Option<NdArray>, fl: Option<NdArray>)
  {
    && mi.Some? && fi.Some?
    && ml.Some? == fl.Some?
    && ValuesPass(mi) && ValuesPass(fi) && ValuesPass(ml) && ValuesPass(fl)
    && |mi.value.shape| == 3 && |fi.value.shape| == 3
    && (ml.Some? ==> LabelRank(ml.value) && LabelRank(fl.value) && NumLabels(ml.value) == NumLabels(fl.value))
  }

  /**
   * `validate_images_and_labels`: accepts exactly the samples described by
   * `Accepted`, and raises the error of the first check that fails.
   */
  function Validate(mi: Option<NdArray>, fi: Option<NdArray>, ml: Option<NdArray>, fl: Option<NdArray>): (r: Outcome<ValidationError>)
    ensures r.Pass? <==> Accepted(mi, fi, ml, fl)
    ensures mi.None? || fi.None? ==> r == Fail(ImageMissing)
    ensures mi.Some? && fi.Some? && ml.Some? != fl.Some? ==> r == Fail(LabelPresenceMismatch)
    ensures mi.Some? && fi.Some? && ml.Some? == fl.Some? && !(ValuesPass(mi) && ValuesPass(fi) && ValuesPass(ml) && ValuesPass(fl))
      ==> r.Fail? && (r.error.ZeroSizeArray? || r.error.ValueOutOfRange?)
    ensures r.Fail? && r.error.LabelCountMismatch? ==>
      ml.Some? && fl.Some? && LabelRank(ml.value) && LabelRank(fl.value)
      && r.error == LabelCountMismatch(NumLabels(ml.value), NumLabels(fl.value))
      && NumLabels(ml.value) != NumLabels(fl.value)
  {
    if mi.None? || fi.None? then Fail(ImageMissing)
    else if ml.None? != fl.None? then Fail(LabelPresenceMismatch)
    else
      var arrays := [(MovingImage, mi), (FixedImage, fi), (MovingLabel, ml), (FixedLabel, fl)];
      var ranges := CheckValueRanges(arrays);
      if ranges.Fail? then ranges
      else
        assert ValuesPass(arrays[0].1) && ValuesPass(arrays[1].1) && ValuesPass(arrays[2].1) && ValuesPass(arrays[3].1);
        if |mi.value.shape| != 3 then Fail(ImageNotThreeD(MovingImage))
        else if |fi.value.shape| != 3 then Fail(ImageNotThreeD(FixedImage))
        else if ml.None? then Pass
        else if !LabelRank(ml.value) then Fail(LabelNotThreeOrFourD(MovingLabel))
        else if !LabelRank(fl.value) then Fail(LabelNotThreeOrFourD(FixedLabel))
        else if NumLabels(ml.value) != NumLabels(fl.value) then
          Fail(LabelCountMismatch(NumLabels(ml.value), NumLabels(fl.value)))
        else Pass
  }

  /**
   * Only the presence, rank, channel count and values of the labels matter to
   * the validator: a label whose spatial extent differs from its image's is
   * accepted or rejected exactly as one that matches (the source only logs it).
   */
  lemma ValidateIgnoresLabelExtent(mi: Option<NdArray>, fi: Option<NdArray>,
                                   ml: Option<NdArray>, fl: Option<NdArray>,
                                   ml': Option<NdArray>, fl': Option<NdArray>)
    requires SameLabelData(ml, ml') && SameLabelData(fl, fl')
    ensures Validate(mi, fi, ml, fl) == Validate(mi, fi, ml', fl')
  {
    var arrays := [(MovingImage, mi), (FixedImage, fi), (MovingLabel, ml), (FixedLabel, fl)];
    var arrays' := [(MovingImage, mi), (FixedImage, fi), (MovingLabel, ml'), (FixedLabel, fl')];
    CheckValueRangesSeesOnlyValues(arrays, arrays');
    assert CheckValueRanges(arrays) == CheckValueRanges(arrays');
    assert ml.Some? ==> LabelRank(ml.value) == LabelRank(ml'.value);
    assert fl.Some? ==> LabelRank(fl.value) == LabelRank(fl'.value);
    assert ml.Some? && LabelRank(ml.value) ==> NumLabels(ml.value) == NumLabels(ml'.value);
    assert fl.Some? && LabelRank(fl.value) ==> NumLabels(fl.value) == NumLabels(fl'.value);
  }

  /** The value check reads only the names, presence and elements of the arrays. */
  lemma {:induction false} CheckValueRangesSeesOnlyValues(arrays: seq<(ArrayName, Option<NdArray>)>,
                                                         arrays': seq<(ArrayName, Option<NdArray>)>)
    requires |arrays| == |arrays'|
    requires forall i :: 0 <= i < |arrays| ==>
      arrays[i].0 == arrays'[i].0 && arrays[i].1.Some? == arrays'[i].1.Some? &&
      (arrays[i].1.Some? ==> arrays[i].1.value.values == arrays'[i].1.value.values)
    ensures CheckValueRanges(arrays) == CheckValueRanges(arrays')
  {
    if arrays != [] {
      CheckValueRangesSeesOnlyValues(arrays[1..], arrays'[1..]);
    }
  }

  /** Two optional labels agree in presence, rank, values and, for 4-D labels, channel count. */
  predicate SameLabelData(a: Option<NdArray>, b: Option<NdArray>)
  {
    a.Some? == b.Some? &&
    (a.Some? ==>
      && |a.value.shape| == |b.value.shape|
      && a.value.values == b.value.values
      && (|a.value.shape| == 4 ==> LastDim(a.value.shape) == LastDim(b.value.shape)))
  }

  /** One sample record yielded by the generator; an unlabeled record has no label keys. */
  datatype Record = Record(
    movingImage: NdArray,
    fixedImage: NdArray,
    movingLabel: Option<NdArray>,
    fixedLabel: Option<NdArray>,
    indices: seq<int>)

  /**
   * The contract of the label-index chooser `get_label_indices(n, policy)`:
   * every index it returns addresses one of the `n` channels.
   */
  ghost predicate PicksInRange(pick: nat -> seq<nat>)
  {
    forall n: nat, j :: 0 <= j < |pick(n)| ==> pick(n)[j] < n
  }

  /**
   * The chooser's answers along an index stream: `picks(p)` is the choice
   * made for the sample at stream position `p`, each within range.
   */
  ghost predicate AllPicksInRange(picks: nat -> nat -> seq<nat>)
  {
    forall p: nat :: PicksInRange(picks(p))
  }

  /** The "all" policy of the chooser: every channel, in ascending order. */
  function AllChannels(n: nat): (ks: seq<nat>)
    ensures |ks| == n && forall j :: 0 <= j < n ==> ks[j] == j
  {
    seq(n, j => j)
  }

  /** The label indices a validated labeled sample expands into. */
  function LabelChoice(ml: NdArray, pick: nat -> seq<nat>): seq<nat>
  {
    if |ml.shape| == 4 then pick(ml.shape[3]) else [0]
  }

  /**
   * `sample_image_label` exactly as written: validate, then yield one record
   * with label index -1 (unlabeled), one record per chosen channel with both
   * labels sliced at that channel (4-D moving label), or one record with the
   * labels untouched and label index 0 (otherwise).
   */
  function SampleImageLabelAsWritten(mi: Option<NdArray>, fi: Option<NdArray>,
                                     ml: Option<NdArray>, fl: Option<NdArray>,
                                     imageIndices: seq<int>, pick: nat -> seq<nat>): (r: Result<seq<Record>, ValidationError>)
    requires PicksInRange(pick)
    ensures r.Err? <==> Validate(mi, fi, ml, fl).Fail?
    ensures r.Err? ==> r.error == Validate(mi, fi, ml, fl).error
    ensures r.Ok? && ml.None? ==> r.value == [Record(mi.value, fi.value, None, None, imageIndices + [-1])]
    ensures r.Ok? && ml.Some? ==>
      var ks := LabelChoice(ml.value, pick);
      |r.value| == |ks| &&
      forall j :: 0 <= j < |ks| ==>
        r.value[j].movingImage == mi.value && r.value[j].fixedImage == fi.value &&
        r.value[j].indices == imageIndices + [ks[j]] &&
        r.value[j].movingLabel.Some? && r.value[j].fixedLabel.Some?
  {
    var v := Validate(mi, fi, ml, fl);
    if v.Fail? then Err(v.error)
    else if ml.None? then Ok([Record(mi.value, fi.value, None, None, imageIndices + [-1])])
    else if |ml.value.shape| == 4 then
      var ks := pick(ml.value.shape[3]);
      ProductPositive(fl.value.shape);
      var m, f := ml.value, fl.value;
      Ok(seq(|ks|, j requires 0 <= j < |ks| =>
        Record(mi.value, fi.value, Some(LastAxis(m, ks[j])), Some(LastAxis(f, ks[j])), imageIndices + [ks[j]])))
    else Ok([Record(mi.value, fi.value, ml, fl, imageIndices + [0])])
  }

  /**
   * The record invariant every consumer of the generator relies on: 3-D
   * images with values in [0, 1], labels both present or both absent and
   * then 3-D with values in [0, 1], and an index vector of the given length
   * whose last entry is -1 exactly for unlabeled records.
   */
  predicate WellFormedRecord(rec: Record, n: nat)
  {
    && |rec.movingImage.shape| == 3 && |rec.fixedImage.shape| == 3
    && InUnitRange(rec.movingImage) && InUnitRange(rec.fixedImage)
    && rec.movingLabel.Some? == rec.fixedLabel.Some?
    && (rec.movingLabel.Some? ==>
         && |rec.movingLabel.value.shape| == 3 && |rec.fixedLabel.value.shape| == 3
         && InUnitRange(rec.movingLabel.value) && InUnitRange(rec.fixedLabel.value))
    && |rec.indices| == n && n > 0
    && (rec.movingLabel.None? <==> rec.indices[n - 1] == -1)
  }

  /** Every record of a sequence satisfies the record invariant. */
  predicate AllWellFormed(records: seq<Record>, n: nat)
  {
    forall j :: 0 <= j < |records| ==> WellFormedRecord(records[j], n)
  }

  lemma AllWellFormedAppend(a: seq<Record>, b: seq<Record>, n: nat)
    requires AllWellFormed(a, n) && AllWellFormed(b, n)
    ensures AllWellFormed(a + b, n)
  {
    forall j | 0 <= j < |a + b| ensures WellFormedRecord((a + b)[j], n) {
      if j < |a| { assert (a + b)[j] == a[j]; } else { assert (a + b)[j] == b[j - |a|]; }
    }
  }

  /**
   * The as-written sampler breaks the record invariant on input the validator
   * accepts: a one-channel 4-D moving label next to a 3-D fixed label yields
   * a 2-D fixed label, and a 3-D moving label next to a one-channel 4-D fixed
   * label yields a 4-D fixed label.
   */
  lemma AsWrittenBreaksLabelRank()
    ensures var r := SampleImageLabelAsWritten(Some(Voxel()), Some(Voxel()), Some(OneChannelVoxel()), Some(Voxel()), [7], AllChannels);
            r.Ok? && |r.value| == 1 && |r.value[0].fixedLabel.value.shape| == 2 && !WellFormedRecord(r.value[0], 2)
    ensures var r := SampleImageLabelAsWritten(Some(Voxel()), Some(Voxel()), Some(Voxel()), Some(OneChannelVoxel()), [7], AllChannels);
            r.Ok? && |r.value| == 1 && |r.value[0].fixedLabel.value.shape| == 4 && !WellFormedRecord(r.value[0], 2)
  {
    assert Accepted(Some(Voxel()), Some(Voxel()), Some(OneChannelVoxel()), Some(Voxel()));
    assert Accepted(Some(Voxel()), Some(Voxel()), Some(Voxel()), Some(OneChannelVoxel()));
    assert AllChannels(1) == [0];
  }

  /** A 1x1x1 volume holding the value 1. */
  function Voxel(): NdArray
  {
    assert [1, 1, 1][..2] == [1, 1] && [1, 1][..1] == [1] && [1][..0] == [];
    RawArray([1, 1, 1], [1.0])
  }

  /** A 1x1x1 volume with one label channel holding the value 1. */
  function OneChannelVoxel(): NdArray
  {
    assert [1, 1, 1, 1][..3] == [1, 1, 1] && [1, 1, 1][..2] == [1, 1] && [1, 1][..1] == [1] && [1][..0] == [];
    RawArray([1, 1, 1, 1], [1.0])
  }

  /**
   * Channel `k` of a label, treating a 3-D label as its own single channel
   * (the reading the validator's channel count already takes).
   */
  function LabelChannel(a: NdArray, k: nat): (r: NdArray)
    requires |a.shape| == 3 || (|a.shape| == 4 && k < a.shape[3])
    ensures |r.shape| == 3
  {
    if |a.shape| == 3 then a else LastAxis(a, k)
  }

  /**
   * Element `idx` of channel `k` of a 4-D label is element `idx + [k]` of the
   * label, and a channel keeps the label's values within [0, 1].
   */
  lemma LabelChannelProperties(a: NdArray, k: nat)
    requires |a.shape| == 3 || (|a.shape| == 4 && k < a.shape[3])
    ensures InUnitRange(a) ==> InUnitRange(LabelChannel(a, k))
    ensures |a.shape| == 4 ==> forall idx :: InBounds(LabelChannel(a, k).shape, idx) ==>
      InBounds(a.shape, idx + [k]) && At(LabelChannel(a, k), idx) == At(a, idx + [k])
  {
    if |a.shape| == 4 {
      if InUnitRange(a) { LastAxisInUnitRange(a, k); }
      forall idx | InBounds(LabelChannel(a, k).shape, idx)
        ensures InBounds(a.shape, idx + [k]) && At(LabelChannel(a, k), idx) == At(a, idx + [k])
      {
        LastAxisAt(a, k, idx);
      }
    }
  }

  /** Every chosen channel `ks[j]` is a channel of both labels, a 3-D label having only channel 0. */
  predicate ChannelsFit(m: NdArray, f: NdArray, ks: seq<nat>)
  {
    forall j :: 0 <= j < |ks| ==>
      && (|m.shape| == 3 || (|m.shape| == 4 && ks[j] < m.shape[3]))
      && (|f.shape| == 3 || (|f.shape| == 4 && ks[j] < f.shape[3]))
  }

  /** The channels chosen for a validated label pair exist in both labels. */
  lemma LabelChoiceFits(m: NdArray, f: NdArray, pick: nat -> seq<nat>)
    requires PicksInRange(pick)
    requires LabelRank(m) && LabelRank(f) && NumLabels(m) == NumLabels(f)
    ensures ChannelsFit(m, f, LabelChoice(m, pick))
  {
    var ks := LabelChoice(m, pick);
    assert forall j :: 0 <= j < |ks| ==> ks[j] < NumLabels(m);
  }

  /**
   * `sample_image_label` with both labels taken at the chosen channel through
   * `LabelChannel`. It validates first and, on success, yields one record per
   * label index: -1 for an unlabeled pair, each chosen channel for a 4-D
   * moving label, 0 otherwise.
   */
  function SampleImageLabel(mi: Option<NdArray>, fi: Option<NdArray>,
                            ml: Option<NdArray>, fl: Option<NdArray>,
                            imageIndices: seq<int>, pick: nat -> seq<nat>): (r: Result<seq<Record>, ValidationError>)
    requires PicksInRange(pick)
    ensures r.Err? <==> Validate(mi, fi, ml, fl).Fail?
    ensures r.Err? ==> r.error == Validate(mi, fi, ml, fl).error
    ensures r.Ok? && ml.None? ==> r.value == [Record(mi.value, fi.value, None, None, imageIndices + [-1])]
    ensures r.Ok? && ml.Some? ==> fl.Some? && ChannelsFit(ml.value, fl.value, LabelChoice(ml.value, pick))
    ensures r.Ok? && ml.Some? ==>
      var ks := LabelChoice(ml.value, pick);
      |r.value| == |ks| &&
      forall j :: 0 <= j < |ks| ==>
        r.value[j] == Record(mi.value, fi.value,
                             Some(LabelChannel(ml.value, ks[j])), Some(LabelChannel(fl.value, ks[j])),
                             imageIndices + [ks[j]])
  {
    var v := Validate(mi, fi, ml, fl);
    if v.Fail? then Err(v.error)
    else if ml.None? then Ok([Record(mi.value, fi.value, None, None, imageIndices + [-1])])
    else
      var m, f := ml.value, fl.value;
      var ks := LabelChoice(m, pick);
      LabelChoiceFits(m, f, pick);
      Ok(seq(|ks|, j requires 0 <= j < |ks| =>
        Record(mi.value, fi.value, Some(LabelChannel(m, ks[j])), Some(LabelChannel(f, ks[j])), imageIndices + [ks[j]])))
  }

  /** Every record the sampler yields satisfies the record invariant. */
  lemma SampleImageLabelWellFormed(mi: Option<NdArray>, fi: Option<NdArray>,
                                   ml: Option<NdArray>, fl: Option<NdArray>,
                                   imageIndices: seq<int>, pick: nat -> seq<nat>)
    requires PicksInRange(pick)
    ensures var r := SampleImageLabel(mi, fi, ml, fl, imageIndices, pick);
            r.Ok? ==> AllWellFormed(r.value, |imageIndices| + 1)
  {
    var r := SampleImageLabel(mi, fi, ml, fl, imageIndices, pick);
    if r.Ok? {
      assert Accepted(mi, fi, ml, fl);
      forall j | 0 <= j < |r.value| ensures WellFormedRecord(r.value[j], |imageIndices| + 1) {
        var rec := r.value[j];
        if ml.Some? {
          var k := LabelChoice(ml.value, pick)[j];
          LabelChannelProperties(ml.value, k);
          LabelChannelProperties(fl.value, k);
        }
        assert rec.indices[|imageIndices|] == rec.indices[|rec.indices| - 1];
      }
    }
  }

  /**
   * With the "all" policy, a 4-D label pair of N channels yields exactly N
   * records whose label indices are 0, 1, ..., N - 1 in that order.
   */
  lemma SampleAllChannels(mi: Option<NdArray>, fi: Option<NdArray>,
                          ml: Option<NdArray>, fl: Option<NdArray>, imageIndices: seq<int>)
    requires Accepted(mi, fi, ml, fl) && ml.Some? && |ml.value.shape| == 4
    ensures var r := SampleImageLabel(mi, fi, ml, fl, imageIndices, AllChannels);
            r.Ok? && |r.value| == ml.value.shape[3] &&
            forall j :: 0 <= j < |r.value| ==> r.value[j].indices == imageIndices + [j]
  {
    assert PicksInRange(AllChannels);
  }

  /** On every validated labeled pair the corrected sampler yields what the source yields for the moving label. */
  lemma SampleImageLabelAgreesOnMovingLabel(mi: Option<NdArray>, fi: Option<NdArray>,
                                            ml: Option<NdArray>, fl: Option<NdArray>,
                                            imageIndices: seq<int>, pick: nat -> seq<nat>)
    requires PicksInRange(pick)
    ensures var r := SampleImageLabel(mi, fi, ml, fl, imageIndices, pick);
            var w := SampleImageLabelAsWritten(mi, fi, ml, fl, imageIndices, pick);
            r.Ok? == w.Ok? && (r.Err? ==> r.error == w.error) &&
            (r.Ok? ==>
               |r.value| == |w.value| &&
               forall j :: 0 <= j < |r.value| ==>
                 r.value[j].movingImage == w.value[j].movingImage &&
                 r.value[j].fixedImage == w.value[j].fixedImage &&
                 r.value[j].movingLabel == w.value[j].movingLabel &&
                 r.value[j].indices == w.value[j].indices &&
                 (ml.Some? && |ml.value.shape| == |fl.value.shape| ==> r.value[j].fixedLabel == w.value[j].fixedLabel))
  {
  }

  /** One element of the index stream: backend indices for the two roles and the identifying indices. */
  datatype IndexTuple<I> = IndexTuple(movingIndex: I, fixedIndex: I, imageIndices: seq<int>)

  /**
   * The backends a generator reads from: `get_data` of the four file
   * loaders, the images already divided by 255 and the labels as loaded.
   */
  datatype Backends<!I> = Backends(
    movingImages: I -> NdArray,
    fixedImages: I -> NdArray,
    movingLabels: I -> NdArray,
    fixedLabels: I -> NdArray)

  /** The records of one index tuple; labels are fetched only from a labeled loader. */
  function SampleOne<I>(t: IndexTuple<I>, labeled: bool, b: Backends<I>, pick: nat -> seq<nat>): Result<seq<Record>, ValidationError>
    requires PicksInRange(pick)
  {
    var ml := if labeled then Some(b.movingLabels(t.movingIndex)) else None;
    var fl := if labeled then Some(b.fixedLabels(t.fixedIndex)) else None;
    SampleImageLabel(Some(b.movingImages(t.movingIndex)), Some(b.fixedImages(t.fixedIndex)), ml, fl, t.imageIndices, pick)
  }

  /** What one tuple of the index stream contributes: its records, or the error that stops the epoch. */
  type TupleOutcome = Result<seq<Record>, ValidationError>

  /**
   * The generator over a sequence of per-tuple outcomes: the records of each
   * successful tuple in order, up to the first failing one, whose error
   * ends the epoch.
   */
  function Collect(outcomes: seq<TupleOutcome>): (seq<Record>, Option<ValidationError>)
  {
    if outcomes == [] then ([], None)
    else
      match outcomes[0]
      case Err(e) => ([], Some(e))
      case Ok(rs) =>
        var rest := Collect(outcomes[1..]);
        (rs + rest.0, rest.1)
  }

  /** The tuple at `i` is the first one to fail, with error `e`. */
  predicate FirstErrAt(outcomes: seq<TupleOutcome>, i: int, e: ValidationError)
  {
    && 0 <= i < |outcomes|
    && outcomes[i] == Err(e)
    && forall j :: 0 <= j < i ==> outcomes[j].Ok?
  }

  /**
   * An epoch ends without an error exactly when no tuple fails; otherwise
   * its error is that of the first failing tuple.
   */
  lemma {:induction false} CollectMeaning(outcomes: seq<TupleOutcome>)
    ensures Collect(outcomes).1.None? <==> forall i :: 0 <= i < |outcomes| ==> outcomes[i].Ok?
    ensures Collect(outcomes).1.Some? ==> exists i :: FirstErrAt(outcomes, i, Collect(outcomes).1.value)
  {
    if outcomes != [] {
      if outcomes[0].Err? {
        assert FirstErrAt(outcomes, 0, outcomes[0].error);
      } else {
        var rest := outcomes[1..];
        CollectMeaning(rest);
        assert forall i :: 0 < i < |outcomes| ==> outcomes[i] == rest[i - 1];
        if Collect(rest).1.Some? {
          var i :| FirstErrAt(rest, i, Collect(rest).1.value);
          assert FirstErrAt(outcomes, i + 1, Collect(rest).1.value);
        }
      }
    }
  }

  /** A successful tuple after an unfinished epoch appends its records. */
  lemma {:induction false} CollectAppendOk(done: seq<TupleOutcome>, rs: seq<Record>)
    requires Collect(done).1.None?
    ensures Collect(done + [Ok(rs)]).0 == Collect(done).0 + rs
    ensures Collect(done + [Ok(rs)]).1.None?
  {
    if done == [] {
      assert (done + [Ok(rs)])[1..] == [];
    } else {
      assert (done + [Ok(rs)])[1..] == done[1..] + [Ok(rs)];
      CollectAppendOk(done[1..], rs);
    }
  }

  /** A failing tuple after an unfinished epoch ends it with its error and no more records. */
  lemma {:induction false} CollectAppendErr(done: seq<TupleOutcome>, e: ValidationError)
    requires Collect(done).1.None?
    ensures Collect(done + [Err(e)]) == (Collect(done).0, Some(e))
  {
    if done != [] {
      assert (done + [Err(e)])[1..] == done[1..] + [Err(e)];
      CollectAppendErr(done[1..], e);
    }
  }

  /** Once an epoch has stopped on an error, later tuples change nothing. */
  lemma {:induction false} CollectStops(done: seq<TupleOutcome>, later: seq<TupleOutcome>)
    requires Collect(done).1.Some?
    ensures Collect(done + later) == Collect(done)
  {
    assert done != [];
    assert (done + later)[0] == done[0];
    if done[0].Ok? {
      assert (done + later)[1..] == done[1..] + later;
      CollectStops(done[1..], later);
    }
  }

  /** Collecting well-formed records yields only well-formed records. */
  lemma {:induction false} CollectWellFormed(outcomes: seq<TupleOutcome>, n: nat)
    requires forall i :: 0 <= i < |outcomes| && outcomes[i].Ok? ==> AllWellFormed(outcomes[i].value, n)
    ensures AllWellFormed(Collect(outcomes).0, n)
  {
    if outcomes != [] && outcomes[0].Ok? {
      assert forall i :: 0 <= i < |outcomes[1..]| ==> outcomes[1..][i] == outcomes[i + 1];
      CollectWellFormed(outcomes[1..], n);
      AllWellFormedAppend(outcomes[0].value, Collect(outcomes[1..]).0, n);
    }
  }

  /** The outcome of every tuple of the stream; the tuple at position `p` uses the label choice `picks(p)`. */
  function Outcomes<I>(stream: seq<IndexTuple<I>>, labeled: bool, b: Backends<I>, picks: nat -> nat -> seq<nat>)
    : (rs: seq<TupleOutcome>)
    requires AllPicksInRange(picks)
    ensures |rs| == |stream|
  {
    seq(|stream|, p requires 0 <= p < |stream| => assert PicksInRange(picks(p)); SampleOne(stream[p], labeled, b, picks(p)))
  }

  /** Extending a prefix by one element, and splitting a sequence after it. */
  lemma PrefixStep<T>(s: seq<T>, i: nat)
    requires i < |s|
    ensures s[..i + 1] == s[..i] + [s[i]]
    ensures s == s[..i + 1] + s[i + 1..]
  {
  }

  /** One epoch of the generator over the index stream. */
  function Generate<I>(stream: seq<IndexTuple<I>>, labeled: bool, b: Backends<I>, picks: nat -> nat -> seq<nat>)
    : (r: (seq<Record>, Option<ValidationError>))
    requires AllPicksInRange(picks)
    ensures stream == [] ==> r == ([], None)
    ensures r.1.Some? ==> exists p :: FirstErrAt(Outcomes(stream, labeled, b, picks), p, r.1.value)
  {
    CollectMeaning(Outcomes(stream, labeled, b, picks));
    Collect(Outcomes(stream, labeled, b, picks))
  }

  /**
   * Every record of an epoch satisfies the record invariant for the index
   * length of the stream.
   */
  lemma GenerateWellFormed<I>(stream: seq<IndexTuple<I>>, labeled: bool, b: Backends<I>,
                              picks: nat -> nat -> seq<nat>, n: nat)
    requires AllPicksInRange(picks)
    requires forall i :: 0 <= i < |stream| ==> |stream[i].imageIndices| + 1 == n
    ensures AllWellFormed(Generate(stream, labeled, b, picks).0, n)
  {
    var outcomes := Outcomes(stream, labeled, b, picks);
    forall i | 0 <= i < |outcomes| && outcomes[i].Ok? ensures AllWellFormed(outcomes[i].value, n) {
      var t, pick := stream[i], picks(i);
      assert PicksInRange(pick);
      var ml := if labeled then Some(b.movingLabels(t.movingIndex)) else None;
      var fl := if labeled then Some(b.fixedLabels(t.fixedIndex)) else None;
      assert outcomes[i] == SampleImageLabel(Some(b.movingImages(t.movingIndex)), Some(b.fixedImages(t.fixedIndex)), ml, fl, t.imageIndices, pick);
      SampleImageLabelWellFormed(Some(b.movingImages(t.movingIndex)), Some(b.fixedImages(t.fixedIndex)), ml, fl, t.imageIndices, pick);
    }
    CollectWellFormed(outcomes, n);
  }

  /**
   * An epoch ends without error exactly when the arrays fetched for every
   * tuple of the stream form an acceptable sample.
   */
  lemma GenerateFinishes<I>(stream: seq<IndexTuple<I>>, labeled: bool, b: Backends<I>, picks: nat -> nat -> seq<nat>)
    requires AllPicksInRange(picks)
    ensures Generate(stream, labeled, b, picks).1.None? <==>
      forall p :: 0 <= p < |stream| ==>
        Accepted(Some(b.movingImages(stream[p].movingIndex)), Some(b.fixedImages(stream[p].fixedIndex)),
                 if labeled then Some(b.movingLabels(stream[p].movingIndex)) else None,
                 if labeled then Some(b.fixedLabels(stream[p].fixedIndex)) else None)
  {
    var outcomes := Outcomes(stream, labeled, b, picks);
    forall p | 0 <= p < |stream|
      ensures outcomes[p].Ok? <==>
        Accepted(Some(b.movingImages(stream[p].movingIndex)), Some(b.fixedImages(stream[p].fixedIndex)),
                 if labeled then Some(b.movingLabels(stream[p].movingIndex)) else None,
                 if labeled then Some(b.fixedLabels(stream[p].fixedIndex)) else None)
    {
      assert PicksInRange(picks(p));
    }
    CollectMeaning(outcomes);
  }

  /**
   * One iteration of `data_generator`: fetch the images of a tuple (and,
   * when labeled, its labels) and sample them. It fails exactly when the
   * fetched arrays are not acceptable; otherwise every record is well
   * formed and carries labels exactly when the loader is labeled.
   */
  method SampleTuple<I>(t: IndexTuple<I>, labeled: bool, b: Backends<I>, pick: nat -> seq<nat>)
    returns (sampled: Result<seq<Record>, ValidationError>)
    requires PicksInRange(pick)
    ensures sampled == SampleOne(t, labeled, b, pick)
    ensures sampled.Err? <==>
      !Accepted(Some(b.movingImages(t.movingIndex)), Some(b.fixedImages(t.fixedIndex)),
                if labeled then Some(b.movingLabels(t.movingIndex)) else None,
                if labeled then Some(b.fixedLabels(t.fixedIndex)) else None)
    ensures sampled.Ok? ==> AllWellFormed(sampled.value, |t.imageIndices| + 1)
    ensures sampled.Ok? ==> forall j :: 0 <= j < |sampled.value| ==> (sampled.value[j].movingLabel.Some? <==> labeled)
    ensures sampled.Ok? && !labeled ==> |sampled.value| == 1
  {
    sampled := SampleOne(t, labeled, b, pick);
    SampleImageLabelWellFormed(Some(b.movingImages(t.movingIndex)), Some(b.fixedImages(t.fixedIndex)),
                               if labeled then Some(b.movingLabels(t.movingIndex)) else None,
                               if labeled then Some(b.fixedLabels(t.fixedIndex)) else None, t.imageIndices, pick);
  }

  /**
   * `data_generator`: for each index tuple, fetch the images (and, when
   * labeled, the labels) and yield the sampled records; a validation error
   * stops the epoch.
   */
  method DataGenerator<I>(stream: seq<IndexTuple<I>>, labeled: bool, b: Backends<I>, picks: nat -> nat -> seq<nat>)
    returns (records: seq<Record>, failure: Option<ValidationError>)
    requires AllPicksInRange(picks)
    ensures records == Generate(stream, labeled, b, picks).0
    ensures failure == Generate(stream, labeled, b, picks).1
  {
    ghost var all := Outcomes(stream, labeled, b, picks);
    ghost var done: seq<TupleOutcome> := [];
    records, failure := [], None;
    var i := 0;
    while i < |stream|
      invariant 0 <= i <= |stream|
      invariant done == all[..i]
      invariant failure.None?
      invariant records == Collect(done).0 && Collect(done).1.None?
    {
      assert PicksInRange(picks(i));
      var sampled := SampleTuple(stream[i], labeled, b, picks(i));
      assert sampled == all[i];
      PrefixStep(all, i);
      if sampled.Err? {
        failure := Some(sampled.error);
        CollectAppendErr(done, sampled.error);
        CollectStops(done + [sampled], all[i + 1..]);
        return;
      }
      CollectAppendOk(done, sampled.value);
      records := records + sampled.value;
      done := done + [sampled];
      i := i + 1;
    }
    assert all == done;
  }
}
