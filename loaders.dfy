/**
 * The data loaders of the interface: the shape contracts fixed by the paired
 * and unpaired constructors, and the concatenation of several loaders.
 */
module DataLoaders {
  import opened Wrappers

  /** A shape as given by the caller: a list or tuple of integers of any length. */
  type Shape = seq<int>

  /** The errors raised while building a loader. */
  datatype ConstructionError =
    | ShapeNotThreeD   // ValueError: a shape is not of length three
    | NoLoaders        // AssertionError: a concatenation of no loaders

  /** The immutable shapes of a loader: two for paired data, one shared for unpaired data. */
  datatype ShapeContract = PairedShapes(moving: Shape, fixed: Shape) | UnpairedShapes(image: Shape) {

    /** `moving_image_shape`: the moving shape given to a paired loader, the one image shape of an unpaired one. */
    function MovingImageShape(): (s: Shape)
      ensures PairedShapes? ==> s == moving
      ensures UnpairedShapes? ==> s == image && s == FixedImageShape()
    {
      if PairedShapes? then moving else image
    }

    /** `fixed_image_shape`: the fixed shape given to a paired loader, the one image shape of an unpaired one. */
    function FixedImageShape(): (s: Shape)
      ensures PairedShapes? ==> s == fixed
      ensures UnpairedShapes? ==> s == image
    {
      if PairedShapes? then fixed else image
    }

    /** Length of the identifying index vector: (image, label) or (moving, fixed, label). */
    function NumIndices(): nat
    {
      if PairedShapes? then 2 else 3
    }

    /** Both shapes have length three, (width, height, depth). */
    predicate Valid()
    {
      |MovingImageShape()| == 3 && |FixedImageShape()| == 3
    }
  }

  /** The shape contracts a constructed loader can have. */
  type ValidShapeContract = c: ShapeContract | c.Valid() witness PairedShapes([0, 0, 0], [0, 0, 0])

  /** The shape test of the paired constructor: both shapes must have length three. */
  function PairedContract(movingImageShape: Shape, fixedImageShape: Shape): (r: Result<ValidShapeContract, ConstructionError>)
    ensures r.Ok? <==> |movingImageShape| == 3 && |fixedImageShape| == 3
    ensures r.Err? ==> r.error == ShapeNotThreeD
    ensures r.Ok? ==> r.value.MovingImageShape() == movingImageShape && r.value.FixedImageShape() == fixedImageShape
    ensures r.Ok? ==> r.value.NumIndices() == 2
  {
    if |movingImageShape| != 3 || |fixedImageShape| != 3 then Err(ShapeNotThreeD)
    else Ok(PairedShapes(movingImageShape, fixedImageShape))
  }

  /** The shape test of the unpaired constructor: the one shape must have length three and serves both roles. */
  function UnpairedContract(imageShape: Shape): (r: Result<ValidShapeContract, ConstructionError>)
    ensures r.Ok? <==> |imageShape| == 3
    ensures r.Err? ==> r.error == ShapeNotThreeD
    ensures r.Ok? ==> r.value.MovingImageShape() == imageShape && r.value.FixedImageShape() == imageShape
    ensures r.Ok? ==> r.value.NumIndices() == 3
  {
    if |imageShape| != 3 then Err(ShapeNotThreeD) else Ok(UnpairedShapes(imageShape))
  }

  /** An unpaired loader reports the same shape for the moving and the fixed image. */
  lemma UnpairedShapesCoincide(c: ShapeContract)
    requires c.UnpairedShapes?
    ensures c.MovingImageShape() == c.FixedImageShape() && c.NumIndices() == 3
  {
  }

  /**
   * The record, in call order, of the loaders whose `close` ran: it stands
   * for the order in which the concrete loaders release their files.
   */
  class CloseLog {
    ghost var events: seq<DataLoader>

    ghost constructor ()
      ensures events == []
    {
      events := [];
    }
  }

  /**
   * A paired or unpaired loader. `numSamples` is `None` until the concrete
   * file-format loader sets it; `closeCalls` counts the calls of `close`,
   * which releases the concrete loader's files.
   */
  class DataLoader {
    const labeled: bool
    const numIndices: nat
    const sampleLabel: Option<string>
    const seed: Option<int>
    const shapes: ValidShapeContract
    var numSamples: Option<nat>
    var closeCalls: nat

    constructor (shapes: ValidShapeContract, labeled: bool, sampleLabel: Option<string>, seed: Option<int>)
      ensures this.shapes == shapes && this.labeled == labeled
      ensures this.sampleLabel == sampleLabel && this.seed == seed
      ensures numIndices == shapes.NumIndices()
      ensures numSamples == None && closeCalls == 0
    {
      this.shapes := shapes;
      this.labeled := labeled;
      this.sampleLabel := sampleLabel;
      this.seed := seed;
      numIndices := shapes.NumIndices();
      numSamples := None;
      closeCalls := 0;
    }

    /** `close`: one more call, appended to the caller's log of closings. */
    method Close(ghost log: CloseLog)
      modifies this`closeCalls, log`events
      ensures closeCalls == old(closeCalls) + 1
      ensures log.events == old(log.events) + [this]
    {
      closeCalls := closeCalls + 1;
      log.events := log.events + [this];
    }
  }

  /** `AbstractPairedDataLoader.__init__`: raises unless both shapes have length three. */
  method NewPairedDataLoader(movingImageShape: Shape, fixedImageShape: Shape, labeled: bool,
                             sampleLabel: Option<string>, seed: Option<int>)
    returns (r: Result<DataLoader, ConstructionError>)
    ensures r.Ok? <==> |movingImageShape| == 3 && |fixedImageShape| == 3
    ensures r.Err? ==> r.error == ShapeNotThreeD
    ensures r.Ok? ==> fresh(r.value) && r.value.numIndices == 2 && r.value.labeled == labeled
    ensures r.Ok? ==> r.value.shapes.MovingImageShape() == movingImageShape && r.value.shapes.FixedImageShape() == fixedImageShape
    ensures r.Ok? ==> r.value.sampleLabel == sampleLabel && r.value.seed == seed
    ensures r.Ok? ==> r.value.numSamples == None && r.value.closeCalls == 0
  {
    var contract := PairedContract(movingImageShape, fixedImageShape);
    if contract.Err? {
      return Err(contract.error);
    }
    var loader := new DataLoader(contract.value, labeled, sampleLabel, seed);
    return Ok(loader);
  }

  /** `AbstractUnpairedDataLoader.__init__`: raises unless the shape has length three. */
  method NewUnpairedDataLoader(imageShape: Shape, labeled: bool, sampleLabel: Option<string>, seed: Option<int>)
    returns (r: Result<DataLoader, ConstructionError>)
    ensures r.Ok? <==> |imageShape| == 3
    ensures r.Err? ==> r.error == ShapeNotThreeD
    ensures r.Ok? ==> fresh(r.value) && r.value.numIndices == 3 && r.value.labeled == labeled
    ensures r.Ok? ==> r.value.shapes.MovingImageShape() == imageShape && r.value.shapes.FixedImageShape() == imageShape
    ensures r.Ok? ==> r.value.sampleLabel == sampleLabel && r.value.seed == seed
    ensures r.Ok? ==> r.value.numSamples == None && r.value.closeCalls == 0
  {
    var contract := UnpairedContract(imageShape);
    if contract.Err? {
      return Err(contract.error);
    }
    var loader := new DataLoader(contract.value, labeled, sampleLabel, seed);
    return Ok(loader);
  }

  /**
   * Python's `sum` over the children's sample counts: defined only when every
   * count is known (`sum` raises on a `None`).
   */
  function SumCounts(counts: seq<Option<nat>>): (r: Option<nat>)
    ensures r.Some? <==> forall i :: 0 <= i < |counts| ==> counts[i].Some?
    ensures r.Some? ==> forall i :: 0 <= i < |counts| ==> counts[i].value <= r.value
  {
    if counts == [] then Some(0)
    else
      var rest := SumCounts(counts[1..]);
      assert forall i :: 1 <= i < |counts| ==> counts[i] == counts[1..][i - 1];
      if counts[0].None? || rest.None? then None else Some(counts[0].value + rest.value)
  }

  /** Counting over two consecutive lists of loaders adds their totals. */
  lemma {:induction false} SumCountsAppend(a: seq<Option<nat>>, b: seq<Option<nat>>)
    ensures SumCounts(a + b) ==
      if SumCounts(a).Some? && SumCounts(b).Some? then Some(SumCounts(a).value + SumCounts(b).value) else None
  {
    if a != [] {
      assert (a + b)[1..] == a[1..] + b;
      SumCountsAppend(a[1..], b);
    } else {
      assert a + b == b;
    }
  }

  /** Children of 10, 5 and 3 samples give 18. */
  lemma SumCountsExample()
    ensures SumCounts([Some(10), Some(5), Some(3)]) == Some(18)
  {
  }

  /**
   * `ConcatenatedDataLoader`: several loaders read one after another. Its
   * `labeled`, `num_indices`, `sample_label` and `seed` are all `None`.
   * `log` records, in call order, the children whose `close` ran.
   */
  class ConcatenatedDataLoader {
    const labeled: Option<bool>
    const numIndices: Option<nat>
    const sampleLabel: Option<string>
    const seed: Option<int>
    const loaders: seq<DataLoader>
    ghost const log: CloseLog

    constructor (loaders: seq<DataLoader>)
      requires |loaders| > 0
      ensures this.loaders == loaders && fresh(log) && log.events == []
      ensures labeled == None && numIndices == None && sampleLabel == None && seed == None
    {
      this.loaders := loaders;
      labeled, numIndices, sampleLabel, seed := None, None, None, None;
      log := new CloseLog();
    }

    /** The moving shape is that of the first child, a three-element shape. */
    function MovingImageShape(): (s: Shape)
      requires |loaders| > 0
      ensures |s| == 3 && s == loaders[0].shapes.MovingImageShape()
    {
      loaders[0].shapes.MovingImageShape()
    }

    /** The fixed shape is that of the first child, a three-element shape. */
    function FixedImageShape(): (s: Shape)
      requires |loaders| > 0
      ensures |s| == 3 && s == loaders[0].shapes.FixedImageShape()
    {
      loaders[0].shapes.FixedImageShape()
    }

    /** The children's sample counts, in list order. */
    function ChildCounts(): (counts: seq<Option<nat>>)
      reads loaders
      ensures |counts| == |loaders| && forall i :: 0 <= i < |loaders| ==> counts[i] == loaders[i].numSamples
    {
      seq(|loaders|, i reads loaders requires 0 <= i < |loaders| => loaders[i].numSamples)
    }

    /** `num_samples`: the sum of the children's counts, known once every child's is. */
    function NumSamples(): (r: Option<nat>)
      reads loaders
      ensures r.Some? <==> forall i :: 0 <= i < |loaders| ==> loaders[i].numSamples.Some?
      ensures r.Some? ==> forall i :: 0 <= i < |loaders| ==> loaders[i].numSamples.value <= r.value
    {
      SumCounts(ChildCounts())
    }

    /** `close`: closes every child once per occurrence in the list, in list order. */
    method Close()
      modifies log`events, loaders`closeCalls
      ensures forall l :: l in loaders ==> l.closeCalls == old(l.closeCalls) + multiset(loaders)[l]
      ensures log.events == old(log.events) + loaders
      ensures forall l :: l in loaders ==> l.numSamples == old(l.numSamples)
    {
      for i := 0 to |loaders|
        invariant forall l :: l in loaders ==> l.closeCalls == old(l.closeCalls) + multiset(loaders[..i])[l]
        invariant log.events == old(log.events) + loaders[..i]
      {
        assert loaders[..i + 1] == loaders[..i] + [loaders[i]];
        loaders[i].Close(log);
      }
      assert loaders[..|loaders|] == loaders;
    }
  }

  /** `ConcatenatedDataLoader.__init__`: the list of children must not be empty. */
  method NewConcatenatedDataLoader(loaders: seq<DataLoader>) returns (r: Result<ConcatenatedDataLoader, ConstructionError>)
    ensures r.Ok? <==> |loaders| > 0
    ensures r.Err? ==> r.error == NoLoaders
    ensures r.Ok? ==> fresh(r.value) && r.value.loaders == loaders && r.value.labeled == None && r.value.numIndices == None
    ensures r.Ok? ==> r.value.sampleLabel == None && r.value.seed == None && fresh(r.value.log) && r.value.log.events == []
  {
    if |loaders| == 0 {
      return Err(NoLoaders);
    }
    var loader := new ConcatenatedDataLoader(loaders);
    return Ok(loader);
  }
}
