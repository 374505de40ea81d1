/**
 * The stage decisions of `get_dataset_and_preprocess`: which dataset
 * operations are chained after the generator, with which sizes, and what
 * the batching stage does to a finite stream of records.
 */
module Preprocessing {
  import DataLoaders

  /** One dataset operation of the pipeline, with the parameters it is given. */
  datatype Stage =
    | Resize(movingImageShape: DataLoaders.Shape, fixedImageShape: DataLoaders.Shape)
    | Shuffle(bufferSize: int, reshuffleEachIteration: bool)
    | Repeat
    | Batch(batchSize: int, dropRemainder: bool)
    | Prefetch
    | Affine(movingShape: DataLoaders.Shape, fixedShape: DataLoaders.Shape, augmentBatchSize: int)

  /**
   * Exactly one batch stage, with the given size and remainder policy,
   * directly followed by prefetch and preceded by any shuffle and repeat.
   */
  predicate BatchThenPrefetch(stages: seq<Stage>, batchSize: int, dropRemainder: bool)
  {
    exists i :: 0 <= i < |stages| - 1 && BatchAt(stages, i, batchSize, dropRemainder)
  }

  predicate BatchAt(stages: seq<Stage>, i: int, batchSize: int, dropRemainder: bool)
    requires 0 <= i < |stages| - 1
  {
    && stages[i] == Batch(batchSize, dropRemainder)
    && stages[i + 1] == Prefetch
    && (forall j :: 0 <= j < |stages| && stages[j].Batch? ==> j == i)
    && (forall j :: 0 <= j < |stages| && (stages[j].Shuffle? || stages[j].Repeat?) ==> j < i)
  }

  /** The stages chained, in order, for the given arguments and loader shapes. */
  function Stages(training: bool, batchSize: int, repeat: bool, shuffleBufferNumBatch: int,
                  movingImageShape: DataLoaders.Shape, fixedImageShape: DataLoaders.Shape): (stages: seq<Stage>)
    ensures |stages| >= 3 && stages[0] == Resize(movingImageShape, fixedImageShape)
    // a shuffle stage exists exactly when training with a positive buffer factor, sized batch * factor
    ensures (exists i :: 0 <= i < |stages| && stages[i].Shuffle?) <==> training && shuffleBufferNumBatch > 0
    ensures forall i :: 0 <= i < |stages| && stages[i].Shuffle? ==>
      i == 1 && stages[i] == Shuffle(batchSize * shuffleBufferNumBatch, true)
    ensures (exists i :: 0 <= i < |stages| && stages[i].Repeat?) <==> repeat
    // exactly one batch stage, after any shuffle and repeat, followed by prefetch
    ensures BatchThenPrefetch(stages, batchSize, training)
    // the affine augmentation exists exactly when training, and comes last
    ensures (exists i :: 0 <= i < |stages| && stages[i].Affine?) <==> training
    // no other stage: resize, batch and prefetch plus the optional ones
    ensures |stages| == 3 + (if training && shuffleBufferNumBatch > 0 then 1 else 0) + (if repeat then 1 else 0)
                          + (if training then 1 else 0)
    ensures training ==> stages[|stages| - 1] == Affine(movingImageShape, fixedImageShape, batchSize)
  {
    var shuffle := if training && shuffleBufferNumBatch > 0 then [Shuffle(batchSize * shuffleBufferNumBatch, true)] else [];
    var repeated := if repeat then [Repeat] else [];
    var affine := if training then [Affine(movingImageShape, fixedImageShape, batchSize)] else [];
    var plan := [Resize(movingImageShape, fixedImageShape)] + shuffle + repeated + [Batch(batchSize, training), Prefetch] + affine;
    var b := 1 + |shuffle| + |repeated|;
    assert |plan| == b + 2 + |affine|;
    assert forall i :: 0 <= i < |plan| ==>
      && (i == 0 ==> plan[i].Resize?)
      && (1 <= i < 1 + |shuffle| ==> plan[i] == shuffle[0])
      && (1 + |shuffle| <= i < b ==> plan[i] == Repeat)
      && (i == b ==> plan[i] == Batch(batchSize, training))
      && (i == b + 1 ==> plan[i] == Prefetch)
      && (i > b + 1 ==> plan[i] == affine[0]);
    assert training && shuffleBufferNumBatch > 0 ==> plan[1].Shuffle?;
    assert repeat ==> plan[b - 1].Repeat?;
    assert training ==> plan[b + 2].Affine?;
    assert BatchAt(plan, b, batchSize, training);
    plan
  }

  /** `get_dataset_and_preprocess` on a loader: the stages for its own shapes. */
  function LoaderStages(loader: DataLoaders.DataLoader, training: bool, batchSize: int, repeat: bool,
                        shuffleBufferNumBatch: int): (stages: seq<Stage>)
    ensures |stages| > 0 && stages[0] == Resize(loader.shapes.MovingImageShape(), loader.shapes.FixedImageShape())
    ensures |stages[0].movingImageShape| == 3 && |stages[0].fixedImageShape| == 3
  {
    Stages(training, batchSize, repeat, shuffleBufferNumBatch, loader.shapes.MovingImageShape(), loader.shapes.FixedImageShape())
  }

  /** What a batch stage does to a finite stream: consecutive groups of `size`, the last one partial unless dropped. */
  function Batches<T>(xs: seq<T>, size: nat, dropRemainder: bool): seq<seq<T>>
    requires size > 0
    decreases |xs|
  {
    if |xs| == 0 then []
    else if |xs| < size then (if dropRemainder then [] else [xs])
    else [xs[..size]] + Batches(xs[size..], size, dropRemainder)
  }

  /** The concatenation of a sequence of batches. */
  function Flatten<T>(bs: seq<seq<T>>): seq<T>
  {
    if bs == [] then [] else bs[0] + Flatten(bs[1..])
  }

  /**
   * Keeping the remainder loses nothing: the batches concatenate back to the
   * stream, none is empty, and only the last one may be short.
   */
  lemma {:induction false} BatchesKeepEverything<T>(xs: seq<T>, size: nat)
    requires size > 0
    ensures Flatten(Batches(xs, size, false)) == xs
    ensures var bs := Batches(xs, size, false);
            forall i :: 0 <= i < |bs| ==> 0 < |bs[i]| <= size && (i < |bs| - 1 ==> |bs[i]| == size)
    decreases |xs|
  {
    if |xs| == 0 {
    } else if |xs| < size {
      assert Flatten([xs]) == xs + Flatten([]);
    } else {
      BatchesKeepEverything(xs[size..], size);
      var bs := Batches(xs, size, false);
      assert bs == [xs[..size]] + Batches(xs[size..], size, false);
      assert bs[1..] == Batches(xs[size..], size, false);
      assert xs[..size] + xs[size..] == xs;
      forall i | 0 <= i < |bs| ensures 0 < |bs[i]| <= size && (i < |bs| - 1 ==> |bs[i]| == size) {
        if i > 0 { assert bs[i] == bs[1..][i - 1]; }
      }
    }
  }

  /**
   * Dropping the remainder keeps only full batches: every batch has exactly
   * `size` records, they concatenate to a prefix of the stream, and fewer
   * than `size` records are left over.
   */
  lemma {:induction false} BatchesDropRemainder<T>(xs: seq<T>, size: nat)
    requires size > 0
    ensures var bs := Batches(xs, size, true);
            (forall i :: 0 <= i < |bs| ==> |bs[i]| == size) &&
            |Flatten(bs)| <= |xs| && Flatten(bs) == xs[..|Flatten(bs)|] &&
            |xs| - |Flatten(bs)| < size
    decreases |xs|
  {
    if |xs| == 0 {
    } else if |xs| < size {
    } else {
      BatchesDropRemainder(xs[size..], size);
      var bs := Batches(xs, size, true);
      var rest := Batches(xs[size..], size, true);
      assert bs == [xs[..size]] + rest;
      assert bs[1..] == rest;
      var n := |Flatten(rest)|;
      assert Flatten(bs) == xs[..size] + Flatten(rest);
      assert xs[..size] + xs[size..][..n] == xs[..size + n];
      forall i | 0 <= i < |bs| ensures |bs[i]| == size {
        if i > 0 { assert bs[i] == rest[i - 1]; }
      }
    }
  }

  /** The batch stage of the training pipeline yields only full batches; evaluation keeps every record. */
  lemma BatchStageMeaning<T>(xs: seq<T>, batchSize: nat, repeat: bool, shuffleBufferNumBatch: int,
                             movingImageShape: DataLoaders.Shape, fixedImageShape: DataLoaders.Shape)
    requires batchSize > 0
    ensures forall i :: 0 <= i < |Stages(true, batchSize, repeat, shuffleBufferNumBatch, movingImageShape, fixedImageShape)| ==>
      var s := Stages(true, batchSize, repeat, shuffleBufferNumBatch, movingImageShape, fixedImageShape)[i];
      s.Batch? ==> s.batchSize == batchSize && forall b :: b in Batches(xs, batchSize, s.dropRemainder) ==> |b| == batchSize
    ensures forall i :: 0 <= i < |Stages(false, batchSize, repeat, shuffleBufferNumBatch, movingImageShape, fixedImageShape)| ==>
      var s := Stages(false, batchSize, repeat, shuffleBufferNumBatch, movingImageShape, fixedImageShape)[i];
      s.Batch? ==> Flatten(Batches(xs, batchSize, s.dropRemainder)) == xs
  {
    BatchesDropRemainder(xs, batchSize);
    BatchesKeepEverything(xs, batchSize);
  }
}
