# DeepReg data-loader interface, modelled in Dafny

This project models the loader interface of DeepReg
(`deepreg/dataset/loader/interface.py`). DeepReg is a registration toolkit.
Its loaders pair a moving image with a fixed image, plus optional labels,
and feed them to a TensorFlow dataset. The model covers:

- **Loader construction** (`DataLoaders`).
  - The paired and unpaired loaders check that their image shapes are 3-D.
  - They fix the number of indices that identify a sample: 2 for paired, 3 for unpaired.
  - The unpaired loader uses one shape for both images.
  - `ConcatenatedDataLoader` takes its image shapes from its first loader and sums its children's sample counts.
  - `ConcatenatedDataLoader.close` closes every child loader in order.
- **Sample validation and label sampling** (`Samples`), the heart of `GeneratorDataLoader`
  (a loader that builds its dataset from a Python generator).
  - `validate_images_and_labels`: every check in the source's order, each with its own error.
  - `sample_image_label`: one record per chosen label channel, with the image indices extended by the label index, or by -1 when there is no label.
  - `data_generator`: the loop that fetches the arrays for each index tuple and yields the sampled records.
- **Group bookkeeping of `FileLoader`** (`FileLoaders`): `get_num_groups` and `get_num_images_per_group`, including the rejection of empty groups.
- **The preprocessing plan of `get_dataset_and_preprocess`** (`Preprocessing`).
  - It models which dataset stages are chained, in which order and with which parameters.
  - It also models what the batching stage does to a finite stream: full batches only when training; otherwise every record is kept.

numpy arrays are values of `Arrays.NdArray`: a shape plus its values in row-major order.
Numpy's `a[..., k]` is `Arrays.LastAxis`, and `np.min`/`np.max` are `Arrays.SeqMin`/`Arrays.SeqMax`.
Python exceptions in this interface are `Err`/`Fail` values whose error datatype names the failing check.

The shape-check exceptions are `ValueError`s in the source. The code of `get_dataset_and_preprocess` performs no check on the batch size. `Stages` accepts any batch size, and only the batching lemmas require a positive one.

## Model

| member | source | states |
|---|---|---|
| DataLoaders.ShapeContract.MovingImageShape | deepreg/dataset/loader/interface.py:146-152 | a paired loader's moving image shape is the moving shape it was given; an unpaired loader's is its one image shape, the same as its fixed image shape (interface.py:191-193) |
| DataLoaders.ShapeContract.FixedImageShape | deepreg/dataset/loader/interface.py:154-160 | a paired loader's fixed image shape is the fixed shape it was given; an unpaired loader's is its one image shape (interface.py:195-197) |
| DataLoaders.DataLoader.constructor | deepreg/dataset/loader/interface.py:19-35 | the loader stores its `labeled` flag, `sample_label` and seed as given, and its number of indices from its shapes; it has no sample count yet and no close call |
| DataLoaders.PairedContract | deepreg/dataset/loader/interface.py:125-145 | accepted exactly when both shapes have three entries, otherwise the shape error; keeps both shapes and uses two indices per sample |
| DataLoaders.NewPairedDataLoader | deepreg/dataset/loader/interface.py:125-145 | a fresh loader exactly when both shapes are 3-D, otherwise the shape error. The loader has two indices, the given `labeled` flag, both shapes, the given `sample_label` and seed, no sample count yet and no close call |
| DataLoaders.UnpairedContract | deepreg/dataset/loader/interface.py:176-190 | accepted exactly when the one shape has three entries; both image shapes are that shape; three indices per sample |
| DataLoaders.NewUnpairedDataLoader | deepreg/dataset/loader/interface.py:176-190 | a fresh loader exactly when the shape is 3-D, otherwise the shape error. The loader has three indices, the given `labeled` flag, both image shapes equal to the given one, the given `sample_label` and seed, no sample count yet and no close call |
| DataLoaders.UnpairedShapesCoincide | deepreg/dataset/loader/interface.py:192-197 | an unpaired loader's moving and fixed image shapes are always equal, and it uses three indices |
| DataLoaders.DataLoader.Close | deepreg/dataset/loader/interface.py:116-117 | closing records exactly one more close call on the loader and appends the loader to the caller's close log; nothing else changes |
| DataLoaders.SumCounts | deepreg/dataset/loader/interface.py:444-446 | a total exists exactly when every child has a count, and every child's count is at most the total |
| DataLoaders.SumCountsAppend | deepreg/dataset/loader/interface.py:444-446 | the total of two concatenated lists of counts is the sum of their totals, and is missing as soon as either is |
| DataLoaders.ConcatenatedDataLoader.MovingImageShape | deepreg/dataset/loader/interface.py:436-438 | the moving image shape is the first child's, a 3-D shape |
| DataLoaders.ConcatenatedDataLoader.FixedImageShape | deepreg/dataset/loader/interface.py:440-442 | the fixed image shape is the first child's, a 3-D shape |
| DataLoaders.ConcatenatedDataLoader.ChildCounts | deepreg/dataset/loader/interface.py:446 | one entry per child loader, in order, each that child's sample count |
| DataLoaders.ConcatenatedDataLoader.NumSamples | deepreg/dataset/loader/interface.py:444-446 | the total is defined exactly when every child's count is, and bounds every child's count |
| DataLoaders.ConcatenatedDataLoader.Close | deepreg/dataset/loader/interface.py:456-458 | each child is closed once per occurrence in the list. The children's own `close` calls append them to the shared close log in list order. No child's sample count changes |
| DataLoaders.NewConcatenatedDataLoader | deepreg/dataset/loader/interface.py:429-434 | the empty list of loaders is rejected with its own error; otherwise a fresh loader holding the given children, with no `labeled`, `num_indices`, `sample_label` or seed of its own, and an empty close log |
| Preprocessing.Stages | deepreg/dataset/loader/interface.py:65-114 | resize comes first. A shuffle stage sized `batch_size * shuffle_buffer_num_batch` and reshuffled each iteration exists exactly when training with a positive factor, and comes second. Repeat exists exactly when asked for. There is exactly one batch stage, dropping the remainder exactly when training, after any shuffle or repeat and followed by prefetch. The affine stage exists exactly when training, and comes last. There are no other stages: the length is three plus one per optional stage present |
| Preprocessing.LoaderStages | deepreg/dataset/loader/interface.py:84-92 | a loader's pipeline starts with a resize to that loader's own 3-D moving and fixed shapes |
| Preprocessing.BatchesKeepEverything | deepreg/dataset/loader/interface.py:101 | batching that keeps the remainder loses no record: the batches concatenate back into the stream, none is empty, and only the last may be short |
| Preprocessing.BatchesDropRemainder | deepreg/dataset/loader/interface.py:101 | batching that drops the remainder yields only batches of exactly the batch size, forming a prefix of the stream; fewer than one batch is left over |
| Preprocessing.BatchStageMeaning | deepreg/dataset/loader/interface.py:96-105 | for training, the pipeline's batch stage has the requested size and yields only full batches; for evaluation, its batches concatenate back into the whole stream |
| Arrays.LastAxisAt | deepreg/dataset/loader/interface.py:408-409 | the channel slice `a[..., k]` has shape `a.shape[:-1]` and holds at every index the value of `a` at that index extended by `k` |
| Arrays.SeqMin | deepreg/dataset/loader/interface.py:317 | the minimum of a non-empty array is one of its values and bounds all of them from below |
| Arrays.SeqMax | deepreg/dataset/loader/interface.py:317 | the maximum of a non-empty array is one of its values and bounds all of them from above |
| Arrays.MinMaxOutOfRange | deepreg/dataset/loader/interface.py:317-321 | the range test on the minimum and maximum fails exactly when some value lies outside [0, 1] |
| Samples.CheckValueRanges | deepreg/dataset/loader/interface.py:311-322 | passes exactly when every present array is non-empty with all values in [0, 1]; otherwise reports the first failing array, all earlier ones having passed |
| Samples.Validate | deepreg/dataset/loader/interface.py:286-365 | passes exactly when the sample is acceptable: both images present, labels both present or both absent, every present array non-empty with values in [0, 1], 3-D images, 3-D or 4-D labels with equal channel counts. Missing images give the image error first, then a single present label gives the presence error, then a value failure gives a zero-size or range error. A label-count mismatch carries both counts |
| Samples.ValidateIgnoresLabelExtent | deepreg/dataset/loader/interface.py:324-353 | validation sees only the labels' values, their rank and their channel count (the last axis of a 4-D label; a 3-D label has one channel), so two label pairs that agree on these get the same verdict, whatever the other axes' sizes |
| Samples.SampleImageLabelAsWritten | deepreg/dataset/loader/interface.py:367-420 | the sampler as written. An error is reported exactly when validation fails, with the same error. Without labels there is one record with index -1 appended. With labels there is one record per chosen channel, each keeping the images and appending its channel index |
| Samples.AsWrittenBreaksLabelRank | deepreg/dataset/loader/interface.py:396-420 | two accepted samples with one 3-D and one single-channel 4-D label make the as-written sampler emit a fixed label that is not 3-D |
| Samples.LabelChannelProperties | deepreg/dataset/loader/interface.py:408-409 | the channel taken from a label is 3-D, keeps values in [0, 1], and for a 4-D label equals the slice at that channel |
| Samples.SampleImageLabel | deepreg/dataset/loader/interface.py:367-420 | the corrected sampler, with the same error behaviour and index layout. Every chosen channel exists in both labels. Each labeled record holds channel `k` of both labels, where a 3-D label is its own only channel |
| Samples.LabelChoiceFits | deepreg/dataset/loader/interface.py:355-365 | once the channel counts agree, every chosen label index names a channel of both labels, a 3-D label having only channel 0 |
| Samples.SampleImageLabelWellFormed | deepreg/dataset/loader/interface.py:367-420 | every record of the corrected sampler is well formed. Both images are 3-D in [0, 1], and the labels are both absent or both 3-D in [0, 1]. The record has one index more than the image indices, and the last index is -1 exactly when unlabeled |
| Samples.SampleAllChannels | deepreg/dataset/loader/interface.py:396-410 | when every channel is chosen for an accepted 4-D moving label, there is one record per channel of the moving label, and record `j` carries label index `j` |
| Samples.SampleImageLabelAgreesOnMovingLabel | deepreg/dataset/loader/interface.py:396-410 | the corrected and the as-written samplers fail on the same inputs with the same error, and yield the same number of records. Those records agree on the images, the moving label and the indices, and also on the fixed label whenever both labels have the same rank |
| Samples.CollectMeaning | deepreg/dataset/loader/interface.py:255-276 | the epoch over per-tuple outcomes ends without an error exactly when no tuple fails; otherwise its error is that of the first failing tuple, every earlier tuple having succeeded |
| Samples.CollectAppendOk | deepreg/dataset/loader/interface.py:269-276 | a successful tuple after an unfinished epoch appends exactly its records, and the epoch stays unfinished |
| Samples.CollectAppendErr | deepreg/dataset/loader/interface.py:269-276 | a failing tuple after an unfinished epoch ends it with that tuple's error and no further records |
| Samples.CollectStops | deepreg/dataset/loader/interface.py:255-276 | once a tuple has failed, the tuples after it change neither the records nor the error |
| Samples.CollectWellFormed | deepreg/dataset/loader/interface.py:269-276 | an epoch built from well-formed per-tuple records yields only well-formed records |
| Samples.Generate | deepreg/dataset/loader/interface.py:251-276 | one epoch of the generator: an empty stream yields nothing, and an error is always that of a tuple of the stream that fails, every earlier tuple having succeeded |
| Samples.GenerateWellFormed | deepreg/dataset/loader/interface.py:251-276 | every record yielded for a stream of index tuples is well formed, with one index more than each tuple's image indices. The generator is built on the corrected sampler (see Findings) |
| Samples.GenerateFinishes | deepreg/dataset/loader/interface.py:255-276 | an epoch ends without a validation error exactly when the images, and for a labeled loader the labels, fetched for every index tuple form an acceptable sample |
| Samples.SampleTuple | deepreg/dataset/loader/interface.py:255-276 | one iteration fails exactly when the fetched images, and the labels of a labeled loader, are not an acceptable sample. Otherwise every record is well formed, carries labels exactly when the loader is labeled, and an unlabeled tuple yields exactly one record. It uses the corrected sampler (see Findings) and the chooser's answer for this tuple's position |
| Samples.DataGenerator | deepreg/dataset/loader/interface.py:251-276 | the loop yields, in order, the records of every index tuple up to the first one whose sample fails validation, and reports that failure. The tuple at position `p` uses the label choice `picks(p)`, and each tuple is sampled by the corrected sampler (see Findings) |
| FileLoaders.FirstUnknown | deepreg/dataset/loader/interface.py:521 | nothing is reported exactly when every group id has an entry in the dictionary; otherwise the first id without one, all earlier ids having entries |
| FileLoaders.EmptyGroupIds | deepreg/dataset/loader/interface.py:521-525 | the ids listed are exactly the group ids whose groups are empty |
| FileLoaders.EmptyGroupIdsAppend | deepreg/dataset/loader/interface.py:521-525 | extending the id list by one id extends the list of empty groups by that id exactly when its group is empty, so the empty groups are listed in the order of the ids, as the source's list comprehension collects them |
| FileLoaders.FileLoader.constructor | deepreg/dataset/loader/interface.py:466-477 | the loader stores its directory, name and `grouped` flag as given, and starts with neither group ids nor a group dictionary |
| FileLoaders.FileLoader.GetNumGroups | deepreg/dataset/loader/interface.py:511-513 | an ungrouped loader is an error, as is a group structure not yet set; otherwise the number of group ids |
| FileLoaders.FileLoader.GetNumImagesPerGroup | deepreg/dataset/loader/interface.py:515-527 | an ungrouped loader is the not-grouped error. An unset id list or dictionary is the structure error, and an empty id list the no-groups error. The first id missing from the dictionary gives the unknown-group error for that id. Otherwise, when any group is empty, the result is the empty-groups error listing the empty groups in id order. Only when none of these holds is the result one count per group id, in order, each the size of that group and at least one |

## Left out

- The TensorFlow dataset machinery is left out: `from_generator`, the output types and shapes of `get_dataset`, parallel map, prefetch buffers, and the `concatenate` of `ConcatenatedDataLoader.get_dataset`. `Stages` records only which stages are chained and with which parameters.
- `resize_inputs` and `AffineTransformation3D` are left out. They are not part of this model and appear only as stage descriptors.
- `get_label_indices` is not part of this model. It is the parameter `pick` of the samplers, constrained only to return channel indices that are in range. In the generator, `picks(p)` is the chooser's answer for the tuple at position `p` of the stream, so different tuples may choose differently; how the seed and the random state produce those answers is not modelled.
- `get_data` and file access are left out. The arrays for an index are parameters (`Backends`).
- The division of images by 255 is left out. Images are taken as already scaled, because floating-point division is not modelled.
- Conversion of the indices to `float32` is not modelled. The indices stay integers.
- Floating-point semantics are not modelled. Array values are reals, so NaN is not modelled.
- Error messages and their text, including the image indices that Python formats into them, are left out. Each error is identified by its kind and the data it names.
- The abstract methods `moving_image_shape`, `fixed_image_shape`, `num_samples`, `get_dataset`, `sample_index_generator`, `get_data`, `get_data_ids`, `get_num_images`, `set_group_structure` and `FileLoader.close` are left out. They only raise `NotImplementedError`. The sample index stream is a parameter of `DataGenerator`.
- A `ConcatenatedDataLoader` whose children are themselves concatenated loaders is not modelled. Children are `DataLoader`s.
- DataLoaders.DataLoader.Close: the base `close` does nothing. The model counts the calls and appends the loader to a ghost close log, standing for the order in which files are released, so that the concatenated loader's `close` can be specified.
- Samples.DataGenerator: the generator is modelled over the corrected sampler `SampleImageLabel`, not the sampler as written. The two differ only in the fixed label when the two labels have different ranks (see Findings and `SampleImageLabelAgreesOnMovingLabel`).
- DataLoaders.ConcatenatedDataLoader.NumSamples: Python's `sum` raises `TypeError` when a child's count is `None`. The model returns `None` instead.
- `np.min` on an empty array raises inside `validate_images_and_labels`. The model reports it as the `ZeroSizeArray` error of that array.
- Samples.Validate: an array's type is not checked (anything that is not `None` is taken to be an ndarray); only its shape and values are checked.

## Findings

| source | as written | input that shows it | evidently intended | confidence | as-written member | corrected member |
|---|---|---|---|---|---|---|
| deepreg/dataset/loader/interface.py:396-420 | validation only compares label counts, a 3-D label counting as one. The sampler then slices both labels along the last axis when the moving label is 4-D, and passes both through untouched otherwise | moving label of shape (1,1,1,1) with a 3-D fixed label of shape (1,1,1): the fixed "label" becomes the 2-D slice of its depth axis. A 3-D moving label with a fixed label of shape (1,1,1,1) emits a 4-D fixed label | each emitted label is a 3-D volume, a 3-D label serving as its own single channel | medium, not executed | Samples.AsWrittenBreaksLabelRank | Samples.SampleImageLabelWellFormed |
