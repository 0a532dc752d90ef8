# DataGenerator for 3D volumes, modelled in Dafny

The repository is one Keras `Sequence` subclass, `DataGenerator`
(`aug_data_generator.py`). It serves batches of volumetric images and their
label volumes to a training loop. At the end of each epoch it rebuilds its
index table `indexes` as `0..n-1`, shuffled when `shuffle` is set.
`__len__` is the number of whole batches per epoch, and `__getitem__(index)`
slices the batch's run of sample IDs out of the table. `__data_generation`
gathers those samples slot by slot into an `X` and a `y` buffer. When
`do_augmentation` is set, it then walks `aug_list`, rotating or flipping
both buffers alike. Finally, when `to_category` is set, it one-hot encodes
the labels.

This project models that core:

- `exceptions.dfy` (`Exceptions`): results and the Python exceptions the code
  can raise on its own account (zero batch size, a label lookup past the end,
  a missing `aug_list`, an out-of-range flip axis).
- `volume.dfy` (`Volume`): volumes are n-dimensional arrays (`Tensor`, a tree
  whose inner nodes hold the slices along the first axis). `np.flip` along an
  axis reverses the slices at that depth. `FlipPair` is `DataGenerator.flip`,
  including numpy's handling of negative axes and its error for an axis out
  of range.
- `batching.dfy` (`Batching`): `np.arange`, the permutation the shuffle
  produces, Python's slice semantics (negative and out-of-range bounds), the
  batch count and the per-batch ID list. `Shuffle` is an in-place
  Fisher-Yates pass whose swap partners are chosen nondeterministically, so
  any permutation may result.
- `augmentation.dfy` (`Augmentation`): the dispatch over `aug_list`. This
  includes the stateful `flip_axis`: a `'random'` setting is overwritten by
  the first drawn axis, and every later batch is flipped along that same axis.
- `generator.dfy` (`Generator`): the class `DataGenerator`. Its mutable state
  is the index table `indexes` (an array) and `flip_axis`. `OnEpochEnd`,
  `Gather` (the fill loop over the `X`/`y` buffers), `GenerateData` (fill loop
  plus augmentation loop) and `GetItem` are methods proved against the pure
  functions above.

Randomness, `scipy.ndimage.rotate` and `keras.utils.to_categorical` are
inputs to the model. `random.randint(1, 3)` is the parameter `randomAxis`
(constrained to 1..3). Plane rotation and categorical encoding are function
parameters of type `PlaneRotation` and `Categorical`.

## Model

| member | source | states |
|---|---|---|
| `Batching.BatchCount` | aug_data_generator.py:43-45 | `__len__` raises on a zero batch size and otherwise is the floor of `n / batch_size`: `count * bs <= n < (count + 1) * bs` |
| `Batching.FloorOfQuotient` | aug_data_generator.py:45 | flooring the true quotient `n / bs` gives integer division |
| `Generator.DataGenerator.Len` | aug_data_generator.py:43-45 | `__len__` of the generator: raises iff the batch size is zero, otherwise the number of whole batches in `data`; specified by `BatchCount` |
| `Batching.Range` | aug_data_generator.py:59 | `np.arange(n)` has `n` entries |
| `Batching.RangeAt` | aug_data_generator.py:59 | entry `i` of `np.arange(n)` is `i` |
| `Batching.RangeCount` | aug_data_generator.py:59 | every value in `0..n-1` occurs once in `np.arange(n)`, and no other value occurs |
| `Batching.PermutationFacts` | aug_data_generator.py:57-61 | a shuffled table has length `n`, holds only sample indices, repeats none and misses none |
| `Batching.Shuffle` | aug_data_generator.py:61 | the in-place shuffle leaves a permutation of the table it was given |
| `Batching.PySlice` | aug_data_generator.py:50 | Python slicing never gets longer than the sequence, contains only its elements, and is the plain subsequence for in-range bounds |
| `Batching.BatchIds` | aug_data_generator.py:50 | the ID list `indexes[index*bs:(index+1)*bs]` holds only entries of the table; specified by `BatchIdsInRange`, `BatchIdsAtMostBatchSize` and `BatchesDisjoint` |
| `Batching.BatchIdsAtMostBatchSize` | aug_data_generator.py:50 | for any index, even a negative or too-large one, the ID list has at most `batch_size` entries |
| `Batching.BatchIdsInRange` | aug_data_generator.py:47-50 | for `0 <= index < __len__()` the ID list is exactly `indexes[index*bs .. (index+1)*bs)`, with `batch_size` entries |
| `Batching.BatchIdsAreSamples` | aug_data_generator.py:50 | with a permuted table every ID in a batch lies in `[0, n)` |
| `Batching.BatchIdsDistinct` | aug_data_generator.py:50 | no batch below `__len__` lists one sample twice |
| `Batching.BatchesDisjoint` | aug_data_generator.py:50 | the ID lists of two different batches below `__len__` share no sample, so no sample is served twice in an epoch |
| `Batching.LeadingPositionServed` | aug_data_generator.py:43-50 | each of the table's first `__len__() * bs` positions is served by batch `p / bs`, at slot `p % bs` |
| `Batching.TailNeverServed` | aug_data_generator.py:43-50 | the samples at the table's last `n % bs` positions are served by no batch of the epoch |
| `Generator.DataGenerator.EpochBatches` | aug_data_generator.py:43-50 | under the class invariant, every batch number below `Len()` lists `batch_size` distinct samples, each in `[0, len(data))` |
| `Volume.NormalizeAxis` | aug_data_generator.py:80 | numpy accepts exactly the axes in `[-ndim, ndim)`, and a negative axis counts from the end |
| `Volume.ReverseAt` | aug_data_generator.py:80 | reversal keeps the length and puts element `len-1-k` at position `k` |
| `Volume.ReverseInvolutive` | aug_data_generator.py:80 | reversing twice restores the sequence |
| `Volume.AtInBounds` | aug_data_generator.py:80 | every in-bounds index of a dense array reaches a voxel |
| `Volume.Flip` | aug_data_generator.py:80-81 | `np.flip` along one axis keeps the outer extent; specified by `FlipAt`, `FlipPreservesShape` and `FlipInvolutive` |
| `Volume.FlipPreservesShape` | aug_data_generator.py:80-81 | flipping keeps an array's shape |
| `Volume.FlipInvolutive` | aug_data_generator.py:80-81 | flipping twice along one axis restores the array |
| `Volume.FlipAt` | aug_data_generator.py:80-81 | the voxel at index `idx` of the flipped array is the voxel at `idx` mirrored along the flip axis; no other coordinate moves |
| `Volume.FlipPair` | aug_data_generator.py:79-83 | `flip` applies one axis to data and label, and raises `AxisError` exactly for axes outside `[-ndim, ndim)`; specified by `FlipPairSpec` |
| `Volume.FlipPairSpec` | aug_data_generator.py:79-83 | `flip` succeeds exactly for the axes numpy accepts. It keeps the shapes of data and label, mirrors both along the same axis, and flipping again restores the batch |
| `Augmentation.Rotate3` | aug_data_generator.py:63-77 | the three rotations of `rotation` in its order and planes, (1,2), (2,3), (3,1), each by its angle; the plane rotation (`scipy.ndimage.rotate`) is a parameter, so the rotation is specified only through `RotationKeepsShape` |
| `Augmentation.Rotation` | aug_data_generator.py:63-77 | the same `Rotate3` applied to data and label; the rotation is a parameter and keeps the order of the planes; specified by `RotationKeepsShape` |
| `Augmentation.RotationKeepsShape` | aug_data_generator.py:63-77 | data and label keep their shape through `rotation` whenever the plane rotation keeps shapes (`reshape=False`) |
| `Augmentation.ResolveFlip` | aug_data_generator.py:107-110 | one entry changes `flip_axis` only if it is `'flip'` and the field is `'random'`, and then to the drawn axis |
| `Augmentation.Step` | aug_data_generator.py:101-111 | one `aug_list` entry: only a `'flip'` with `flip_axis` set can raise (`AxisError`); entries other than `'rotate'`/`'flip'` leave the batch alone; specified by `AugmentInert` and `FlipPairSpec` |
| `Augmentation.Augment` | aug_data_generator.py:100-111 | the loop over `aug_list`, stopping at the first error, which can only be an `AxisError` from a `'flip'` entry; specified by `AugmentInert`, `AugmentKeepsShape` and `ResolvedAxisReused` |
| `Augmentation.FlipAfter` | aug_data_generator.py:107-110 | `flip_axis` after the loop is either unchanged or, from `'random'`, the drawn axis; specified by `FlipAfterResolves` |
| `Augmentation.FlipAfterResolves` | aug_data_generator.py:107-110 | `flip_axis` changes at most once: from `'random'` to the drawn axis, and only if `aug_list` has a `'flip'` entry |
| `Augmentation.ResolvedAxisReused` | aug_data_generator.py:107-111 | once `flip_axis` holds an axis, augmentation and the field depend on no further draw, so later batches reuse that axis |
| `Augmentation.AugmentInert` | aug_data_generator.py:100-111 | when every entry is inert (not `'rotate'`/`'flip'`, `'rotate'` without angles, or `'flip'` with `flip_axis` None), the batch and `flip_axis` come back unchanged |
| `Augmentation.AugmentKeepsShape` | aug_data_generator.py:63-111 | augmentation keeps the buffers' shape whenever the plane rotation does |
| `Generator.GatheredHasShape` | aug_data_generator.py:88-97 | a full batch gathered from same-shaped samples is a dense array with the batch axis in front |
| `Generator.NonBatchFlipKeepsPairs` | aug_data_generator.py:92-111 | after a flip along any axis that numpy normalises to a non-batch axis `k` (a spatial or the channel axis, given by its positive or its negative number), data slot `i` and label slot `i` are still both derived from sample `IDs[i]`, each flipped along axis `k - 1` of the sample |
| `Generator.DataGenerator.constructor` | aug_data_generator.py:19-41 | stores the settings and builds the first epoch's index table |
| `Generator.DataGenerator.OnEpochEnd` | aug_data_generator.py:57-61 | a fresh table that is a permutation of `0..n-1`, equal to `0..n-1` when shuffling is off; `flip_axis` unchanged |
| `Generator.DataGenerator.Gather` | aug_data_generator.py:88-97 | buffers of `batch_size` slots. It succeeds iff every ID has a label, and then `X[i] == data[IDs[i]]` and `y[i] == labels[IDs[i]]` for every `i` below the length of the ID list |
| `Generator.DataGenerator.AugmentationSkipped` | aug_data_generator.py:100-116 | with augmentation off or only inert entries, the result is the gathered batch (labels one-hot encoded if `to_category`) and `flip_axis` is unchanged |
| `Generator.DataGenerator.Finish` | aug_data_generator.py:100-118 | what `__data_generation` returns after gathering: never an error with augmentation off, and `TypeError` exactly when augmentation is on and `aug_list` is None; specified by `AugmentationSkipped` and the lemmas on `Augment` |
| `Generator.DataGenerator.FlipAxisAfter` | aug_data_generator.py:100-110 | `flip_axis` after `__data_generation` is unchanged or, from `'random'`, the drawn axis; specified by `FlipAfterResolves` and `RandomFlipIsSpatial` |
| `Generator.DataGenerator.RandomFlipIsSpatial` | aug_data_generator.py:88-111 | with three spatial dimensions, a `'random'` `flip_axis` met by a `'flip'` entry becomes an axis strictly between the batch axis 0 and the channel axis `NDim() - 1`, which numpy accepts |
| `Generator.DataGenerator.GenerateData` | aug_data_generator.py:85-118 | a missing label raises `IndexError` and leaves `flip_axis` alone. Otherwise the buffers are gathered as above, the result is the augmentation fold over `aug_list` followed by the optional encoding, and `flip_axis` is the resolved axis |
| `Generator.DataGenerator.GetItem` | aug_data_generator.py:47-55 | the batch is `GenerateData` applied to `indexes[index*bs:(index+1)*bs]` with Python slicing; the index table is kept |

## Left out

- `rotation`: the three `scipy.ndimage.rotate` calls are kept in their order and planes, but the interpolating rotation itself is a caller-supplied function (`PlaneRotation`). Its shape preservation is a hypothesis (`KeepsShape`), not a proof.
- `keras.utils.to_categorical` is a caller-supplied function (`Categorical`). Its float32 output type and class expansion are not modelled, and labels share the data's voxel type.
- Randomness: `random.randint(1, 3)` is the parameter `randomAxis`, supplied on every call and used only when drawn. `np.random.shuffle` is a nondeterministic Fisher-Yates pass. The random generators themselves are not modelled.
- The `keras.utils.Sequence` framework contract, dtypes, and numpy broadcasting when a sample is stored into a buffer slot. A sample of another shape is stored as it is.
- The unspecified contents of `np.empty` slots beyond the ID list are Dafny default values that no contract mentions.
- The unused `shift`/`zoom` imports and their settings, and the constructor's default argument values.
- The buffers' declared shape `(batch_size, *dim, n_channels)` is not enforced on stored samples. Of that shape, the model uses the leading extent `batch_size` (the number of slots of each buffer) and the number of dimensions, `len(dim) + 2`, which decides the flip axes numpy accepts.
- `aug_list` is modelled only as None or a sequence of strings. A plain string, which Python would iterate character by character without ever matching 'rotate' or 'flip', is not modelled.
- `rotate_angle` is modelled only as exactly three angles (`Angles`). A shorter sequence, which makes `rotation` raise IndexError when it reads the missing angle, is not modelled.
- `flip_axis` values other than None, `'random'` or an integer (a tuple of axes, other strings) are not modelled.
- `Batching.BatchCount`: batch sizes are natural numbers. A negative batch size is not modelled, and the quotient is the exact real quotient, not a 64-bit float (which differs only for more than 2^53 samples).
- Exceptions raised inside scipy, keras or numpy beyond those listed in `Exceptions` are not modelled.
