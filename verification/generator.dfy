/** The `DataGenerator` of aug_data_generator.py: an epoch's index table, the
    batches cut from it, and their gathering and augmentation. */
module Generator {
  import opened Exceptions
  import opened Volume
  import opened Batching
  import opened Augmentation

  /** `keras.utils.to_categorical(y, num_classes)`, which is not part of this
      model: callers supply it. */
  type Categorical<!T> = (Tensor<T>, nat) -> Tensor<T>

  /** Slot `i` of both buffers holds sample `ids[i]`, data and label alike. */
  ghost predicate Gathered<T>(xs: seq<Tensor<T>>, ys: seq<Tensor<T>>, ids: seq<int>,
                              data: seq<Tensor<T>>, labels: seq<Tensor<T>>)
  {
    && |ids| <= |xs| && |ids| <= |ys|
    && forall i :: 0 <= i < |ids| ==>
         0 <= ids[i] < |data| && 0 <= ids[i] < |labels| &&
         xs[i] == data[ids[i]] && ys[i] == labels[ids[i]]
  }

  /** A batch gathered from samples that all have one shape is a dense array
      with the batch axis in front. */
  lemma GatheredHasShape<T>(xs: seq<Tensor<T>>, ys: seq<Tensor<T>>, ids: seq<int>,
                            data: seq<Tensor<T>>, labels: seq<Tensor<T>>, sample: seq<nat>)
    requires Gathered(xs, ys, ids, data, labels) && |ids| == |xs| == |ys|
    requires forall k :: 0 <= k < |data| ==> HasShape(data[k], sample)
    requires forall k :: 0 <= k < |labels| ==> HasShape(labels[k], sample)
    ensures HasShape(Dim(xs), [|xs|] + sample) && HasShape(Dim(ys), [|ys|] + sample)
  {
  }

  /** A flip along any axis but the batch axis (a spatial or the channel
      axis, named by its positive or its negative number) leaves every sample in its slot: afterwards data slot `i` and
      label slot `i` are still the two halves of sample `ids[i]`, each
      flipped along the same axis. */
  lemma NonBatchFlipKeepsPairs<T>(xs: seq<Tensor<T>>, ys: seq<Tensor<T>>, ids: seq<int>,
                                 data: seq<Tensor<T>>, labels: seq<Tensor<T>>, axis: int, ndim: nat)
    requires Gathered(xs, ys, ids, data, labels)
    requires NormalizeAxis(axis, ndim).Some? && NormalizeAxis(axis, ndim).value >= 1
    ensures FlipPair(Batch(Dim(xs), Dim(ys)), axis, ndim).Ok?
    ensures forall i :: 0 <= i < |ids| ==>
      var k := NormalizeAxis(axis, ndim).value;
      && FlipPair(Batch(Dim(xs), Dim(ys)), axis, ndim).value.x.items[i] == Flip(data[ids[i]], k - 1)
      && FlipPair(Batch(Dim(xs), Dim(ys)), axis, ndim).value.y.items[i] == Flip(labels[ids[i]], k - 1)
  {
  }

  class DataGenerator<T> {
    const dim: seq<nat>
    const batchSize: nat
    const data: seq<Tensor<T>>
    const labels: seq<Tensor<T>>
    const nChannels: nat
    const nClasses: nat
    const shuffle: bool
    const toCategory: bool
    const doAugmentation: bool
    const augList: Option<seq<string>>
    const rotateAngle: Option<Angles>
    var flipAxis: FlipAxis
    var indexes: array<int>

    /** The index table lists every sample exactly once, and in order when
        shuffling is off. */
    ghost predicate Valid()
      reads this, indexes
    {
      && IsIndexPermutation(indexes[..], |data|)
      && (!shuffle ==> indexes[..] == Range(|data|))
    }

    /** Dimensions of the `X`/`y` buffers: the batch axis, `dim`, channels. */
    function NDim(): nat
    {
      |dim| + 2
    }

    constructor (data: seq<Tensor<T>>, labels: seq<Tensor<T>>, batchSize: nat, dim: seq<nat>,
                 nChannels: nat, nClasses: nat, shuffle: bool, toCategory: bool,
                 doAugmentation: bool, augList: Option<seq<string>>, flipAxis: FlipAxis,
                 rotateAngle: Option<Angles>)
      ensures Valid() && fresh(indexes)
      ensures this.data == data && this.labels == labels && this.batchSize == batchSize
      ensures this.dim == dim && this.nChannels == nChannels && this.nClasses == nClasses
      ensures this.shuffle == shuffle && this.toCategory == toCategory
      ensures this.doAugmentation == doAugmentation && this.augList == augList
      ensures this.flipAxis == flipAxis && this.rotateAngle == rotateAngle
    {
      this.dim := dim;
      this.batchSize := batchSize;
      this.data := data;
      this.labels := labels;
      this.nChannels := nChannels;
      this.nClasses := nClasses;
      this.shuffle := shuffle;
      this.toCategory := toCategory;
      this.doAugmentation := doAugmentation;
      this.augList := augList;
      this.rotateAngle := rotateAngle;
      this.flipAxis := flipAxis;
      this.indexes := new int[0];
      new;
      OnEpochEnd();
    }

    /** `__len__`: the number of batches per epoch. */
    function Len(): (r: Result<nat>)
      ensures r.Ok? <==> batchSize > 0
      ensures r.Ok? ==> r.value * batchSize <= |data| < (r.value + 1) * batchSize
    {
      BatchCount(|data|, batchSize)
    }

    /** `on_epoch_end`: a fresh table 0..n-1, shuffled in place when
        `shuffle` is set. */
    method OnEpochEnd()
      modifies this
      ensures Valid() && fresh(indexes)
      ensures !shuffle ==> forall i :: 0 <= i < |data| ==> indexes[i] == i
      ensures flipAxis == old(flipAxis)
    {
      indexes := new int[|data|](i => i);
      forall i | 0 <= i < |data|
        ensures indexes[..][i] == Range(|data|)[i]
      {
        RangeAt(|data|, i);
      }
      assert indexes[..] == Range(|data|);
      if shuffle {
        Shuffle(indexes);
      }
    }

    /** The gather loop of `__data_generation`: two buffers of `batch_size`
        slots, slot `i` filled from sample `ids[i]`; `ok` is false when a
        label lookup runs past the end of the labels. */
    method Gather(ids: seq<int>) returns (xs: array<Tensor<T>>, ys: array<Tensor<T>>, ok: bool)
      requires |ids| <= batchSize
      requires forall i :: 0 <= i < |ids| ==> 0 <= ids[i] < |data|
      ensures xs.Length == batchSize && ys.Length == batchSize
      ensures ok <==> forall i :: 0 <= i < |ids| ==> ids[i] < |labels|
      ensures ok ==> Gathered(xs[..], ys[..], ids, data, labels)
    {
      xs := new Tensor<T>[batchSize];
      ys := new Tensor<T>[batchSize];
      var i := 0;
      while i < |ids|
        invariant 0 <= i <= |ids|
        invariant forall k :: 0 <= k < i ==> ids[k] < |labels|
        invariant forall k :: 0 <= k < i ==> xs[k] == data[ids[k]] && ys[k] == labels[ids[k]]
      {
        xs[i] := data[ids[i]];
        if ids[i] >= |labels| {
          return xs, ys, false;
        }
        ys[i] := labels[ids[i]];
        i := i + 1;
      }
      ok := true;
    }

    /** What `__data_generation` returns for the gathered buffers, when it
        starts from the given `flip_axis`. */
    function Finish(b: Batch<T>, flip: FlipAxis, randomAxis: int, rotate: PlaneRotation<T>,
                    categorical: Categorical<T>): (r: Result<Batch<T>>)
      ensures !doAugmentation ==> r.Ok?
      ensures r == Raise(TypeError) <==> doAugmentation && augList.None?
    {
      var augmented :=
        if !doAugmentation then Ok(b)
        else if augList.None? then Raise(TypeError)
        else Augment(augList.value, b, flip, rotateAngle, NDim(), randomAxis, rotate);
      match augmented
      case Raise(e) => Raise(e)
      case Ok(a) => Ok(if toCategory then Batch(a.x, categorical(a.y, nClasses)) else a)
    }

    /** `flip_axis` after `__data_generation` ran its augmentation step. */
    function FlipAxisAfter(flip: FlipAxis, randomAxis: int): (r: FlipAxis)
      ensures r == flip || (flip == RandomAxis && r == Axis(randomAxis))
    {
      if doAugmentation && augList.Some? then FlipAfter(augList.value, flip, randomAxis) else flip
    }

    /** The gathered batch comes out of the augmentation step unchanged, and
        `flip_axis` with it, when augmentation is off or every `aug_list`
        entry is inert (neither 'rotate' nor 'flip', a 'rotate' without
        angles, a 'flip' while `flip_axis` is None). */
    lemma AugmentationSkipped(b: Batch<T>, flip: FlipAxis, randomAxis: int, rotate: PlaneRotation<T>,
                              categorical: Categorical<T>)
      requires !doAugmentation ||
        (augList.Some? && forall i :: 0 <= i < |augList.value| ==> Inert(augList.value[i], flip, rotateAngle))
      ensures Finish(b, flip, randomAxis, rotate, categorical) ==
        Ok(if toCategory then Batch(b.x, categorical(b.y, nClasses)) else b)
      ensures FlipAxisAfter(flip, randomAxis) == flip
    {
      if doAugmentation {
        AugmentInert(augList.value, b, flip, rotateAngle, NDim(), randomAxis, rotate);
      }
    }

    /** With the default three spatial dimensions, a 'random' `flip_axis`
        met by a 'flip' entry becomes the drawn axis, a spatial axis of the
        buffers (never the batch axis 0 nor the channel axis `NDim() - 1`),
        which numpy accepts; `GenerateData` leaves `flipAxis` at this value. */
    lemma RandomFlipIsSpatial(b: Batch<T>, randomAxis: int)
      requires |dim| == 3 && 1 <= randomAxis <= 3
      requires doAugmentation && augList.Some? && "flip" in augList.value
      ensures FlipAxisAfter(RandomAxis, randomAxis).Axis?
      ensures 0 < FlipAxisAfter(RandomAxis, randomAxis).axis < NDim() - 1
      ensures FlipPair(b, FlipAxisAfter(RandomAxis, randomAxis).axis, NDim()).Ok?
    {
      FlipAfterResolves(augList.value, RandomAxis, randomAxis);
    }

    /** Under the invariant, every batch number below `__len__` lists
        `batch_size` distinct samples, each in `[0, len(data))`. */
    lemma EpochBatches(index: int)
      requires Valid() && Len().Ok? && 0 <= index < Len().value
      ensures |BatchIds(indexes[..], index, batchSize)| == batchSize
      ensures forall i :: 0 <= i < batchSize ==> 0 <= BatchIds(indexes[..], index, batchSize)[i] < |data|
      ensures forall i, j :: 0 <= i < j < batchSize ==>
        BatchIds(indexes[..], index, batchSize)[i] != BatchIds(indexes[..], index, batchSize)[j]
    {
      PermutationFacts(indexes[..], |data|);
      BatchIdsInRange(indexes[..], index, batchSize);
      BatchIdsAreSamples(indexes[..], |data|, index, batchSize);
      BatchIdsDistinct(indexes[..], |data|, batchSize, index);
      var ids := BatchIds(indexes[..], index, batchSize);
      assert forall i :: 0 <= i < batchSize ==> ids[i] in ids;
    }

    /** `__data_generation`: gather, then augment, then one-hot encode.
        `randomAxis` is what `random.randint(1, 3)` yields if it is called. */
    method GenerateData(ids: seq<int>, randomAxis: int, rotate: PlaneRotation<T>,
                        categorical: Categorical<T>)
      returns (r: Result<Batch<T>>, ghost xs: seq<Tensor<T>>, ghost ys: seq<Tensor<T>>)
      requires |ids| <= batchSize
      requires forall i :: 0 <= i < |ids| ==> 0 <= ids[i] < |data|
      requires 1 <= randomAxis <= 3
      modifies this`flipAxis
      ensures |xs| == batchSize && |ys| == batchSize
      ensures (exists i :: 0 <= i < |ids| && ids[i] >= |labels|) ==>
        r == Raise(IndexError) && flipAxis == old(flipAxis)
      ensures (forall i :: 0 <= i < |ids| ==> ids[i] < |labels|) ==>
        && Gathered(xs, ys, ids, data, labels)
        && r == Finish(Batch(Dim(xs), Dim(ys)), old(flipAxis), randomAxis, rotate, categorical)
        && flipAxis == FlipAxisAfter(old(flipAxis), randomAxis)
    {
      var bufX, bufY, ok := Gather(ids);
      xs, ys := bufX[..], bufY[..];
      if !ok {
        return Raise(IndexError), xs, ys;
      }
      var b := Batch(Dim(bufX[..]), Dim(bufY[..]));
      var cur := b;
      if doAugmentation {
        if augList.None? {
          return Raise(TypeError), xs, ys;
        }
        var augs := augList.value;
        var i := 0;
        while i < |augs|
          invariant 0 <= i <= |augs|
          invariant Augment(augs, b, old(flipAxis), rotateAngle, NDim(), randomAxis, rotate) ==
                    Augment(augs[i..], cur, flipAxis, rotateAngle, NDim(), randomAxis, rotate)
          invariant flipAxis == FlipAfter(augs[..i], old(flipAxis), randomAxis)
        {
          FlipAfterResolves(augs[..i], old(flipAxis), randomAxis);
          FlipAfterResolves(augs[..i + 1], old(flipAxis), randomAxis);
          assert augs[..i + 1] == augs[..i] + [augs[i]];
          assert augs[i..][1..] == augs[i + 1..];
          var aug := augs[i];
          if aug == "rotate" {
            if rotateAngle.Some? {
              cur := Rotation(cur, rotateAngle.value, rotate);
            }
          } else if aug == "flip" {
            if flipAxis != NoFlip {
              if flipAxis == RandomAxis {
                flipAxis := Axis(randomAxis);
              }
              var flipped := FlipPair(cur, flipAxis.axis, NDim());
              if flipped.Raise? {
                FlipAfterResolves(augs, old(flipAxis), randomAxis);
                return Raise(flipped.exception), xs, ys;
              }
              cur := flipped.value;
            }
          }
          i := i + 1;
        }
        assert augs[..i] == augs;
      }
      if toCategory {
        cur := Batch(cur.x, categorical(cur.y, nClasses));
      }
      r := Ok(cur);
    }

    /** `__getitem__`: the batch numbered `index`, built from the ID list
        `indexes[index*batch_size:(index+1)*batch_size]`. */
    method GetItem(index: int, randomAxis: int, rotate: PlaneRotation<T>, categorical: Categorical<T>)
      returns (r: Result<Batch<T>>, ghost xs: seq<Tensor<T>>, ghost ys: seq<Tensor<T>>)
      requires Valid()
      requires 1 <= randomAxis <= 3
      modifies this`flipAxis
      ensures Valid() && indexes == old(indexes)
      ensures |xs| == batchSize && |ys| == batchSize
      ensures (exists i :: 0 <= i < |BatchIds(indexes[..], index, batchSize)| &&
                           BatchIds(indexes[..], index, batchSize)[i] >= |labels|) ==>
        r == Raise(IndexError) && flipAxis == old(flipAxis)
      ensures (forall i :: 0 <= i < |BatchIds(indexes[..], index, batchSize)| ==>
                           BatchIds(indexes[..], index, batchSize)[i] < |labels|) ==>
        && Gathered(xs, ys, BatchIds(indexes[..], index, batchSize), data, labels)
        && r == Finish(Batch(Dim(xs), Dim(ys)), old(flipAxis), randomAxis, rotate, categorical)
        && flipAxis == FlipAxisAfter(old(flipAxis), randomAxis)
    {
      var lo := index * batchSize;
      var hi := (index + 1) * batchSize;
      var ids := PySlice(indexes[..], lo, hi);
      BatchIdsAtMostBatchSize(indexes[..], index, batchSize);
      BatchIdsAreSamples(indexes[..], |data|, index, batchSize);
      assert forall i :: 0 <= i < |ids| ==> ids[i] in BatchIds(indexes[..], index, batchSize);
      r, xs, ys := GenerateData(ids, randomAxis, rotate, categorical);
    }
  }
}
