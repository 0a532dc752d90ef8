/** Volumes as n-dimensional arrays, and numpy's `flip` on them. */
module Volume {
  import opened Exceptions

  /** An n-dimensional array: an inner node holds the slices along its first
      axis, a leaf holds one voxel. */
  datatype Tensor<T> = Dim(items: seq<Tensor<T>>) | Scalar(value: T)

  /** A data buffer `X` together with its label buffer `y`. */
  datatype Batch<T> = Batch(x: Tensor<T>, y: Tensor<T>)

  function Reverse<X>(s: seq<X>): (r: seq<X>)
    ensures |r| == |s|
  {
    if s == [] then [] else Reverse(s[1..]) + [s[0]]
  }

  lemma {:induction false} ReverseAt<X>(s: seq<X>, k: nat)
    requires k < |s|
    ensures Reverse(s)[k] == s[|s| - 1 - k]
  {
    if k < |s| - 1 {
      ReverseAt(s[1..], k);
    } else if |s| > 1 {
      ReverseAt(s[1..], 0);
    }
  }

  lemma ReverseInvolutive<X>(s: seq<X>)
    ensures Reverse(Reverse(s)) == s
  {
    if s != [] {
      ReverseAt(s, 0);
      forall k | 0 <= k < |s|
        ensures Reverse(Reverse(s))[k] == s[k]
      {
        ReverseAt(s, |s| - 1 - k);
        ReverseAt(Reverse(s), k);
      }
    }
  }

  /** `np.flip(t, axis)` for an axis already known to lie in range: the order
      of the slices at depth `axis` is reversed, everything else is kept. */
  function Flip<T>(t: Tensor<T>, axis: nat): (r: Tensor<T>)
    ensures r.Dim? <==> t.Dim?
    ensures t.Dim? ==> |r.items| == |t.items|
    decreases t
  {
    match t
    case Scalar(_) => t
    case Dim(items) =>
      if axis == 0 then Dim(Reverse(items))
      else Dim(seq(|items|, i requires 0 <= i < |items| => Flip(items[i], axis - 1)))
  }

  /** `t` is a dense array whose extents are `shape`. */
  predicate HasShape<T>(t: Tensor<T>, shape: seq<nat>)
    decreases t
  {
    if shape == [] then t.Scalar?
    else
      t.Dim? && |t.items| == shape[0] &&
      forall i :: 0 <= i < |t.items| ==> HasShape(t.items[i], shape[1..])
  }

  predicate InBounds(idx: seq<int>, shape: seq<nat>)
  {
    |idx| == |shape| && forall d :: 0 <= d < |idx| ==> 0 <= idx[d] < shape[d]
  }

  /** The voxel at a full index, if the index leads to a leaf. */
  function At<T>(t: Tensor<T>, idx: seq<int>): Option<T>
    decreases t
  {
    match t
    case Scalar(v) => if idx == [] then Some(v) else None
    case Dim(items) =>
      if idx != [] && 0 <= idx[0] < |items| then At(items[idx[0]], idx[1..]) else None
  }

  /** The index that `idx` is mirrored to by reversing axis `axis`. */
  function Mirror(idx: seq<int>, axis: nat, shape: seq<nat>): seq<int>
    requires axis < |idx| && axis < |shape|
  {
    idx[axis := shape[axis] - 1 - idx[axis]]
  }

  lemma {:induction false} AtInBounds<T>(t: Tensor<T>, shape: seq<nat>, idx: seq<int>)
    requires HasShape(t, shape) && InBounds(idx, shape)
    ensures At(t, idx).Some?
    decreases t
  {
    if shape != [] {
      AtInBounds(t.items[idx[0]], shape[1..], idx[1..]);
    }
  }

  lemma {:induction false} FlipPreservesShape<T>(t: Tensor<T>, axis: nat, shape: seq<nat>)
    requires HasShape(t, shape)
    ensures HasShape(Flip(t, axis), shape)
    decreases t
  {
    if shape != [] {
      var items := t.items;
      if axis == 0 {
        forall i | 0 <= i < |items|
          ensures HasShape(Reverse(items)[i], shape[1..])
        {
          ReverseAt(items, i);
        }
        if items != [] {
          ReverseAt(items, 0);
        }
      } else {
        forall i | 0 <= i < |items|
          ensures HasShape(Flip(items[i], axis - 1), shape[1..])
        {
          FlipPreservesShape(items[i], axis - 1, shape[1..]);
        }
      }
    }
  }

  lemma {:induction false} FlipInvolutive<T>(t: Tensor<T>, axis: nat)
    ensures Flip(Flip(t, axis), axis) == t
    decreases t
  {
    match t
    case Scalar(_) =>
    case Dim(items) =>
      if axis == 0 {
        ReverseInvolutive(items);
      } else {
        var once := seq(|items|, i requires 0 <= i < |items| => Flip(items[i], axis - 1));
        var twice := seq(|once|, i requires 0 <= i < |once| => Flip(once[i], axis - 1));
        forall i | 0 <= i < |items|
          ensures twice[i] == items[i]
        {
          FlipInvolutive(items[i], axis - 1);
        }
        assert twice == items;
      }
  }

  /** Flipping reverses the order of the voxels along `axis` and moves nothing
      along any other axis. */
  lemma {:induction false} FlipAt<T>(t: Tensor<T>, axis: nat, shape: seq<nat>, idx: seq<int>)
    requires HasShape(t, shape) && axis < |shape| && InBounds(idx, shape)
    ensures InBounds(Mirror(idx, axis, shape), shape)
    ensures At(Flip(t, axis), idx) == At(t, Mirror(idx, axis, shape))
    ensures At(Flip(t, axis), idx).Some?
    decreases t
  {
    var items := t.items;
    var m := Mirror(idx, axis, shape);
    if axis == 0 {
      ReverseAt(items, idx[0]);
      assert m[1..] == idx[1..];
    } else {
      FlipAt(items[idx[0]], axis - 1, shape[1..], idx[1..]);
      assert m[1..] == Mirror(idx[1..], axis - 1, shape[1..]);
    }
    AtInBounds(t, shape, m);
  }

  /** numpy's normalisation of an axis argument for an array with `ndim`
      dimensions: a negative axis counts from the end; anything else out of
      range is an error. */
  function NormalizeAxis(axis: int, ndim: nat): (r: Option<nat>)
    ensures r.Some? <==> -(ndim as int) <= axis < ndim
    ensures r.Some? ==> r.value < ndim && (r.value == axis || r.value == axis + ndim)
  {
    if 0 <= axis < ndim then Some(axis)
    else if -(ndim as int) <= axis < 0 then Some(axis + ndim)
    else None
  }

  /** `DataGenerator.flip`: `np.flip` applied with the same axis to the data
      and to the label buffer, both of which have `ndim` dimensions. */
  function FlipPair<T>(b: Batch<T>, axis: int, ndim: nat): (r: Result<Batch<T>>)
    ensures r.Raise? <==> r == Raise(AxisError)
    ensures r.Ok? <==> -(ndim as int) <= axis < ndim
  {
    match NormalizeAxis(axis, ndim)
    case None => Raise(AxisError)
    case Some(k) => Ok(Batch(Flip(b.x, k), Flip(b.y, k)))
  }

  /** The flip succeeds exactly for the axes numpy accepts; it keeps both
      buffers' shapes, mirrors both along one and the same axis, and flipping
      again restores the batch. */
  lemma FlipPairSpec<T>(b: Batch<T>, axis: int, shape: seq<nat>, idx: seq<int>)
    requires HasShape(b.x, shape) && HasShape(b.y, shape)
    ensures FlipPair(b, axis, |shape|).Ok? <==> -|shape| <= axis < |shape|
    ensures FlipPair(b, axis, |shape|).Ok? ==>
      var k := if axis < 0 then axis + |shape| else axis;
      var f := FlipPair(b, axis, |shape|).value;
      && HasShape(f.x, shape) && HasShape(f.y, shape)
      && FlipPair(f, axis, |shape|) == Ok(b)
      && (InBounds(idx, shape) ==>
            && At(f.x, idx) == At(b.x, Mirror(idx, k, shape))
            && At(f.y, idx) == At(b.y, Mirror(idx, k, shape)))
  {
    var nk := NormalizeAxis(axis, |shape|);
    if nk.Some? {
      var k := nk.value;
      FlipPreservesShape(b.x, k, shape);
      FlipPreservesShape(b.y, k, shape);
      if InBounds(idx, shape) {
        FlipAt(b.x, k, shape, idx);
        FlipAt(b.y, k, shape, idx);
      }
      FlipInvolutive(b.x, k);
      FlipInvolutive(b.y, k);
    }
  }
}
