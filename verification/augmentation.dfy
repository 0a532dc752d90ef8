/** The augmentation step of `__data_generation`: the pass over `aug_list`
    that rotates or flips the gathered data and label buffers. */
module Augmentation {
  import opened Exceptions
  import opened Volume

  /** The generator's `flip_axis` setting. */
  datatype FlipAxis =
    | NoFlip          // None: the 'flip' entries do nothing
    | RandomAxis      // 'random': the first flip draws the axis and keeps it
    | Axis(axis: int) // a fixed axis, as given to `np.flip`

  /** `rotate_angle`: the angles about the x, y and z axes. */
  datatype Angles = Angles(x: real, y: real, z: real)

  /** `scipy.ndimage.rotate(t, axes=(p, q), angle=a, reshape=False)`, which
      is not part of this model: callers supply it. */
  type PlaneRotation<!T> = (Tensor<T>, nat, nat, real) -> Tensor<T>

  /** A plane rotation that keeps every array of the given shape at that
      shape, as `reshape=False` promises. */
  ghost predicate KeepsShape<T(!new)>(rotate: PlaneRotation<T>, shape: seq<nat>)
  {
    forall t, p, q, a :: HasShape(t, shape) ==> HasShape(rotate(t, p, q, a), shape)
  }

  /** The three rotations of `DataGenerator.rotation`, in its order: in the
      plane of axes (1,2), then (2,3), then (3,1). */
  function Rotate3<T>(t: Tensor<T>, angles: Angles, rotate: PlaneRotation<T>): Tensor<T>
  {
    rotate(rotate(rotate(t, 1, 2, angles.x), 2, 3, angles.y), 3, 1, angles.z)
  }

  /** `DataGenerator.rotation`: the same rotations applied to data and label. */
  function Rotation<T>(b: Batch<T>, angles: Angles, rotate: PlaneRotation<T>): Batch<T>
  {
    Batch(Rotate3(b.x, angles, rotate), Rotate3(b.y, angles, rotate))
  }

  /** Rotation keeps both buffers' shape when each plane rotation does. */
  lemma RotationKeepsShape<T(!new)>(b: Batch<T>, angles: Angles, rotate: PlaneRotation<T>, shape: seq<nat>)
    requires KeepsShape(rotate, shape)
    requires HasShape(b.x, shape) && HasShape(b.y, shape)
    ensures HasShape(Rotation(b, angles, rotate).x, shape)
    ensures HasShape(Rotation(b, angles, rotate).y, shape)
  {
  }

  /** `flip_axis` after one entry of `aug_list`: a 'flip' entry met while it
      is 'random' replaces it with the drawn axis. */
  function ResolveFlip(aug: string, flip: FlipAxis, randomAxis: int): (r: FlipAxis)
    ensures r != flip ==> aug == "flip" && flip == RandomAxis && r == Axis(randomAxis)
  {
    if aug == "flip" && flip == RandomAxis then Axis(randomAxis) else flip
  }

  /** One entry of `aug_list` applied to the batch; `flip` is `flip_axis`
      before the entry and `randomAxis` the value `random.randint(1, 3)`
      yields if it is drawn. */
  function Step<T>(aug: string, b: Batch<T>, flip: FlipAxis, rotateAngle: Option<Angles>,
                   ndim: nat, randomAxis: int, rotate: PlaneRotation<T>): (r: Result<Batch<T>>)
    ensures r.Raise? ==> r == Raise(AxisError) && aug == "flip" && flip != NoFlip
    ensures aug != "rotate" && aug != "flip" ==> r == Ok(b)
  {
    if aug == "rotate" then
      if rotateAngle.Some? then Ok(Rotation(b, rotateAngle.value, rotate)) else Ok(b)
    else if aug == "flip" then
      match flip
      case NoFlip => Ok(b)
      case RandomAxis => FlipPair(b, randomAxis, ndim)
      case Axis(k) => FlipPair(b, k, ndim)
    else Ok(b)
  }

  /** The loop over `aug_list`, entry by entry, stopping at the first error. */
  function Augment<T>(augs: seq<string>, b: Batch<T>, flip: FlipAxis, rotateAngle: Option<Angles>,
                      ndim: nat, randomAxis: int, rotate: PlaneRotation<T>): (r: Result<Batch<T>>)
    ensures r.Raise? ==> r == Raise(AxisError) && "flip" in augs && flip != NoFlip
    decreases |augs|
  {
    if augs == [] then Ok(b)
    else
      match Step(augs[0], b, flip, rotateAngle, ndim, randomAxis, rotate)
      case Raise(e) => Raise(e)
      case Ok(next) =>
        Augment(augs[1..], next, ResolveFlip(augs[0], flip, randomAxis), rotateAngle, ndim, randomAxis, rotate)
  }

  /** `flip_axis` after the loop over `aug_list`. An error can only come from
      a flip, which comes after the assignment, so the field is the same
      whether or not the loop stops early. */
  function FlipAfter(augs: seq<string>, flip: FlipAxis, randomAxis: int): (r: FlipAxis)
    ensures r == flip || (flip == RandomAxis && r == Axis(randomAxis))
    decreases |augs|
  {
    if augs == [] then flip else FlipAfter(augs[1..], ResolveFlip(augs[0], flip, randomAxis), randomAxis)
  }

  /** `flip_axis` changes at most once: from 'random' to the drawn axis, and
      only when `aug_list` holds a 'flip' entry. */
  lemma {:induction false} FlipAfterResolves(augs: seq<string>, flip: FlipAxis, randomAxis: int)
    ensures FlipAfter(augs, flip, randomAxis) ==
      if flip == RandomAxis && "flip" in augs then Axis(randomAxis) else flip
    decreases |augs|
  {
    if augs != [] {
      FlipAfterResolves(augs[1..], ResolveFlip(augs[0], flip, randomAxis), randomAxis);
      assert augs == [augs[0]] + augs[1..];
    }
  }

  /** Once `flip_axis` holds an axis, later batches use that axis: neither the
      augmentation nor the field depends on any further draw. */
  lemma {:induction false} ResolvedAxisReused<T>(augs: seq<string>, b: Batch<T>, k: int,
                                                 rotateAngle: Option<Angles>, ndim: nat,
                                                 draw1: int, draw2: int, rotate: PlaneRotation<T>)
    ensures Augment(augs, b, Axis(k), rotateAngle, ndim, draw1, rotate) ==
            Augment(augs, b, Axis(k), rotateAngle, ndim, draw2, rotate)
    ensures FlipAfter(augs, Axis(k), draw1) == Axis(k)
    decreases |augs|
  {
    if augs != [] {
      var s := Step(augs[0], b, Axis(k), rotateAngle, ndim, draw1, rotate);
      if s.Ok? {
        ResolvedAxisReused(augs[1..], s.value, k, rotateAngle, ndim, draw1, draw2, rotate);
      } else {
        ResolvedAxisReused(augs[1..], b, k, rotateAngle, ndim, draw1, draw2, rotate);
      }
    }
  }

  /** An entry that leaves the batch alone: neither 'rotate' nor 'flip', a
      'rotate' without `rotate_angle`, or a 'flip' while `flip_axis` is None. */
  predicate Inert(aug: string, flip: FlipAxis, rotateAngle: Option<Angles>)
  {
    (aug != "rotate" && aug != "flip")
    || (aug == "rotate" && rotateAngle.None?)
    || (aug == "flip" && flip == NoFlip)
  }

  /** When every entry is inert the batch comes back unchanged and so does
      `flip_axis`. */
  lemma {:induction false} AugmentInert<T>(augs: seq<string>, b: Batch<T>, flip: FlipAxis,
                                           rotateAngle: Option<Angles>, ndim: nat,
                                           randomAxis: int, rotate: PlaneRotation<T>)
    requires forall i :: 0 <= i < |augs| ==> Inert(augs[i], flip, rotateAngle)
    ensures Augment(augs, b, flip, rotateAngle, ndim, randomAxis, rotate) == Ok(b)
    ensures FlipAfter(augs, flip, randomAxis) == flip
    decreases |augs|
  {
    if augs != [] {
      assert Inert(augs[0], flip, rotateAngle);
      AugmentInert(augs[1..], b, flip, rotateAngle, ndim, randomAxis, rotate);
    }
  }

  /** Augmentation keeps the buffers' shape when the rotation does. */
  lemma {:induction false} AugmentKeepsShape<T(!new)>(augs: seq<string>, b: Batch<T>, flip: FlipAxis,
                                                rotateAngle: Option<Angles>, shape: seq<nat>,
                                                randomAxis: int, rotate: PlaneRotation<T>)
    requires HasShape(b.x, shape) && HasShape(b.y, shape)
    requires KeepsShape(rotate, shape)
    ensures Augment(augs, b, flip, rotateAngle, |shape|, randomAxis, rotate).Ok? ==>
      && HasShape(Augment(augs, b, flip, rotateAngle, |shape|, randomAxis, rotate).value.x, shape)
      && HasShape(Augment(augs, b, flip, rotateAngle, |shape|, randomAxis, rotate).value.y, shape)
    decreases |augs|
  {
    if augs != [] {
      var s := Step(augs[0], b, flip, rotateAngle, |shape|, randomAxis, rotate);
      if s.Ok? {
        var nk: Option<nat> := None;
        if augs[0] == "flip" && flip != NoFlip {
          nk := NormalizeAxis(if flip == RandomAxis then randomAxis else flip.axis, |shape|);
        }
        if nk.Some? {
          FlipPreservesShape(b.x, nk.value, shape);
          FlipPreservesShape(b.y, nk.value, shape);
        }
        AugmentKeepsShape(augs[1..], s.value, ResolveFlip(augs[0], flip, randomAxis),
                          rotateAngle, shape, randomAxis, rotate);
      }
    }
  }
}
