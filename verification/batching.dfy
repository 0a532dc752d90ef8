/** The epoch's index table and the arithmetic that cuts it into batches. */
module Batching {
  import opened Exceptions

  /** `np.arange(n)`: the table 0, 1, ..., n-1. */
  function Range(n: nat): (r: seq<int>)
    ensures |r| == n
  {
    if n == 0 then [] else Range(n - 1) + [n - 1]
  }

  lemma {:induction false} RangeAt(n: nat, i: nat)
    requires i < n
    ensures Range(n)[i] == i
  {
    if i < n - 1 {
      RangeAt(n - 1, i);
    }
  }

  lemma {:induction false} RangeCount(n: nat, v: int)
    ensures multiset(Range(n))[v] == if 0 <= v < n then 1 else 0
  {
    if n > 0 {
      RangeCount(n - 1, v);
    }
  }

  /** `s` holds each sample index 0..n-1 exactly once. */
  ghost predicate IsIndexPermutation(s: seq<int>, n: nat)
  {
    multiset(s) == multiset(Range(n))
  }

  lemma DuplicateCountsTwice(s: seq<int>, i: nat, j: nat)
    requires i < j < |s| && s[i] == s[j]
    ensures multiset(s)[s[i]] >= 2
  {
    assert s == s[..i] + [s[i]] + s[i + 1..j] + [s[j]] + s[j + 1..];
  }

  /** A permutation of the index table has the table's length, holds only
      sample indices, never holds one twice and misses none. */
  lemma PermutationFacts(s: seq<int>, n: nat)
    requires IsIndexPermutation(s, n)
    ensures |s| == n
    ensures forall i :: 0 <= i < |s| ==> 0 <= s[i] < n
    ensures forall i, j :: 0 <= i < |s| && 0 <= j < |s| && i != j ==> s[i] != s[j]
    ensures forall v :: 0 <= v < n ==> v in s
  {
    assert |multiset(s)| == |s|;
    forall i | 0 <= i < |s|
      ensures 0 <= s[i] < n
    {
      assert s[i] in multiset(s);
      RangeCount(n, s[i]);
    }
    forall i, j | 0 <= i < |s| && 0 <= j < |s| && i != j
      ensures s[i] != s[j]
    {
      if s[i] == s[j] {
        if i < j { DuplicateCountsTwice(s, i, j); } else { DuplicateCountsTwice(s, j, i); }
        RangeCount(n, s[i]);
      }
    }
    forall v | 0 <= v < n
      ensures v in s
    {
      RangeCount(n, v);
      assert v in multiset(s);
    }
  }

  /** `np.random.shuffle` on a one-dimensional array: the Fisher-Yates pass
      numpy runs, from the last position down, each swap partner chosen
      freely, so that every permutation is a possible outcome. */
  method Shuffle(a: array<int>)
    modifies a
    ensures multiset(a[..]) == multiset(old(a[..]))
  {
    var i := a.Length;
    while i > 1
      invariant 0 <= i <= a.Length
      invariant multiset(a[..]) == multiset(old(a[..]))
    {
      i := i - 1;
      var j :| 0 <= j <= i;
      a[i], a[j] := a[j], a[i];
    }
  }

  /** Python's clamping of a slice bound against a sequence of length n. */
  function SliceBound(i: int, n: nat): (r: nat)
    ensures r <= n
    ensures 0 <= i <= n ==> r == i
  {
    if i < 0 then (if i + n < 0 then 0 else i + n)
    else if i < n then i
    else n
  }

  /** Python's `s[start:stop]` (step 1): negative bounds count from the end,
      bounds beyond the ends are clamped, a crossed pair gives the empty slice. */
  function PySlice<X>(s: seq<X>, start: int, stop: int): (r: seq<X>)
    ensures |r| <= |s|
    ensures 0 <= start <= stop <= |s| ==> r == s[start..stop]
    ensures forall x :: x in r ==> x in s
  {
    var lo, hi := SliceBound(start, |s|), SliceBound(stop, |s|);
    if lo < hi then s[lo..hi] else []
  }

  /** `__len__`: `int(np.floor(len(data) / batch_size))`, with Python's true
      division; a zero batch size raises. */
  function BatchCount(n: nat, batchSize: nat): (r: Result<nat>)
    ensures r.Ok? <==> batchSize > 0
    ensures r.Ok? ==> r.value * batchSize <= n < (r.value + 1) * batchSize
    ensures r.Ok? ==> r.value == n / batchSize
  {
    if batchSize == 0 then Raise(ZeroDivisionError)
    else
      var q := (n as real / batchSize as real).Floor;
      FloorOfQuotient(n, batchSize);
      Ok(q)
  }

  lemma FloorOfQuotient(n: nat, d: nat)
    requires d > 0
    ensures (n as real / d as real).Floor == n / d
  {
    var q := n / d;
    var x := n as real / d as real;
    assert q * d <= n < (q + 1) * d;
    assert (q * d) as real == q as real * d as real;
    assert ((q + 1) * d) as real == (q + 1) as real * d as real;
    BelowQuotient(q as real, n as real, d as real);
    AboveQuotient((q + 1) as real, n as real, d as real);
  }

  lemma BelowQuotient(a: real, b: real, c: real)
    requires c > 0.0 && a * c <= b
    ensures a <= b / c
  {
  }

  lemma AboveQuotient(a: real, b: real, c: real)
    requires c > 0.0 && b < a * c
    ensures b / c < a
  {
  }

  /** `__getitem__`'s ID list: `indexes[index*bs:(index+1)*bs]`. */
  function BatchIds(indexes: seq<int>, index: int, batchSize: nat): (r: seq<int>)
    ensures forall id :: id in r ==> id in indexes
  {
    PySlice(indexes, index * batchSize, (index + 1) * batchSize)
  }

  lemma MulMono(a: int, b: int, c: nat)
    requires a <= b
    ensures a * c <= b * c
  {
  }

  /** Whatever the index, a batch never lists more than `batchSize` IDs. */
  lemma BatchIdsAtMostBatchSize(indexes: seq<int>, index: int, batchSize: nat)
    ensures |BatchIds(indexes, index, batchSize)| <= batchSize
  {
  }

  /** For a batch number below `__len__`, the ID list is the batch's full,
      contiguous run of the index table. */
  lemma BatchIdsInRange(indexes: seq<int>, index: int, batchSize: nat)
    requires BatchCount(|indexes|, batchSize).Ok?
    requires 0 <= index < BatchCount(|indexes|, batchSize).value
    ensures (index + 1) * batchSize <= |indexes|
    ensures BatchIds(indexes, index, batchSize) == indexes[index * batchSize..(index + 1) * batchSize]
    ensures |BatchIds(indexes, index, batchSize)| == batchSize
    ensures forall i :: 0 <= i < batchSize ==>
      BatchIds(indexes, index, batchSize)[i] == indexes[index * batchSize + i]
  {
    var count := BatchCount(|indexes|, batchSize).value;
    MulMono(index + 1, count, batchSize);
    MulMono(0, index, batchSize);
  }

  /** With a valid index table, every listed ID names a sample. */
  lemma BatchIdsAreSamples(indexes: seq<int>, n: nat, index: int, batchSize: nat)
    requires IsIndexPermutation(indexes, n)
    ensures forall id :: id in BatchIds(indexes, index, batchSize) ==> 0 <= id < n
  {
    PermutationFacts(indexes, n);
  }

  /** Two entries of one batch below `__len__` never name the same sample. */
  lemma BatchIdsDistinct(indexes: seq<int>, n: nat, batchSize: nat, index: int)
    requires IsIndexPermutation(indexes, n)
    requires BatchCount(n, batchSize).Ok?
    requires 0 <= index < BatchCount(n, batchSize).value
    ensures forall i, j :: 0 <= i < j < |BatchIds(indexes, index, batchSize)| ==>
      BatchIds(indexes, index, batchSize)[i] != BatchIds(indexes, index, batchSize)[j]
  {
    PermutationFacts(indexes, n);
    BatchIdsInRange(indexes, index, batchSize);
  }

  /** No sample is served twice in an epoch: the ID lists of two different
      batches below `__len__` share no sample. */
  lemma BatchesDisjoint(indexes: seq<int>, n: nat, batchSize: nat, a: int, b: int)
    requires IsIndexPermutation(indexes, n)
    requires BatchCount(n, batchSize).Ok?
    requires 0 <= a < BatchCount(n, batchSize).value && 0 <= b < BatchCount(n, batchSize).value
    requires a != b
    ensures forall id :: id in BatchIds(indexes, a, batchSize) ==> id !in BatchIds(indexes, b, batchSize)
  {
    PermutationFacts(indexes, n);
    BatchIdsInRange(indexes, a, batchSize);
    BatchIdsInRange(indexes, b, batchSize);
    if a < b {
      MulMono(a + 1, b, batchSize);
    } else {
      MulMono(b + 1, a, batchSize);
    }
    forall id | id in BatchIds(indexes, a, batchSize)
      ensures id !in BatchIds(indexes, b, batchSize)
    {
      SlicesApart(indexes, a * batchSize, b * batchSize, batchSize, id);
    }
  }

  /** Non-overlapping runs of a table without repeats share no entry. */
  lemma SlicesApart(s: seq<int>, p: nat, q: nat, len: nat, id: int)
    requires p + len <= |s| && q + len <= |s|
    requires p + len <= q || q + len <= p
    requires forall i, j :: 0 <= i < |s| && 0 <= j < |s| && i != j ==> s[i] != s[j]
    requires id in s[p..p + len]
    ensures id !in s[q..q + len]
  {
  }

  /** The table's first `__len__ * batch_size` positions are each served by
      the batch `p / batch_size`, at slot `p % batch_size`. */
  lemma LeadingPositionServed(indexes: seq<int>, batchSize: nat, p: int)
    requires BatchCount(|indexes|, batchSize).Ok?
    requires 0 <= p < BatchCount(|indexes|, batchSize).value * batchSize
    ensures 0 <= p % batchSize < |BatchIds(indexes, p / batchSize, batchSize)|
    ensures BatchIds(indexes, p / batchSize, batchSize)[p % batchSize] == indexes[p]
  {
    var count := BatchCount(|indexes|, batchSize).value;
    var index := p / batchSize;
    assert p == index * batchSize + p % batchSize;
    if index >= count {
      MulMono(count, index, batchSize);
    }
    BatchIdsInRange(indexes, index, batchSize);
  }

  /** The samples at the table's last `len(data) % batch_size` positions are
      not served by any batch of the epoch; without shuffling these are
      always the same samples. */
  lemma TailNeverServed(indexes: seq<int>, n: nat, batchSize: nat, p: int, index: int)
    requires IsIndexPermutation(indexes, n)
    requires BatchCount(n, batchSize).Ok?
    requires BatchCount(n, batchSize).value * batchSize <= p < |indexes|
    requires 0 <= index < BatchCount(n, batchSize).value
    ensures indexes[p] !in BatchIds(indexes, index, batchSize)
  {
    PermutationFacts(indexes, n);
    BatchIdsInRange(indexes, index, batchSize);
    MulMono(index + 1, BatchCount(n, batchSize).value, batchSize);
    MulMono(0, index, batchSize);
    PastSliceNotIn(indexes, index * batchSize, (index + 1) * batchSize, p);
  }

  /** An entry after a run of a table without repeats is not in the run. */
  lemma PastSliceNotIn(s: seq<int>, lo: nat, hi: nat, p: nat)
    requires lo <= hi <= p < |s|
    requires forall i, j :: 0 <= i < |s| && 0 <= j < |s| && i != j ==> s[i] != s[j]
    ensures s[p] !in s[lo..hi]
  {
  }
}
