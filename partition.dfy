/**
 * How a sequence of writes is spread over capacity-bounded sub-batches.
 *
 * `Chunks` is the reference partition: consecutive runs of MaxBatchWrites writes,
 * the last one possibly shorter, and a single empty run for no writes at all.
 * `Place` is the allocation policy of the coordinator, one write at a time:
 * open a new sub-batch only when the last one is full. The lemmas show that
 * the policy builds exactly the reference partition.
 */
module Partition {

  /** The largest number of writes a store-native batch accepts. */
  const MaxBatchWrites: nat := 500

  /** The operation logs joined in list order. */
  function Flatten<T>(parts: seq<seq<T>>): seq<T>
  {
    if parts == [] then [] else Flatten(parts[..|parts| - 1]) + parts[|parts| - 1]
  }

  /**
   * The shape the coordinator keeps: at least one part, no part above capacity,
   * every part but the last full, and the last one empty only when it is alone.
   */
  predicate IsPartition<T>(parts: seq<seq<T>>)
  {
    && |parts| >= 1
    && (forall i | 0 <= i < |parts| :: |parts[i]| <= MaxBatchWrites)
    && (forall i | 0 <= i < |parts| - 1 :: |parts[i]| == MaxBatchWrites)
    && (|parts| > 1 ==> |parts[|parts| - 1]| > 0)
  }

  /** The reference partition of `s` into runs of MaxBatchWrites. */
  function Chunks<T>(s: seq<T>): seq<seq<T>>
    decreases |s|
  {
    if |s| <= MaxBatchWrites then [s]
    else [s[..MaxBatchWrites]] + Chunks(s[MaxBatchWrites..])
  }

  /** max(1, ceil(n / MaxBatchWrites)). */
  function BatchCount(n: nat): nat
  {
    if n == 0 then 1 else (n + MaxBatchWrites - 1) / MaxBatchWrites
  }

  /** One recording step: append `x` to the last part, opening a new part when it is full. */
  function Place<T>(parts: seq<seq<T>>, x: T): seq<seq<T>>
    requires |parts| >= 1
  {
    var last := |parts| - 1;
    if |parts[last]| == MaxBatchWrites then parts + [[x]]
    else parts[..last] + [parts[last] + [x]]
  }

  lemma {:induction false} FlattenConcat<T>(a: seq<seq<T>>, b: seq<seq<T>>)
    ensures Flatten(a + b) == Flatten(a) + Flatten(b)
    decreases |b|
  {
    if b == [] {
      assert a + b == a;
    } else {
      var n := |b| - 1;
      assert (a + b)[..|a + b| - 1] == a + b[..n];
      FlattenConcat(a, b[..n]);
    }
  }

  lemma FlattenSingle<T>(p: seq<T>)
    ensures Flatten([p]) == p
  {
    assert [p][..0] == [];
  }

  /** The joined logs are at least as long as the last log. */
  lemma FlattenLast<T>(parts: seq<seq<T>>)
    requires |parts| >= 1
    ensures |Flatten(parts)| >= |parts[|parts| - 1]|
  {
  }

  /** The reference partition has the coordinator's shape and loses or reorders no write. */
  lemma {:induction false} ChunksPartition<T>(s: seq<T>)
    ensures IsPartition(Chunks(s))
    ensures Flatten(Chunks(s)) == s
    decreases |s|
  {
    if |s| <= MaxBatchWrites {
      FlattenSingle(s);
    } else {
      var head, rest := s[..MaxBatchWrites], Chunks(s[MaxBatchWrites..]);
      ChunksPartition(s[MaxBatchWrites..]);
      FlattenConcat([head], rest);
      FlattenSingle(head);
      assert s == head + s[MaxBatchWrites..];
      FlattenLast(rest);
      if |rest| == 1 {
        FlattenSingle(rest[0]);
        assert rest == [rest[0]];
      }
    }
  }

  /** After n writes there are max(1, ceil(n / MaxBatchWrites)) sub-batches. */
  lemma {:induction false} ChunksCount<T>(s: seq<T>)
    ensures |Chunks(s)| == BatchCount(|s|)
    decreases |s|
  {
    if |s| > MaxBatchWrites {
      ChunksCount(s[MaxBatchWrites..]);
    }
  }

  /** Write number k lands in sub-batch k / MaxBatchWrites at position k % MaxBatchWrites. */
  lemma {:induction false} ChunkPosition<T>(s: seq<T>, k: nat)
    requires k < |s|
    ensures k / MaxBatchWrites < |Chunks(s)|
    ensures k % MaxBatchWrites < |Chunks(s)[k / MaxBatchWrites]|
    ensures Chunks(s)[k / MaxBatchWrites][k % MaxBatchWrites] == s[k]
    decreases |s|
  {
    if |s| > MaxBatchWrites && k >= MaxBatchWrites {
      ChunkPosition(s[MaxBatchWrites..], k - MaxBatchWrites);
      assert (k - MaxBatchWrites) / MaxBatchWrites == k / MaxBatchWrites - 1;
      assert (k - MaxBatchWrites) % MaxBatchWrites == k % MaxBatchWrites;
    }
  }

  /** A partition of `s` with the coordinator's shape is the reference partition of `s`. */
  lemma {:induction false} PartitionIsChunks<T>(parts: seq<seq<T>>, s: seq<T>)
    requires IsPartition(parts)
    requires Flatten(parts) == s
    ensures parts == Chunks(s)
    decreases |parts|
  {
    if |parts| == 1 {
      FlattenSingle(parts[0]);
      assert parts == [parts[0]];
    } else {
      var rest := parts[1..];
      assert parts == [parts[0]] + rest;
      FlattenConcat([parts[0]], rest);
      FlattenSingle(parts[0]);
      FlattenLast(rest);
      assert |parts[0]| == MaxBatchWrites;
      assert s[..MaxBatchWrites] == parts[0];
      assert s[MaxBatchWrites..] == Flatten(rest);
      PartitionIsChunks(rest, s[MaxBatchWrites..]);
    }
  }

  /** One recording step keeps the shape and appends exactly the new write, in order. */
  lemma PlacePreserves<T>(parts: seq<seq<T>>, x: T)
    requires IsPartition(parts)
    ensures IsPartition(Place(parts, x))
    ensures Flatten(Place(parts, x)) == Flatten(parts) + [x]
  {
    var last := |parts| - 1;
    if |parts[last]| == MaxBatchWrites {
      assert (parts + [[x]])[..|parts|] == parts;
    } else {
      var p := parts[..last] + [parts[last] + [x]];
      assert p[..last] == parts[..last];
      assert parts[..last] + [parts[last]] == parts;
      assert Flatten(parts) == Flatten(parts[..last]) + parts[last];
    }
  }

  /** Recording writes one at a time under the allocation policy builds the reference partition. */
  lemma PlaceChunks<T>(s: seq<T>, x: T)
    ensures Place(Chunks(s), x) == Chunks(s + [x])
  {
    ChunksPartition(s);
    PlacePreserves(Chunks(s), x);
    PartitionIsChunks(Place(Chunks(s), x), s + [x]);
  }
}
