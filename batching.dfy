/** What one firing of the propagation timer does to the satellites, as
    `trigger_propagation` computes it with a peekable iterator: the satellite
    under the peek is the batch leader, it alone gets one increment added to
    its accumulated duration, the batch's minutes are that leader's new
    total, and `take(batch_size)` then consumes the leader and up to
    `batch_size - 1` followers. The lemmas give the closed forms: the batches
    partition the satellites in order, there are ceil(N / batch_size) of
    them, all but the last are full, and only every `batch_size`-th
    accumulator moves. */
module Batching {
  import opened Sgp4
  import opened Components

  function Min(a: int, b: int): int {
    if a <= b then a else b
  }

  /** `Duration::as_secs_f64() / 60.0` of a duration in nanoseconds (f64
      rounding is not modelled). */
  function Minutes(d: nat): real {
    d as real / 60_000_000_000.0
  }

  function CeilDiv(n: nat, d: nat): nat
    requires d > 0
  {
    (n + d - 1) / d
  }

  /** The `Propagate` events sent for the satellites `rest` that are still
      ahead of the iterator. */
  function Firing(rest: seq<Satellite>, increment: nat, batchSize: nat): seq<Propagate>
    requires batchSize > 0 || rest == []
    decreases |rest|
  {
    if rest == [] then []
    else
      var k := Min(batchSize, |rest|);
      [Propagate(EntriesOf(rest[..k]), Minutes(rest[0].elapsed + increment))]
        + Firing(rest[k..], increment, batchSize)
  }

  /** The satellites `rest` after the iterator has passed over them. */
  function Accumulate(rest: seq<Satellite>, increment: nat, batchSize: nat): (r: seq<Satellite>)
    requires batchSize > 0 || rest == []
    ensures |r| == |rest|
    decreases |rest|
  {
    if rest == [] then []
    else
      var k := Min(batchSize, |rest|);
      [rest[0].(elapsed := rest[0].elapsed + increment)] + rest[1..k]
        + Accumulate(rest[k..], increment, batchSize)
  }

  /** Concatenation of the batches' entries. */
  function FlattenData(events: seq<Propagate>): seq<(Entity, Elements)> {
    if events == [] then [] else events[0].data + FlattenData(events[1..])
  }

  /** Concatenating the batches gives every satellite exactly once, in
      iteration order. */
  lemma {:induction false} FiringPartition(rest: seq<Satellite>, increment: nat, batchSize: nat)
    requires batchSize > 0
    ensures FlattenData(Firing(rest, increment, batchSize)) == EntriesOf(rest)
    decreases |rest|
  {
    if rest != [] {
      var k := Min(batchSize, |rest|);
      var events := Firing(rest, increment, batchSize);
      FiringPartition(rest[k..], increment, batchSize);
      assert events[1..] == Firing(rest[k..], increment, batchSize);
      assert EntriesOf(rest) == EntriesOf(rest[..k]) + EntriesOf(rest[k..]);
    }
  }

  /** There are as many batches as it takes to hold the satellites with
      `batchSize` per batch, and no more. */
  lemma {:induction false} FiringBounds(rest: seq<Satellite>, increment: nat, batchSize: nat)
    requires batchSize > 0
    ensures (|Firing(rest, increment, batchSize)| - 1) * batchSize < |rest|
    ensures |rest| <= |Firing(rest, increment, batchSize)| * batchSize
    decreases |rest|
  {
    if rest != [] {
      var k := Min(batchSize, |rest|);
      FiringBounds(rest[k..], increment, batchSize);
      var m := |Firing(rest[k..], increment, batchSize)|;
      assert |Firing(rest, increment, batchSize)| == m + 1;
      assert (m + 1) * batchSize == m * batchSize + batchSize;
    }
  }

  lemma {:induction false} MulMonotone(a: nat, b: nat, d: nat)
    requires a <= b
    ensures a * d <= b * d
    decreases b - a
  {
    if a < b {
      MulMonotone(a + 1, b, d);
      assert (a + 1) * d == a * d + d;
    }
  }

  lemma DivUnique(x: nat, d: nat, q: nat)
    requires d > 0
    requires q * d <= x < q * d + d
    ensures x / d == q
  {
    var q' := x / d;
    assert x == q' * d + x % d;
    if q' < q {
      MulMonotone(q' + 1, q, d);
    } else if q' > q {
      MulMonotone(q + 1, q', d);
    }
  }

  /** A timer firing over N satellites sends ceil(N / batchSize) events. */
  lemma FiringCount(rest: seq<Satellite>, increment: nat, batchSize: nat)
    requires batchSize > 0
    ensures |Firing(rest, increment, batchSize)| == CeilDiv(|rest|, batchSize)
  {
    FiringBounds(rest, increment, batchSize);
    var m := |Firing(rest, increment, batchSize)|;
    if m == 0 {
      assert |rest| == 0;
    } else {
      DivUnique(|rest| + batchSize - 1, batchSize, m);
    }
  }

  /** Every batch but the last is full, and the last holds between one and
      `batchSize` satellites. */
  lemma {:induction false} FiringBatchSizes(rest: seq<Satellite>, increment: nat, batchSize: nat)
    requires batchSize > 0
    ensures var events := Firing(rest, increment, batchSize);
      && (forall k :: 0 <= k < |events| - 1 ==> |events[k].data| == batchSize)
      && (|events| > 0 ==> 0 < |events[|events| - 1].data| <= batchSize)
    decreases |rest|
  {
    if rest != [] {
      var k := Min(batchSize, |rest|);
      FiringBatchSizes(rest[k..], increment, batchSize);
      var events := Firing(rest, increment, batchSize);
      assert events[1..] == Firing(rest[k..], increment, batchSize);
      if k < batchSize {
        assert rest[k..] == [];
      }
    }
  }

  /** The index of the leader of batch `k`, counted batch by batch. */
  function LeaderIndex(k: nat, batchSize: nat): nat {
    if k == 0 then 0 else LeaderIndex(k - 1, batchSize) + batchSize
  }

  lemma {:induction false} LeaderIndexIsProduct(k: nat, batchSize: nat)
    ensures LeaderIndex(k, batchSize) == k * batchSize
  {
    if k > 0 {
      LeaderIndexIsProduct(k - 1, batchSize);
      assert (k - 1) * batchSize + batchSize == k * batchSize;
    }
  }

  /** The first batch: the leader and up to `batchSize - 1` followers, at
      the leader's new accumulated total. */
  lemma FirstBatch(rest: seq<Satellite>, increment: nat, batchSize: nat)
    requires batchSize > 0 && rest != []
    ensures Firing(rest, increment, batchSize)[0].data == EntriesOf(rest[0 .. Min(batchSize, |rest|)])
    ensures Accumulate(rest, increment, batchSize)[0].elapsed == rest[0].elapsed + increment
    ensures Firing(rest, increment, batchSize)[0].dtMinutes == Minutes(Accumulate(rest, increment, batchSize)[0].elapsed)
  {
  }

  lemma SliceOfSuffix<T>(s: seq<T>, a: nat, b: nat, c: nat)
    requires a <= |s| && b <= c <= |s| - a
    ensures s[a..][b..c] == s[a + b .. a + c]
  {
  }

  /** The batch whose leader is the satellite at `start`: that leader and
      the followers up to the next leader (or the end), propagated to the
      leader's accumulated total plus one increment. */
  function BatchAt(rest: seq<Satellite>, start: nat, increment: nat, batchSize: nat): Propagate
    requires start < |rest|
  {
    Propagate(EntriesOf(rest[start .. Min(start + batchSize, |rest|)]), Minutes(rest[start].elapsed + increment))
  }

  lemma FiringHead(rest: seq<Satellite>, increment: nat, batchSize: nat)
    requires batchSize > 0 && rest != []
    ensures Firing(rest, increment, batchSize)[0] == BatchAt(rest, 0, increment, batchSize)
  {
    assert rest[0 .. Min(batchSize, |rest|)] == rest[.. Min(batchSize, |rest|)];
  }

  lemma FiringLater(rest: seq<Satellite>, increment: nat, batchSize: nat, k: nat)
    requires batchSize > 0 && 0 < k < |Firing(rest, increment, batchSize)|
    ensures batchSize < |rest|
    ensures k - 1 < |Firing(rest[batchSize..], increment, batchSize)|
    ensures Firing(rest, increment, batchSize)[k] == Firing(rest[batchSize..], increment, batchSize)[k - 1]
  {
  }

  /** A batch of the satellites beyond the first `skip` is the batch of the
      whole sequence `skip` places further on. */
  lemma BatchAtShift(rest: seq<Satellite>, skip: nat, j: nat, increment: nat, batchSize: nat)
    requires skip <= |rest| && j < |rest| - skip
    ensures BatchAt(rest[skip..], j, increment, batchSize) == BatchAt(rest, skip + j, increment, batchSize)
  {
    var end := Min(j + batchSize, |rest| - skip);
    SliceOfSuffix(rest, skip, j, end);
    assert Min(skip + j + batchSize, |rest|) == skip + end;
  }

  /** Batch `k` is the batch whose leader is at `LeaderIndex(k, batchSize)`. */
  lemma {:induction false} FiringBatchAt(rest: seq<Satellite>, increment: nat, batchSize: nat, k: nat)
    requires batchSize > 0
    requires k < |Firing(rest, increment, batchSize)|
    ensures LeaderIndex(k, batchSize) < |rest|
    ensures Firing(rest, increment, batchSize)[k] == BatchAt(rest, LeaderIndex(k, batchSize), increment, batchSize)
    decreases k
  {
    if k == 0 {
      FiringHead(rest, increment, batchSize);
    } else {
      FiringLater(rest, increment, batchSize, k);
      FiringBatchAt(rest[batchSize..], increment, batchSize, k - 1);
      BatchAtShift(rest, batchSize, LeaderIndex(k - 1, batchSize), increment, batchSize);
    }
  }

  lemma ModShift(j: nat, d: nat)
    requires 0 < d <= j
    ensures (j - d) % d == j % d
  {
    var q := (j - d) / d;
    var r := (j - d) % d;
    assert j - d == q * d + r;
    assert j == (q + 1) * d + r;
    DivUnique(j, d, q + 1);
  }

  /** The position of satellite `j` within its batch, counted batch by
      batch. */
  function Offset(j: nat, batchSize: nat): nat
    requires batchSize > 0
  {
    if j < batchSize then j else Offset(j - batchSize, batchSize)
  }

  lemma {:induction false} OffsetIsRemainder(j: nat, batchSize: nat)
    requires batchSize > 0
    ensures Offset(j, batchSize) == j % batchSize
    decreases j
  {
    if j >= batchSize {
      OffsetIsRemainder(j - batchSize, batchSize);
      ModShift(j, batchSize);
    }
  }

  /** Satellite `j` after the firing, by its position in its batch. */
  lemma {:induction false} AccumulateAt(rest: seq<Satellite>, increment: nat, batchSize: nat, j: nat)
    requires batchSize > 0 && j < |rest|
    ensures Accumulate(rest, increment, batchSize)[j]
      == rest[j].(elapsed := rest[j].elapsed + if Offset(j, batchSize) == 0 then increment else 0)
    decreases j
  {
    var k := Min(batchSize, |rest|);
    var tail := rest[k..];
    var r := Accumulate(rest, increment, batchSize);
    assert r == [rest[0].(elapsed := rest[0].elapsed + increment)] + rest[1..k] + Accumulate(tail, increment, batchSize);
    if j >= k {
      assert r[j] == Accumulate(tail, increment, batchSize)[j - k];
      AccumulateAt(tail, increment, batchSize, j - k);
    } else if j > 0 {
      assert r[j] == rest[1..k][j - 1];
    }
  }

  /** The satellites with only the leaders, those at multiples of
      `batchSize`, moved by one increment. */
  function MoveLeaders(rest: seq<Satellite>, increment: nat, batchSize: nat): (r: seq<Satellite>)
    requires batchSize > 0 || rest == []
    ensures |r| == |rest|
  {
    seq(|rest|, j requires 0 <= j < |rest| =>
      if j % batchSize == 0 then rest[j].(elapsed := rest[j].elapsed + increment) else rest[j])
  }

  /** Only the leaders, the satellites at multiples of `batchSize`, have
      their accumulators moved, each by exactly one increment; every other
      accumulator, and every other component, is unchanged. */
  lemma AccumulateLeaders(rest: seq<Satellite>, increment: nat, batchSize: nat)
    requires batchSize > 0
    ensures Accumulate(rest, increment, batchSize) == MoveLeaders(rest, increment, batchSize)
  {
    forall j | 0 <= j < |rest|
      ensures Accumulate(rest, increment, batchSize)[j] == MoveLeaders(rest, increment, batchSize)[j]
    {
      AccumulateAt(rest, increment, batchSize, j);
      OffsetIsRemainder(j, batchSize);
    }
  }

  /** Inside a batch that starts at a multiple of `batchSize`, the position
      in the batch is the remainder. */
  lemma FollowerOffset(i: nat, d: nat, batchSize: nat)
    requires batchSize > 0 && i % batchSize == 0 && d < batchSize
    ensures (i + d) % batchSize == d
  {
    var q := i / batchSize;
    assert i == q * batchSize;
    DivUnique(i + d, batchSize, q);
  }

  lemma {:induction false} LeaderIsMultiple(k: nat, batchSize: nat)
    requires batchSize > 0
    ensures LeaderIndex(k, batchSize) % batchSize == 0
  {
    if k > 0 {
      LeaderIsMultiple(k - 1, batchSize);
      ModShift(LeaderIndex(k, batchSize), batchSize);
    }
  }

  /** The minutes each batch is propagated to are the accumulated total, in
      minutes, that its leader (the satellite at `k * batchSize`) holds after
      the firing. */
  lemma FiringLeaderTotals(rest: seq<Satellite>, increment: nat, batchSize: nat)
    requires batchSize > 0
    ensures var events := Firing(rest, increment, batchSize);
      forall k :: 0 <= k < |events| ==>
        && k * batchSize < |rest|
        && events[k].dtMinutes == Minutes(Accumulate(rest, increment, batchSize)[k * batchSize].elapsed)
  {
    var events := Firing(rest, increment, batchSize);
    forall k | 0 <= k < |events|
      ensures k * batchSize < |rest|
      ensures events[k].dtMinutes == Minutes(Accumulate(rest, increment, batchSize)[k * batchSize].elapsed)
    {
      FiringBatchAt(rest, increment, batchSize, k);
      LeaderIsMultiple(k, batchSize);
      LeaderIndexIsProduct(k, batchSize);
      AccumulateAt(rest, increment, batchSize, k * batchSize);
      OffsetIsRemainder(k * batchSize, batchSize);
    }
  }
}
