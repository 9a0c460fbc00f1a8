/** What llring.h does with machine integers and memory: 32-bit index arithmetic, and the
    unrolled copy macros. */
module RingIndex {
  import opened LLRing
  import LLRingSafety

  const WORD: nat := 0x1_0000_0000

  function U32(x: int): (r: nat)
    ensures r < WORD
  {
    x % WORD
  }

  /** Room and fill computed on wrapped indices are the true ones, as long as the true ones
      fit in 32 bits. */
  lemma WrappedSubtraction(mask: nat, head: nat, tail: nat)
    ensures 0 <= mask + tail - head < WORD ==> U32(mask + U32(tail) - U32(head)) == mask + tail - head
    ensures 0 <= tail - head < WORD ==> U32(U32(tail) - U32(head)) == tail - head
  {
  }

  /** The compare-and-swap cannot mistake one index for another less than 2^32 apart. */
  lemma WrappedCompare(a: nat, b: nat)
    requires a <= b < a + WORD
    ensures U32(a) == U32(b) <==> a == b
  {
  }

  lemma {:induction false} WholeTurns(x: nat, k: nat, size: nat)
    requires size > 0
    ensures (x + k * size) % size == x % size
    decreases k
  {
    if k > 0 {
      WholeTurns(x + size, k - 1, size);
      assert x + size + (k - 1) * size == x + k * size;
      OneTurn(x, size);
    }
  }

  lemma OneTurn(x: nat, size: nat)
    requires size > 0
    ensures (x + size) % size == x % size
  {
    var q, r := x / size, x % size;
    assert x == q * size + r;
    assert x + size == (q + 1) * size + r;
    LLRingSafety.MultipleBounds((x + size) / size - (q + 1), size);
    assert (x + size) % size - r == (q + 1 - (x + size) / size) * size by {
      assert x + size == ((x + size) / size) * size + (x + size) % size;
    }
    LLRingSafety.MultipleBounds(q + 1 - (x + size) / size, size);
  }

  /** Masking a wrapped index finds the slot of the true one: the size divides 2^32. */
  lemma WrappedSlot(p: nat, size: nat, turns: nat)
    requires size > 0 && size * turns == WORD
    ensures At(U32(p), size) == At(p, size)
  {
    var q := p / WORD;
    assert p == U32(p) + q * WORD;
    assert q * WORD == (q * turns) * size by {
      assert (q * turns) * size == q * (turns * size);
    }
    WholeTurns(U32(p), q * turns, size);
  }

  // ---------------------------------------------------------------- the copy macros

  /** The writes of a copying producer, one after the other. */
  ghost function PutAll<T>(ring: seq<T>, head: nat, items: seq<T>): (r: seq<T>)
    requires |ring| > 0
    ensures |r| == |ring|
  {
    if items == [] then ring
    else PutAll(ring, head, items[..|items| - 1])[At(head + |items| - 1, |ring|) := items[|items| - 1]]
  }

  /** The reads of a fetching consumer. */
  ghost function GetAll<T>(ring: seq<T>, head: nat, n: nat): (r: seq<T>)
    requires |ring| > 0
    ensures |r| == n
  {
    if n == 0 then [] else GetAll(ring, head, n - 1) + [ring[At(head + n - 1, |ring|)]]
  }

  /** The slot `k` places after slot `base`, without a division. */
  function Turn(base: nat, k: nat, size: nat): (r: nat)
    requires base < size && k <= size
    ensures r < size
  {
    if base + k < size then base + k else base + k - size
  }

  lemma Unmasked(head: nat, k: nat, size: nat)
    requires 0 < size && k <= size
    ensures At(head, size) < size && At(head + k, size) == Turn(At(head, size), k, size)
  {
    var q, base := head / size, head % size;
    assert head == q * size + base;
    if base + k < size {
      WholeTurns(base + k, q, size);
      Small(base + k, size);
    } else {
      WholeTurns(base + k - size, q + 1, size);
      Small(base + k - size, size);
      assert base + k - size + (q + 1) * size == head + k;
    }
  }

  lemma Small(x: nat, size: nat)
    requires x < size
    ensures x % size == x
  {
  }

  ghost function PutFrom<T>(ring: seq<T>, base: nat, items: seq<T>): (r: seq<T>)
    requires base < |ring| && |items| <= |ring|
    ensures |r| == |ring|
  {
    if items == [] then ring
    else PutFrom(ring, base, items[..|items| - 1])[Turn(base, |items| - 1, |ring|) := items[|items| - 1]]
  }

  ghost function GetFrom<T>(ring: seq<T>, base: nat, n: nat): (r: seq<T>)
    requires base < |ring| && n <= |ring|
    ensures |r| == n
  {
    if n == 0 then [] else GetFrom(ring, base, n - 1) + [ring[Turn(base, n - 1, |ring|)]]
  }

  lemma {:induction false} PutFromHead<T>(ring: seq<T>, head: nat, items: seq<T>)
    requires 0 < |ring| && |items| <= |ring|
    ensures At(head, |ring|) < |ring| && PutAll(ring, head, items) == PutFrom(ring, At(head, |ring|), items)
    decreases |items|
  {
    Unmasked(head, 0, |ring|);
    if items != [] {
      PutFromHead(ring, head, items[..|items| - 1]);
      Unmasked(head, |items| - 1, |ring|);
    }
  }

  lemma {:induction false} GetFromHead<T>(ring: seq<T>, head: nat, n: nat)
    requires 0 < |ring| && n <= |ring|
    ensures At(head, |ring|) < |ring| && GetAll(ring, head, n) == GetFrom(ring, At(head, |ring|), n)
  {
    Unmasked(head, 0, |ring|);
    if n != 0 {
      GetFromHead(ring, head, n - 1);
      Unmasked(head, n - 1, |ring|);
    }
  }

  /** Consecutive writes of objs[i..to] from slot `idx` on, not past the end of the ring. */
  method PutRun<T>(ring: array<T>, ghost before: seq<T>, ghost base: nat, idx: nat, objs: seq<T>, i: nat, to: nat)
    requires base < |before| == ring.Length && i <= to <= |objs| <= ring.Length
    requires ring[..] == PutFrom(before, base, objs[..i])
    requires idx + (to - i) <= ring.Length && (i < to ==> idx == Turn(base, i, ring.Length))
    modifies ring
    ensures ring[..] == PutFrom(before, base, objs[..to])
  {
    for j := i to to
      invariant ring[..] == PutFrom(before, base, objs[..j])
    {
      assert objs[..j + 1][..j] == objs[..j];
      ghost var now := ring[..];
      ring[idx + (j - i)] := objs[j];
      assert ring[..] == now[idx + (j - i) := objs[j]];
    }
  }

  /** LLRING_ENQUEUE_PTRS: four at a time and then the rest while the burst does not reach the
      end of the ring, else up to the end and on from the start. */
  method EnqueuePtrs<T>(ring: array<T>, head: nat, objs: seq<T>)
    requires 0 < ring.Length && |objs| <= ring.Length
    modifies ring
    ensures ring[..] == PutAll(old(ring[..]), head, objs)
  {
    ghost var before := ring[..];
    PutFromHead(before, head, objs);
    var slots, n := ring.Length, |objs|;
    var idx := head % slots;
    assert objs[..0] == [] && objs[..n] == objs;
    if idx + n < slots {
      EnqueueStraight(ring, idx, objs);
    } else {
      PutRun(ring, before, idx, idx, objs, 0, slots - idx);
      PutRun(ring, before, idx, 0, objs, slots - idx, n);
    }
  }

  method EnqueueStraight<T>(ring: array<T>, base: nat, objs: seq<T>)
    requires base + |objs| < ring.Length
    modifies ring
    ensures ring[..] == PutFrom(old(ring[..]), base, objs)
  {
    var n, i := |objs|, 0;
    ghost var before := ring[..];
    assert objs[..0] == [];
    while i < n - n % 4
      invariant 0 <= i <= n - n % 4 && i % 4 == 0
      invariant ring[..] == PutFrom(before, base, objs[..i])
    {
      PutRun(ring, before, base, base + i, objs, i, i + 4);
      i := i + 4;
    }
    PutRun(ring, before, base, base + i, objs, i, n);
    assert objs[..n] == objs;
  }

  method GetRun<T>(ring: array<T>, ghost base: nat, idx: nat, sofar: seq<T>, to: nat) returns (objs: seq<T>)
    requires base < ring.Length && |sofar| <= to <= ring.Length
    requires sofar == GetFrom(ring[..], base, |sofar|)
    requires idx + (to - |sofar|) <= ring.Length && (|sofar| < to ==> idx == Turn(base, |sofar|, ring.Length))
    ensures objs == GetFrom(ring[..], base, to)
  {
    objs := sofar;
    for j := |sofar| to to
      invariant |objs| == j && objs == GetFrom(ring[..], base, j)
    {
      objs := objs + [ring[idx + (j - |sofar|)]];
    }
  }

  /** LLRING_DEQUEUE_PTRS, the same walk reading. */
  method DequeuePtrs<T>(ring: array<T>, head: nat, n: nat) returns (objs: seq<T>)
    requires 0 < ring.Length && n <= ring.Length
    ensures objs == GetAll(ring[..], head, n)
  {
    GetFromHead(ring[..], head, n);
    var slots := ring.Length;
    var idx := head % slots;
    if idx + n < slots {
      objs := DequeueStraight(ring, idx, n);
    } else {
      objs := GetRun(ring, idx, idx, [], slots - idx);
      objs := GetRun(ring, idx, 0, objs, n);
    }
  }

  method DequeueStraight<T>(ring: array<T>, base: nat, n: nat) returns (objs: seq<T>)
    requires base + n < ring.Length
    ensures objs == GetFrom(ring[..], base, n)
  {
    objs := [];
    var i := 0;
    while i < n - n % 4
      invariant i == |objs| <= n - n % 4 && i % 4 == 0
      invariant objs == GetFrom(ring[..], base, i)
    {
      objs := GetRun(ring, base, base + i, objs, i + 4);
      i := i + 4;
    }
    objs := GetRun(ring, base, base + i, objs, n);
  }

  /** What was put at a stretch of places is what is got from it, however it wraps. */
  lemma {:induction false} GetAfterPut<T>(ring: seq<T>, head: nat, items: seq<T>)
    requires 0 < |ring| && |items| <= |ring|
    ensures GetAll(PutAll(ring, head, items), head, |items|) == items
  {
    forall k | 0 <= k < |items|
      ensures PutAll(ring, head, items)[At(head + k, |ring|)] == items[k]
    {
      PutAt(ring, head, items, k);
    }
    GetIs(PutAll(ring, head, items), head, items);
  }

  lemma {:induction false} PutAt<T>(ring: seq<T>, head: nat, items: seq<T>, k: nat)
    requires 0 < |ring| && k < |items| <= |ring|
    ensures PutAll(ring, head, items)[At(head + k, |ring|)] == items[k]
    decreases |items|
  {
    var last := |items| - 1;
    if k < last {
      PutAt(ring, head, items[..last], k);
      LLRingSafety.SlotsDiffer(head + k, head + last, |ring|);
    }
  }

  lemma {:induction false} GetIs<T>(ring: seq<T>, head: nat, items: seq<T>)
    requires 0 < |ring|
    requires forall k :: 0 <= k < |items| ==> ring[At(head + k, |ring|)] == items[k]
    ensures GetAll(ring, head, |items|) == items
    decreases |items|
  {
    if items != [] {
      var last := |items| - 1;
      GetIs(ring, head, items[..last]);
      assert items == items[..last] + [items[last]];
    }
  }
}
