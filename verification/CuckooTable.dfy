/** The hash table itself: runtime/bessport/utils/htable.cc. */
module CuckooTable {
  import opened HTable

  datatype Option<T> = None | Some(value: T)

  class CuckooTable<K(==, !new), V> {
    const hs: Hashing<K>
    const bucketLimit: nat         // allocating more buckets than this fails
    var slots: seq<Slot>
    var entries: seq<Entry<K, V>>
    var freeIdx: int
    var cnt: nat

    ghost var where: map<K, nat>   // the slot of every key
    ghost var free: seq<int>       // the free list
    ghost var m: map<K, V>         // what the table means

    /** The part that evictions keep. */
    ghost predicate Arranged()
      reads this
    {
      HashingOk(hs) && Placed(hs, slots, entries, where)
    }

    ghost predicate Valid()
      reads this
    {
      && Arranged()
      && StoresMap(slots, entries, where, m)
      && Chain(entries, freeIdx, free)
      && |entries| >= WAYS
      && cnt == |m|
    }

    method FindEmptySlot(b: nat) returns (j: int)
      requires SlotsOk(slots) && b < Buckets(slots)
      ensures j < 0 <==> Full(slots, b)
      ensures j < 0 ==> j == -ENOSPC
      ensures j >= 0 ==> j < WAYS && slots[b * WAYS + j].hv == 0
    {
      for i := 0 to WAYS
        invariant forall x :: b * WAYS <= x < b * WAYS + i ==> slots[x].hv != 0
      {
        if slots[b * WAYS + i].hv == 0 {
          return i;
        }
      }
      return -ENOSPC;
    }

    /** Tries to vacate a slot of a full bucket by moving its entries to their other bucket,
        recursively. The path may come back to a bucket it has already been through. */
    method MakeSpace(b: nat, depth: nat, ghost ways: seq<set<nat>>) returns (r: int)
      requires Arranged() && b < Buckets(slots) && depth <= MAX_CUCKOO_PATH
      requires Full(slots, b) && WaysOk(hs, slots, entries, ways)
      modifies this`slots, this`where
      ensures Arranged() && SamePairs(old(slots), old(where), slots, where)
      ensures r >= 0 <==> b in ways[depth]
      ensures r < 0 ==> r == -ENOSPC && unchanged(this`slots) && unchanged(this`where)
      ensures r >= 0 ==> r < WAYS && Evicted(hs, old(slots), entries, slots, b * WAYS + r, depth)
      decreases MAX_CUCKOO_PATH - depth, 4
    {
      if depth >= MAX_CUCKOO_PATH {
        SamePairsRefl(hs, slots, entries, where);
        return -ENOSPC;
      }
      r := EvictAny(b, depth, ways);
    }

    /** The loop over the entries of a full bucket. */
    method EvictAny(b: nat, depth: nat, ghost ways: seq<set<nat>>) returns (r: int)
      requires Arranged() && b < Buckets(slots) && depth < MAX_CUCKOO_PATH && Full(slots, b)
      requires WaysOk(hs, slots, entries, ways)
      modifies this`slots, this`where
      ensures Arranged() && SamePairs(old(slots), old(where), slots, where)
      ensures r >= 0 <==> b in ways[depth]
      ensures r < 0 ==> r == -ENOSPC && unchanged(this`slots) && unchanged(this`where)
      ensures r >= 0 ==> r < WAYS && Evicted(hs, old(slots), entries, slots, b * WAYS + r, depth)
      decreases MAX_CUCKOO_PATH - depth, 3
    {
      ghost var start := slots;
      for i := 0 to WAYS
        invariant unchanged(this`slots) && unchanged(this`where)
        invariant NoWayBefore(hs, start, entries, b, i, ways[depth + 1])
      {
        FullSlot(start, b, i);
        var ok := Evict(b * WAYS + i, depth, ways);
        NextWay(hs, start, entries, b, i, depth, ways);
        if ok {
          return i;
        }
      }
      NoWayAtAll(hs, start, entries, b, depth, ways);
      SamePairsRefl(hs, slots, entries, where);
      return -ENOSPC;
    }

    /** Where an entry goes when it is kicked out. Slots keep the primary hash wherever the
        entry is, so it is always its secondary bucket, even if it is already there. */
    method OtherBucket(p: nat) returns (alt: nat)
      requires Arranged() && p < |slots| && slots[p].hv != 0
      ensures HasKey(slots, entries, p) && alt == AltOf(hs, slots, entries, p)
    {
      assert SlotPlaced(hs, slots, entries, where, p);
      var pri := hs.pri(entries[slots[p].idx].key);
      var sec := hs.sec(pri);
      var n := Buckets(slots);
      if pri == slots[p].hv {
        alt := hs.home(sec, n);
      } else {
        alt := hs.home(pri, n);
      }
    }

    /** Makes a hole in the full bucket `alt`, the other bucket of the entry in slot `p`. */
    method DeepHole(p: nat, alt: nat, depth: nat, ghost ways: seq<set<nat>>) returns (ok: bool, q: nat)
      requires Arranged() && HasKey(slots, entries, p) && alt == AltOf(hs, slots, entries, p)
      requires Full(slots, alt) && depth < MAX_CUCKOO_PATH && WaysOk(hs, slots, entries, ways)
      modifies this`slots, this`where
      ensures Arranged()
      ensures !ok ==> unchanged(this`slots) && unchanged(this`where)
      ensures ok ==> HoleFor(hs, old(slots), old(where), slots, where, entries, p, q, depth)
      ensures ok <==> alt in ways[depth + 1]
      decreases MAX_CUCKOO_PATH - depth, 0
    {
      ghost var s0, w0 := slots, where;
      var j := MakeSpace(alt, depth + 1, ways);
      if j < 0 {
        return false, 0;
      }
      HoleFound(hs, s0, w0, slots, where, entries, p, alt, j, depth);
      return true, alt * WAYS + j;
    }

    /** Finds or makes a hole in the other bucket of the entry in slot `p`. */
    method FindHole(p: nat, depth: nat, ghost ways: seq<set<nat>>) returns (ok: bool, q: nat)
      requires Arranged() && p < |slots| && slots[p].hv != 0 && depth < MAX_CUCKOO_PATH
      requires WaysOk(hs, slots, entries, ways)
      modifies this`slots, this`where
      ensures Arranged()
      ensures !ok ==> unchanged(this`slots) && unchanged(this`where)
      ensures ok ==> HoleFor(hs, old(slots), old(where), slots, where, entries, p, q, depth)
      ensures ok <==> HasWay(hs, old(slots), entries, p, ways[depth + 1])
      decreases MAX_CUCKOO_PATH - depth, 1
    {
      var alt := OtherBucket(p);
      var j := FindEmptySlot(alt);
      if j < 0 {
        ok, q := DeepHole(p, alt, depth, ways);
        return;
      }
      SamePairsRefl(hs, slots, entries, where);
      HoleFound(hs, slots, where, slots, where, entries, p, alt, j, depth);
      return true, alt * WAYS + j;
    }

    /** One round of the loop in `make_space`: the entry in slot `p`. */
    method Evict(p: nat, depth: nat, ghost ways: seq<set<nat>>) returns (ok: bool)
      requires Arranged() && p < |slots| && slots[p].hv != 0 && depth < MAX_CUCKOO_PATH
      requires WaysOk(hs, slots, entries, ways)
      modifies this`slots, this`where
      ensures Arranged() && SamePairs(old(slots), old(where), slots, where)
      ensures !ok ==> unchanged(this`slots) && unchanged(this`where)
      ensures ok <==> HasWay(hs, old(slots), entries, p, ways[depth + 1])
      ensures ok ==> Evicted(hs, old(slots), entries, slots, p, depth)
      decreases MAX_CUCKOO_PATH - depth, 2
    {
      ghost var s0, w0 := slots, where;
      assert SlotPlaced(hs, s0, entries, w0, p);
      ghost var key := KeyAt(s0, entries, p);
      var q;
      ok, q := FindHole(p, depth, ways);
      if !ok {
        SamePairsRefl(hs, s0, entries, w0);
        return;
      }
      ghost var s1, w1 := slots, where;
      EvictKeeps(hs, s0, w0, s1, w1, entries, p, q, depth);
      assert s0[q].hv != 0 ==> SlotPlaced(hs, s0, entries, w0, q);
      EvictLeavesHole(hs, s0, w0, s1, w1, entries, p, q, depth);
      slots := slots[q := slots[p]];
      slots := slots[p := slots[p].(hv := 0)];
      if p != q {
        where := where[key := q];
      }
      assert slots == Moved(s1, p, q);
    }

    /** An empty table; `InitEx` checks the arguments. */
    constructor (hs: Hashing<K>, buckets: nat, capacity: nat, bucketLimit: nat)
      requires HashingOk(hs) && buckets > 0 && capacity >= WAYS
      ensures Valid() && m == map[] && Buckets(slots) == buckets
      ensures this.hs == hs && this.bucketLimit == bucketLimit
    {
      this.hs, this.bucketLimit := hs, bucketLimit;
      slots := seq(buckets * WAYS, _ => Slot(0, 0));
      entries := seq(capacity, _ => Link(0));
      freeIdx, cnt := NO_INDEX, 0;
      where, free, m := map[], [], map[];
      new;
      assert |slots| == buckets * WAYS && |slots| % WAYS == 0;
      LinkDown(0, capacity);
    }

    method PushFree(idx: nat)
      requires Arranged() && StoresMap(slots, entries, where, m) && Chain(entries, freeIdx, free)
      requires idx < |entries| && entries[idx].Link? && idx !in free
      modifies this`entries, this`freeIdx, this`free
      ensures Arranged() && StoresMap(slots, entries, where, m) && Chain(entries, freeIdx, free)
      ensures free == [idx] + old(free)
      ensures entries == old(entries)[idx := Link(old(freeIdx))]
    {
      ghost var before := entries;
      ChainPush(entries, freeIdx, free, idx);
      entries := entries[idx := Link(freeIdx)];
      freeIdx := idx;
      free := [idx] + free;
      EntriesFrame(hs, slots, before, entries, where, m);
    }

    /** The loop that puts entries `from` .. `to - 2` on the free list. As in the source, the
        index `to - 1` is skipped and never used. */
    method LinkDown(from: nat, to: nat)
      requires Arranged() && StoresMap(slots, entries, where, m) && Chain(entries, freeIdx, free)
      requires from < to == |entries|
      requires forall i :: from <= i < to ==> entries[i].Link? && i !in free
      modifies this`entries, this`freeIdx, this`free
      ensures Arranged() && StoresMap(slots, entries, where, m) && Chain(entries, freeIdx, free)
      ensures |entries| == old(|entries|)
      ensures from + 1 < to ==> free != []
    {
      var i := to - 1;
      while i > from
        invariant from <= i < to
        invariant Arranged() && StoresMap(slots, entries, where, m) && Chain(entries, freeIdx, free)
        invariant |entries| == to
        invariant forall x :: from <= x < i ==> entries[x].Link? && x !in free
        invariant i < to - 1 ==> free != []
      {
        i := i - 1;
        PushFree(i);
      }
    }

    /** Grows the entry array by half; the new entries are not on the free list yet. */
    method GrowEntries(newSize: nat)
      requires Valid() && newSize >= |entries|
      modifies this`entries
      ensures Valid() && |entries| == newSize && old(entries) <= entries
      ensures forall i :: |old(entries)| <= i < newSize ==> entries[i].Link? && i !in free
    {
      ghost var before := entries;
      entries := entries + seq(newSize - |entries|, _ => Link(0));
      ChainFrame(before, entries, freeIdx, free);
      EntriesFrame(hs, slots, before, entries, where, m);
      forall i | |before| <= i < newSize ensures i !in free {
        if i in free {
          ChainLinks(before, freeIdx, free, i);
        }
      }
    }

    method ExpandEntries()
      requires Valid()
      modifies this`entries, this`freeIdx, this`free
      ensures Valid() && free != []
    {
      var oldSize := |entries|;
      var newSize := oldSize + oldSize / 2;
      GrowEntries(newSize);
      LinkDown(oldSize, newSize);
    }

    /** Takes an entry off the free list, growing the entry array if the list is empty. */
    method PopFree() returns (idx: nat)
      requires Valid()
      modifies this`entries, this`freeIdx, this`free
      ensures Arranged() && StoresMap(slots, entries, where, m) && |entries| >= WAYS
      ensures idx < |entries| && entries[idx].Link? && idx !in free && Chain(entries, freeIdx, free)
    {
      if freeIdx == NO_INDEX {
        ExpandEntries();
      }
      ChainPop(entries, freeIdx, free, entries[freeIdx]);
      assert entries[freeIdx := entries[freeIdx]] == entries;
      idx := freeIdx;
      freeIdx := entries[idx].next;
      free := free[1..];
    }

    /** Writes a new key to slot `p` and to the free entry `idx`. */
    method Store(p: nat, idx: nat, key: K, value: V)
      requires Arranged() && StoresMap(slots, entries, where, m) && |entries| >= WAYS && cnt == |m|
      requires Chain(entries, freeIdx, free) && idx < |entries| && entries[idx].Link? && idx !in free
      requires key !in m && p < |slots| && slots[p].hv == 0
      requires Allowed(hs, hs.pri(key), p / WAYS, Buckets(slots))
      modifies this
      ensures Valid() && m == old(m)[key := value] && |slots| == |old(slots)| && Buckets(slots) == Buckets(old(slots))
    {
      OneMore(m, key, value);
      forall k | k in where ensures where[k] != p {
        assert KeyPlaced(slots, entries, where, k);
      }
      ghost var s1, e1 := slots[p := Slot(hs.pri(key), idx)], entries[idx := Kv(key, value)];
      AddKeepsPlaced(hs, slots, entries, where, p, idx, key, value);
      AddKeepsMap(slots, entries, where, m, p, idx, hs.pri(key), key, value);
      ChainFrame(entries, e1, freeIdx, free);
      slots := slots[p := Slot(hs.pri(key), idx)];
      entries := entries[idx := Kv(key, value)];
      cnt := cnt + 1;
      where, m := where[key := p], m[key := value];
      assert slots == s1 && entries == e1;
    }

    method AddToSlot(p: nat, key: K, value: V)
      requires Valid() && key !in m && p < |slots| && slots[p].hv == 0
      requires Allowed(hs, hs.pri(key), p / WAYS, Buckets(slots))
      modifies this
      ensures Valid() && m == old(m)[key := value] && |slots| == |old(slots)| && Buckets(slots) == Buckets(old(slots))
    {
      var idx := PopFree();
      Store(p, idx, key, value);
    }

    method AddToBucket(b: nat, key: K, value: V) returns (ok: bool)
      requires Valid() && key !in m && b < Buckets(slots)
      requires Allowed(hs, hs.pri(key), b, Buckets(slots))
      modifies this
      ensures Valid() && |slots| == |old(slots)| && Buckets(slots) == Buckets(old(slots))
      ensures ok <==> !Full(old(slots), b)
      ensures ok ==> m == old(m)[key := value]
      ensures !ok ==> unchanged(this`m) && unchanged(this`slots) && unchanged(this`entries)
    {
      var i := FindEmptySlot(b);
      if i < 0 {
        return false;
      }
      assert (b * WAYS + i) / WAYS == b;
      AddToSlot(b * WAYS + i, key, value);
      return true;
    }

    /** `make_space` from the top, seen from outside: the map does not change. */
    method Vacate(b: nat, ghost ways: seq<set<nat>>) returns (ok: bool)
      requires Valid() && b < Buckets(slots) && Full(slots, b) && WaysOk(hs, slots, entries, ways)
      modifies this`slots, this`where
      ensures Valid() && |slots| == |old(slots)| && Buckets(slots) == Buckets(old(slots))
      ensures ok <==> b in ways[0]
      ensures ok ==> !Full(slots, b)
      ensures !ok ==> unchanged(this`slots)
    {
      ghost var s0, w0 := slots, where;
      var r := MakeSpace(b, 0, ways);
      ShuffleKeepsMap(s0, w0, slots, where, entries, m);
      ok := r >= 0;
      if ok {
        HoleInBucket(slots, b, r);
      }
    }

    method AddToEither(b: nat, c: nat, key: K, value: V) returns (ok: bool)
      requires Valid() && key !in m && HomesAmong(hs, key, Buckets(slots), b, c)
      modifies this
      ensures Valid() && |slots| == |old(slots)| && Buckets(slots) == Buckets(old(slots))
      ensures ok <==> RoomIn(old(slots), b, c)
      ensures ok ==> m == old(m)[key := value]
      ensures !ok ==> unchanged(this`m) && unchanged(this`slots) && unchanged(this`entries)
    {
      ok := AddToBucket(b, key, value);
      if !ok {
        ok := AddToBucket(c, key, value);
      }
    }

    method VacateEither(b: nat, c: nat, ghost ways: seq<set<nat>>) returns (ok: bool)
      requires Valid() && b < Buckets(slots) && c < Buckets(slots) && !RoomIn(slots, b, c)
      requires WaysOk(hs, slots, entries, ways)
      modifies this`slots, this`where
      ensures Valid() && |slots| == |old(slots)| && Buckets(slots) == Buckets(old(slots))
      ensures ok <==> b in ways[0] || c in ways[0]
      ensures ok ==> RoomIn(slots, b, c)
      ensures !ok ==> unchanged(this`slots)
    {
      ok := Vacate(b, ways);
      if !ok {
        ok := Vacate(c, ways);
      }
    }

    /** What follows the first round: make room in either bucket and go back to the label
        `again`. The second round finds room, so there is no third. */
    method SecondRound(b: nat, c: nat, key: K, value: V, ghost ways: seq<set<nat>>) returns (ok: bool)
      requires Valid() && key !in m && HomesAmong(hs, key, Buckets(slots), b, c) && !RoomIn(slots, b, c)
      requires WaysOk(hs, slots, entries, ways)
      modifies this
      ensures Valid() && |slots| == |old(slots)| && Buckets(slots) == Buckets(old(slots))
      ensures ok <==> b in ways[0] || c in ways[0]
      ensures ok ==> m == old(m)[key := value]
      ensures !ok ==> unchanged(this`m)
    {
      ok := VacateEither(b, c, ways);
      if !ok {
        return;
      }
      ok := AddToEither(b, c, key, value);
      assert ok;
    }

    /** The key must not be in the table. */
    method AddEntry(key: K, value: V) returns (ok: bool)
      requires Valid() && key !in m
      modifies this
      ensures Valid() && |slots| == |old(slots)|
      ensures ok ==> m == old(m)[key := value]
      ensures !ok ==> unchanged(this`m)
      ensures ok <==> Fits(hs, key, old(slots), old(entries))
    {
      ghost var ways := WaysFound(hs, slots, entries);
      FitsIff(hs, key, slots, entries, ways);
      ok := AddEntryBy(key, value, ways);
    }

    method AddEntryBy(key: K, value: V, ghost ways: seq<set<nat>>) returns (ok: bool)
      requires Valid() && key !in m && WaysOk(hs, slots, entries, ways)
      modifies this
      ensures Valid() && |slots| == |old(slots)|
      ensures ok ==> m == old(m)[key := value]
      ensures !ok ==> unchanged(this`m)
      ensures ok <==> FitsBy(hs, key, old(slots), ways[0])
    {
      var n := Buckets(slots);
      var pri := hs.pri(key);
      var sec := hs.sec(pri);
      HomeBound(hs, pri, n);
      HomeBound(hs, sec, n);
      var b, c := hs.home(pri, n), hs.home(sec, n);
      ok := AddToEither(b, c, key, value);
      if !ok {
        ok := SecondRound(b, c, key, value, ways);
      }
    }

    /** The slot in bucket `b` that holds the key, or a negative number. */
    method FindInBucket(b: nat, key: K) returns (p: int)
      requires Valid() && b < Buckets(slots)
      ensures p >= 0 ==> key in where && where[key] == p
      ensures p < 0 ==> p == -ENOENT && (key in where ==> where[key] / WAYS != b)
    {
      for i := 0 to WAYS
        invariant key in where ==> !(b * WAYS <= where[key] < b * WAYS + i)
      {
        var x := b * WAYS + i;
        if slots[x].hv == hs.pri(key) {
          assert SlotPlaced(hs, slots, entries, where, x);
          if entries[slots[x].idx].key == key {
            return x;
          }
        }
        if key in where && where[key] == x {
          KeyFound(hs, slots, entries, where, key);
        }
      }
      return -ENOENT;
    }

    /** Looks in the primary, then in the secondary bucket. */
    method Find(key: K) returns (p: int)
      requires Valid()
      ensures p >= 0 <==> key in m
      ensures p >= 0 ==> where[key] == p
    {
      var n := Buckets(slots);
      var pri := hs.pri(key);
      var sec := hs.sec(pri);
      HomeBound(hs, pri, n);
      HomeBound(hs, sec, n);
      p := FindInBucket(hs.home(pri, n), key);
      if p < 0 {
        p := FindInBucket(hs.home(sec, n), key);
      }
      if key in where {
        KeyFound(hs, slots, entries, where, key);
      }
    }

    method Get(key: K) returns (r: Option<V>)
      requires Valid()
      ensures r == if key in m then Some(m[key]) else None
    {
      var p := Find(key);
      if p < 0 {
        return None;
      }
      assert Stored(slots[where[key]].idx, entries, key, m[key]);
      return Some(entries[slots[p].idx].value);
    }

    method Count() returns (n: nat)
      requires Valid()
      ensures n == |m|
    {
      return cnt;
    }

    method Del(key: K) returns (ret: int)
      requires Valid()
      modifies this
      ensures Valid() && |slots| == |old(slots)|
      ensures ret == if key in old(m) then 0 else -ENOENT
      ensures m == old(m) - {key} && where == old(where) - {key}
    {
      var p := Find(key);
      if p < 0 {
        assert m - {key} == m && where - {key} == where;
        return -ENOENT;
      }
      DelSlot(p, key);
      return 0;
    }

    method DelSlot(p: nat, ghost key: K)
      requires Valid() && key in m && where[key] == p
      modifies this
      ensures Valid() && m == old(m) - {key} && where == old(where) - {key}
      ensures p < |old(slots)| && slots == old(slots)[p := old(slots)[p].(hv := 0)]
    {
      KeyFound(hs, slots, entries, where, key);
      assert Stored(slots[p].idx, entries, key, m[key]);
      var idx := slots[p].idx;
      RemoveKeepsPlaced(hs, slots, entries, where, p, freeIdx);
      RemoveKeepsMap(slots, entries, where, m, p, key, freeIdx);
      if idx in free {
        ChainLinks(entries, freeIdx, free, idx);
      }
      ChainPush(entries, freeIdx, free, idx);
      slots := slots[p := slots[p].(hv := 0)];
      entries := entries[idx := Link(freeIdx)];
      freeIdx := idx;
      cnt := cnt - 1;
      free, where, m := [idx] + free, where - {key}, m - {key};
    }

    /** The next occupied slot from `next` on; None at the end of the table. */
    method Iterate(next: nat) returns (key: Option<K>, next': nat)
      requires Valid() && next <= |slots|
      ensures next <= next' <= |slots|
      ensures key.None? ==> next' == |slots|
      ensures key.None? ==> forall k :: k in where ==> where[k] < next
      ensures key.Some? ==> next < next' && key.value in where && where[key.value] == next' - 1
      ensures key.Some? ==> forall k :: k in where ==> where[k] < next || next' - 1 <= where[k]
    {
      next' := next;
      while next' < |slots|
        invariant next <= next' <= |slots|
        invariant forall p :: next <= p < next' ==> slots[p].hv == 0
      {
        next' := next' + 1;
        if slots[next' - 1].hv != 0 {
          assert SlotPlaced(hs, slots, entries, where, next' - 1);
          forall k | k in where
            ensures where[k] < next || next' - 1 <= where[k]
          {
            KeyFound(hs, slots, entries, where, k);
          }
          return Some(entries[slots[next' - 1].idx].key), next';
        }
      }
      forall k | k in where ensures where[k] < next {
        KeyFound(hs, slots, entries, where, k);
      }
      return None, next';
    }

    /** No two keys share a slot, so deleting the one in slot `next - 1` leaves the rest behind it. */
    method DelAndIterate(key: K, next: nat) returns (key': Option<K>, next': nat)
      requires Valid() && key in m && 0 < next <= |slots| && where[key] == next - 1
      requires forall k :: k in m ==> next - 1 <= where[k]
      modifies this
      ensures Valid() && |slots| == |old(slots)| && m.Keys < old(m).Keys
      ensures next <= next' <= |slots|
      ensures key'.None? ==> m.Keys == {}
      ensures key'.Some? ==> key'.value in m && next < next' && where[key'.value] == next' - 1
      ensures key'.Some? ==> forall k :: k in m ==> next' - 1 <= where[k]
    {
      KeyFound(hs, slots, entries, where, key);
      forall k | k in m && k != key ensures next <= where[k] {
        KeyFound(hs, slots, entries, where, k);
      }
      var _ := Del(key);
      key', next' := Iterate(next);
      assert key'.None? ==> m.Keys == {};
    }

    method Clear()
      requires Valid()
      modifies this
      ensures Valid() && m == map[] && |slots| == |old(slots)|
    {
      var key, next := Iterate(0);
      while key.Some?
        invariant Valid() && |slots| == |old(slots)| && next <= |slots|
        invariant key.None? ==> m.Keys == {}
        invariant key.Some? ==> key.value in m && 0 < next && where[key.value] == next - 1
        invariant key.Some? ==> forall k :: k in m ==> next - 1 <= where[k]
        decreases m.Keys
      {
        key, next := DelAndIterate(key.value, next);
      }
    }

    /** How many more buckets could be allocated. */
    ghost function Slack(): nat
      requires SlotsOk(slots)
      reads this
    {
      if bucketLimit > Buckets(slots) then bucketLimit - Buckets(slots) else 0
    }

    /** The value of a key already in the table is overwritten in place. */
    method Overwrite(p: nat, key: K, value: V)
      requires Valid() && key in m && where[key] == p
      modifies this
      ensures Valid() && m == old(m)[key := value] && slots == old(slots)
    {
      UpdateKeeps(hs, slots, entries, where, m, key, value);
      var idx := slots[p].idx;
      if idx in free {
        assert Stored(slots[where[key]].idx, entries, key, m[key]);
        ChainLinks(entries, freeIdx, free, idx);
      }
      ChainFrame(entries, entries[idx := Kv(key, value)], freeIdx, free);
      assert m[key := value].Keys == m.Keys;
      entries := entries[idx := Kv(key, value)];
      m := m[key := value];
    }

    /** One key of the old table goes into the new one. */
    method CopyKey(t: CuckooTable<K, V>, key: K) returns (ret: int)
      requires Valid() && t.Valid() && t != this && t.Slack() < Slack() && key in m && key !in t.m
      modifies t
      ensures t.Valid() && Buckets(t.slots) >= Buckets(old(t.slots))
      ensures ret <= 0
      ensures ret == 0 ==> t.m == old(t.m)[key := m[key]]
      decreases Slack(), 0
    {
      var p := Find(key);
      assert Stored(slots[where[key]].idx, entries, key, m[key]);
      ret := t.Set(key, entries[slots[p].idx].value);
    }

    method CopySlot(t: CuckooTable<K, V>, key: K) returns (ret: int)
      requires Valid() && t.Valid() && t != this && t.Slack() < Slack()
      requires key in m && Copied(t.m, m, where, where[key])
      modifies t
      ensures t.Valid() && Buckets(t.slots) >= Buckets(old(t.slots))
      ensures ret <= 0
      ensures ret == 0 ==> Copied(t.m, m, where, where[key] + 1)
      decreases Slack(), 1
    {
      OneSlotOneKey(hs, slots, entries, where, key);
      CopiedOneMore(t.m, m, where, key);
      ret := CopyKey(t, key);
    }

    /** One round of the loop in `clone_table`. */
    method CopyNext(t: CuckooTable<K, V>, key: K, next: nat)
      returns (ret: int, more: bool, key': K, next': nat)
      requires Valid() && t.Valid() && t != this && t.Slack() < Slack()
      requires key in m && where[key] + 1 == next <= |slots| && Copied(t.m, m, where, where[key])
      modifies t
      ensures t.Valid() && Buckets(t.slots) >= Buckets(old(t.slots))
      ensures ret <= 0 && next <= next' <= |slots|
      ensures ret == 0 && more ==>
        next < next' && key' in m && where[key'] + 1 == next' && Copied(t.m, m, where, where[key'])
      ensures ret == 0 && !more ==> Copied(t.m, m, where, |slots|)
      decreases Slack(), 2
    {
      ret := CopySlot(t, key);
      if ret != 0 {
        return ret, false, key, next;
      }
      var found;
      found, next' := Iterate(next);
      more, key' := found.Some?, if found.Some? then found.value else key;
      CopiedFurther(t.m, m, where, next, if more then where[key'] else |slots|);
    }

    /** The loop of `clone_table`, from the first key on. */
    method CloneLoop(t: CuckooTable<K, V>, first: K, start: nat) returns (ret: int)
      requires Valid() && t.Valid() && t != this && t.Slack() < Slack()
      requires start <= |slots| && first in m && where[first] + 1 == start && Copied(t.m, m, where, start - 1)
      modifies t
      ensures t.Valid() && Buckets(t.slots) >= Buckets(old(t.slots))
      ensures ret <= 0
      ensures ret == 0 ==> Copied(t.m, m, where, |slots|)
      decreases Slack(), 3
    {
      var key, next := first, start;
      var more := true;
      while more
        invariant t.Valid() && Buckets(t.slots) >= Buckets(old(t.slots))
        invariant next <= |slots|
        invariant more ==> key in m && where[key] + 1 == next && Copied(t.m, m, where, where[key])
        invariant !more ==> Copied(t.m, m, where, |slots|)
        decreases |slots| - next, more
      {
        ret, more, key, next := CopyNext(t, key, next);
        if ret != 0 {
          return;
        }
      }
      return 0;
    }

    /** `clone_table`: fills the empty table `t` by iterating over this one. */
    method CloneInto(t: CuckooTable<K, V>) returns (ret: int)
      requires Valid() && t.Valid() && t != this && t.m == map[] && t.Slack() < Slack()
      modifies t
      ensures t.Valid() && Buckets(t.slots) >= Buckets(old(t.slots))
      ensures ret <= 0
      ensures ret == 0 ==> Copied(t.m, m, where, |slots|)
      decreases Slack(), 4
    {
      var key, next := Iterate(0);
      if key.None? {
        return 0;
      }
      ret := CloneLoop(t, key.value, next);
    }

    /** A new table with twice the buckets. It replaces this one only when every key went in. */
    method ExpandBuckets() returns (ret: int)
      requires Valid()
      modifies this
      ensures Valid() && unchanged(this`m)
      ensures ret <= 0
      ensures ret == 0 ==> Buckets(slots) >= 2 * Buckets(old(slots)) && Slack() < old(Slack())
      ensures ret < 0 ==> unchanged(this`slots)
      ensures 2 * Buckets(old(slots)) > bucketLimit ==> ret < 0
      decreases Slack(), 5
    {
      var n := Buckets(slots) * 2;
      if n > bucketLimit {
        return -ENOMEM;
      }
      var t := new CuckooTable<K, V>(hs, n, |entries|, bucketLimit);
      ret := CloneInto(t);
      if ret == 0 {
        ReplaceBy(t);
      }
    }

    /** `*this = *t`. */
    method ReplaceBy(t: CuckooTable<K, V>)
      requires Valid() && t.Valid() && t.hs == hs && Copied(t.m, m, where, |slots|)
      modifies this
      ensures Valid() && unchanged(this`m) && slots == old(t.slots)
    {
      forall k | k in m ensures where[k] < |slots| {
        KeyFound(hs, slots, entries, where, k);
      }
      CopiedAll(t.m, m, where, |slots|);
      slots, entries, freeIdx, cnt := t.slots, t.entries, t.freeIdx, t.cnt;
      where, free := t.where, t.free;
    }

    /** 1 if the key was there and its value is replaced, 0 if it was inserted, negative if the
        table had to grow and could not. */
    method Set(key: K, value: V) returns (ret: int)
      requires Valid()
      modifies this
      ensures Valid() && Buckets(slots) >= Buckets(old(slots))
      ensures ret == 1 <==> key in old(m)
      ensures ret == 1 || ret <= 0
      ensures ret >= 0 ==> m == old(m)[key := value]
      ensures ret < 0 ==> unchanged(this`m)
      ensures Fits(hs, key, old(slots), old(entries)) ==> ret >= 0 && |slots| == |old(slots)|
      ensures 2 * Buckets(old(slots)) > bucketLimit ==> (ret >= 0 <==> key in old(m) || Fits(hs, key, old(slots), old(entries)))
      decreases Slack(), 8
    {
      var p := Find(key);
      if p >= 0 {
        Overwrite(p, key, value);
        return 1;
      }
      ret := Insert(key, value);
    }

    /** One round of the loop of `Set`. */
    method GrowAndAdd(key: K, value: V) returns (ret: int, ok: bool)
      requires Valid() && key !in m
      modifies this
      ensures Valid() && Buckets(slots) >= Buckets(old(slots))
      ensures ret <= 0 && (ret < 0 ==> !ok)
      ensures ok ==> m == old(m)[key := value]
      ensures !ok ==> unchanged(this`m)
      ensures ret == 0 ==> Slack() < old(Slack())
      ensures 2 * Buckets(old(slots)) > bucketLimit ==> ret < 0
      decreases Slack(), 6
    {
      ret := ExpandBuckets();
      if ret < 0 {
        return ret, false;
      }
      ok := AddEntry(key, value);
    }

    /** The loop of `Set`: grow until the key fits. */
    method Insert(key: K, value: V) returns (ret: int)
      requires Valid() && key !in m
      modifies this
      ensures Valid() && Buckets(slots) >= Buckets(old(slots))
      ensures ret <= 0
      ensures ret == 0 ==> m == old(m)[key := value]
      ensures ret < 0 ==> unchanged(this`m)
      ensures Fits(hs, key, old(slots), old(entries)) ==> ret == 0 && |slots| == |old(slots)|
      ensures 2 * Buckets(old(slots)) > bucketLimit && !Fits(hs, key, old(slots), old(entries)) ==> ret < 0
      decreases Slack(), 7
    {
      ghost var fits := Fits(hs, key, slots, entries);
      var ok := AddEntry(key, value);
      ret := 0;
      while !ok
        invariant Valid() && Buckets(slots) >= Buckets(old(slots)) && ret == 0
        invariant ok ==> m == old(m)[key := value]
        invariant !ok ==> unchanged(this`m)
        invariant Slack() <= old(Slack())
        invariant !ok ==> !fits
        invariant fits ==> |slots| == |old(slots)|
        invariant 2 * Buckets(old(slots)) > bucketLimit ==> (ok <==> fits)
        decreases Slack(), !ok
      {
        ret, ok := GrowAndAdd(key, value);
        if ret < 0 {
          return;
        }
      }
    }
  }

  lemma OneSlotOneKey<K(!new), V>(hs: Hashing<K>, slots: seq<Slot>, entries: seq<Entry<K, V>>,
                                  where: map<K, nat>, key: K)
    requires Placed(hs, slots, entries, where) && key in where
    ensures forall k :: k in where && where[k] == where[key] ==> k == key
  {
    KeyFound(hs, slots, entries, where, key);
    forall k | k in where && where[k] == where[key] ensures k == key {
      KeyFound(hs, slots, entries, where, k);
    }
  }

  lemma CopiedOneMore<K(!new), V>(copy: map<K, V>, m: map<K, V>, where: map<K, nat>, key: K)
    requires m.Keys == where.Keys && key in m && Copied(copy, m, where, where[key])
    requires forall k :: k in where && where[k] == where[key] ==> k == key
    ensures Copied(copy[key := m[key]], m, where, where[key] + 1)
  {
  }

  lemma CopiedFurther<K(!new), V>(copy: map<K, V>, m: map<K, V>, where: map<K, nat>, next: nat, next': nat)
    requires m.Keys == where.Keys && Copied(copy, m, where, next) && next <= next'
    requires forall k :: k in where ==> where[k] < next || next' <= where[k]
    ensures Copied(copy, m, where, next')
  {
  }

  /** The keys in the slots before `next` have been copied, with their values. */
  ghost predicate Copied<K(!new), V>(copy: map<K, V>, m: map<K, V>, where: map<K, nat>, next: nat)
    requires m.Keys == where.Keys
  {
    && (forall k :: k in copy <==> k in m && where[k] < next)
    && (forall k :: k in copy ==> copy[k] == m[k])
  }

  /** The entry in slot `p` has somewhere to go: its other bucket has room, or is among those that
      can be made to have some. */
  ghost predicate HasWay<K(!new), V>(hs: Hashing<K>, slots: seq<Slot>, entries: seq<Entry<K, V>>, p: nat, deeper: set<nat>)
    requires HashingOk(hs) && SlotsOk(slots)
  {
    && HasKey(slots, entries, p)
    && (AltFull(hs, slots, entries, p) ==> AltOf(hs, slots, entries, p) in deeper)
  }

  /** Some entry of bucket `b` has. */
  ghost predicate SomeHasWay<K(!new), V>(hs: Hashing<K>, slots: seq<Slot>, entries: seq<Entry<K, V>>, b: nat, deeper: set<nat>)
    requires HashingOk(hs) && SlotsOk(slots)
  {
    exists i | 0 <= i < WAYS :: WayOut(hs, slots, entries, b, i, deeper)
  }

  ghost predicate WayOut<K(!new), V>(hs: Hashing<K>, slots: seq<Slot>, entries: seq<Entry<K, V>>, b: nat, i: nat, deeper: set<nat>)
    requires HashingOk(hs) && SlotsOk(slots)
  {
    HasWay(hs, slots, entries, b * WAYS + i, deeper)
  }

  /** The buckets some entry of which has. */
  ghost function Leavable<K(!new), V>(hs: Hashing<K>, slots: seq<Slot>, entries: seq<Entry<K, V>>, deeper: set<nat>): set<nat>
    requires HashingOk(hs) && SlotsOk(slots)
  {
    set b: nat | 0 <= b < Buckets(slots) && SomeHasWay(hs, slots, entries, b, deeper)
  }

  /** ways[d]: the buckets that can be made to have room by a path that is `d` long already. */
  ghost predicate WaysOk<K(!new), V>(hs: Hashing<K>, slots: seq<Slot>, entries: seq<Entry<K, V>>, ways: seq<set<nat>>)
    requires HashingOk(hs) && SlotsOk(slots)
  {
    && |ways| == MAX_CUCKOO_PATH + 1 && ways[MAX_CUCKOO_PATH] == {}
    && forall d | 0 <= d < MAX_CUCKOO_PATH :: ways[d] == Leavable(hs, slots, entries, ways[d + 1])
  }

  ghost predicate NoWayBefore<K(!new), V>(hs: Hashing<K>, slots: seq<Slot>, entries: seq<Entry<K, V>>, b: nat, i: nat, deeper: set<nat>)
    requires HashingOk(hs) && SlotsOk(slots)
  {
    forall j | 0 <= j < i :: !WayOut(hs, slots, entries, b, j, deeper)
  }

  lemma NextWay<K(!new), V>(hs: Hashing<K>, slots: seq<Slot>, entries: seq<Entry<K, V>>, b: nat, i: nat, depth: nat, ways: seq<set<nat>>)
    requires HashingOk(hs) && SlotsOk(slots) && WaysOk(hs, slots, entries, ways)
    requires b < Buckets(slots) && i < WAYS && depth < MAX_CUCKOO_PATH && NoWayBefore(hs, slots, entries, b, i, ways[depth + 1])
    ensures HasWay(hs, slots, entries, b * WAYS + i, ways[depth + 1]) ==> b in ways[depth]
    ensures !HasWay(hs, slots, entries, b * WAYS + i, ways[depth + 1]) ==> NoWayBefore(hs, slots, entries, b, i + 1, ways[depth + 1])
  {
    if WayOut(hs, slots, entries, b, i, ways[depth + 1]) {
      assert SomeHasWay(hs, slots, entries, b, ways[depth + 1]);
    }
  }

  lemma NoWayAtAll<K(!new), V>(hs: Hashing<K>, slots: seq<Slot>, entries: seq<Entry<K, V>>, b: nat, depth: nat, ways: seq<set<nat>>)
    requires HashingOk(hs) && SlotsOk(slots) && WaysOk(hs, slots, entries, ways)
    requires b < Buckets(slots) && depth < MAX_CUCKOO_PATH && NoWayBefore(hs, slots, entries, b, WAYS, ways[depth + 1])
    ensures b !in ways[depth]
  {
  }

  lemma WaysFound<K(!new), V>(hs: Hashing<K>, slots: seq<Slot>, entries: seq<Entry<K, V>>) returns (ways: seq<set<nat>>)
    requires HashingOk(hs) && SlotsOk(slots)
    ensures WaysOk(hs, slots, entries, ways)
  {
    var two := Leavable(hs, slots, entries, {});
    var one := Leavable(hs, slots, entries, two);
    ways := [Leavable(hs, slots, entries, one), one, two, {}];
  }

  lemma {:induction false} WaysUnique<K(!new), V>(hs: Hashing<K>, slots: seq<Slot>, entries: seq<Entry<K, V>>, v: seq<set<nat>>, w: seq<set<nat>>, d: nat)
    requires HashingOk(hs) && SlotsOk(slots) && WaysOk(hs, slots, entries, v) && WaysOk(hs, slots, entries, w)
    requires d <= MAX_CUCKOO_PATH
    ensures v[d] == w[d]
    decreases MAX_CUCKOO_PATH - d
  {
    if d < MAX_CUCKOO_PATH {
      WaysUnique(hs, slots, entries, v, w, d + 1);
    }
  }

  lemma FullSlot(slots: seq<Slot>, b: nat, i: nat)
    requires SlotsOk(slots) && b < Buckets(slots) && Full(slots, b) && i < WAYS
    ensures b * WAYS + i < |slots| && slots[b * WAYS + i].hv != 0
  {
  }

  lemma CopiedAll<K(!new), V>(copy: map<K, V>, m: map<K, V>, where: map<K, nat>, next: nat)
    requires m.Keys == where.Keys && Copied(copy, m, where, next) && forall k | k in m :: where[k] < next
    ensures copy == m
  {
    assert copy.Keys == m.Keys;
  }

  /** The key's primary and secondary bucket. */
  ghost predicate HomesAmong<K>(hs: Hashing<K>, key: K, n: nat, b: nat, c: nat) {
    b < n && c < n && b == hs.home(hs.pri(key), n) && c == hs.home(hs.sec(hs.pri(key)), n)
  }

  /** One of the two buckets has an empty slot. */
  predicate RoomIn(slots: seq<Slot>, b: nat, c: nat)
    requires SlotsOk(slots) && b < Buckets(slots) && c < Buckets(slots)
  {
    !Full(slots, b) || !Full(slots, c)
  }

  /** One of the key's two buckets has an empty slot. */
  predicate RoomFor<K>(hs: Hashing<K>, key: K, slots: seq<Slot>)
    requires SlotsOk(slots)
  {
    var n := Buckets(slots);
    var b, c := hs.home(hs.pri(key), n), hs.home(hs.sec(hs.pri(key)), n);
    (b < n && !Full(slots, b)) || (c < n && !Full(slots, c))
  }

  predicate FitsBy<K>(hs: Hashing<K>, key: K, slots: seq<Slot>, vacatable: set<nat>)
    requires SlotsOk(slots)
  {
    var n := Buckets(slots);
    || RoomFor(hs, key, slots)
    || hs.home(hs.pri(key), n) in vacatable
    || hs.home(hs.sec(hs.pri(key)), n) in vacatable
  }

  /** The key can be added without growing: one of its two buckets has room, or can be made to have
      some by a path of evictions no longer than allowed. */
  ghost predicate Fits<K(!new), V>(hs: Hashing<K>, key: K, slots: seq<Slot>, entries: seq<Entry<K, V>>)
    requires HashingOk(hs) && SlotsOk(slots)
  {
    exists ways | WaysOk(hs, slots, entries, ways) :: FitsBy(hs, key, slots, ways[0])
  }

  lemma FitsIff<K(!new), V>(hs: Hashing<K>, key: K, slots: seq<Slot>, entries: seq<Entry<K, V>>, ways: seq<set<nat>>)
    requires HashingOk(hs) && SlotsOk(slots) && WaysOk(hs, slots, entries, ways)
    ensures Fits(hs, key, slots, entries) <==> FitsBy(hs, key, slots, ways[0])
  {
    if Fits(hs, key, slots, entries) {
      var v :| WaysOk(hs, slots, entries, v) && FitsBy(hs, key, slots, v[0]);
      WaysUnique(hs, slots, entries, v, ways, 0);
    }
  }

  lemma RoomFits<K(!new), V>(hs: Hashing<K>, key: K, slots: seq<Slot>, entries: seq<Entry<K, V>>)
    requires HashingOk(hs) && SlotsOk(slots) && RoomFor(hs, key, slots)
    ensures Fits(hs, key, slots, entries)
  {
    var ways := WaysFound(hs, slots, entries);
    assert FitsBy(hs, key, slots, ways[0]);
  }

  lemma OneMore<K, V>(m: map<K, V>, key: K, value: V)
    requires key !in m
    ensures |m[key := value]| == |m| + 1
  {
    assert m[key := value].Keys == m.Keys + {key};
  }

  lemma HoleInBucket(slots: seq<Slot>, b: nat, r: nat)
    requires SlotsOk(slots) && b < Buckets(slots) && r < WAYS && slots[b * WAYS + r].hv == 0
    ensures !Full(slots, b)
  {
  }

  lemma KeyFound<K(!new), V>(hs: Hashing<K>, slots: seq<Slot>, entries: seq<Entry<K, V>>, where: map<K, nat>, k: K)
    requires Placed(hs, slots, entries, where) && k in where
    ensures HasKey(slots, entries, where[k]) && KeyAt(slots, entries, where[k]) == k
    ensures slots[where[k]].hv == hs.pri(k) && Allowed(hs, hs.pri(k), where[k] / WAYS, Buckets(slots))
  {
    assert KeyPlaced(slots, entries, where, k);
    assert SlotPlaced(hs, slots, entries, where, where[k]);
  }

  /** Slot `hole` is empty now. Below the top of the recursion every other entry whose own
      other bucket was full is still in place, and at the last level the entry that left the
      hole had a free slot to go to. */
  ghost predicate Evicted<K(!new), V>(hs: Hashing<K>, slots: seq<Slot>, entries: seq<Entry<K, V>>,
                                      slots': seq<Slot>, hole: nat, depth: nat)
  {
    && HashingOk(hs) && SlotsOk(slots) && |slots'| == |slots|
    && hole < |slots'| && slots'[hole].hv == 0
    && (depth >= 1 ==> OnlyVacated(hs, slots, entries, slots', hole))
    && (depth >= MAX_CUCKOO_PATH - 1 ==>
          HasKey(slots, entries, hole) && !AltFull(hs, slots, entries, hole))
  }

  /** `q` is a hole in the other bucket of the entry in slot `p`: it was there to begin with,
      or that bucket was full and a deeper eviction left it. */
  ghost predicate HoleFor<K(!new), V>(hs: Hashing<K>, s0: seq<Slot>, w0: map<K, nat>, s1: seq<Slot>, w1: map<K, nat>,
                                      entries: seq<Entry<K, V>>, p: nat, q: nat, depth: nat)
  {
    && HashingOk(hs) && SlotsOk(s0)
    && SamePairs(s0, w0, s1, w1)
    && HasKey(s0, entries, p) && q < |s0| && q / WAYS == AltOf(hs, s0, entries, p)
    && s1[q].hv == 0
    && if AltFull(hs, s0, entries, p)
       then depth + 1 < MAX_CUCKOO_PATH && Evicted(hs, s0, entries, s1, q, depth + 1)
       else s1 == s0 && w1 == w0
  }

  lemma HoleFound<K(!new), V>(hs: Hashing<K>, s0: seq<Slot>, w0: map<K, nat>, s1: seq<Slot>, w1: map<K, nat>,
                              entries: seq<Entry<K, V>>, p: nat, alt: nat, j: nat, depth: nat)
    requires HashingOk(hs) && SlotsOk(s0) && HasKey(s0, entries, p) && alt == AltOf(hs, s0, entries, p)
    requires SamePairs(s0, w0, s1, w1) && j < WAYS && s1[alt * WAYS + j].hv == 0
    requires Full(s0, alt) ==>
      depth + 1 < MAX_CUCKOO_PATH && Evicted(hs, s0, entries, s1, alt * WAYS + j, depth + 1)
    requires !Full(s0, alt) ==> s1 == s0 && w1 == w0
    ensures HoleFor(hs, s0, w0, s1, w1, entries, p, alt * WAYS + j, depth)
  {
  }

  lemma EvictLeavesHole<K(!new), V>(hs: Hashing<K>, s0: seq<Slot>, w0: map<K, nat>, s1: seq<Slot>, w1: map<K, nat>,
                                    entries: seq<Entry<K, V>>, p: nat, q: nat, depth: nat)
    requires HoleFor(hs, s0, w0, s1, w1, entries, p, q, depth) && depth < MAX_CUCKOO_PATH
    requires s0[q].hv != 0 ==> AltFull(hs, s0, entries, p) && HasKey(s0, entries, q)
    ensures Evicted(hs, s0, entries, Moved(s1, p, q), p, depth)
  {
    var s2 := Moved(s1, p, q);
    if depth >= 1 {
      forall x: nat | HasKey(s0, entries, x) && AltFull(hs, s0, entries, x) && x != p
        ensures s2[x] == s0[x]
      {
        assert x != q;
      }
    }
  }

  /** One eviction, after the hole in the other bucket was found or made. */
  lemma EvictKeeps<K(!new), V>(hs: Hashing<K>, s0: seq<Slot>, w0: map<K, nat>, s1: seq<Slot>, w1: map<K, nat>,
                               entries: seq<Entry<K, V>>, p: nat, q: nat, depth: nat)
    requires Placed(hs, s0, entries, w0) && Placed(hs, s1, entries, w1)
    requires HoleFor(hs, s0, w0, s1, w1, entries, p, q, depth) && depth < MAX_CUCKOO_PATH
    ensures
      var where := if p == q then w1 else w1[KeyAt(s0, entries, p) := q];
      Placed(hs, Moved(s1, p, q), entries, where) && SamePairs(s0, w0, Moved(s1, p, q), where)
  {
    if p == q {
      assert Moved(s1, p, q) == s1;
    } else {
      assert s1[p] == s0[p];
      assert SlotPlaced(hs, s0, entries, w0, p);
      MoveKeepsPlaced(hs, s1, entries, w1, p, q);
      MoveSamePairs(hs, s1, entries, w1, p, q);
      SamePairsTrans(s0, w0, s1, w1, Moved(s1, p, q), w1[KeyAt(s1, entries, p) := q]);
    }
  }

  const EINVAL: int := 22

  predicate IsPowerOfTwo(n: int) {
    n == 1 || (n > 1 && n % 2 == 0 && IsPowerOfTwo(n / 2))
  }

  /** The checks of `InitEx` on the table's shape. */
  method InitEx<K(==, !new), V>(hash: K -> Hash, buckets: int, capacity: int, bucketLimit: nat)
    returns (ret: int, t: CuckooTable?<K, V>)
    ensures ret == 0 <==> IsPowerOfTwo(buckets) && capacity >= WAYS && buckets <= bucketLimit
    ensures ret == 0 ==> t != null && fresh(t) && t.Valid() && t.m == map[] && t.hs == CuckooHashing(hash)
    ensures ret == -EINVAL <==> !(IsPowerOfTwo(buckets) && capacity >= WAYS)
    ensures ret != 0 ==> t == null
  {
    if buckets < 1 || !IsPowerOfTwo(buckets) || capacity < WAYS {
      return -EINVAL, null;
    }
    if buckets > bucketLimit {
      return -ENOMEM, null;
    }
    CuckooHashingOk(hash);
    t := new CuckooTable<K, V>(CuckooHashing(hash), buckets, capacity, bucketLimit);
    ret := 0;
  }

  /** Growth cannot help against a full-hash collision: when eight keys with the same hash are
      in the table, `Set` fails for a ninth, however many buckets may be allocated. */
  method SetNinth<K(==, !new), V>(t: CuckooTable<K, V>, key: K, value: V, ghost keys: set<K>) returns (ret: int)
    requires t.Valid() && key !in t.m && keys <= t.m.Keys && |keys| == 2 * WAYS
    requires forall k :: k in keys ==> t.hs.pri(k) == t.hs.pri(key)
    modifies t
    ensures t.Valid() && ret < 0 && unchanged(t`m)
  {
    ret := t.Set(key, value);
    if ret >= 0 {
      AtMostEightShareAHash(t.hs, t.slots, t.entries, t.where, t.hs.pri(key), keys + {key});
      assert false;
    }
  }

  // ------------------------------------------------------------ nine keys of one hash

  /** The slots of two full buckets hold eight keys. */
  lemma TwoBucketsHoldEight<K(!new), V>(hs: Hashing<K>, slots: seq<Slot>, entries: seq<Entry<K, V>>, where: map<K, nat>)
    requires Placed(hs, slots, entries, where) && |slots| == 2 * WAYS && Full(slots, 0) && Full(slots, 1)
    ensures |where.Keys| >= 2 * WAYS
  {
    var used := set k | k in where.Keys :: where[k];
    forall p: nat | p < 2 * WAYS ensures p in used {
      PlaceIsUsed(hs, slots, entries, where, p);
    }
    ImageSize(slots, entries, where, where.Keys);
    EightPlaces(used);
  }

  lemma EightPlaces(used: set<nat>)
    requires forall p: nat | p < 2 * WAYS :: p in used
    ensures |used| >= 2 * WAYS
  {
    var places: set<nat> := {0, 1, 2, 3, 4, 5, 6, 7};
    SubsetSize(places, used);
  }

  lemma PlaceIsUsed<K(!new), V>(hs: Hashing<K>, slots: seq<Slot>, entries: seq<Entry<K, V>>, where: map<K, nat>, p: nat)
    requires Placed(hs, slots, entries, where) && p < |slots| == 2 * WAYS && Full(slots, 0) && Full(slots, 1)
    ensures exists k :: k in where.Keys && where[k] == p
  {
    assert slots[p].hv != 0;
    assert SlotPlaced(hs, slots, entries, where, p);
    assert KeyAt(slots, entries, p) in where.Keys;
  }

  function Zero(k: int): Hash {
    0
  }

  lemma PrimaryIsEven(h: Hash)
    requires h == 0x8000_0000
    ensures (h as nat) % 2 == 0
  {
    assert (0x8000_0000 as Hash) as nat == 2147483648;
  }

  lemma SecondaryIsOdd(h: Hash)
    requires h == 0x2879_e995
    ensures (h as nat) % 2 == 1
  {
    assert (0x2879_e995 as Hash) as nat == 679078293;
  }

  lemma HashesOfZero()
    ensures MakeNonzero(0) == 0x8000_0000 && HashSecondary(0x8000_0000) == 0x2879_e995
  {
  }

  lemma HomeIsRemainder(h: Hash)
    ensures CuckooHashing(Zero).home(h, 2) == (h as nat) % 2
  {
  }

  lemma AllAlike(k: int, h: Hash)
    ensures CuckooHashing(Zero).pri(k) == MakeNonzero(0) && CuckooHashing(Zero).sec(h) == HashSecondary(h)
  {
    assert Zero(k) == 0;
  }

  /** With two buckets, a key of hash zero has both. */
  lemma HomesOfZero(k: int)
    ensures var hs := CuckooHashing(Zero);
      hs.home(hs.pri(k), 2) == 0 && hs.home(hs.sec(hs.pri(k)), 2) == 1
  {
    var hs := CuckooHashing(Zero);
    HashesOfZero();
    AllAlike(k, hs.pri(k));
    var p, q := hs.pri(k), hs.sec(hs.pri(k));
    HomeIsRemainder(p);
    HomeIsRemainder(q);
    PrimaryIsEven(p);
    SecondaryIsOdd(q);
  }

  lemma RoomWhileFewer(slots: seq<Slot>, entries: seq<Entry<int, int>>, where: map<int, nat>, k: int)
    requires HashingOk(CuckooHashing(Zero)) && Placed(CuckooHashing(Zero), slots, entries, where)
    requires |slots| == 2 * WAYS && |where.Keys| < 2 * WAYS
    ensures Fits(CuckooHashing(Zero), k, slots, entries)
  {
    HomesOfZero(k);
    if Full(slots, 0) && Full(slots, 1) {
      TwoBucketsHoldEight(CuckooHashing(Zero), slots, entries, where);
    }
    RoomFits(CuckooHashing(Zero), k, slots, entries);
  }

  function UpTo(k: nat): (s: set<int>)
    ensures |s| == k && forall x :: x in s <==> 0 <= x < k
  {
    if k == 0 then {} else UpTo(k - 1) + {k - 1}
  }

  /** A table that takes eight keys of one hash and refuses the ninth, however many buckets it may
      still allocate. */
  method NineAlike(bucketLimit: nat) returns (t: CuckooTable<int, int>, ret: int)
    ensures t.Valid() && t.bucketLimit == bucketLimit && t.m.Keys == UpTo(2 * WAYS)
    ensures ret < 0
  {
    t := EmptyAlike(bucketLimit);
    var k := 0;
    while k < 2 * WAYS
      invariant 0 <= k <= 2 * WAYS && fresh(t) && t.bucketLimit == bucketLimit && EightOrFewer(t, k)
    {
      AddAlike(t, k);
      k := k + 1;
    }
    ret := RefuseNinth(t);
  }

  method EmptyAlike(bucketLimit: nat) returns (t: CuckooTable<int, int>)
    ensures fresh(t) && t.bucketLimit == bucketLimit && EightOrFewer(t, 0)
  {
    CuckooHashingOk(Zero);
    t := new CuckooTable<int, int>(CuckooHashing(Zero), 2, WAYS, bucketLimit);
  }

  method RefuseNinth(t: CuckooTable<int, int>) returns (ret: int)
    requires EightOrFewer(t, 2 * WAYS)
    modifies t
    ensures t.Valid() && unchanged(t`m) && ret < 0
  {
    forall k ensures t.hs.pri(k) == MakeNonzero(0) {
      AllAlike(k, 0);
    }
    ghost var keys := t.m.Keys;
    assert |keys| == 2 * WAYS && 2 * WAYS !in keys;
    ret := SetNinth(t, 2 * WAYS, 0, keys);
  }

  ghost predicate EightOrFewer(t: CuckooTable<int, int>, k: nat)
    reads t
  {
    t.Valid() && t.hs == CuckooHashing(Zero) && |t.slots| == 2 * WAYS && t.m.Keys == UpTo(k)
  }

  method AddAlike(t: CuckooTable<int, int>, k: nat)
    requires EightOrFewer(t, k) && k < 2 * WAYS
    modifies t
    ensures EightOrFewer(t, k + 1)
  {
    RoomWhileFewer(t.slots, t.entries, t.where, k);
    ghost var m0 := t.m;
    var ret := t.Set(k, 0);
    OneKeyMore(m0, k);
  }

  lemma OneKeyMore(m: map<int, int>, k: nat)
    requires m.Keys == UpTo(k)
    ensures m[k := 0].Keys == UpTo(k + 1)
  {
  }
}
