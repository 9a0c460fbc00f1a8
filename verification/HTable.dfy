/** The 4-way cuckoo hash table: runtime/bessport/utils/htable.{h,cc}.
    This file holds what the arrays of the table mean; CuckooTable.dfy holds the table. */
module HTable {
  const WAYS: nat := 4               // kEntriesPerBucket
  const MAX_CUCKOO_PATH: nat := 3    // kMaxCuckooPath
  const NO_INDEX: int := -1          // kInvalidKeyIdx
  const ENOSPC: int := 28
  const ENOMEM: int := 12
  const ENOENT: int := 2

  type Hash = bv32

  /** Sets the top bit and clears the next one, so that 0 can mark an empty slot. */
  function MakeNonzero(v: Hash): (r: Hash)
    ensures r != 0
  {
    (v | 0x8000_0000) & 0xBFFF_FFFF
  }

  lemma MakeNonzeroIdempotent(v: Hash)
    ensures MakeNonzero(MakeNonzero(v)) == MakeNonzero(v)
  {
  }

  function HashSecondary(primary: Hash): Hash {
    primary ^ (((primary >> 12) + 1) * 0x5bd1e995)
  }

  /** pri:  a key's (nonzero) hash
      sec:  the hash that picks the second bucket
      home: the bucket a hash picks among a number of buckets */
  datatype Hashing<!K> = Hashing(pri: K -> Hash, sec: Hash -> Hash, home: (Hash, nat) -> nat)

  ghost predicate HashingOk<K(!new)>(hs: Hashing<K>) {
    && (forall k :: hs.pri(k) != 0)
    && (forall h, n: nat :: n > 0 ==> hs.home(h, n) < n)
  }

  lemma HomeBound<K(!new)>(hs: Hashing<K>, h: Hash, n: nat)
    requires HashingOk(hs) && n > 0
    ensures hs.home(h, n) < n
  {
    assert n > 0 ==> hs.home(h, n) < n;
  }

  /** The hashing of the source, over the table's hash function. Picking a bucket is
      `hv & bucket_mask_`, the remainder by a power of two. */
  function CuckooHashing<K>(hash: K -> Hash): Hashing<K> {
    Hashing(k => MakeNonzero(hash(k)), HashSecondary, (h, n: nat) => if n == 0 then 0 else (h as nat) % n)
  }

  lemma CuckooHashingOk<K(!new)>(hash: K -> Hash)
    ensures HashingOk(CuckooHashing(hash))
  {
    forall h: Hash, n: nat | n > 0 ensures CuckooHashing(hash).home(h, n) < n {
      Remainder(h as nat, n);
    }
  }

  lemma Remainder(x: nat, n: nat)
    requires n > 0
    ensures x % n < n
  {
  }

  datatype Slot = Slot(hv: Hash, idx: int)

  /** An entry holds a key and a value, or, while free, the index of the next free entry. */
  datatype Entry<K, V> = Kv(key: K, value: V) | Link(next: int)

  /** Bucket `b` is the four slots from `4 * b` on. */
  predicate SlotsOk(slots: seq<Slot>) {
    |slots| > 0 && |slots| % WAYS == 0
  }

  function Buckets(slots: seq<Slot>): (n: nat)
    requires SlotsOk(slots)
    ensures n > 0 && n * WAYS == |slots|
  {
    |slots| / WAYS
  }

  predicate Full(slots: seq<Slot>, b: nat)
    requires SlotsOk(slots) && b < Buckets(slots)
  {
    && slots[b * WAYS].hv != 0 && slots[b * WAYS + 1].hv != 0
    && slots[b * WAYS + 2].hv != 0 && slots[b * WAYS + 3].hv != 0
  }

  /** The only two buckets in which a key with this hash may be. */
  predicate Allowed<K>(hs: Hashing<K>, hv: Hash, b: nat, buckets: nat) {
    b == hs.home(hv, buckets) || b == hs.home(hs.sec(hv), buckets)
  }

  ghost predicate HasKey<K, V>(slots: seq<Slot>, entries: seq<Entry<K, V>>, p: int) {
    && 0 <= p < |slots|
    && slots[p].hv != 0
    && 0 <= slots[p].idx < |entries|
    && entries[slots[p].idx].Kv?
  }

  ghost function KeyAt<K, V>(slots: seq<Slot>, entries: seq<Entry<K, V>>, p: int): K
    requires HasKey(slots, entries, p)
  {
    entries[slots[p].idx].key
  }

  /** Every occupied slot holds a key of its own, with that key's hash, in one of the two
      buckets allowed for it. */
  ghost predicate SlotPlaced<K, V>(hs: Hashing<K>, slots: seq<Slot>, entries: seq<Entry<K, V>>,
                                   where: map<K, nat>, p: nat)
    requires SlotsOk(slots)
  {
    && HasKey(slots, entries, p)
    && var k := KeyAt(slots, entries, p);
       && k in where && where[k] == p
       && slots[p].hv == hs.pri(k)
       && Allowed(hs, slots[p].hv, p / WAYS, Buckets(slots))
  }

  ghost predicate KeyPlaced<K, V>(slots: seq<Slot>, entries: seq<Entry<K, V>>, where: map<K, nat>, k: K) {
    k in where && HasKey(slots, entries, where[k]) && KeyAt(slots, entries, where[k]) == k
  }

  /** `where` says in which slot each key is, and the slots agree. */
  ghost predicate Placed<K(!new), V>(hs: Hashing<K>, slots: seq<Slot>, entries: seq<Entry<K, V>>,
                                     where: map<K, nat>)
  {
    && SlotsOk(slots)
    && (forall p :: 0 <= p < |slots| && slots[p].hv != 0 ==> SlotPlaced(hs, slots, entries, where, p))
    && (forall k :: k in where ==> KeyPlaced(slots, entries, where, k))
  }

  /** Moving an entry to an empty slot it may be in. */
  function Moved(slots: seq<Slot>, from: nat, to: nat): (r: seq<Slot>)
    requires from < |slots| && to < |slots|
    ensures |r| == |slots|
  {
    slots[to := slots[from]][from := slots[from].(hv := 0)]
  }

  lemma MoveKeepsPlaced<K(!new), V>(hs: Hashing<K>, slots: seq<Slot>, entries: seq<Entry<K, V>>,
                                    where: map<K, nat>, from: nat, to: nat)
    requires Placed(hs, slots, entries, where)
    requires from < |slots| && to < |slots| && slots[from].hv != 0 && slots[to].hv == 0
    requires Allowed(hs, slots[from].hv, to / WAYS, Buckets(slots))
    ensures HasKey(slots, entries, from)
    ensures Placed(hs, Moved(slots, from, to), entries, where[KeyAt(slots, entries, from) := to])
  {
    assert SlotPlaced(hs, slots, entries, where, from);
    var k := KeyAt(slots, entries, from);
    var slots' := Moved(slots, from, to);
    var where' := where[k := to];
    forall p | 0 <= p < |slots'| && slots'[p].hv != 0
      ensures SlotPlaced(hs, slots', entries, where', p)
    {
      if p != to {
        assert SlotPlaced(hs, slots, entries, where, p);
      }
    }
    forall x | x in where' ensures KeyPlaced(slots', entries, where', x) {
      if x != k {
        assert KeyPlaced(slots, entries, where, x);
        assert SlotPlaced(hs, slots, entries, where, where[x]);
      }
    }
  }

  /** The bucket `make_space` tries for the entry in slot `p`: always its secondary one. */
  ghost function AltOf<K(!new), V>(hs: Hashing<K>, slots: seq<Slot>, entries: seq<Entry<K, V>>, p: nat): (b: nat)
    requires HashingOk(hs) && SlotsOk(slots) && HasKey(slots, entries, p)
    ensures b < Buckets(slots)
  {
    HomeBound(hs, hs.sec(hs.pri(KeyAt(slots, entries, p))), Buckets(slots));
    hs.home(hs.sec(hs.pri(KeyAt(slots, entries, p))), Buckets(slots))
  }

  /** The slot cannot be vacated without an eviction elsewhere. */
  ghost predicate AltFull<K(!new), V>(hs: Hashing<K>, slots: seq<Slot>, entries: seq<Entry<K, V>>, p: nat)
    requires HashingOk(hs) && SlotsOk(slots) && HasKey(slots, entries, p)
  {
    Full(slots, AltOf(hs, slots, entries, p))
  }

  /** Every key keeps its (hash, index) pair, wherever it moves. */
  ghost predicate SamePairs<K(!new)>(slots: seq<Slot>, where: map<K, nat>, slots': seq<Slot>, where': map<K, nat>) {
    && |slots'| == |slots|
    && where'.Keys == where.Keys
    && forall k :: k in where ==>
         where[k] < |slots| && where'[k] < |slots| && slots'[where'[k]] == slots[where[k]]
  }

  lemma MoveSamePairs<K(!new), V>(hs: Hashing<K>, slots: seq<Slot>, entries: seq<Entry<K, V>>,
                                  where: map<K, nat>, from: nat, to: nat)
    requires Placed(hs, slots, entries, where)
    requires from < |slots| && to < |slots| && slots[from].hv != 0 && slots[to].hv == 0
    requires HasKey(slots, entries, from)
    ensures SamePairs(slots, where, Moved(slots, from, to), where[KeyAt(slots, entries, from) := to])
  {
    assert SlotPlaced(hs, slots, entries, where, from);
    var k := KeyAt(slots, entries, from);
    forall x | x in where
      ensures where[x] < |slots| && (x != k ==> where[x] != from && where[x] != to)
    {
      assert KeyPlaced(slots, entries, where, x);
    }
  }

  lemma SamePairsTrans<K(!new)>(s0: seq<Slot>, w0: map<K, nat>, s1: seq<Slot>, w1: map<K, nat>,
                                s2: seq<Slot>, w2: map<K, nat>)
    requires SamePairs(s0, w0, s1, w1) && SamePairs(s1, w1, s2, w2)
    ensures SamePairs(s0, w0, s2, w2)
  {
    forall k | k in w0 ensures s2[w2[k]] == s0[w0[k]] {
      assert k in w1.Keys;
    }
  }

  lemma SamePairsRefl<K(!new), V>(hs: Hashing<K>, slots: seq<Slot>, entries: seq<Entry<K, V>>, where: map<K, nat>)
    requires Placed(hs, slots, entries, where)
    ensures SamePairs(slots, where, slots, where)
  {
    forall k | k in where ensures where[k] < |slots| {
      assert KeyPlaced(slots, entries, where, k);
    }
  }

  /** Entries that cannot be vacated directly stay where they are, except the one at `hole`. */
  ghost predicate OnlyVacated<K(!new), V>(hs: Hashing<K>, slots: seq<Slot>, entries: seq<Entry<K, V>>,
                                          slots': seq<Slot>, hole: nat)
    requires HashingOk(hs) && SlotsOk(slots) && |slots'| == |slots|
  {
    forall p: nat :: HasKey(slots, entries, p) && AltFull(hs, slots, entries, p) && p != hole ==>
      slots'[p] == slots[p]
  }

  /** The entries from `head` on are linked in the order of `free`. */
  ghost predicate Chain<K, V>(entries: seq<Entry<K, V>>, head: int, free: seq<int>)
    decreases |free|
  {
    if free == [] then head == NO_INDEX
    else
      && head == free[0]
      && 0 <= head < |entries|
      && entries[head].Link?
      && head !in free[1..]
      && Chain(entries, entries[head].next, free[1..])
  }

  lemma {:induction false} ChainFrame<K, V>(entries: seq<Entry<K, V>>, entries': seq<Entry<K, V>>,
                                            head: int, free: seq<int>)
    requires Chain(entries, head, free) && |entries| <= |entries'|
    requires forall i :: i in free && 0 <= i < |entries| ==> entries'[i] == entries[i]
    ensures Chain(entries', head, free)
    decreases |free|
  {
    if free != [] {
      assert free[0] in free;
      ChainFrame(entries, entries', entries[head].next, free[1..]);
    }
  }

  lemma ChainPush<K, V>(entries: seq<Entry<K, V>>, head: int, free: seq<int>, x: nat)
    requires Chain(entries, head, free) && x < |entries| && x !in free
    ensures Chain(entries[x := Link(head)], x, [x] + free)
  {
    ChainFrame(entries, entries[x := Link(head)], head, free);
    assert ([x] + free)[1..] == free;
  }

  lemma ChainPop<K, V>(entries: seq<Entry<K, V>>, head: int, free: seq<int>, e: Entry<K, V>)
    requires Chain(entries, head, free) && free != []
    ensures Chain(entries[head := e], entries[head].next, free[1..])
    ensures free == [head] + free[1..]
  {
    ChainFrame(entries, entries[head := e], entries[head].next, free[1..]);
  }

  lemma {:induction false} ChainLinks<K, V>(entries: seq<Entry<K, V>>, head: int, free: seq<int>, i: int)
    requires Chain(entries, head, free) && i in free
    ensures 0 <= i < |entries| && entries[i].Link?
    decreases |free|
  {
    if i != free[0] {
      ChainLinks(entries, entries[head].next, free[1..], i);
    }
  }

  /** The entry of every key holds the value the map gives it. */
  ghost predicate StoresMap<K(!new), V>(slots: seq<Slot>, entries: seq<Entry<K, V>>,
                                        where: map<K, nat>, m: map<K, V>)
  {
    && m.Keys == where.Keys
    && forall k :: k in m ==> where[k] < |slots| && Stored(slots[where[k]].idx, entries, k, m[k])
  }

  ghost predicate Stored<K, V>(idx: int, entries: seq<Entry<K, V>>, k: K, v: V) {
    0 <= idx < |entries| && entries[idx] == Kv(k, v)
  }

  lemma ShuffleKeepsMap<K(!new), V>(slots: seq<Slot>, where: map<K, nat>, slots': seq<Slot>, where': map<K, nat>,
                                    entries: seq<Entry<K, V>>, m: map<K, V>)
    requires StoresMap(slots, entries, where, m) && SamePairs(slots, where, slots', where')
    ensures StoresMap(slots', entries, where', m)
  {
    forall k | k in m
      ensures where'[k] < |slots'| && Stored(slots'[where'[k]].idx, entries, k, m[k])
    {
      assert k in where;
    }
  }

  /** Growing the entry array, or relinking free entries, leaves keys and values alone. */
  lemma EntriesFrame<K(!new), V>(hs: Hashing<K>, slots: seq<Slot>, entries: seq<Entry<K, V>>,
                                 entries': seq<Entry<K, V>>, where: map<K, nat>, m: map<K, V>)
    requires Placed(hs, slots, entries, where) && StoresMap(slots, entries, where, m)
    requires forall i :: 0 <= i < |entries| && entries[i].Kv? ==> i < |entries'| && entries'[i] == entries[i]
    ensures Placed(hs, slots, entries', where) && StoresMap(slots, entries', where, m)
  {
    forall p | 0 <= p < |slots| && slots[p].hv != 0 ensures SlotPlaced(hs, slots, entries', where, p) {
      assert SlotPlaced(hs, slots, entries, where, p);
    }
    forall k | k in where ensures KeyPlaced(slots, entries', where, k) {
      assert KeyPlaced(slots, entries, where, k);
    }
  }

  lemma AddKeepsPlaced<K(!new), V>(hs: Hashing<K>, slots: seq<Slot>, entries: seq<Entry<K, V>>,
                                   where: map<K, nat>, p: nat, idx: nat, key: K, value: V)
    requires HashingOk(hs) && Placed(hs, slots, entries, where)
    requires p < |slots| && slots[p].hv == 0 && idx < |entries| && entries[idx].Link?
    requires key !in where && Allowed(hs, hs.pri(key), p / WAYS, Buckets(slots))
    ensures Placed(hs, slots[p := Slot(hs.pri(key), idx)], entries[idx := Kv(key, value)], where[key := p])
  {
    var slots', entries', where' := slots[p := Slot(hs.pri(key), idx)], entries[idx := Kv(key, value)], where[key := p];
    forall x | 0 <= x < |slots'| && slots'[x].hv != 0 ensures SlotPlaced(hs, slots', entries', where', x) {
      if x != p {
        assert SlotPlaced(hs, slots, entries, where, x);
      }
    }
    forall k | k in where' ensures KeyPlaced(slots', entries', where', k) {
      if k != key {
        assert KeyPlaced(slots, entries, where, k);
      }
    }
  }

  lemma AddKeepsMap<K(!new), V>(slots: seq<Slot>, entries: seq<Entry<K, V>>, where: map<K, nat>, m: map<K, V>,
                                p: nat, idx: nat, hv: Hash, key: K, value: V)
    requires StoresMap(slots, entries, where, m)
    requires p < |slots| && idx < |entries| && entries[idx].Link? && key !in where
    requires forall k :: k in where ==> where[k] != p
    ensures StoresMap(slots[p := Slot(hv, idx)], entries[idx := Kv(key, value)], where[key := p], m[key := value])
  {
    var slots', entries' := slots[p := Slot(hv, idx)], entries[idx := Kv(key, value)];
    var where', m' := where[key := p], m[key := value];
    forall k | k in m'
      ensures where'[k] < |slots'| && Stored(slots'[where'[k]].idx, entries', k, m'[k])
    {
      if k != key {
        assert k in m && where[k] != p;
        assert Stored(slots[where[k]].idx, entries, k, m[k]);
      }
    }
  }

  lemma RemoveKeepsPlaced<K(!new), V>(hs: Hashing<K>, slots: seq<Slot>, entries: seq<Entry<K, V>>,
                                      where: map<K, nat>, p: nat, next: int)
    requires Placed(hs, slots, entries, where) && HasKey(slots, entries, p)
    ensures Placed(hs, slots[p := slots[p].(hv := 0)], entries[slots[p].idx := Link(next)],
                   where - {KeyAt(slots, entries, p)})
  {
    assert SlotPlaced(hs, slots, entries, where, p);
    var key, idx := KeyAt(slots, entries, p), slots[p].idx;
    var slots', entries', where' := slots[p := slots[p].(hv := 0)], entries[idx := Link(next)], where - {key};
    forall x | 0 <= x < |slots'| && slots'[x].hv != 0 ensures SlotPlaced(hs, slots', entries', where', x) {
      assert SlotPlaced(hs, slots, entries, where, x);
    }
    forall k | k in where' ensures KeyPlaced(slots', entries', where', k) {
      assert KeyPlaced(slots, entries, where, k);
    }
  }

  lemma RemoveKeepsMap<K(!new), V>(slots: seq<Slot>, entries: seq<Entry<K, V>>, where: map<K, nat>, m: map<K, V>,
                                   p: nat, key: K, next: int)
    requires StoresMap(slots, entries, where, m) && key in where && where[key] == p
    ensures p < |slots| && 0 <= slots[p].idx < |entries|
    ensures StoresMap(slots[p := slots[p].(hv := 0)], entries[slots[p].idx := Link(next)], where - {key}, m - {key})
  {
    assert Stored(slots[p].idx, entries, key, m[key]);
    var slots', entries' := slots[p := slots[p].(hv := 0)], entries[slots[p].idx := Link(next)];
    forall k | k in m - {key}
      ensures where[k] < |slots'| && Stored(slots'[where[k]].idx, entries', k, m[k])
    {
      assert Stored(slots[where[k]].idx, entries, k, m[k]);
    }
  }

  lemma UpdateKeeps<K(!new), V>(hs: Hashing<K>, slots: seq<Slot>, entries: seq<Entry<K, V>>,
                                where: map<K, nat>, m: map<K, V>, key: K, value: V)
    requires Placed(hs, slots, entries, where) && StoresMap(slots, entries, where, m) && key in m
    ensures where[key] < |slots| && 0 <= slots[where[key]].idx < |entries|
    ensures
      var entries' := entries[slots[where[key]].idx := Kv(key, value)];
      Placed(hs, slots, entries', where) && StoresMap(slots, entries', where, m[key := value])
  {
    assert Stored(slots[where[key]].idx, entries, key, m[key]);
    var idx := slots[where[key]].idx;
    var entries' := entries[idx := Kv(key, value)];
    forall p | 0 <= p < |slots| && slots[p].hv != 0 ensures SlotPlaced(hs, slots, entries', where, p) {
      assert SlotPlaced(hs, slots, entries, where, p);
    }
    forall k | k in where ensures KeyPlaced(slots, entries', where, k) {
      assert KeyPlaced(slots, entries, where, k);
    }
    forall k | k in m[key := value]
      ensures where[k] < |slots| && Stored(slots[where[k]].idx, entries', k, m[key := value][k])
    {
      assert Stored(slots[where[k]].idx, entries, k, m[k]);
    }
  }

  /** The keys in one bucket-pair: no more than eight can share a full hash. */
  lemma AtMostEightShareAHash<K(!new), V>(hs: Hashing<K>, slots: seq<Slot>, entries: seq<Entry<K, V>>,
                                          where: map<K, nat>, hv: Hash, keys: set<K>)
    requires Placed(hs, slots, entries, where)
    requires keys <= where.Keys && forall k :: k in keys ==> hs.pri(k) == hv
    ensures |keys| <= 2 * WAYS
  {
    var n := Buckets(slots);
    var b, c := hs.home(hv, n), hs.home(hs.sec(hv), n);
    var room := {b * WAYS, b * WAYS + 1, b * WAYS + 2, b * WAYS + 3,
                 c * WAYS, c * WAYS + 1, c * WAYS + 2, c * WAYS + 3};
    var used := set k | k in keys :: where[k];
    forall k | k in keys ensures where[k] in room {
      assert KeyPlaced(slots, entries, where, k);
      assert SlotPlaced(hs, slots, entries, where, where[k]);
      assert where[k] / WAYS == b || where[k] / WAYS == c;
    }
    assert used <= room;
    SubsetSize(used, room);
    ImageSize(slots, entries, where, keys);
  }

  lemma SubsetSize<T>(a: set<T>, b: set<T>)
    requires a <= b
    ensures |a| <= |b|
  {
    assert b == a + (b - a);
  }

  lemma {:induction false} ImageSize<K(!new), V>(slots: seq<Slot>, entries: seq<Entry<K, V>>,
                                                 where: map<K, nat>, keys: set<K>)
    requires keys <= where.Keys && forall k :: k in keys ==> KeyPlaced(slots, entries, where, k)
    ensures |set k | k in keys :: where[k]| == |keys|
    decreases |keys|
  {
    if keys != {} {
      var k :| k in keys;
      var rest := keys - {k};
      ImageSize(slots, entries, where, rest);
      var image := set x | x in rest :: where[x];
      forall x | x in rest ensures where[x] != where[k] {
        assert KeyPlaced(slots, entries, where, x) && KeyPlaced(slots, entries, where, k);
      }
      assert (set x | x in keys :: where[x]) == image + {where[k]};
    }
  }
}
