/** The sentinel min-heap: runtime/bessport/utils/minheap.{h,cc}. Positions start at 1; position 0
    and all positions beyond the nodes hold sentinels, so no loop tests a bound. The two parallel
    arrays are one array of pairs. */
module MinHeap {
  const MIN: int := -0x8000_0000_0000_0000
  const MAX: int := 0x7FFF_FFFF_FFFF_FFFF
  const NULL := 0
  const DEFAULT_SIZE := 4

  datatype Entry = Entry(val: int, data: int)

  const BOTTOM := Entry(MIN, NULL)
  const TOP := Entry(MAX, NULL)

  predicate InRange(e: Entry) {
    MIN <= e.val <= MAX
  }

  function Half(i: nat): (h: nat)
    ensures 2 * h <= i <= 2 * h + 1
  {
    i / 2
  }

  /** Sentinels are in place and no node is less than the one above it. */
  ghost predicate Ordered(a: seq<Entry>, n: nat) {
    && n < |a| && a[0] == BOTTOM
    && (forall i | 0 < i < |a| :: InRange(a[i]) && a[Half(i)].val <= a[i].val)
  }

  ghost predicate Sealed(a: seq<Entry>, n: nat) {
    forall i | n < i < |a| :: a[i] == TOP
  }

  /** The nodes. */
  function Nodes(a: seq<Entry>, n: nat): multiset<Entry>
    requires n < |a|
  {
    multiset(a[1..n + 1])
  }

  /** Moving a hole: filling `i` from `j` and putting `e` at `j` instead of at `i`. */
  lemma MoveHole(a: seq<Entry>, n: nat, i: nat, j: nat, e: Entry)
    requires n < |a| && 1 <= i <= n && 1 <= j <= n
    ensures Nodes(a[i := a[j]][j := e], n) == Nodes(a[i := e], n)
  {
    var s, i', j' := a[i := e][1..n + 1], i - 1, j - 1;
    var t := a[i := a[j]][j := e][1..n + 1];
    assert t == s[i' := s[j']][j' := s[i']];
  }

  lemma {:induction false} RootIsLeast(a: seq<Entry>, n: nat, i: nat)
    requires Ordered(a, n) && 1 <= i < |a|
    ensures a[1].val <= a[i].val
  {
    if i > 1 {
      RootIsLeast(a, n, Half(i));
    }
  }

  lemma InNodes(a: seq<Entry>, n: nat, e: Entry)
    requires n < |a| && e in Nodes(a, n)
    ensures exists i | 1 <= i <= n :: a[i] == e
  {
    var k :| 0 <= k < n && a[1..n + 1][k] == e;
    assert a[k + 1] == e;
  }

  lemma PutKeepsOrder(a: seq<Entry>, n: nat, i: nat, e: Entry)
    requires Ordered(a, n) && 1 <= i <= n && InRange(e)
    requires a[Half(i)].val <= e.val
    requires forall c | 0 < c < |a| && Half(c) == i :: e.val <= a[c].val
    ensures Ordered(a[i := e], n)
  {
  }

  ghost predicate Longer(a: seq<Entry>, b: seq<Entry>) {
    |a| <= |b| && (forall i | 0 <= i < |a| :: b[i] == a[i]) && (forall i | |a| <= i < |b| :: b[i] == TOP)
  }

  lemma LongerIsValid(a: seq<Entry>, b: seq<Entry>, n: nat)
    requires Longer(a, b) && Ordered(a, n) && Sealed(a, n)
    ensures Ordered(b, n) && Sealed(b, n) && Nodes(b, n) == Nodes(a, n)
  {
    forall i | 0 < i < |b| ensures InRange(b[i]) && b[Half(i)].val <= b[i].val {
      var h := Half(i);
      assert h == 0 || h >= |a| || InRange(a[h]);
    }
    assert b[1..n + 1] == a[1..n + 1];
  }

  lemma OpenEnd(a: seq<Entry>, n: nat, e: Entry)
    requires n + 1 < |a| && Ordered(a, n) && Sealed(a, n) && InRange(e)
    ensures Hole(a, n + 1, n + 1, e, Nodes(a, n) + multiset{e}) && a[n + 1] == TOP
  {
    AppendNode(a, n, e);
  }

  lemma WithoutLast(a: seq<Entry>, n: nat)
    requires 1 <= n < |a| && Ordered(a, n) && Sealed(a, n)
    ensures Ordered(a[n := TOP], n - 1) && Sealed(a[n := TOP], n - 1)
    ensures Nodes(a, n) == Nodes(a[n := TOP], n - 1) + multiset{a[n]}
  {
    AppendNode(a, n - 1, a[n]);
    assert a[n := a[n]] == a;
    assert a[n := TOP][1..n] == a[1..n];
  }

  lemma AppendNode(a: seq<Entry>, n: nat, e: Entry)
    requires n + 1 < |a|
    ensures Nodes(a[n + 1 := e], n + 1) == Nodes(a, n) + multiset{e}
  {
    assert a[n + 1 := e][1..n + 2] == a[1..n + 1] + [e];
  }

  lemma ReplaceRoot(a: seq<Entry>, n: nat, e: Entry)
    requires 1 <= n < |a|
    ensures Nodes(a[1 := e], n) == Nodes(a, n) - multiset{a[1]} + multiset{e}
  {
    assert a[1 := e][1..n + 1] == [e] + a[2..n + 1];
    assert a[1..n + 1] == [a[1]] + a[2..n + 1];
  }

  /** `e` is on its way in: the array is in order, and with `e` at `i` holds the nodes `bag`. */
  ghost predicate Hole(a: seq<Entry>, n: nat, i: nat, e: Entry, bag: multiset<Entry>) {
    1 <= i <= n < |a| && InRange(e) && Ordered(a, n) && Sealed(a, n) && Nodes(a[i := e], n) == bag
  }

  /** `e` fits between what is above and what is below `i`. */
  ghost predicate Settles(a: seq<Entry>, i: nat, e: Entry) {
    && 1 <= i < |a| && a[Half(i)].val <= e.val
    && forall c | 0 < c < |a| && Half(c) == i :: e.val <= a[c].val
  }

  class Heap {
    var num: nat
    var size: nat
    var arr: array<Entry>

    ghost predicate Valid()
      reads this, arr
    {
      && size >= DEFAULT_SIZE && num <= size && arr.Length == size * 2 + 2
      && Ordered(arr[..], num) && Sealed(arr[..], num)
    }

    ghost function Contents(): multiset<Entry>
      requires Valid()
      reads this, arr
    {
      Nodes(arr[..], num)
    }

    constructor ()
      ensures Valid() && fresh(arr) && Contents() == multiset{}
    {
      num, size := 0, DEFAULT_SIZE;
      arr := new Entry[DEFAULT_SIZE * 2 + 2](i => if i == 0 then BOTTOM else TOP);
    }

    /** Half as much again, the new places sealed. */
    method Grow()
      requires Valid() && num == size
      modifies this`size, this`arr
      ensures Valid() && fresh(arr) && size > old(size) && Contents() == old(Contents())
    {
      ghost var a := arr[..];
      ghost var n := num;
      size := size + size / 2;
      var bigger := Enlarged(arr, size * 2 + 2, num * 2 + 2);
      LongerIsValid(a, bigger[..], n);
      arr := bigger;
    }

    /** The reallocated array, its tail filled with sentinels from `k0` on. */
    static method Enlarged(from: array<Entry>, length: nat, k0: nat) returns (bigger: array<Entry>)
      requires k0 == from.Length <= length
      ensures fresh(bigger) && bigger.Length == length && Longer(from[..], bigger[..])
    {
      bigger := new Entry[length](i requires 0 <= i reads from => if i < from.Length then from[i] else Entry(0, 0));
      var k := k0;
      while k < length
        invariant k0 <= k <= length
        invariant forall i | 0 <= i < k0 :: bigger[i] == from[i]
        invariant forall i | k0 <= i < k :: bigger[i] == TOP
      {
        bigger[k] := TOP;
        k := k + 1;
      }
    }

    method Push(val: int, data: int)
      requires Valid() && MIN <= val <= MAX
      modifies this, arr
      ensures Valid() && Contents() == old(Contents()) + multiset{Entry(val, data)}
      ensures arr == old(arr) || fresh(arr)
    {
      if num == size {
        Grow();
      }
      SiftUp(Entry(val, data));
    }

    method SiftUp(e: Entry)
      requires Valid() && num < size && InRange(e)
      modifies this`num, arr
      ensures Valid() && Contents() == old(Contents()) + multiset{e} && num == old(num) + 1
    {
      ghost var bag := Nodes(arr[..], num) + multiset{e};
      OpenEnd(arr[..], num, e);
      num := num + 1;
      var i := HoleUp(num, e, bag);
      Put(i, num, e, bag);
    }

    method HoleUp(n: nat, e: Entry, ghost bag: multiset<Entry>) returns (i: nat)
      requires Hole(arr[..], n, n, e, bag) && arr[n] == TOP
      modifies arr
      ensures Hole(arr[..], n, i, e, bag) && Settles(arr[..], i, e)
    {
      i := n;
      while e.val < arr[Half(i)].val
        invariant Hole(arr[..], n, i, e, bag)
        invariant e.val <= arr[i].val
        decreases i
      {
        i := Raise(i, n, e, bag);
      }
    }

    /** One turn of the loop: the node above moves down. */
    method Raise(i: nat, ghost n: nat, ghost e: Entry, ghost bag: multiset<Entry>) returns (h: nat)
      requires Hole(arr[..], n, i, e, bag) && e.val < arr[Half(i)].val
      modifies arr
      ensures h == Half(i) && h < i && Hole(arr[..], n, h, e, bag) && e.val <= arr[h].val
    {
      h := Half(i);
      ghost var a := arr[..];
      assert h >= 1;
      MoveHole(a, n, i, h, e);
      arr[i] := arr[h];
      assert arr[..] == a[i := a[h]];
    }

    /** Fills the hole. */
    method Put(i: nat, ghost n: nat, e: Entry, ghost bag: multiset<Entry>)
      requires Hole(arr[..], n, i, e, bag) && Settles(arr[..], i, e)
      modifies arr
      ensures n < arr.Length && Ordered(arr[..], n) && Sealed(arr[..], n) && Nodes(arr[..], n) == bag
    {
      ghost var a := arr[..];
      PutKeepsOrder(a, n, i, e);
      arr[i] := e;
      assert arr[..] == a[i := e];
    }

    /** Pop and push in one: the least entry goes, the new one comes. */
    method Replace(val: int, data: int)
      requires Valid() && num > 0 && MIN <= val <= MAX
      modifies arr
      ensures Valid() && Contents() == old(Contents()) - multiset{old(arr[1])} + multiset{Entry(val, data)}
    {
      var e := Entry(val, data);
      ghost var bag := Nodes(arr[..][1 := e], num);
      ReplaceRoot(arr[..], num, e);
      var i := HoleDown(e, bag);
      Put(i, num, e, bag);
    }

    method HoleDown(e: Entry, ghost bag: multiset<Entry>) returns (i: nat)
      requires size >= DEFAULT_SIZE && 1 <= num <= size && arr.Length == size * 2 + 2
      requires Hole(arr[..], num, 1, e, bag)
      modifies arr
      ensures Hole(arr[..], num, i, e, bag) && Settles(arr[..], i, e)
    {
      i := 1;
      var c := SmallerBelow(i);
      while arr[c].val < e.val
        invariant Hole(arr[..], num, i, e, bag) && Below(arr[..], i, c)
        invariant i > 1 ==> arr[i].val < e.val
        decreases num - i
      {
        Lower(i, c, num, e, bag);
        i := c;
        c := SmallerBelow(i);
      }
    }

    /** `c` is the lesser of the two places under `i`. */
    ghost predicate Below(a: seq<Entry>, i: nat, c: nat) {
      && 0 < c < |a| && Half(c) == i
      && forall d | 0 < d < |a| && Half(d) == i :: a[c].val <= a[d].val
    }

    method SmallerBelow(i: nat) returns (c: nat)
      requires 1 <= i && 2 * i + 1 < arr.Length
      ensures Below(arr[..], i, c)
    {
      c := i * 2;
      if arr[c].val > arr[c + 1].val {
        c := c + 1;
      }
    }

    method Lower(i: nat, c: nat, ghost n: nat, ghost e: Entry, ghost bag: multiset<Entry>)
      requires Hole(arr[..], n, i, e, bag) && Below(arr[..], i, c) && arr[c].val < e.val
      modifies arr
      ensures i < c <= n && Hole(arr[..], n, c, e, bag) && arr[c].val < e.val
    {
      ghost var a := arr[..];
      assert a[c].val < MAX;
      MoveHole(a, n, i, c, e);
      arr[i] := arr[c];
      assert arr[..] == a[i := a[c]];
    }

    method Pop()
      requires Valid() && num > 0
      modifies this`num, arr
      ensures Valid() && num == old(num) - 1 && Contents() == old(Contents()) - multiset{old(arr[1])}
    {
      var e := CutLast();
      if num > 0 {
        Replace(e.val, e.data);
      }
    }

    /** Takes out the last node. */
    method CutLast() returns (e: Entry)
      requires Valid() && num > 0
      modifies this`num, arr
      ensures Valid() && num == old(num) - 1 && InRange(e)
      ensures old(Contents()) == Contents() + multiset{e}
      ensures if num > 0 then arr[1] == old(arr[1]) else e == old(arr[1])
    {
      ghost var a := arr[..];
      e := arr[num];
      WithoutLast(a, num);
      arr[num] := TOP;
      assert arr[..] == a[num := TOP];
      num := num - 1;
    }

    /** The least entry, or a null pointer when the heap is empty. */
    method Peek() returns (e: Entry)
      requires Valid()
      ensures num == 0 ==> e == TOP
      ensures num > 0 ==> e in Contents() && forall d | d in Contents() :: e.val <= d.val
    {
      e := arr[1];
      ghost var a := arr[..];
      if num > 0 {
        assert a[1..num + 1][0] == e;
        forall d | d in Contents() ensures e.val <= d.val {
          InNodes(a, num, d);
          var i :| 1 <= i <= num && a[i] == d;
          RootIsLeast(a, num, i);
        }
      }
    }
  }
}
