/** Timers on circular doubly linked lists: runtime/actor/actor_timer_list.h,
    runtime/actor/actor_timer.h and runtime/utils/cdlist.h. List heads and timers are numbered;
    `next` and `prev` are the pointers embedded in them. */
module TimerList {
  type Links = map<int, int>

  /** A ring of links through `head` and `items`, each once, with next and prev agreeing. */
  ghost predicate Ring(next: Links, prev: Links, head: int, items: seq<int>) {
    && head !in items
    && (forall i, j | 0 <= i < j < |items| :: items[i] != items[j])
    && head in next && head in prev
    && (forall i | 0 <= i < |items| :: items[i] in next && items[i] in prev)
    && (forall i | 0 <= i < |items| :: prev[items[i]] == Before(head, items, i))
    && (forall i | 0 <= i < |items| :: next[items[i]] == After(head, items, i))
    && next[head] == After(head, items, -1)
    && prev[head] == Before(head, items, |items|)
  }

  /** What comes before and after place `i`; places -1 and |items| are the head. */
  ghost function Before(head: int, items: seq<int>, i: int): int
    requires 0 <= i <= |items|
  {
    if i == 0 then head else items[i - 1]
  }

  ghost function After(head: int, items: seq<int>, i: int): int
    requires -1 <= i < |items|
  {
    if i == |items| - 1 then head else items[i + 1]
  }

  ghost predicate Unhooked(next: Links, prev: Links, x: int) {
    x in next && x in prev && next[x] == x && prev[x] == x
  }

  function Erased(items: seq<int>, k: nat): (r: seq<int>)
    requires k < |items|
    ensures |r| == |items| - 1 && forall i | 0 <= i < |r| :: r[i] == items[Shifted(k, i)]
  {
    items[..k] + items[k + 1..]
  }

  /** Where place `i` was before place `k` was erased. */
  function Shifted(k: nat, i: nat): nat {
    if i < k then i else i + 1
  }

  /** cdlist_add_tail, as four pointer updates. */
  lemma AddTailIsRing(next: Links, prev: Links, head: int, items: seq<int>, x: int)
    requires Ring(next, prev, head, items) && x in next && x in prev && x !in items && x != head
    ensures Ring(NextWith(next, prev[head], head, x), PrevWith(prev, prev[head], head, x), head, items + [x])
  {
    var last := prev[head];
    var next', prev', items' := NextWith(next, last, head, x), PrevWith(prev, last, head, x), items + [x];
    forall i | 0 <= i < |items'| ensures prev'[items'[i]] == Before(head, items', i) && next'[items'[i]] == After(head, items', i) {
      if i < |items| {
        assert items'[i] == items[i] && items[i] in items;
        assert prev[items[i]] == Before(head, items, i);
        assert next[items[i]] == After(head, items, i);
        assert items[i] == last <==> i == |items| - 1;
      }
    }
  }

  function NextWithout(next: Links, p: int, n: int, x: int): Links {
    next[p := n][x := x]
  }

  function PrevWithout(prev: Links, p: int, n: int, x: int): Links {
    prev[n := p][x := x]
  }

  lemma DelNext(next: Links, prev: Links, head: int, items: seq<int>, k: nat, i: nat)
    requires Ring(next, prev, head, items) && k < |items| && i < |items| - 1
    ensures var x, r := items[k], Erased(items, k);
      r[i] in next && NextWithout(next, prev[x], next[x], x)[r[i]] == After(head, r, i)
  {
    var x, r, j := items[k], Erased(items, k), Shifted(k, i);
    assert prev[x] == Before(head, items, k) && next[x] == After(head, items, k);
    assert next[items[j]] == After(head, items, j);
    assert items[j] != x && items[j] in items;
    assert items[j] == prev[x] <==> j == k - 1;
    if i + 1 < |r| { assert r[i + 1] == items[Shifted(k, i + 1)]; }
  }

  lemma DelPrev(next: Links, prev: Links, head: int, items: seq<int>, k: nat, i: nat)
    requires Ring(next, prev, head, items) && k < |items| && i < |items| - 1
    ensures var x, r := items[k], Erased(items, k);
      r[i] in prev && PrevWithout(prev, prev[x], next[x], x)[r[i]] == Before(head, r, i)
  {
    var x, r, j := items[k], Erased(items, k), Shifted(k, i);
    assert prev[x] == Before(head, items, k) && next[x] == After(head, items, k);
    assert prev[items[j]] == Before(head, items, j);
    assert items[j] != x && items[j] in items;
    assert items[j] == next[x] <==> j == k + 1;
    if i > 0 { assert r[i - 1] == items[Shifted(k, i - 1)]; }
  }

  lemma DelHead(next: Links, prev: Links, head: int, items: seq<int>, k: nat)
    requires Ring(next, prev, head, items) && k < |items|
    ensures var x, r := items[k], Erased(items, k);
      && NextWithout(next, prev[x], next[x], x)[head] == After(head, r, -1)
      && PrevWithout(prev, prev[x], next[x], x)[head] == Before(head, r, |r|)
  {
    var x, r, n := items[k], Erased(items, k), |items|;
    assert x in items && x != head;
    assert prev[x] == Before(head, items, k) && next[x] == After(head, items, k);
    assert k > 0 ==> items[k - 1] in items;
    assert k < n - 1 ==> items[k + 1] in items;
    assert prev[x] == head <==> k == 0;
    assert next[x] == head <==> k == n - 1;
    if n > 1 {
      assert r[0] == items[Shifted(k, 0)];
      assert r[n - 2] == items[Shifted(k, n - 2)];
    }
  }

  /** cdlist_del of an item in the middle of a ring. */
  lemma DelIsRing(next: Links, prev: Links, head: int, items: seq<int>, k: nat)
    requires Ring(next, prev, head, items) && k < |items|
    ensures var x := items[k];
      Ring(NextWithout(next, prev[x], next[x], x), PrevWithout(prev, prev[x], next[x], x), head, Erased(items, k))
  {
    var x, r := items[k], Erased(items, k);
    forall i | 0 <= i < |r|
      ensures r[i] in next && NextWithout(next, prev[x], next[x], x)[r[i]] == After(head, r, i)
      ensures r[i] in prev && PrevWithout(prev, prev[x], next[x], x)[r[i]] == Before(head, r, i)
    {
      DelNext(next, prev, head, items, k, i);
      DelPrev(next, prev, head, items, k, i);
    }
    DelHead(next, prev, head, items, k);
    ErasedIsDistinct(items, k, head);
  }

  lemma ErasedIsDistinct(items: seq<int>, k: nat, head: int)
    requires k < |items| && head !in items && forall i, j | 0 <= i < j < |items| :: items[i] != items[j]
    ensures var r := Erased(items, k);
      head !in r && items[k] !in r && forall i, j | 0 <= i < j < |r| :: r[i] != r[j]
  {
    assert forall i | 0 <= i < |items| :: items[i] in items;
  }

  /** A ring does not change when no link of its own does. */
  lemma RingFrame(next: Links, prev: Links, next': Links, prev': Links, head: int, items: seq<int>)
    requires Ring(next, prev, head, items)
    requires forall y | y == head || y in items :: y in next' && y in prev' && next'[y] == next[y] && prev'[y] == prev[y]
    ensures Ring(next', prev', head, items)
  {
    forall i | 0 <= i < |items| ensures items[i] in next' && items[i] in prev' && next'[items[i]] == next[items[i]] && prev'[items[i]] == prev[items[i]] {
      assert items[i] in items;
    }
  }

  /** Neighbours on a ring are on the ring. */
  lemma NeighboursInRing(next: Links, prev: Links, head: int, items: seq<int>, y: int)
    requires Ring(next, prev, head, items) && (y == head || y in items)
    ensures y in next && y in prev
    ensures (next[y] == head || next[y] in items) && (prev[y] == head || prev[y] in items)
  {
    if y in items {
      var i :| 0 <= i < |items| && items[i] == y;
      assert prev[items[i]] == Before(head, items, i) && next[items[i]] == After(head, items, i);
    }
  }

  // ------------------------------------------------------------ expiry

  ghost predicate Sorted(due: map<int, nat>, items: seq<int>) {
    && (forall i | 0 <= i < |items| :: items[i] in due)
    && (forall i, j | 0 <= i < j < |items| :: due[items[i]] <= due[items[j]])
  }

  ghost predicate DueBy(due: map<int, nat>, items: seq<int>, limit: nat) {
    forall i | 0 <= i < |items| :: items[i] in due && due[items[i]] <= limit
  }

  lemma AppendKeepsSorted(due: map<int, nat>, items: seq<int>, x: int, time: nat)
    requires Sorted(due, items) && DueBy(due, items, time) && x !in items
    ensures Sorted(due[x := time], items + [x]) && DueBy(due[x := time], items + [x], time)
  {
    assert forall i | 0 <= i < |items| :: items[i] in items;
  }

  lemma EraseKeepsSorted(due: map<int, nat>, items: seq<int>, k: nat, limit: nat)
    requires Sorted(due, items) && DueBy(due, items, limit) && k < |items|
    ensures Sorted(due, Erased(items, k)) && DueBy(due, Erased(items, k), limit)
  {
    var r := Erased(items, k);
    assert forall i | 0 <= i < |r| :: r[i] == items[Shifted(k, i)];
  }

  lemma OtherKeepsSorted(due: map<int, nat>, items: seq<int>, x: int, time: nat, limit: nat, limit': nat)
    requires Sorted(due, items) && DueBy(due, items, limit) && x !in items && limit <= limit'
    ensures Sorted(due[x := time], items) && DueBy(due[x := time], items, limit')
  {
    assert forall i | 0 <= i < |items| :: items[i] in items;
  }

  // ------------------------------------------------------------ two lists over one store

  const UNARMED := 0

  /** A timer is on a list exactly while it carries a request id, and on one list only. */
  ghost predicate Arming(id: map<int, nat>, a: seq<int>, b: seq<int>) {
    && (forall x | x in id :: x >= 0)
    && (forall x | x in a :: x in id && x !in b)
    && (forall x | x in b :: x in id && x !in a)
    && (forall x | x in id :: id[x] != UNARMED <==> x in a || x in b)
  }

  /** A timer that is not armed is linked to itself. */
  ghost predicate Hooking(next: Links, prev: Links, id: map<int, nat>) {
    forall x | x in id :: x in next && x in prev && (id[x] == UNARMED ==> Unhooked(next, prev, x))
  }

  /** Links off the ring of `h` are not touched. */
  ghost predicate Elsewhere(next: Links, prev: Links, next': Links, prev': Links, h: int, a: seq<int>, x: int) {
    forall y | y != h && y !in a && y != x && y in next && y in prev ::
      y in next' && y in prev' && next'[y] == next[y] && prev'[y] == prev[y]
  }

  lemma OtherRing(next: Links, prev: Links, next': Links, prev': Links, h: int, a: seq<int>, g: int, b: seq<int>, x: int)
    requires Elsewhere(next, prev, next', prev', h, a, x) && Ring(next, prev, g, b)
    requires g != h && g !in a && g != x && x !in b && h !in b && forall y | y in b :: y !in a
    ensures Ring(next', prev', g, b)
  {
    forall y | y == g || y in b ensures y in next' && y in prev' && next'[y] == next[y] && prev'[y] == prev[y] {
      NeighboursInRing(next, prev, g, b, y);
    }
    RingFrame(next, prev, next', prev', g, b);
  }

  function NextWith(next: Links, last: int, h: int, x: int): Links {
    next[last := x][x := h]
  }

  function PrevWith(prev: Links, last: int, h: int, x: int): Links {
    prev[x := last][h := x]
  }

  lemma AddTouches(next: Links, prev: Links, h: int, a: seq<int>, x: int)
    requires Ring(next, prev, h, a)
    ensures Elsewhere(next, prev, NextWith(next, prev[h], h, x), PrevWith(prev, prev[h], h, x), h, a, x)
  {
    NeighboursInRing(next, prev, h, a, h);
  }

  lemma DelTouches(next: Links, prev: Links, h: int, a: seq<int>, x: int)
    requires Ring(next, prev, h, a) && x in a
    ensures x in next && x in prev
    ensures Elsewhere(next, prev, NextWithout(next, prev[x], next[x], x), PrevWithout(prev, prev[x], next[x], x), h, a, x)
  {
    NeighboursInRing(next, prev, h, a, x);
  }

  lemma HookingElsewhere(next: Links, prev: Links, next': Links, prev': Links, id: map<int, nat>, h: int, a: seq<int>, b: seq<int>, x: int, request: nat)
    requires Hooking(next, prev, id) && Arming(id, a, b) && h < 0 && x in id
    requires Elsewhere(next, prev, next', prev', h, a, x)
    requires next'.Keys >= next.Keys && prev'.Keys >= prev.Keys
    requires request == UNARMED ==> Unhooked(next', prev', x)
    ensures Hooking(next', prev', id[x := request])
  {
    forall y | y in id[x := request]
      ensures y in next' && y in prev' && (id[x := request][y] == UNARMED ==> Unhooked(next', prev', y))
    {
      assert y in next.Keys && y in prev.Keys;
      assert y in next'.Keys && y in prev'.Keys;
      if y != x && id[y] == UNARMED {
        assert y !in a && y != h;
      }
    }
  }

  lemma AddArms(id: map<int, nat>, a: seq<int>, b: seq<int>, x: int, request: nat)
    requires Arming(id, a, b) && x in id && id[x] == UNARMED && request != UNARMED
    ensures Arming(id[x := request], a + [x], b)
  {
    assert forall y | y in a + [x] :: y in a || y == x;
    assert x in a + [x] && forall y | y in a :: y in a + [x];
  }

  lemma DelDisarms(id: map<int, nat>, a: seq<int>, b: seq<int>, k: nat)
    requires Arming(id, a, b) && k < |a| && forall i, j | 0 <= i < j < |a| :: a[i] != a[j]
    ensures Arming(id[a[k] := UNARMED], Erased(a, k), b)
  {
    assert a[k] in a;
    ErasedMembers(a, k);
    ErasedIsDistinct(a, k, -1);
  }

  /** The lists with heads `h` and `g`, linked, armed and hooked. */
  ghost predicate Consistent(next: Links, prev: Links, id: map<int, nat>, h: int, a: seq<int>, g: int, b: seq<int>) {
    && h < 0 && g < 0 && h != g
    && Ring(next, prev, h, a) && Ring(next, prev, g, b)
    && Arming(id, a, b) && Hooking(next, prev, id)
  }

  lemma AddIsConsistent(next: Links, prev: Links, id: map<int, nat>, h: int, a: seq<int>, g: int, b: seq<int>, x: int, request: nat)
    requires Consistent(next, prev, id, h, a, g, b) && x in id && id[x] == UNARMED && request != UNARMED
    ensures Consistent(NextWith(next, prev[h], h, x), PrevWith(prev, prev[h], h, x), id[x := request], h, a + [x], g, b)
  {
    var next', prev' := NextWith(next, prev[h], h, x), PrevWith(prev, prev[h], h, x);
    assert x in next && x in prev && x >= 0 && x !in a && x !in b;
    AddTailIsRing(next, prev, h, a, x);
    AddTouches(next, prev, h, a, x);
    HeadsOff(id, a, b, h, g);
    OtherRing(next, prev, next', prev', h, a, g, b, x);
    HookingElsewhere(next, prev, next', prev', id, h, a, b, x, request);
    AddArms(id, a, b, x, request);
  }

  lemma HeadsOff(id: map<int, nat>, a: seq<int>, b: seq<int>, h: int, g: int)
    requires Arming(id, a, b) && h < 0 && g < 0
    ensures g !in a && h !in b
  {
  }

  lemma DelIsConsistent(next: Links, prev: Links, id: map<int, nat>, h: int, a: seq<int>, g: int, b: seq<int>, k: nat)
    requires Consistent(next, prev, id, h, a, g, b) && k < |a|
    ensures var x := a[k];
      Consistent(NextWithout(next, prev[x], next[x], x), PrevWithout(prev, prev[x], next[x], x),
                 id[x := UNARMED], h, Erased(a, k), g, b)
  {
    var x := a[k];
    assert x in a && x in id && x !in b;
    var next', prev' := NextWithout(next, prev[x], next[x], x), PrevWithout(prev, prev[x], next[x], x);
    DelIsRing(next, prev, h, a, k);
    DelTouches(next, prev, h, a, x);
    HeadsOff(id, a, b, h, g);
    OtherRing(next, prev, next', prev', h, a, g, b, x);
    HookingElsewhere(next, prev, next', prev', id, h, a, b, x, UNARMED);
    DelDisarms(id, a, b, k);
  }

  lemma ErasedMembers(items: seq<int>, k: nat)
    requires k < |items|
    ensures forall y | y in Erased(items, k) :: y in items
    ensures forall y | y in items && y != items[k] :: y in Erased(items, k)
  {
    var r := Erased(items, k);
    forall y | y in items && y != items[k] ensures y in r {
      var j :| 0 <= j < |items| && items[j] == y;
      var i := if j < k then j else j - 1;
      assert r[i] == items[Shifted(k, i)];
    }
  }

  lemma Symmetric(next: Links, prev: Links, id: map<int, nat>, h: int, a: seq<int>, g: int, b: seq<int>)
    ensures Consistent(next, prev, id, h, a, g, b) <==> Consistent(next, prev, id, g, b, h, a)
  {
  }

  // ------------------------------------------------------------ the timers of a runtime

  const IDLE := -1
  const REQUEST := -2

  /** The memory the timers and the list heads live in. */
  datatype Store = Store(next: Links, prev: Links, due: map<int, nat>, id: map<int, nat>)

  /** Both lists are consistent and sorted by expiry. */
  ghost predicate InOrder(s: Store, idle: seq<int>, request: seq<int>, idleLimit: nat, requestLimit: nat) {
    && Consistent(s.next, s.prev, s.id, IDLE, idle, REQUEST, request)
    && Sorted(s.due, idle) && DueBy(s.due, idle, idleLimit)
    && Sorted(s.due, request) && DueBy(s.due, request, requestLimit)
  }

  /** add_timer: timer `x` armed and linked in before the head `h`. */
  function Added(s: Store, h: int, x: int, requestId: nat, time: nat): Store
    requires h in s.prev
  {
    var last := s.prev[h];
    Store(NextWith(s.next, last, h, x), PrevWith(s.prev, last, h, x), s.due[x := time], s.id[x := requestId])
  }

  ghost predicate ArmedFor(s: Store, x: int, requestId: nat, time: nat) {
    x in s.id && s.id[x] == requestId && x in s.due && s.due[x] == time
  }

  /** invalidate: timer `x` disarmed and its neighbours linked to each other. */
  function Removed(s: Store, x: int): Store
    requires x in s.next && x in s.prev
  {
    var p, n := s.prev[x], s.next[x];
    Store(NextWithout(s.next, p, n, x), PrevWithout(s.prev, p, n, x), s.due, s.id[x := UNARMED])
  }

  /** `items'` is `items` without `x`. */
  ghost predicate Without(items: seq<int>, items': seq<int>, x: int) {
    if x in items then exists k | 0 <= k < |items| :: items[k] == x && items' == Erased(items, k) else items' == items
  }

  lemma LooseStays(s: Store, x: int)
    requires x in s.id && s.id[x] == UNARMED && Unhooked(s.next, s.prev, x)
    ensures Removed(s, x) == s
  {
  }

  lemma RemoveKeeps(s: Store, idle: seq<int>, request: seq<int>, idleLimit: nat, requestLimit: nat, x: int)
    returns (idle': seq<int>, request': seq<int>)
    requires InOrder(s, idle, request, idleLimit, requestLimit) && x in s.id
    ensures x in s.next && x in s.prev && InOrder(Removed(s, x), idle', request', idleLimit, requestLimit)
    ensures Without(idle, idle', x) && Without(request, request', x)
  {
    idle', request' := idle, request;
    if x in idle {
      var k :| 0 <= k < |idle| && idle[k] == x;
      EraseKeepsSorted(s.due, idle, k, idleLimit);
      DelIsConsistent(s.next, s.prev, s.id, IDLE, idle, REQUEST, request, k);
      idle' := Erased(idle, k);
    } else if x in request {
      var k :| 0 <= k < |request| && request[k] == x;
      EraseKeepsSorted(s.due, request, k, requestLimit);
      Symmetric(s.next, s.prev, s.id, IDLE, idle, REQUEST, request);
      DelIsConsistent(s.next, s.prev, s.id, REQUEST, request, IDLE, idle, k);
      request' := Erased(request, k);
      var t := Removed(s, x);
      Symmetric(t.next, t.prev, t.id, IDLE, idle, REQUEST, request');
    } else {
      LooseStays(s, x);
    }
  }

  lemma AddIdleKeeps(s: Store, idle: seq<int>, request: seq<int>, idleLimit: nat, requestLimit: nat, x: int, requestId: nat)
    requires InOrder(s, idle, request, idleLimit, requestLimit)
    requires x in s.id && s.id[x] == UNARMED && requestId != UNARMED
    ensures IDLE in s.prev && InOrder(Added(s, IDLE, x, requestId, idleLimit), idle + [x], request, idleLimit, requestLimit)
  {
    AppendKeepsSorted(s.due, idle, x, idleLimit);
    OtherKeepsSorted(s.due, request, x, idleLimit, requestLimit, requestLimit);
    AddIsConsistent(s.next, s.prev, s.id, IDLE, idle, REQUEST, request, x, requestId);
  }

  lemma AddRequestKeeps(s: Store, idle: seq<int>, request: seq<int>, idleLimit: nat, requestLimit: nat, x: int, requestId: nat)
    requires InOrder(s, idle, request, idleLimit, requestLimit)
    requires x in s.id && s.id[x] == UNARMED && requestId != UNARMED
    ensures REQUEST in s.prev && InOrder(Added(s, REQUEST, x, requestId, requestLimit), idle, request + [x], idleLimit, requestLimit)
  {
    AppendKeepsSorted(s.due, request, x, requestLimit);
    OtherKeepsSorted(s.due, idle, x, requestLimit, idleLimit, idleLimit);
    Symmetric(s.next, s.prev, s.id, IDLE, idle, REQUEST, request);
    AddIsConsistent(s.next, s.prev, s.id, REQUEST, request, IDLE, idle, x, requestId);
    var t := Added(s, REQUEST, x, requestId, requestLimit);
    Symmetric(t.next, t.prev, t.id, IDLE, idle, REQUEST, request + [x]);
  }

  /** actor_timer::init: a timer linked to itself. */
  function Initialised(s: Store, x: nat): Store {
    s.(next := s.next[x := x], prev := s.prev[x := x], id := s.id[x := UNARMED])
  }

  lemma InitKeeps(s: Store, idle: seq<int>, request: seq<int>, idleLimit: nat, requestLimit: nat, x: nat)
    requires InOrder(s, idle, request, idleLimit, requestLimit) && x !in s.id
    ensures InOrder(Initialised(s, x), idle, request, idleLimit, requestLimit)
  {
    var t := Initialised(s, x);
    RingFrame(s.next, s.prev, t.next, t.prev, IDLE, idle);
    RingFrame(s.next, s.prev, t.next, t.prev, REQUEST, request);
  }

  /** On a list sorted by expiry some timer has expired exactly when the first one has. */
  lemma FirstDecides(s: Store, head: int, items: seq<int>, now: nat)
    requires Ring(s.next, s.prev, head, items) && Sorted(s.due, items)
    ensures (s.next[head] == head <==> items == []) && (items != [] ==> s.next[head] == items[0] && items[0] in s.due)
    ensures (exists x | x in items :: x in s.due && s.due[x] < now) <==> items != [] && s.due[items[0]] < now
  {
    if items != [] {
      assert items[0] in items;
      forall x | x in items ensures x in s.due && s.due[x] >= s.due[items[0]] {
        var i :| 0 <= i < |items| && items[i] == x;
      }
    }
  }

  /** The idle list and the request list of a runtime. `idle` and `request` are their contents in
      order. */
  class Timers {
    var store: Store
    var clock: nat
    const idleSpan: nat
    const requestSpan: nat
    ghost var idle: seq<int>
    ghost var request: seq<int>

    ghost predicate Valid()
      reads this
    {
      InOrder(store, idle, request, clock + idleSpan, clock + requestSpan)
    }

    constructor (idleSpan: nat, requestSpan: nat)
      ensures Valid() && idle == [] && request == [] && clock == 0 && store.id == map[]
      ensures this.idleSpan == idleSpan && this.requestSpan == requestSpan
    {
      store := Store(map[IDLE := IDLE, REQUEST := REQUEST], map[IDLE := IDLE, REQUEST := REQUEST], map[], map[]);
      clock, idle, request := 0, [], [];
      this.idleSpan, this.requestSpan := idleSpan, requestSpan;
    }

    /** The clock moves on. */
    method Tick(now: nat)
      requires Valid() && clock <= now
      modifies this`clock
      ensures Valid() && clock == now
    {
      clock := now;
    }

    method Init(x: nat)
      requires Valid() && x !in store.id
      modifies this`store
      ensures Valid() && x in store.id && store.id[x] == UNARMED
    {
      InitKeeps(store, idle, request, clock + idleSpan, clock + requestSpan, x);
      store := Initialised(store, x);
    }

    method AddRequest(x: int, requestId: nat)
      requires Valid() && x in store.id && store.id[x] == UNARMED && requestId != UNARMED
      modifies this`store, this`request
      ensures Valid() && request == old(request) + [x]
      ensures ArmedFor(store, x, requestId, clock + requestSpan)
    {
      AddRequestKeeps(store, idle, request, clock + idleSpan, clock + requestSpan, x, requestId);
      store, request := Added(store, REQUEST, x, requestId, clock + requestSpan), request + [x];
    }

    method AddIdle(x: int, requestId: nat)
      requires Valid() && x in store.id && store.id[x] == UNARMED && requestId != UNARMED
      modifies this`store, this`idle
      ensures Valid() && idle == old(idle) + [x]
      ensures ArmedFor(store, x, requestId, clock + idleSpan)
    {
      AddIdleKeeps(store, idle, request, clock + idleSpan, clock + requestSpan, x, requestId);
      store, idle := Added(store, IDLE, x, requestId, clock + idleSpan), idle + [x];
    }

    /** The timer leaves whatever list it is on, from wherever it stands; a timer on no list stays
        so. */
    method Invalidate(x: int)
      requires Valid() && x in store.id
      modifies this`store, this`idle, this`request
      ensures Valid() && x in store.id && store.id[x] == UNARMED
      ensures Without(old(idle), idle, x) && Without(old(request), request, x)
    {
      ghost var i, r := RemoveKeeps(store, idle, request, clock + idleSpan, clock + requestSpan, x);
      store, idle, request := Removed(store, x), i, r;
    }

    /** timeout_occur looks at the first timer of the list only, and agrees with a look at every
        timer on it. */
    method TimeoutOccur(head: int, now: nat) returns (expired: bool)
      requires Valid() && (head == IDLE || head == REQUEST)
      ensures var items := if head == IDLE then idle else request;
        expired <==> exists x | x in items :: x in store.due && store.due[x] < now
    {
      FirstDecides(store, head, if head == IDLE then idle else request, now);
      var first := store.next[head];
      expired := first != head && store.due[first] < now;
    }
  }
}
