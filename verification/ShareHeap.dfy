/** The min-queue of a weighted-fair class: std::priority_queue over passes, extended with
    `decrease_key_top` (runtime/bessport/utils/extended_priority_queue.h). */
module ShareHeap {
  import opened TrafficClass

  const QUANTUM := 1024

  function Ids(v: seq<Share>): multiset<int> {
    multiset(ShareIds(v))
  }

  function Swap(v: seq<Share>, i: nat, j: nat): seq<Share>
    requires i < |v| && j < |v|
  {
    v[i := v[j]][j := v[i]]
  }

  lemma SwapKeeps(v: seq<Share>, i: nat, j: nat)
    requires i < |v| && j < |v|
    ensures multiset(Swap(v, i, j)) == multiset(v) && Ids(Swap(v, i, j)) == Ids(v)
  {
    var ids := ShareIds(v);
    assert ShareIds(Swap(v, i, j)) == ids[i := ids[j]][j := ids[i]];
  }

  /** In heap order except between `node` and its children, which are in order with what is
      above `node`. */
  ghost predicate HeapBut(v: seq<Share>, node: nat) {
    forall j | 0 < j < |v| ::
      if Up(j) != node then v[Up(j)].pass <= v[j].pass
      else node > 0 && node < |v| ==> v[Up(node)].pass <= v[j].pass
  }

  /** In heap order except between `node` and what is above it. */
  ghost predicate HeapAbove(v: seq<Share>, node: nat) {
    forall j | 0 < j < |v| ::
      && (j != node ==> v[Up(j)].pass <= v[j].pass)
      && (Up(j) == node && node > 0 ==> v[Up(node)].pass <= v[j].pass)
  }

  function SmallerChild(v: seq<Share>, node: nat): (c: nat)
    requires 2 * node + 1 < |v|
    ensures c < |v| && c > 0 && Up(c) == node
    ensures forall j | 0 < j < |v| && Up(j) == node :: v[c].pass <= v[j].pass
  {
    var left, right := 2 * node + 1, 2 * node + 2;
    if right >= |v| || v[left].pass < v[right].pass then left else right
  }

  lemma SiftDownStep(v: seq<Share>, node: nat)
    requires HeapBut(v, node) && 2 * node + 1 < |v|
    requires v[SmallerChild(v, node)].pass < v[node].pass
    ensures HeapBut(Swap(v, node, SmallerChild(v, node)), SmallerChild(v, node))
  {
    var c := SmallerChild(v, node);
    var w := Swap(v, node, c);
    forall j | 0 < j < |w|
      ensures if Up(j) != c then w[Up(j)].pass <= w[j].pass else w[Up(c)].pass <= w[j].pass
    {
      assert Up(c) == node;
    }
  }

  lemma SiftDownDone(v: seq<Share>, node: nat)
    requires HeapBut(v, node) && node < |v|
    requires 2 * node + 1 < |v| ==> v[node].pass <= v[SmallerChild(v, node)].pass
    ensures IsHeap(v)
  {
  }

  /** `decrease_key_top` restores the heap over the same children, whatever the new top pass. */
  method DecreaseKeyTop(v0: seq<Share>) returns (v: seq<Share>)
    requires |v0| > 0 && HeapBut(v0, 0)
    ensures IsHeap(v) && multiset(v) == multiset(v0) && Ids(v) == Ids(v0)
  {
    v := v0;
    var node := 0;
    while 2 * node + 1 < |v|
      invariant node < |v| && HeapBut(v, node)
      invariant multiset(v) == multiset(v0) && Ids(v) == Ids(v0)
      decreases |v0| - node
    {
      var c := SmallerChild(v, node);
      if v[node].pass <= v[c].pass {
        break;
      }
      SiftDownStep(v, node);
      SwapKeeps(v, node, c);
      assert |v| == |multiset(v0)| == |v0|;
      v := Swap(v, node, c);
      node := c;
    }
    SiftDownDone(v, node);
  }

  lemma SiftUpStep(v: seq<Share>, node: nat)
    requires 0 < node < |v| && HeapAbove(v, node) && v[node].pass < v[Up(node)].pass
    ensures HeapAbove(Swap(v, node, Up(node)), Up(node))
  {
    var p := Up(node);
    var w := Swap(v, node, p);
    forall j | 0 < j < |w|
      ensures j != p ==> w[Up(j)].pass <= w[j].pass
      ensures Up(j) == p && p > 0 ==> w[Up(p)].pass <= w[j].pass
    {
      assert p > 0 ==> v[Up(p)].pass <= v[p].pass;
      if Up(j) == p && j != node { assert v[p].pass <= v[j].pass; }
    }
  }

  /** `push` of the underlying priority queue. */
  method Push(v0: seq<Share>, x: Share) returns (v: seq<Share>)
    requires IsHeap(v0)
    ensures IsHeap(v)
    ensures multiset(v) == multiset(v0) + multiset{x} && Ids(v) == Ids(v0) + multiset{x.id}
  {
    v := v0 + [x];
    assert ShareIds(v) == ShareIds(v0) + [x.id];
    ghost var all, ids := multiset(v), Ids(v);
    var node := |v0|;
    while node > 0 && v[node].pass < v[Up(node)].pass
      invariant 0 <= node < |v| && HeapAbove(v, node)
      invariant multiset(v) == all && Ids(v) == ids
    {
      SiftUpStep(v, node);
      SwapKeeps(v, node, Up(node));
      v := Swap(v, node, Up(node));
      node := Up(node);
    }
  }

  /** `pop` of the underlying priority queue: the top leaves, the rest stays. */
  method Pop(v0: seq<Share>) returns (v: seq<Share>)
    requires |v0| > 0 && IsHeap(v0)
    ensures IsHeap(v)
    ensures multiset(v) == multiset(v0) - multiset{v0[0]} && Ids(v) == Ids(v0) - multiset{v0[0].id}
  {
    var last := |v0| - 1;
    SwapKeeps(v0, 0, last);
    var w := Swap(v0, 0, last);
    v := w[..last];
    assert w == v + [v0[0]];
    assert ShareIds(w) == ShareIds(v) + [v0[0].id];
    if v != [] {
      v := DecreaseKeyTop(v);
    }
  }

  /** The top of the queue has the least pass. */
  lemma {:induction false} TopIsLeast(v: seq<Share>, j: nat)
    requires IsHeap(v) && j < |v|
    ensures v[0].pass <= v[j].pass
  {
    if j > 0 {
      TopIsLeast(v, Up(j));
    }
  }

  // ------------------------------------------------------------ fairness

  /** What one run of the top child adds to its pass. */
  function Charge(s: Share, consumed: nat): nat {
    s.stride * consumed / QUANTUM
  }

  function Raised(v: seq<Share>, consumed: nat): (w: seq<Share>)
    requires |v| > 0
    ensures |w| == |v|
  {
    v[0 := v[0].(pass := v[0].pass + Charge(v[0], consumed))]
  }

  lemma RaisedIsHeapBut(v: seq<Share>, consumed: nat)
    requires |v| > 0 && IsHeap(v)
    ensures HeapBut(Raised(v, consumed), 0) && Ids(Raised(v, consumed)) == Ids(v)
  {
    assert ShareIds(Raised(v, consumed)) == ShareIds(v);
  }

  /** The accounting step of a weighted-fair class whose child stays unblocked. */
  method Account(v0: seq<Share>, consumed: nat) returns (v: seq<Share>)
    requires |v0| > 0 && IsHeap(v0)
    ensures Accounted(v0, consumed, v) && Ids(v) == Ids(v0)
  {
    RaisedIsHeapBut(v0, consumed);
    v := DecreaseKeyTop(Raised(v0, consumed));
  }

  ghost predicate Accounted(v: seq<Share>, consumed: nat, w: seq<Share>) {
    |v| > 0 && IsHeap(w) && multiset(w) == multiset(Raised(v, consumed))
  }

  ghost predicate Within(v: seq<Share>, bound: nat) {
    forall x, y | x in v && y in v :: x.pass - y.pass <= bound
  }

  lemma AccountKeepsWithin(v: seq<Share>, consumed: nat, w: seq<Share>, bound: nat)
    requires IsHeap(v) && Accounted(v, consumed, w) && Within(v, bound)
    requires Charge(v[0], consumed) <= bound
    ensures Within(w, bound)
  {
    var r := Raised(v, consumed);
    forall x, y | x in w && y in w ensures x.pass - y.pass <= bound {
      assert x in multiset(r) && y in multiset(r);
      var i :| 0 <= i < |r| && r[i] == x;
      var j :| 0 <= j < |r| && r[j] == y;
      TopIsLeast(v, i);
      TopIsLeast(v, j);
      assert v[i] in v && v[j] in v && v[0] in v;
    }
  }

  /** What a child has used since it was `x`, times its stride, is in its pass, in units of 1024 and up
      to less than one unit per turn. */
  ghost predicate Follows(x: Share, y: Share, used: nat, turns: nat) {
    && y.stride == x.stride
    && 0 <= x.stride * used - 1024 * (y.pass - x.pass) <= 1023 * turns
  }

  /** One turn at the top. */
  lemma TurnFollows(x: Share, y: Share, used: nat, turns: nat, consumed: nat)
    requires Follows(x, y, used, turns)
    ensures Follows(x, y.(pass := y.pass + Charge(y, consumed)), used + consumed, turns + 1)
  {
    var c := x.stride * consumed;
    assert x.stride * (used + consumed) == x.stride * used + c;
    assert Charge(y, consumed) == c / 1024;
    assert 0 <= c - 1024 * (c / 1024) <= 1023;
  }

  /** After its turn the top child has paid for what it used. */
  ghost predicate Paid(v: seq<Share>, consumed: nat, w: seq<Share>) {
    v != [] && exists y | y in w :: y.id == v[0].id && Follows(v[0], y, consumed, 1)
  }

  lemma TopHasPaid(v: seq<Share>, consumed: nat, w: seq<Share>)
    requires Accounted(v, consumed, w)
    ensures Paid(v, consumed, w)
  {
    var x, y := v[0], Raised(v, consumed)[0];
    assert Follows(x, x, 0, 0);
    TurnFollows(x, x, 0, 0, consumed);
    assert y in multiset(w);
  }

  /** Successive queues of a stretch in which no child blocks, unblocks or is added. */
  ghost predicate Stretch(vs: seq<seq<Share>>, consumed: seq<nat>) {
    && |vs| == |consumed| + 1
    && IsHeap(vs[0])
    && forall i | 0 <= i < |consumed| :: Accounted(vs[i], consumed[i], vs[i + 1])
  }

  ghost predicate ChargesWithin(vs: seq<seq<Share>>, consumed: seq<nat>, bound: nat) {
    && |vs| == |consumed| + 1
    && forall i | 0 <= i < |consumed| :: |vs[i]| > 0 && Charge(vs[i][0], consumed[i]) <= bound
  }

  /** Weighted fairness: from equal passes, all passes stay within the largest single charge of
      each other, through any stretch. */
  lemma {:induction false} PassesStayTogether(vs: seq<seq<Share>>, consumed: seq<nat>, bound: nat, k: nat)
    requires Stretch(vs, consumed) && ChargesWithin(vs, consumed, bound) && k < |vs|
    requires Within(vs[0], 0)
    ensures IsHeap(vs[k]) && Within(vs[k], bound)
  {
    if k > 0 {
      PassesStayTogether(vs, consumed, bound, k - 1);
      assert Accounted(vs[k - 1], consumed[k - 1], vs[k - 1 + 1]);
      AccountKeepsWithin(vs[k - 1], consumed[k - 1], vs[k], bound);
    }
  }
}
