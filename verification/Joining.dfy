/** Adding a child or a task to one class: the class-specific part of AddChild and AddTask in
    runtime/bessport/traffic_class.cc. */
module Joining {
  import opened TrafficClass
  import opened ShareHeap
  import opened PolicyStep
  import opened Tree

  const STRIDE1 := 0x10_0000

  /** A class as constructed. */
  predicate Newborn(p: Policy) {
    match p
    case Leaf(tasks) => tasks == []
    case Priority(kids, first) => kids == [] && first == 0
    case Weighted(_, heap, held) => heap == [] && held == []
    case RoundRobin(ready, asleep, next) => ready == [] && asleep == [] && next == 0
    case RateLimit(_, child, m) =>
      child == NONE && m.limit > 0 && m.tokens == 0 && m.throttle == 0 && m.since < 0 && m.charged == 0
  }

  lemma NewbornIsCached(p: Policy, blocked: seq<bool>)
    requires Newborn(p)
    ensures Cached(p, true, blocked) && Kids(p) == multiset{}
  {
    assert p.Weighted? ==> ShareIds(p.heap) == [] && ShareIds(p.held) == [];
    assert p.Priority? ==> PriorityIds(p.kids) == [];
  }

  predicate HasPriority(kids: seq<PriorityChild>, priority: nat) {
    exists j | 0 <= j < |kids| :: kids[j].priority == priority
  }

  lemma InsertKeepsAscending(kids: seq<PriorityChild>, k: nat, d: PriorityChild)
    requires Ascending(kids) && k <= |kids|
    requires forall j | 0 <= j < k :: kids[j].priority < d.priority
    requires forall j | k <= j < |kids| :: d.priority < kids[j].priority
    ensures Ascending(kids[..k] + [d] + kids[k..])
  {
  }

  lemma InsertAddsId(kids: seq<PriorityChild>, k: nat, d: PriorityChild)
    requires k <= |kids|
    ensures multiset(PriorityIds(kids[..k] + [d] + kids[k..])) == multiset(PriorityIds(kids)) + multiset{d.id}
  {
    var ids := PriorityIds(kids);
    assert PriorityIds(kids[..k] + [d] + kids[k..]) == ids[..k] + [d.id] + ids[k..];
    assert ids == ids[..k] + ids[k..];
  }

  lemma Bubble(kids: seq<PriorityChild>, i: nat, d: PriorityChild)
    requires 0 < i <= |kids|
    ensures var r := kids[..i] + [d] + kids[i..];
      r[i - 1] == kids[i - 1] && r[i - 1 := d][i := r[i - 1]] == kids[..i - 1] + [d] + kids[i - 1..]
  {
  }

  lemma LowerBefore(kids: seq<PriorityChild>, i: nat, d: PriorityChild)
    requires Ascending(kids) && !HasPriority(kids, d.priority) && i <= |kids|
    requires i > 0 ==> kids[i - 1].priority <= d.priority
    ensures forall j | 0 <= j < i :: kids[j].priority < d.priority
  {
  }

  /** `InsertSorted`: the new child is bubbled up from the back to its place. */
  method InsertSorted(kids: seq<PriorityChild>, d: PriorityChild) returns (r: seq<PriorityChild>, ghost k: nat)
    requires Ascending(kids) && !HasPriority(kids, d.priority)
    ensures k <= |kids| && r == kids[..k] + [d] + kids[k..] && Ascending(r)
  {
    r := kids + [d];
    var i := |kids|;
    while i > 0 && d.priority < r[i - 1].priority
      invariant 0 <= i <= |kids| && r == kids[..i] + [d] + kids[i..]
      invariant forall j | i <= j < |kids| :: d.priority < kids[j].priority
    {
      Bubble(kids, i, d);
      r := r[i - 1 := d][i := r[i - 1]];
      i := i - 1;
    }
    k := i;
    if i > 0 {
      assert r[i - 1] == kids[i - 1];
    }
    LowerBefore(kids, i, d);
    InsertKeepsAscending(kids, k, d);
  }

  /** A class after a child has joined it; its own flag may be out of date. */
  ghost predicate Joins(p: Policy, q: Policy, c: int, self: bool, blocked: seq<bool>) {
    && Kids(q) == Kids(p) + multiset{c}
    && !p.Leaf? && !q.Leaf?
    && (p.RateLimit? <==> q.RateLimit?)
    && (p.RateLimit? ==> q.meter == p.meter)
    && Rising(q, self, blocked)
  }

  method JoinPriority(p: Policy, c: int, priority: nat, ghost self: bool, ghost blocked: seq<bool>) returns (q: Policy)
    requires p.Priority? && Cached(p, self, blocked) && !HasPriority(p.kids, priority)
    ensures Joins(p, q, c, self, blocked)
    ensures q.Priority? && multiset(q.kids) == multiset(p.kids) + multiset{PriorityChild(priority, c)}
  {
    var d := PriorityChild(priority, c);
    var kids, k := InsertSorted(p.kids, d);
    InsertAddsId(p.kids, k, d);
    assert p.kids == p.kids[..k] + p.kids[k..];
    if !self {
      var j := if p.first < k then p.first else p.first + 1;
      assert kids[j] == p.kids[p.first];
    }
    q := p.(kids := kids);
  }

  /** The pass a new child starts from. */
  function StartingPass(heap: seq<Share>): int {
    if heap != [] then heap[0].pass else 0
  }

  /** A child that joins a queue, where it starts does not spread the passes. */
  lemma JoinKeepsWithin(v: seq<Share>, w: seq<Share>, stride: nat, c: int, bound: nat)
    requires Within(v, bound) && multiset(w) == multiset(v) + multiset{Share(stride, StartingPass(v), c)}
    ensures Within(w, bound)
  {
    forall x, y | x in w && y in w ensures x.pass - y.pass <= bound {
      assert x in multiset(w) && y in multiset(w);
      if v != [] {
        assert v[0] in v;
      } else {
        assert multiset(v) == multiset{};
      }
    }
  }

  method JoinWeighted(p: Policy, c: int, share: nat, self: bool, blocked: seq<bool>) returns (q: Policy)
    requires p.Weighted? && Cached(p, self, blocked) && share > 0 && 0 <= c < |blocked|
    ensures Joins(p, q, c, self, blocked) && q.Weighted?
    ensures blocked[c] ==> Cached(q, self, blocked)
    ensures var s := Share(STRIDE1 / share, StartingPass(p.heap), c);
      if blocked[c] then q == p.(held := p.held + [s])
      else multiset(q.heap) == multiset(p.heap) + multiset{s} && q.held == p.held && q.resource == p.resource
  {
    var s := Share(STRIDE1 / share, StartingPass(p.heap), c);
    if blocked[c] {
      q := HoldShare(p, s, self, blocked);
    } else {
      q := QueueShare(p, s, self, blocked);
    }
  }

  method HoldShare(p: Policy, s: Share, ghost self: bool, ghost blocked: seq<bool>) returns (q: Policy)
    requires p.Weighted? && Cached(p, self, blocked) && Flag(blocked, s.id, true)
    ensures q == p.(held := p.held + [s]) && Cached(q, self, blocked) && Rising(q, self, blocked)
    ensures Kids(q) == Kids(p) + multiset{s.id}
  {
    IdsOfAppend(p.held, s);
    AddOne(Ids(p.held), s.id, blocked, true);
    MoveOne(Ids(p.heap), Ids(p.held), Ids(p.heap), Ids(p.held), s.id);
    q := p.(held := p.held + [s]);
  }

  method QueueShare(p: Policy, s: Share, ghost self: bool, ghost blocked: seq<bool>) returns (q: Policy)
    requires p.Weighted? && Cached(p, self, blocked) && Flag(blocked, s.id, false)
    ensures q.Weighted? && q.held == p.held && q.resource == p.resource
    ensures multiset(q.heap) == multiset(p.heap) + multiset{s}
    ensures Rising(q, self, blocked) && Kids(q) == Kids(p) + multiset{s.id}
  {
    var heap := Push(p.heap, s);
    AddOne(Ids(p.heap), s.id, blocked, false);
    MoveOne(Ids(p.heap), Ids(p.held), Ids(p.heap), Ids(p.held), s.id);
    assert heap != [] by { assert s in multiset(heap); }
    q := p.(heap := heap);
  }

  method JoinRoundRobin(p: Policy, c: int, self: bool, blocked: seq<bool>) returns (q: Policy)
    requires p.RoundRobin? && Cached(p, self, blocked) && 0 <= c < |blocked|
    ensures Joins(p, q, c, self, blocked)
    ensures q == if blocked[c] then p.(asleep := p.asleep + [c]) else p.(ready := p.ready + [c])
  {
    MoveOne(multiset(p.ready), multiset(p.asleep), multiset(p.ready), multiset(p.asleep), c);
    if blocked[c] {
      q := p.(asleep := p.asleep + [c]);
    } else {
      AddOne(multiset(p.ready), c, blocked, false);
      q := p.(ready := p.ready + [c]);
    }
  }

  // ------------------------------------------------------------ the tree

  /** Class `c` hung under class `p`, whose policy becomes `q`. */
  function Joined(nodes: seq<Node>, p: int, c: int, q: Policy): (r: seq<Node>)
    requires 0 <= p < |nodes| && 0 <= c < |nodes| && p != c
    ensures |r| == |nodes|
  {
    nodes[p := nodes[p].(policy := q)][c := nodes[c].(parent := p)]
  }

  /** The children in the joined tree: those of before, and `c` under `p`. */
  lemma JoinedKid(nodes: seq<Node>, p: int, c: int, q: Policy, i: int, d: int)
    requires 0 <= p < |nodes| && 0 <= c < |nodes| && p != c
    requires Kids(q) == Kids(nodes[p].policy) + multiset{c}
    ensures IsKid(Joined(nodes, p, c, q), i, d) <==> IsKid(nodes, i, d) || (i == p && d == c)
  {
  }

  lemma JoinedIsLinked(nodes: seq<Node>, rank: seq<nat>, p: int, c: int, q: Policy, i: int, d: int)
    requires Forest(nodes, rank) && 0 <= p < |nodes| && 0 <= c < |nodes| && rank[c] < rank[p]
    requires nodes[c].parent == NONE && Kids(q) == Kids(nodes[p].policy) + multiset{c}
    requires IsKid(Joined(nodes, p, c, q), i, d)
    ensures Linked(Joined(nodes, p, c, q), rank, i, d)
  {
    JoinedKid(nodes, p, c, q, i, d);
    if IsKid(nodes, i, d) {
      assert Linked(nodes, rank, i, d);
    }
  }

  lemma JoinedIsAttached(nodes: seq<Node>, rank: seq<nat>, p: int, c: int, q: Policy, d: int)
    requires Forest(nodes, rank) && 0 <= p < |nodes| && 0 <= c < |nodes| && p != c && 0 <= d < |nodes|
    requires Kids(q) == Kids(nodes[p].policy) + multiset{c}
    ensures Attached(Joined(nodes, p, c, q), d)
  {
    assert Attached(nodes, d);
    JoinedKid(nodes, p, c, q, if d == c then p else nodes[d].parent, d);
  }

  lemma JoinedIsDistinct(nodes: seq<Node>, rank: seq<nat>, p: int, c: int, q: Policy)
    requires Forest(nodes, rank) && 0 <= p < |nodes| && 0 <= c < |nodes|
    requires nodes[c].parent == NONE && Kids(q) == Kids(nodes[p].policy) + multiset{c}
    ensures Distinct(Kids(q))
  {
    assert Distinct(Kids(nodes[p].policy));
    assert IsKid(nodes, p, c) ==> Linked(nodes, rank, p, c);
  }

  lemma JoinedIsForest(nodes: seq<Node>, rank: seq<nat>, p: int, c: int, q: Policy)
    requires Forest(nodes, rank) && 0 <= p < |nodes| && 0 <= c < |nodes| && rank[c] < rank[p]
    requires nodes[c].parent == NONE && Kids(q) == Kids(nodes[p].policy) + multiset{c}
    ensures Forest(Joined(nodes, p, c, q), rank)
  {
    var r := Joined(nodes, p, c, q);
    forall i, d | IsKid(r, i, d) ensures Linked(r, rank, i, d) {
      JoinedIsLinked(nodes, rank, p, c, q, i, d);
    }
    forall d | 0 <= d < |r| ensures Attached(r, d) {
      JoinedIsAttached(nodes, rank, p, c, q, d);
    }
    JoinedIsDistinct(nodes, rank, p, c, q);
    forall i | 0 <= i < |r| ensures Distinct(Kids(r[i].policy)) {
      assert i != p ==> r[i].policy == nodes[i].policy;
      assert Distinct(Kids(nodes[i].policy));
    }
  }

  lemma JoinedIsCached(nodes: seq<Node>, blocked: seq<bool>, p: int, c: int, q: Policy)
    requires AllCached(nodes, blocked) && 0 <= p < |nodes| && 0 <= c < |nodes| && p != c
    ensures CachedBut(Joined(nodes, p, c, q), blocked, p)
    ensures Cached(q, blocked[p], blocked) ==> AllCached(Joined(nodes, p, c, q), blocked)
  {
    var r := Joined(nodes, p, c, q);
    forall j | 0 <= j < |nodes| && (j != p || Cached(q, blocked[p], blocked)) ensures CachedAt(r, blocked, j) {
      assert CachedAt(nodes, blocked, j);
    }
  }

  /** The tree with one more class, not yet linked. */
  lemma GrownIsForest(nodes: seq<Node>, rank: seq<nat>, p: Policy, r: nat)
    requires Forest(nodes, rank) && Newborn(p)
    ensures Forest(nodes + [Node(NONE, p)], rank + [r])
  {
    var nodes', rank' := nodes + [Node(NONE, p)], rank + [r];
    NewbornIsCached(p, []);
    forall i, c | IsKid(nodes', i, c) ensures Linked(nodes', rank', i, c) {
      assert IsKid(nodes, i, c);
      assert Linked(nodes, rank, i, c);
    }
    forall c | 0 <= c < |nodes'| ensures Attached(nodes', c) {
      if c < |nodes| { assert Attached(nodes, c); }
    }
  }

  lemma GrownIsCached(nodes: seq<Node>, rank: seq<nat>, blocked: seq<bool>, p: Policy)
    requires Forest(nodes, rank) && AllCached(nodes, blocked) && Newborn(p)
    ensures AllCached(nodes + [Node(NONE, p)], blocked + [true])
  {
    var nodes', blocked' := nodes + [Node(NONE, p)], blocked + [true];
    NewbornIsCached(p, blocked');
    forall i | 0 <= i < |nodes'| ensures CachedAt(nodes', blocked', i) {
      if i < |nodes| {
        assert CachedAt(nodes, blocked, i);
        forall c | c in Kids(nodes[i].policy) ensures 0 <= c < |blocked| && blocked[c] == blocked'[c] {
          assert IsKid(nodes, i, c);
        }
        CachedFrame(nodes[i].policy, blocked[i], blocked, blocked');
      }
    }
  }
}
