/** The scheduling tree as a whole: links, cached flags, and the recursive definition of a class
    that can run. */
module Tree {
  import opened TrafficClass
  import opened PolicyStep

  ghost predicate IsKid(nodes: seq<Node>, i: int, c: int) {
    0 <= i < |nodes| && c in Kids(nodes[i].policy)
  }

  ghost predicate Linked(nodes: seq<Node>, rank: seq<nat>, i: int, c: int) {
    && |rank| == |nodes| && 0 <= i < |nodes| && 0 <= c < |nodes|
    && nodes[c].parent == i && rank[c] < rank[i]
  }

  ghost predicate Attached(nodes: seq<Node>, c: int) {
    0 <= c < |nodes| && (nodes[c].parent != NONE ==> IsKid(nodes, nodes[c].parent, c))
  }

  /** Parents and children agree, no child is listed twice, and ranks grow towards the root: the
      links form a forest. */
  ghost predicate Forest(nodes: seq<Node>, rank: seq<nat>) {
    && |rank| == |nodes|
    && (forall i, c | IsKid(nodes, i, c) :: Linked(nodes, rank, i, c))
    && (forall c | 0 <= c < |nodes| :: Attached(nodes, c))
    && (forall i | 0 <= i < |nodes| :: Distinct(Kids(nodes[i].policy)))
  }

  ghost predicate CachedAt(nodes: seq<Node>, blocked: seq<bool>, i: int) {
    0 <= i < |nodes| && i < |blocked| && Cached(nodes[i].policy, blocked[i], blocked)
  }

  /** Every class caches the truth, save perhaps `odd`. */
  ghost predicate CachedBut(nodes: seq<Node>, blocked: seq<bool>, odd: int) {
    |blocked| == |nodes| && forall i | 0 <= i < |nodes| && i != odd :: CachedAt(nodes, blocked, i)
  }

  ghost predicate AllCached(nodes: seq<Node>, blocked: seq<bool>) {
    CachedBut(nodes, blocked, NONE)
  }

  lemma KidsAreIn(nodes: seq<Node>, rank: seq<nat>, blocked: seq<bool>, i: int)
    requires Forest(nodes, rank) && |blocked| == |nodes| && 0 <= i < |nodes|
    ensures KidsIn(nodes[i].policy, blocked)
  {
    forall c | c in Kids(nodes[i].policy) ensures 0 <= c < |blocked| {
      assert IsKid(nodes, i, c);
    }
  }

  // ------------------------------------------------------------ the recursive definition

  ghost predicate Throttled(n: Node) {
    n.policy.RateLimit? && n.policy.meter.throttle != 0
  }

  /** A class can run: a leaf with its flag down, an interior class that is not throttled over
      some child that can run. */
  ghost predicate Runnable(nodes: seq<Node>, rank: seq<nat>, blocked: seq<bool>, i: int)
    requires Forest(nodes, rank) && |blocked| == |nodes| && 0 <= i < |nodes|
    decreases rank[i]
  {
    if nodes[i].policy.Leaf? then !blocked[i] else
      && !Throttled(nodes[i])
      && exists c | IsKid(nodes, i, c) && Linked(nodes, rank, i, c) :: Runnable(nodes, rank, blocked, c)
  }

  /** The flag of an interior class is down exactly when it is not throttled and some child's is
      down. */
  lemma FlagOfInterior(nodes: seq<Node>, blocked: seq<bool>, i: int)
    requires CachedAt(nodes, blocked, i) && !nodes[i].policy.Leaf?
    ensures !blocked[i] <==> !Throttled(nodes[i]) && exists c | IsKid(nodes, i, c) :: Flag(blocked, c, false)
  {
    var p := nodes[i].policy;
    if !blocked[i] {
      PickIsReady(p, blocked);
      assert IsKid(nodes, i, Pick(p));
    } else if !p.RateLimit? {
      FlagByKids(p, true, blocked);
      forall c | IsKid(nodes, i, c) ensures !Flag(blocked, c, false) {
        assert Flag(blocked, c, true);
      }
    }
  }

  /** The cached flags are the recursive definition. */
  lemma {:induction false} FlagsAreRunnable(nodes: seq<Node>, rank: seq<nat>, blocked: seq<bool>, i: int)
    requires Forest(nodes, rank) && AllCached(nodes, blocked) && 0 <= i < |nodes|
    ensures !blocked[i] <==> Runnable(nodes, rank, blocked, i)
    decreases rank[i]
  {
    assert CachedAt(nodes, blocked, i);
    if !nodes[i].policy.Leaf? {
      FlagOfInterior(nodes, blocked, i);
      forall c | IsKid(nodes, i, c)
        ensures Linked(nodes, rank, i, c) && (Flag(blocked, c, false) <==> Runnable(nodes, rank, blocked, c))
      {
        FlagsAreRunnable(nodes, rank, blocked, c);
      }
    }
  }

  function Gap(high: int, low: int): int {
    high - low
  }

  /** No class from `l` up to `i` is throttled, and the way up from `l` does lead to `i`. */
  ghost predicate OpenUpTo(nodes: seq<Node>, rank: seq<nat>, l: int, i: int)
    requires Forest(nodes, rank) && 0 <= l < |nodes| && 0 <= i < |nodes|
    decreases Gap(rank[i], rank[l])
  {
    !Throttled(nodes[l]) && (l == i || (Steps(nodes, rank, l, i) && OpenUpTo(nodes, rank, nodes[l].parent, i)))
  }

  ghost predicate Steps(nodes: seq<Node>, rank: seq<nat>, l: int, i: int)
    requires |rank| == |nodes| && 0 <= l < |nodes| && 0 <= i < |nodes|
  {
    Linked(nodes, rank, nodes[l].parent, l) && rank[l] < rank[i]
  }

  /** `l` is a leaf with its flag down and no throttled class on the way up to `i`. */
  ghost predicate Eligible(nodes: seq<Node>, rank: seq<nat>, blocked: seq<bool>, l: int, i: int)
    requires Forest(nodes, rank) && |blocked| == |nodes| && 0 <= i < |nodes|
  {
    0 <= l < |nodes| && nodes[l].policy.Leaf? && !blocked[l] && OpenUpTo(nodes, rank, l, i)
  }

  lemma {:induction false} OneHigher(nodes: seq<Node>, rank: seq<nat>, l: int, c: int, i: int)
    requires Forest(nodes, rank) && 0 <= l < |nodes| && Linked(nodes, rank, i, c)
    requires OpenUpTo(nodes, rank, l, c) && !Throttled(nodes[i])
    ensures rank[l] <= rank[c] && OpenUpTo(nodes, rank, l, i)
    decreases Gap(rank[c], rank[l])
  {
    if l != c {
      OneHigher(nodes, rank, nodes[l].parent, c, i);
    } else {
      assert OpenUpTo(nodes, rank, i, i);
    }
  }

  lemma {:induction false} RunnableHasLeaf(nodes: seq<Node>, rank: seq<nat>, blocked: seq<bool>, i: int) returns (l: int)
    requires Forest(nodes, rank) && |blocked| == |nodes| && 0 <= i < |nodes|
    requires Runnable(nodes, rank, blocked, i)
    ensures Eligible(nodes, rank, blocked, l, i)
    decreases rank[i]
  {
    if nodes[i].policy.Leaf? {
      l := i;
    } else {
      var c :| IsKid(nodes, i, c) && Linked(nodes, rank, i, c) && Runnable(nodes, rank, blocked, c);
      l := RunnableHasLeaf(nodes, rank, blocked, c);
      OneHigher(nodes, rank, l, c, i);
    }
  }

  /** Climbing from a class that can run, past no throttle, only classes that can run are met. */
  lemma {:induction false} ClimbRunnable(nodes: seq<Node>, rank: seq<nat>, blocked: seq<bool>, l: int, i: int)
    requires Forest(nodes, rank) && |blocked| == |nodes| && 0 <= i < |nodes| && 0 <= l < |nodes|
    requires Runnable(nodes, rank, blocked, l) && OpenUpTo(nodes, rank, l, i)
    ensures Runnable(nodes, rank, blocked, i)
    decreases Gap(rank[i], rank[l])
  {
    if l != i {
      var p := nodes[l].parent;
      assert Attached(nodes, l);
      assert IsKid(nodes, p, l);
      assert !Throttled(nodes[p]);
      ClimbRunnable(nodes, rank, blocked, p, i);
    }
  }

  /** A class has its flag down exactly when under it there is an unblocked leaf with no throttled
      class on the way. */
  lemma UnblockedIff(nodes: seq<Node>, rank: seq<nat>, blocked: seq<bool>, i: int)
    requires Forest(nodes, rank) && AllCached(nodes, blocked) && 0 <= i < |nodes|
    ensures !blocked[i] <==> exists l :: Eligible(nodes, rank, blocked, l, i)
  {
    FlagsAreRunnable(nodes, rank, blocked, i);
    if !blocked[i] {
      var l := RunnableHasLeaf(nodes, rank, blocked, i);
    }
    forall l | Eligible(nodes, rank, blocked, l, i) ensures !blocked[i] {
      ClimbRunnable(nodes, rank, blocked, l, i);
    }
  }

  // ------------------------------------------------------------ replacing one class

  function Replaced(nodes: seq<Node>, i: int, p: Policy): (r: seq<Node>)
    requires 0 <= i < |nodes|
    ensures |r| == |nodes|
  {
    nodes[i := nodes[i].(policy := p)]
  }

  lemma ReplacedKeepsForest(nodes: seq<Node>, rank: seq<nat>, i: int, p: Policy)
    requires Forest(nodes, rank) && 0 <= i < |nodes| && Kids(p) == Kids(nodes[i].policy)
    ensures Forest(Replaced(nodes, i, p), rank)
  {
    var r := Replaced(nodes, i, p);
    assert forall j | 0 <= j < |nodes| :: Kids(r[j].policy) == Kids(nodes[j].policy) && r[j].parent == nodes[j].parent;
    forall j, c | IsKid(r, j, c) ensures Linked(r, rank, j, c) {
      assert IsKid(nodes, j, c);
      assert Linked(nodes, rank, j, c);
    }
    forall c | 0 <= c < |r| ensures Attached(r, c) {
      assert Attached(nodes, c);
    }
  }

  /** Changing the flag of `i` is seen by its parent alone. */
  lemma OthersStillCached(nodes: seq<Node>, rank: seq<nat>, blocked: seq<bool>, i: int, p: Policy, flag: bool, j: int)
    requires Forest(nodes, rank) && |blocked| == |nodes| && 0 <= i < |nodes|
    requires CachedAt(nodes, blocked, j) && j != i
    requires nodes[i].parent != j || flag == blocked[i]
    ensures CachedAt(Replaced(nodes, i, p), blocked[i := flag], j)
  {
    forall c | c in Kids(nodes[j].policy)
      ensures 0 <= c < |blocked| && blocked[c] == blocked[i := flag][c]
    {
      assert IsKid(nodes, j, c);
      assert Linked(nodes, rank, j, c);
    }
    CachedFrame(nodes[j].policy, blocked[j], blocked, blocked[i := flag]);
  }

  /** A flag is not its own class's child. */
  lemma OwnFlagUnseen(nodes: seq<Node>, rank: seq<nat>, blocked: seq<bool>, i: int, p: Policy, flag: bool)
    requires Forest(nodes, rank) && |blocked| == |nodes| && 0 <= i < |nodes|
    requires Kids(p) == Kids(nodes[i].policy) && Cached(p, flag, blocked)
    ensures CachedAt(Replaced(nodes, i, p), blocked[i := flag], i)
  {
    forall c | c in Kids(p) ensures 0 <= c < |blocked| && blocked[c] == blocked[i := flag][c] {
      assert IsKid(nodes, i, c);
      assert Linked(nodes, rank, i, c);
    }
    CachedFrame(p, flag, blocked, blocked[i := flag]);
  }

  /** Once `i` is right again, only its parent can be wrong, and only if the flag of `i` changed. */
  lemma OnlyParentOdd(nodes: seq<Node>, rank: seq<nat>, blocked: seq<bool>, i: int, p: Policy, flag: bool)
    requires Forest(nodes, rank) && CachedBut(nodes, blocked, i) && 0 <= i < |nodes|
    requires Kids(p) == Kids(nodes[i].policy) && Cached(p, flag, blocked)
    ensures CachedBut(Replaced(nodes, i, p), blocked[i := flag], nodes[i].parent)
    ensures flag == blocked[i] || nodes[i].parent == NONE ==> AllCached(Replaced(nodes, i, p), blocked[i := flag])
  {
    var r, b := Replaced(nodes, i, p), blocked[i := flag];
    OwnFlagUnseen(nodes, rank, blocked, i, p, flag);
    forall j | 0 <= j < |nodes| && (j != nodes[i].parent || flag == blocked[i]) ensures CachedAt(r, b, j) {
      if j != i {
        assert CachedAt(nodes, blocked, j);
        OthersStillCached(nodes, rank, blocked, i, p, flag, j);
      }
    }
  }

  /** A class whose flag goes down leaves its parent rising. */
  lemma ParentRises(nodes: seq<Node>, rank: seq<nat>, blocked: seq<bool>, i: int)
    requires Forest(nodes, rank) && CachedBut(nodes, blocked, i) && 0 <= i < |nodes|
    requires nodes[i].parent != NONE && blocked[i]
    ensures Linked(nodes, rank, nodes[i].parent, i)
    ensures Rising(nodes[nodes[i].parent].policy, blocked[nodes[i].parent], blocked[i := false])
  {
    var p := nodes[i].parent;
    assert Attached(nodes, i);
    assert IsKid(nodes, p, i);
    assert Linked(nodes, rank, p, i);
    assert CachedAt(nodes, blocked, p);
    RisingAfter(nodes[p].policy, blocked[p], blocked, i);
  }

  // ------------------------------------------------------------ the chosen path

  /** Flags are down from `i` to the root, and each class on the way is what its parent picks. */
  ghost predicate Chosen(nodes: seq<Node>, rank: seq<nat>, blocked: seq<bool>, root: int, i: int)
    requires Forest(nodes, rank) && |blocked| == |nodes| && 0 <= i < |nodes| && 0 <= root < |nodes|
    decreases Gap(rank[root], rank[i])
  {
    && !blocked[i] && rank[i] <= rank[root]
    && (nodes[i].parent == NONE ==> i == root)
    && (nodes[i].parent != NONE ==>
          && Linked(nodes, rank, nodes[i].parent, i)
          && Pick(nodes[nodes[i].parent].policy) == i
          && Chosen(nodes, rank, blocked, root, nodes[i].parent))
  }

  /** The path above a class does not depend on the class. */
  lemma {:induction false} ChosenFrame(nodes: seq<Node>, rank: seq<nat>, blocked: seq<bool>, root: int, i: int, j: int, p: Policy, flag: bool)
    requires Forest(nodes, rank) && |blocked| == |nodes| && 0 <= i < |nodes| && 0 <= j < |nodes|
    requires Kids(p) == Kids(nodes[i].policy) && rank[i] < rank[j] && 0 <= root < |nodes|
    requires Chosen(nodes, rank, blocked, root, j)
    ensures Forest(Replaced(nodes, i, p), rank)
    ensures Chosen(Replaced(nodes, i, p), rank, blocked[i := flag], root, j)
    decreases Gap(rank[root], rank[j])
  {
    ReplacedKeepsForest(nodes, rank, i, p);
    if nodes[j].parent != NONE {
      ChosenFrame(nodes, rank, blocked, root, i, nodes[j].parent, p, flag);
    }
  }

  /** No class from a chosen one up to the root is throttled. */
  lemma {:induction false} ChosenIsOpen(nodes: seq<Node>, rank: seq<nat>, blocked: seq<bool>, root: int, l: int)
    requires Forest(nodes, rank) && AllCached(nodes, blocked) && 0 <= root < |nodes| && 0 <= l < |nodes|
    requires nodes[root].parent == NONE
    requires Chosen(nodes, rank, blocked, root, l)
    ensures OpenUpTo(nodes, rank, l, root)
    decreases Gap(rank[root], rank[l])
  {
    assert CachedAt(nodes, blocked, l);
    if nodes[l].parent != NONE {
      ChosenIsOpen(nodes, rank, blocked, root, nodes[l].parent);
    }
  }

  /** When the flag of a chosen class changes, its parent is left to give it up. */
  lemma {:induction false} ParentFalls(nodes: seq<Node>, rank: seq<nat>, blocked: seq<bool>, root: int, i: int, p: Policy, flag: bool)
    requires Forest(nodes, rank) && CachedBut(nodes, blocked, i) && 0 <= i < |nodes|
    requires Kids(p) == Kids(nodes[i].policy) && 0 <= root < |nodes|
    requires Chosen(nodes, rank, blocked, root, i) && nodes[i].parent != NONE
    ensures Linked(nodes, rank, nodes[i].parent, i)
    ensures Falling(Replaced(nodes, i, p)[nodes[i].parent].policy, blocked[i := flag], i)
  {
    var j := nodes[i].parent;
    assert Linked(nodes, rank, j, i);
    assert CachedAt(nodes, blocked, j);
    assert blocked[i := flag][i := false] == blocked;
    assert Distinct(Kids(nodes[j].policy));
  }
}
