/** The scheduler over the tree: runtime/bessport/scheduler.h and the recursive operations of
    runtime/bessport/traffic_class.cc. */
module Scheduler {
  import opened TrafficClass
  import opened ShareHeap
  import opened PolicyStep
  import opened Tree
  import opened Joining

  // ------------------------------------------------------------ vocabulary

  ghost function Top(rank: seq<nat>): (t: int)
    ensures t >= 0 && forall r | r in rank :: r <= t
  {
    if rank == [] then 0 else
      var t := Top(rank[1..]);
      assert rank == [rank[0]] + rank[1..];
      if rank[0] > t then rank[0] else t
  }

  /** Each throttled class is in the throttled queue once, and nothing else is. */
  ghost predicate Queued(nodes: seq<Node>, throttled: seq<int>) {
    forall i :: multiset(throttled)[i] == Occurs(nodes, i)
  }

  ghost function Occurs(nodes: seq<Node>, i: int): nat {
    if 0 <= i < |nodes| && Throttled(nodes[i]) then 1 else 0
  }

  ghost predicate MeteredAt(nodes: seq<Node>, i: int, clock: nat) {
    0 <= i < |nodes| && (nodes[i].policy.RateLimit? ==> Metered(nodes[i].policy.meter, clock))
  }

  ghost predicate AllMetered(nodes: seq<Node>, clock: nat) {
    forall i | 0 <= i < |nodes| :: MeteredAt(nodes, i, clock)
  }

  ghost predicate AlikeAt(a: seq<Node>, b: seq<Node>, i: int) {
    && 0 <= i < |a| == |b|
    && a[i].parent == b[i].parent && Alike(a[i].policy, b[i].policy)
  }

  ghost predicate AllAlike(a: seq<Node>, b: seq<Node>) {
    |a| == |b| && forall i | 0 <= i < |a| :: AlikeAt(a, b, i)
  }

  /** Classes of rank below `r` are untouched. */
  ghost predicate LowerKept(a: seq<Node>, b: seq<Node>, rank: seq<nat>, r: nat) {
    |a| == |b| == |rank| && forall i | 0 <= i < |a| && rank[i] < r :: a[i] == b[i]
  }

  lemma LowerKeptFirst(a: seq<Node>, b: seq<Node>, rank: seq<nat>, i: int, p: int, q: Policy)
    requires |a| == |rank| && 0 <= i < |a| && 0 <= p < |a| && rank[i] < rank[p]
    requires LowerKept(Replaced(a, i, q), b, rank, rank[p])
    ensures LowerKept(a, b, rank, rank[i]) && b[i].policy == q
  {
    assert b[i] == Replaced(a, i, q)[i];
  }

  /** Flags of leaves, save perhaps one. */
  ghost predicate LeavesKeep(nodes: seq<Node>, a: seq<bool>, b: seq<bool>, odd: int) {
    && |a| == |b| == |nodes|
    && forall i | 0 <= i < |nodes| && nodes[i].policy.Leaf? && i != odd :: a[i] == b[i]
  }

  lemma AlikeKeeps(a: seq<Node>, b: seq<Node>, throttled: seq<int>, clock: nat)
    requires AllAlike(a, b)
    ensures Queued(a, throttled) ==> Queued(b, throttled)
    ensures AllMetered(a, clock) ==> AllMetered(b, clock)
  {
    assert forall i :: Occurs(a, i) == Occurs(b, i) by {
      forall i ensures Occurs(a, i) == Occurs(b, i) {
        if 0 <= i < |a| { assert AlikeAt(a, b, i); }
      }
    }
    if AllMetered(a, clock) {
      forall i | 0 <= i < |b| ensures MeteredAt(b, i, clock) {
        assert AlikeAt(a, b, i);
        assert MeteredAt(a, i, clock);
      }
    }
  }

  lemma AlikeTransitive(a: seq<Node>, b: seq<Node>, c: seq<Node>)
    requires AllAlike(a, b) && AllAlike(b, c)
    ensures AllAlike(a, c)
  {
    forall i | 0 <= i < |a| ensures AlikeAt(a, c, i) {
      assert AlikeAt(a, b, i) && AlikeAt(b, c, i);
    }
  }

  lemma ReplacedAlike(nodes: seq<Node>, i: int, q: Policy)
    requires 0 <= i < |nodes| && Alike(nodes[i].policy, q)
    ensures AllAlike(nodes, Replaced(nodes, i, q))
  {
    forall j | 0 <= j < |nodes| ensures AlikeAt(nodes, Replaced(nodes, i, q), j) {
    }
  }

  /** `j` is `i` or lies on the way from `i` to the root. */
  ghost predicate Above(nodes: seq<Node>, rank: seq<nat>, i: int, j: int)
    requires Forest(nodes, rank) && 0 <= i < |nodes|
    decreases Gap(Top(rank), rank[i])
  {
    i == j || (nodes[i].parent != NONE && (ParentLinked(nodes, rank, i); Above(nodes, rank, nodes[i].parent, j)))
  }

  lemma {:induction false} ParentLinked(nodes: seq<Node>, rank: seq<nat>, i: int)
    requires Forest(nodes, rank) && 0 <= i < |nodes| && nodes[i].parent != NONE
    ensures Linked(nodes, rank, nodes[i].parent, i) && !nodes[nodes[i].parent].policy.Leaf?
    ensures rank[i] < rank[nodes[i].parent] <= Top(rank)
  {
    var p := nodes[i].parent;
    assert Attached(nodes, i);
    assert IsKid(nodes, p, i);
    assert rank[p] in rank;
  }

  // ------------------------------------------------------------ throttling

  ghost predicate IsThrottled(nodes: seq<Node>, i: int) {
    0 <= i < |nodes| && Throttled(nodes[i])
  }

  function Expiry(nodes: seq<Node>, i: int): nat {
    if 0 <= i < |nodes| && nodes[i].policy.RateLimit? then nodes[i].policy.meter.throttle else 0
  }

  lemma InQueue(nodes: seq<Node>, throttled: seq<int>)
    requires Queued(nodes, throttled)
    ensures forall j | 0 <= j < |throttled| :: IsThrottled(nodes, throttled[j])
    ensures forall i | IsThrottled(nodes, i) :: i in throttled
  {
    forall j | 0 <= j < |throttled| ensures IsThrottled(nodes, throttled[j]) {
      assert throttled[j] in multiset(throttled);
      assert multiset(throttled)[throttled[j]] == Occurs(nodes, throttled[j]);
    }
    forall i | IsThrottled(nodes, i) ensures i in throttled {
      assert multiset(throttled)[i] == Occurs(nodes, i);
      assert i in multiset(throttled);
    }
  }

  function Unthrottled(p: Policy): Policy {
    if p.RateLimit? then p.(meter := p.meter.(throttle := 0)) else p
  }

  function Lifted(nodes: seq<Node>, i: int): (r: seq<Node>)
    requires 0 <= i < |nodes|
    ensures |r| == |nodes|
  {
    Replaced(nodes, i, Unthrottled(nodes[i].policy))
  }

  lemma LiftKeeps(nodes: seq<Node>, rank: seq<nat>, blocked: seq<bool>, throttled: seq<int>, k: nat, tsc: nat)
    requires Forest(nodes, rank) && AllCached(nodes, blocked) && Queued(nodes, throttled) && AllMetered(nodes, tsc)
    requires k < |throttled| && IsThrottled(nodes, throttled[k]) && Expiry(nodes, throttled[k]) < tsc
    ensures var i := throttled[k];
      var lifted := Lifted(nodes, i);
      && Forest(lifted, rank) && CachedBut(lifted, blocked, i) && AllMetered(lifted, tsc)
      && Queued(lifted, throttled[..k] + throttled[k + 1..])
      && Rising(lifted[i].policy, blocked[i], blocked)
  {
    var i := throttled[k];
    var lifted := Lifted(nodes, i);
    ReplacedKeepsForest(nodes, rank, i, Unthrottled(nodes[i].policy));
    assert CachedAt(nodes, blocked, i);
    forall j | 0 <= j < |nodes| && j != i ensures CachedAt(lifted, blocked, j) {
      assert CachedAt(nodes, blocked, j);
    }
    LiftMetered(nodes, i, tsc);
    LiftQueued(nodes, throttled, k);
  }

  lemma LiftMetered(nodes: seq<Node>, i: int, tsc: nat)
    requires AllMetered(nodes, tsc) && IsThrottled(nodes, i) && Expiry(nodes, i) < tsc
    ensures AllMetered(Lifted(nodes, i), tsc)
  {
    forall j | 0 <= j < |nodes| ensures MeteredAt(Lifted(nodes, i), j, tsc) {
      assert MeteredAt(nodes, j, tsc);
      if j == i { TimeKeeps(nodes[i].policy.meter, tsc, tsc); }
    }
  }

  lemma LiftQueued(nodes: seq<Node>, throttled: seq<int>, k: nat)
    requires Queued(nodes, throttled) && k < |throttled| && IsThrottled(nodes, throttled[k])
    ensures Queued(Lifted(nodes, throttled[k]), throttled[..k] + throttled[k + 1..])
  {
    var i := throttled[k];
    EraseAt(throttled, k);
    forall j ensures multiset(throttled[..k] + throttled[k + 1..])[j] == Occurs(Lifted(nodes, i), j) {
      assert multiset(throttled)[j] == Occurs(nodes, j);
    }
  }

  lemma TimePasses(nodes: seq<Node>, clock: nat, tsc: nat)
    requires AllMetered(nodes, clock) && clock <= tsc
    ensures AllMetered(nodes, tsc)
  {
    forall i | 0 <= i < |nodes| ensures MeteredAt(nodes, i, tsc) {
      assert MeteredAt(nodes, i, clock);
      if nodes[i].policy.RateLimit? { TimeKeeps(nodes[i].policy.meter, clock, tsc); }
    }
  }

  /** Class `i` is the same but for its cache, and for its throttle if that has expired. */
  ghost predicate PerhapsResumed(a: seq<Node>, b: seq<Node>, i: int, tsc: nat) {
    && 0 <= i < |a| == |b|
    && a[i].parent == b[i].parent
    && (Alike(a[i].policy, b[i].policy) || (Expiry(a, i) < tsc && Alike(Unthrottled(a[i].policy), b[i].policy)))
  }

  ghost predicate SomeResumed(a: seq<Node>, b: seq<Node>, tsc: nat) {
    |a| == |b| && forall i | 0 <= i < |a| :: PerhapsResumed(a, b, i, tsc)
  }

  /** Class `i` is the same but for its cache, and its throttle is lifted exactly if it has expired. */
  ghost predicate Resumed(a: seq<Node>, b: seq<Node>, i: int, tsc: nat) {
    && 0 <= i < |a| == |b|
    && a[i].parent == b[i].parent
    && Alike(if Expiry(a, i) < tsc then Unthrottled(a[i].policy) else a[i].policy, b[i].policy)
  }

  ghost predicate AllResumed(a: seq<Node>, b: seq<Node>, tsc: nat) {
    |a| == |b| && forall i | 0 <= i < |a| :: Resumed(a, b, i, tsc)
  }

  lemma SomeResumedRefl(a: seq<Node>, tsc: nat)
    ensures SomeResumed(a, a, tsc)
  {
    forall i | 0 <= i < |a| ensures PerhapsResumed(a, a, i, tsc) {
    }
  }

  lemma OneMoreResumed(a: seq<Node>, b: seq<Node>, c: seq<Node>, i: int, tsc: nat)
    requires SomeResumed(a, b, tsc) && IsThrottled(b, i) && Expiry(b, i) < tsc
    requires AllAlike(Lifted(b, i), c)
    ensures SomeResumed(a, c, tsc)
  {
    forall j | 0 <= j < |a| ensures PerhapsResumed(a, c, j, tsc) {
      assert PerhapsResumed(a, b, j, tsc);
      assert AlikeAt(Lifted(b, i), c, j);
    }
  }

  lemma LeavesStillKeep(a: seq<Node>, b: seq<Node>, f: seq<bool>, g: seq<bool>, h: seq<bool>, tsc: nat)
    requires SomeResumed(a, b, tsc) && LeavesKeep(a, f, g, NONE) && LeavesKeep(b, g, h, NONE)
    ensures LeavesKeep(a, f, h, NONE)
  {
    forall i | 0 <= i < |a| && a[i].policy.Leaf? ensures f[i] == h[i] {
      assert PerhapsResumed(a, b, i, tsc);
    }
  }

  /** When nothing left in the queue has expired, every expired throttle has been lifted. */
  lemma ResumedAll(a: seq<Node>, b: seq<Node>, throttled: seq<int>, tsc: nat)
    requires SomeResumed(a, b, tsc) && forall i | IsThrottled(b, i) :: i in throttled
    requires forall j | 0 <= j < |throttled| :: Expiry(b, throttled[j]) >= tsc
    ensures AllResumed(a, b, tsc)
  {
    forall i | 0 <= i < |a| ensures Resumed(a, b, i, tsc) {
      assert PerhapsResumed(a, b, i, tsc);
      assert IsThrottled(b, i) ==> Expiry(b, i) >= tsc;
    }
  }

  // ------------------------------------------------------------ running

  /** Descending from a chosen class to the child it picks stays on the chosen path. */
  lemma {:induction false} DescendChosen(nodes: seq<Node>, rank: seq<nat>, blocked: seq<bool>, root: int, i: int)
    requires Forest(nodes, rank) && AllCached(nodes, blocked) && 0 <= i < |nodes| && 0 <= root < |nodes|
    requires Chosen(nodes, rank, blocked, root, i) && !nodes[i].policy.Leaf?
    ensures var c := Pick(nodes[i].policy);
      Linked(nodes, rank, i, c) && Chosen(nodes, rank, blocked, root, c)
  {
    var c := Pick(nodes[i].policy);
    assert CachedAt(nodes, blocked, i);
    PickIsReady(nodes[i].policy, blocked);
    assert IsKid(nodes, i, c);
    assert Linked(nodes, rank, i, c);
  }

  /** Classes on the way from `i` to the root are finished with, the others are untouched. */
  ghost predicate PathCharged(a: seq<Node>, b: seq<Node>, f: seq<bool>, g: seq<bool>, rank: seq<nat>, i: int, usage: Usage, tsc: nat)
    requires Forest(a, rank) && 0 <= i < |a|
  {
    && |a| == |b| == |f| == |g|
    && forall j | 0 <= j < |a| :: ChargedAt(a, b, f, g, j, Above(a, rank, i, j), usage, tsc)
  }

  /** Leaf `l` has run: the classes above it are finished with, the others are untouched. */
  ghost predicate Ran(a: seq<Node>, b: seq<Node>, f: seq<bool>, g: seq<bool>, rank: seq<nat>, l: int, usage: Usage, tsc: nat)
    requires Forest(a, rank)
  {
    && 0 <= l < |a| && 0 <= a[l].parent < |a|
    && PathCharged(a, b, f, g, rank, a[l].parent, usage, tsc)
  }

  ghost predicate ChargedAt(a: seq<Node>, b: seq<Node>, f: seq<bool>, g: seq<bool>, j: int, above: bool, usage: Usage, tsc: nat) {
    && 0 <= j < |a| == |b| == |f| == |g|
    && a[j].parent == b[j].parent
    && if above then Finished(a[j].policy, b[j].policy, Sleeps(g, Pick(a[j].policy)), usage, tsc)
       else a[j] == b[j] && f[j] == g[j]
  }

  lemma {:induction false} AboveFrame(nodes: seq<Node>, rank: seq<nat>, i: int, q: Policy, l: int, j: int)
    requires Forest(nodes, rank) && 0 <= i < |nodes| && 0 <= l < |nodes| && Kids(q) == Kids(nodes[i].policy)
    ensures Forest(Replaced(nodes, i, q), rank)
    ensures Above(Replaced(nodes, i, q), rank, l, j) == Above(nodes, rank, l, j)
    decreases Gap(Top(rank), rank[l])
  {
    ReplacedKeepsForest(nodes, rank, i, q);
    if nodes[l].parent != NONE {
      ParentLinked(nodes, rank, l);
      AboveFrame(nodes, rank, i, q, nodes[l].parent, j);
    }
  }

  lemma {:induction false} AboveRanks(nodes: seq<Node>, rank: seq<nat>, i: int, j: int)
    requires Forest(nodes, rank) && 0 <= i < |nodes| && Above(nodes, rank, i, j)
    ensures 0 <= j < |nodes| && rank[i] <= rank[j]
    decreases Gap(Top(rank), rank[i])
  {
    if i != j {
      ParentLinked(nodes, rank, i);
      AboveRanks(nodes, rank, nodes[i].parent, j);
    }
  }

  /** The child class `i` picks ranks below it. */
  ghost predicate Below(nodes: seq<Node>, rank: seq<nat>, i: int) {
    0 <= i < |nodes| && Linked(nodes, rank, i, Pick(nodes[i].policy))
  }

  /** Charging `i` and then everything above it charges the path from `i`. */
  lemma PathGrows(a: seq<Node>, done: seq<Node>, f: seq<bool>, h: seq<bool>, rank: seq<nat>, i: int, q: Policy, flag: bool, usage: Usage, tsc: nat)
    requires Forest(a, rank) && 0 <= i < |a| == |f| && a[i].parent != NONE && Kids(q) == Kids(a[i].policy)
    requires Below(a, rank, i) && Finished(a[i].policy, q, Sleeps(f, Pick(a[i].policy)), usage, tsc)
    requires Forest(Replaced(a, i, q), rank) && 0 <= a[i].parent < |a|
    requires PathCharged(Replaced(a, i, q), done, f[i := flag], h, rank, a[i].parent, usage, tsc)
    ensures PathCharged(a, done, f, h, rank, i, usage, tsc)
  {
    var b, p := Replaced(a, i, q), a[i].parent;
    ParentLinked(a, rank, i);
    forall j | 0 <= j < |a| ensures ChargedAt(a, done, f, h, j, Above(a, rank, i, j), usage, tsc) {
      AboveFrame(a, rank, i, q, p, j);
      var c := Pick(a[i].policy);
      assert ChargedAt(b, done, f[i := flag], h, c, Above(b, rank, p, c), usage, tsc);
      if Above(b, rank, p, c) { AboveRanks(b, rank, p, c); }
      assert ChargedAt(b, done, f[i := flag], h, j, Above(b, rank, p, j), usage, tsc);
      if j == i && Above(b, rank, p, i) { AboveRanks(b, rank, p, i); }
    }
  }

  lemma PathEnds(a: seq<Node>, f: seq<bool>, rank: seq<nat>, i: int, q: Policy, flag: bool, usage: Usage, tsc: nat)
    requires Forest(a, rank) && 0 <= i < |a| == |f| && a[i].parent == NONE
    requires Below(a, rank, i) && Finished(a[i].policy, q, Sleeps(f, Pick(a[i].policy)), usage, tsc)
    ensures PathCharged(a, Replaced(a, i, q), f, f[i := flag], rank, i, usage, tsc)
  {
    var b, g, c := Replaced(a, i, q), f[i := flag], Pick(a[i].policy);
    assert c != i && Sleeps(g, c) == Sleeps(f, c);
    assert ChargedAt(a, b, f, g, i, true, usage, tsc);
    forall j | 0 <= j < |a| ensures ChargedAt(a, b, f, g, j, Above(a, rank, i, j), usage, tsc) {
      assert Above(a, rank, i, j) <==> j == i;
      assert j != i ==> b[j] == a[j] && f[j] == g[j];
    }
  }

  /** The queue after class `i` has been charged. */
  function Enqueued(throttled: seq<int>, i: int, q: Policy): seq<int> {
    if q.RateLimit? && q.meter.throttle != 0 then throttled + [i] else throttled
  }

  lemma ChargeKeeps(nodes: seq<Node>, throttled: seq<int>, i: int, q: Policy, childBlocked: bool, usage: Usage, tsc: nat)
    requires Queued(nodes, throttled) && AllMetered(nodes, tsc) && 0 <= i < |nodes| && tsc > 0
    requires !Throttled(nodes[i]) && Finished(nodes[i].policy, q, childBlocked, usage, tsc)
    ensures Queued(Replaced(nodes, i, q), Enqueued(throttled, i, q))
    ensures AllMetered(Replaced(nodes, i, q), tsc)
  {
    var b := Replaced(nodes, i, q);
    forall j | 0 <= j < |b| ensures MeteredAt(b, j, tsc) {
      assert MeteredAt(nodes, j, tsc);
      if j == i && q.RateLimit? { SettleKeeps(nodes[i].policy.meter, usage.Of(nodes[i].policy.resource), tsc); }
    }
    forall j ensures multiset(Enqueued(throttled, i, q))[j] == Occurs(b, j) {
      assert multiset(throttled)[j] == Occurs(nodes, j);
    }
  }

  // ------------------------------------------------------------ building

  /** Class `c` has been hung under class `p`; nothing else has changed but caches. */
  ghost predicate Hung(a: seq<Node>, b: seq<Node>, p: int, c: int) {
    && |a| == |b| && 0 <= p < |a| && 0 <= c < |a| && p != c
    && b[c].parent == p && Alike(a[c].policy, b[c].policy)
    && b[p].parent == a[p].parent && Kids(b[p].policy) == Kids(a[p].policy) + multiset{c}
    && forall j | 0 <= j < |a| && j != p && j != c :: AlikeAt(a, b, j)
  }

  ghost predicate Gained(p: Policy, q: Policy, d: PriorityChild) {
    p.Priority? && q.Priority? && Ascending(q.kids) && multiset(q.kids) == multiset(p.kids) + multiset{d}
  }

  /** Weighted class `q` is `p` with `c` added: the stride of its share, the pass of the top, and
      queued or held by its flag. */
  ghost predicate Shared(p: Policy, q: Policy, share: nat, c: int, held: bool)
    requires share > 0
  {
    p.Weighted? && q.Weighted? && q.resource == p.resource &&
    var s := Share(STRIDE1 / share, StartingPass(p.heap), c);
    && q.held == (if held then p.held + [s] else p.held)
    && multiset(q.heap) == multiset(p.heap) + (if held then multiset{} else multiset{s})
  }

  /** Round-robin class `q` is `p` with `c` at the tail of the list its flag says. */
  ghost predicate Turned(p: Policy, q: Policy, c: int, asleep: bool) {
    p.RoundRobin? && q == if asleep then p.(asleep := p.asleep + [c]) else p.(ready := p.ready + [c])
  }

  lemma JoinedKeeps(nodes: seq<Node>, throttled: seq<int>, clock: nat, p: int, c: int, q: Policy)
    requires Queued(nodes, throttled) && AllMetered(nodes, clock)
    requires 0 <= p < |nodes| && 0 <= c < |nodes| && p != c
    requires nodes[p].policy.RateLimit? <==> q.RateLimit?
    requires q.RateLimit? ==> q.meter == nodes[p].policy.meter
    ensures Queued(Joined(nodes, p, c, q), throttled) && AllMetered(Joined(nodes, p, c, q), clock)
  {
    var r := Joined(nodes, p, c, q);
    forall i ensures multiset(throttled)[i] == Occurs(r, i) {
      assert multiset(throttled)[i] == Occurs(nodes, i);
    }
    forall i | 0 <= i < |r| ensures MeteredAt(r, i, clock) {
      assert MeteredAt(nodes, i, clock);
    }
  }

  lemma HungByAlike(a: seq<Node>, b: seq<Node>, p: int, c: int, q: Policy)
    requires 0 <= p < |a| && 0 <= c < |a| && p != c
    requires Kids(q) == Kids(a[p].policy) + multiset{c}
    requires AllAlike(Joined(a, p, c, q), b)
    ensures Hung(a, b, p, c) && Alike(q, b[p].policy)
  {
    assert AlikeAt(Joined(a, p, c, q), b, p) && AlikeAt(Joined(a, p, c, q), b, c);
    forall j | 0 <= j < |a| && j != p && j != c ensures AlikeAt(a, b, j) {
      assert AlikeAt(Joined(a, p, c, q), b, j);
    }
  }

  lemma LeavesOfJoined(nodes: seq<Node>, p: int, c: int, q: Policy, f: seq<bool>, g: seq<bool>)
    requires 0 <= p < |nodes| && 0 <= c < |nodes| && p != c && !nodes[p].policy.Leaf?
    requires LeavesKeep(Joined(nodes, p, c, q), f, g, p)
    ensures LeavesKeep(nodes, f, g, NONE)
  {
    forall i | 0 <= i < |nodes| && nodes[i].policy.Leaf? ensures f[i] == g[i] {
      assert Joined(nodes, p, c, q)[i].policy == nodes[i].policy;
    }
  }

  lemma AlikeRefl(a: seq<Node>)
    ensures AllAlike(a, a)
  {
    forall i | 0 <= i < |a| ensures AlikeAt(a, a, i) {
    }
  }

  lemma GrownKeeps(nodes: seq<Node>, throttled: seq<int>, clock: nat, p: Policy)
    requires Queued(nodes, throttled) && AllMetered(nodes, clock) && Newborn(p)
    ensures Queued(nodes + [Node(NONE, p)], throttled) && AllMetered(nodes + [Node(NONE, p)], clock)
  {
    var r := nodes + [Node(NONE, p)];
    forall i ensures multiset(throttled)[i] == Occurs(r, i) {
      assert multiset(throttled)[i] == Occurs(nodes, i);
    }
    forall i | 0 <= i < |r| ensures MeteredAt(r, i, clock) {
      if i < |nodes| { assert MeteredAt(nodes, i, clock); }
    }
  }

  ghost predicate RemovedAt(a: seq<Node>, b: seq<Node>, l: int, t: nat, k: int) {
    && 0 <= l < |a| && a[l].policy.Leaf?
    && var tasks := a[l].policy.tasks;
    && 0 <= k < |tasks| && tasks[k] == t && t !in tasks[..k]
    && b == Replaced(a, l, Leaf(tasks[..k] + tasks[k + 1..]))
  }

  lemma TaskKeeps(nodes: seq<Node>, rank: seq<nat>, blocked: seq<bool>, throttled: seq<int>, clock: nat, l: int, tasks: seq<nat>)
    requires Forest(nodes, rank) && AllCached(nodes, blocked) && Queued(nodes, throttled) && AllMetered(nodes, clock)
    requires 0 <= l < |nodes| && nodes[l].policy.Leaf?
    ensures var r := Replaced(nodes, l, Leaf(tasks));
      && Forest(r, rank) && CachedBut(r, blocked, l) && Queued(r, throttled) && AllMetered(r, clock)
      && (tasks == [] || !blocked[l] ==> AllCached(r, blocked))
  {
    var r := Replaced(nodes, l, Leaf(tasks));
    ReplacedKeepsForest(nodes, rank, l, Leaf(tasks));
    forall j | 0 <= j < |nodes| && (j != l || tasks == [] || !blocked[l]) ensures CachedAt(r, blocked, j) {
      assert CachedAt(nodes, blocked, j);
    }
    forall i ensures multiset(throttled)[i] == Occurs(r, i) {
      assert multiset(throttled)[i] == Occurs(nodes, i);
    }
    forall i | 0 <= i < |r| ensures MeteredAt(r, i, clock) {
      assert MeteredAt(nodes, i, clock);
    }
  }

  class Scheduler {
    var nodes: seq<Node>
    var blocked: seq<bool>
    var throttled: seq<int>
    var clock: nat
    const root: int
    ghost var rank: seq<nat>

    /** What holds between operations. */
    ghost predicate Valid()
      reads this
    {
      && Forest(nodes, rank)
      && AllCached(nodes, blocked)
      && Queued(nodes, throttled)
      && AllMetered(nodes, clock)
      && 0 <= root < |nodes| && nodes[root].parent == NONE && !nodes[root].policy.Leaf?
    }

    // ---------------------------------------------------------- building

    constructor (p: Policy, ghost r: nat)
      requires Newborn(p) && !p.Leaf?
      ensures Valid() && nodes == [Node(NONE, p)] && blocked == [true] && throttled == [] && clock == 0
    {
      nodes, blocked, throttled, clock, root := [Node(NONE, p)], [true], [], 0, 0;
      rank := [r];
      new;
      assert Forest([], []) && AllCached([], []) && Queued([], []) && AllMetered([], 0);
      GrownIsForest([], [], p, r);
      GrownIsCached([], [], [], p);
      GrownKeeps([], [], 0, p);
      assert [] + [Node(NONE, p)] == nodes && [] + [true] == blocked && [] + [r] == rank;
    }

    /** A new class, blocked and not yet in the tree. Its rank says under which classes it may be
        hung, so that no class can come to lie under itself. */
    method Create(p: Policy, ghost r: nat) returns (i: int)
      requires Valid() && Newborn(p)
      modifies this`nodes, this`blocked, this`rank
      ensures Valid() && i == |old(nodes)|
      ensures nodes == old(nodes) + [Node(NONE, p)] && blocked == old(blocked) + [true] && rank == old(rank) + [r]
    {
      GrownIsForest(nodes, rank, p, r);
      GrownIsCached(nodes, rank, blocked, p);
      GrownKeeps(nodes, throttled, clock, p);
      i := |nodes|;
      nodes, blocked, rank := nodes + [Node(NONE, p)], blocked + [true], rank + [r];
    }

    ghost predicate MayHang(p: int, c: int)
      requires Valid()
      reads this
    {
      0 <= p < |nodes| && 0 <= c < |nodes| && c != root && rank[c] < rank[p]
    }

    /** Hangs `c` under `p`, whose policy becomes `q`, and unblocks towards the root. */
    method Hang(p: int, c: int, q: Policy)
      requires Valid() && MayHang(p, c) && nodes[c].parent == NONE
      requires Joins(nodes[p].policy, q, c, blocked[p], blocked)
      modifies this`nodes, this`blocked
      ensures Valid() && Hung(old(nodes), nodes, p, c)
      ensures Alike(q, nodes[p].policy) && Rechecked(q, nodes[p].policy, old(blocked), clock)
      ensures LeavesKeep(old(nodes), old(blocked), blocked, NONE)
    {
      ghost var joined := Joined(nodes, p, c, q);
      JoinedIsForest(nodes, rank, p, c, q);
      JoinedIsCached(nodes, blocked, p, c, q);
      JoinedKeeps(nodes, throttled, clock, p, c, q);
      nodes := Joined(nodes, p, c, q);
      UnblockTowardsRoot(p, clock);
      AlikeKeeps(joined, nodes, throttled, clock);
      HungByAlike(old(nodes), nodes, p, c, q);
      LeavesOfJoined(old(nodes), p, c, q, old(blocked), blocked);
      assert AlikeAt(joined, nodes, root);
    }

    /** Hangs a blocked child where nothing needs unblocking. */
    method HangBlocked(p: int, c: int, q: Policy)
      requires Valid() && MayHang(p, c) && nodes[c].parent == NONE
      requires Joins(nodes[p].policy, q, c, blocked[p], blocked) && Cached(q, blocked[p], blocked)
      modifies this`nodes
      ensures Valid() && Hung(old(nodes), nodes, p, c) && nodes[p].policy == q
    {
      JoinedIsForest(nodes, rank, p, c, q);
      JoinedIsCached(nodes, blocked, p, c, q);
      JoinedKeeps(nodes, throttled, clock, p, c, q);
      AlikeRefl(Joined(nodes, p, c, q));
      HungByAlike(nodes, Joined(nodes, p, c, q), p, c, q);
      nodes := Joined(nodes, p, c, q);
    }

    /** Refuses a child that has a parent or whose priority is taken; otherwise adds it. */
    method AddPriorityChild(p: int, c: int, priority: nat) returns (ok: bool)
      requires Valid() && MayHang(p, c) && nodes[p].policy.Priority?
      modifies this`nodes, this`blocked
      ensures Valid() && ok == old(nodes[c].parent == NONE && !HasPriority(nodes[p].policy.kids, priority))
      ensures !ok ==> unchanged(this)
      ensures ok ==> Hung(old(nodes), nodes, p, c) && LeavesKeep(old(nodes), old(blocked), blocked, NONE)
      ensures ok ==> nodes[p].policy.Priority? && Gained(old(nodes[p].policy), nodes[p].policy, PriorityChild(priority, c))
    {
      ok := nodes[c].parent == NONE && !HasPriority(nodes[p].policy.kids, priority);
      if ok {
        assert CachedAt(nodes, blocked, p);
        var q := JoinPriority(nodes[p].policy, c, priority, blocked[p], blocked);
        Hang(p, c, q);
        assert CachedAt(nodes, blocked, p);
      }
    }

    method AddWeightedChild(p: int, c: int, share: nat) returns (ok: bool)
      requires Valid() && MayHang(p, c) && nodes[p].policy.Weighted? && share > 0
      modifies this`nodes, this`blocked
      ensures Valid() && ok == old(nodes[c].parent == NONE)
      ensures !ok ==> unchanged(this)
      ensures ok ==> Hung(old(nodes), nodes, p, c) && LeavesKeep(old(nodes), old(blocked), blocked, NONE)
      ensures ok ==> Shared(old(nodes[p].policy), nodes[p].policy, share, c, old(blocked[c]))
    {
      ok := nodes[c].parent == NONE;
      if ok {
        assert CachedAt(nodes, blocked, p);
        var q := JoinWeighted(nodes[p].policy, c, share, blocked[p], blocked);
        if blocked[c] {
          HangBlocked(p, c, q);
        } else {
          Hang(p, c, q);
          NobodyWakes(q, nodes[p].policy, old(blocked), clock);
        }
      }
    }

    method AddRoundRobinChild(p: int, c: int) returns (ok: bool)
      requires Valid() && MayHang(p, c) && nodes[p].policy.RoundRobin?
      modifies this`nodes, this`blocked
      ensures Valid() && ok == old(nodes[c].parent == NONE)
      ensures !ok ==> unchanged(this)
      ensures ok ==> Hung(old(nodes), nodes, p, c) && LeavesKeep(old(nodes), old(blocked), blocked, NONE)
      ensures ok ==> Turned(old(nodes[p].policy), nodes[p].policy, c, old(blocked[c]))
    {
      ok := nodes[c].parent == NONE;
      if ok {
        assert CachedAt(nodes, blocked, p);
        var q := JoinRoundRobin(nodes[p].policy, c, blocked[p], blocked);
        Hang(p, c, q);
        NobodyTurns(q, nodes[p].policy, old(blocked), clock);
      }
    }

    /** A limiter takes one child. */
    method AddLimitedChild(p: int, c: int) returns (ok: bool)
      requires Valid() && MayHang(p, c) && nodes[p].policy.RateLimit?
      modifies this`nodes, this`blocked
      ensures Valid() && ok == old(nodes[c].parent == NONE && nodes[p].policy.child < 0)
      ensures !ok ==> unchanged(this)
      ensures ok ==> Hung(old(nodes), nodes, p, c) && LeavesKeep(old(nodes), old(blocked), blocked, NONE)
    {
      ok := nodes[c].parent == NONE && nodes[p].policy.child < 0;
      if ok {
        assert CachedAt(nodes, blocked, p);
        Hang(p, c, nodes[p].policy.(child := c));
      }
    }

    /** A leaf with a task is not blocked; its ancestors are told. */
    method AddTask(l: int, t: nat)
      requires Valid() && 0 <= l < |nodes| && nodes[l].policy.Leaf?
      modifies this`nodes, this`blocked
      ensures Valid() && |nodes| == |blocked| == |old(nodes)| && !blocked[l]
      ensures AllAlike(Replaced(old(nodes), l, Leaf(old(nodes[l].policy.tasks) + [t])), nodes)
      ensures LeavesKeep(old(nodes), old(blocked), blocked, l)
    {
      var tasks := nodes[l].policy.tasks + [t];
      ghost var r := Replaced(nodes, l, Leaf(tasks));
      TaskKeeps(nodes, rank, blocked, throttled, clock, l, tasks);
      nodes := nodes[l := nodes[l].(policy := Leaf(tasks))];
      UnblockTowardsRoot(l, clock);
      AlikeKeeps(r, nodes, throttled, clock);
      assert AlikeAt(r, nodes, root) && AlikeAt(r, nodes, l);
      assert CachedAt(nodes, blocked, l);
    }

    /** Takes out the first occurrence of a task. No flag changes, so a leaf that loses its last
        task stays unblocked. */
    method RemoveTask(l: int, t: nat) returns (ok: bool)
      requires Valid() && 0 <= l < |nodes| && nodes[l].policy.Leaf?
      modifies this`nodes
      ensures Valid() && ok == (t in old(nodes[l].policy.tasks))
      ensures !ok ==> unchanged(this)
      ensures ok ==> exists k :: 0 <= k < |old(nodes[l].policy.tasks)| && RemovedAt(old(nodes), nodes, l, t, k)
    {
      var tasks := nodes[l].policy.tasks;
      var k := 0;
      while k < |tasks| && tasks[k] != t
        invariant 0 <= k <= |tasks| && t !in tasks[..k]
      {
        k := k + 1;
      }
      ok := k < |tasks|;
      if ok {
        assert CachedAt(nodes, blocked, l);
        TaskKeeps(nodes, rank, blocked, throttled, clock, l, tasks[..k] + tasks[k + 1..]);
        nodes := Replaced(nodes, l, Leaf(tasks[..k] + tasks[k + 1..]));
        assert RemovedAt(old(nodes), nodes, l, t, k);
      }
    }

    // ---------------------------------------------------------- unblocking

    /** The cached data of every class is right again, and no class but the leaf `i` has
        changed in anything but its cache. */
    method UnblockTowardsRoot(i: int, tsc: nat)
      requires Forest(nodes, rank) && 0 <= i < |nodes| && CachedBut(nodes, blocked, i)
      requires Rising(nodes[i].policy, blocked[i], blocked)
      modifies this`nodes, this`blocked
      ensures Forest(nodes, rank) && AllCached(nodes, blocked)
      ensures AllAlike(old(nodes), nodes) && LeavesKeep(old(nodes), old(blocked), blocked, i)
      ensures LowerKept(old(nodes), nodes, rank, rank[i])
      ensures Rechecked(old(nodes[i].policy), nodes[i].policy, old(blocked), tsc)
      decreases Gap(Top(rank), rank[i])
    {
      KidsAreIn(nodes, rank, blocked, i);
      var q, nowBlocked := Recheck(nodes[i].policy, blocked[i], blocked, tsc);
      var becameUnblocked := !nowBlocked && blocked[i];
      OnlyParentOdd(nodes, rank, blocked, i, q, nowBlocked);
      ReplacedKeepsForest(nodes, rank, i, q);
      ReplacedAlike(nodes, i, q);
      if nodes[i].parent != NONE && becameUnblocked {
        UnblockParent(i, q, tsc);
      } else {
        nodes, blocked := Replaced(nodes, i, q), blocked[i := nowBlocked];
      }
    }

    /** The recursive call: class `i` has just become unblocked. */
    method UnblockParent(i: int, q: Policy, tsc: nat)
      requires Forest(nodes, rank) && 0 <= i < |nodes| && CachedBut(nodes, blocked, i)
      requires nodes[i].parent != NONE && blocked[i]
      requires Alike(nodes[i].policy, q) && AllAlike(nodes, Replaced(nodes, i, q))
      requires Forest(Replaced(nodes, i, q), rank)
      requires CachedBut(Replaced(nodes, i, q), blocked[i := false], nodes[i].parent)
      modifies this`nodes, this`blocked
      ensures Forest(nodes, rank) && AllCached(nodes, blocked)
      ensures AllAlike(old(nodes), nodes) && LeavesKeep(old(nodes), old(blocked), blocked, i)
      ensures LowerKept(old(nodes), nodes, rank, rank[i]) && nodes[i].policy == q
      decreases Gap(Top(rank), rank[i]), 0
    {
      ghost var nodes0 := nodes;
      ParentRises(nodes, rank, blocked, i);
      ParentLinked(nodes, rank, i);
      var p := nodes[i].parent;
      nodes, blocked := Replaced(nodes, i, q), blocked[i := false];
      ghost var nodes1 := nodes;
      UnblockTowardsRoot(p, tsc);
      AlikeTransitive(nodes0, nodes1, nodes);
      LowerKeptFirst(nodes0, nodes, rank, i, p, q);
    }

    // ---------------------------------------------------------- throttling

    /** The top of the throttled queue: the earliest expiration. */
    method Earliest() returns (k: nat)
      requires Queued(nodes, throttled) && throttled != []
      ensures k < |throttled|
      ensures forall j | 0 <= j < |throttled| :: IsThrottled(nodes, throttled[j])
      ensures forall j | 0 <= j < |throttled| :: Expiry(nodes, throttled[k]) <= Expiry(nodes, throttled[j])
    {
      InQueue(nodes, throttled);
      k := 0;
      for n := 1 to |throttled|
        invariant k < |throttled|
        invariant forall j | 0 <= j < n :: Expiry(nodes, throttled[k]) <= Expiry(nodes, throttled[j])
      {
        if Expiry(nodes, throttled[n]) < Expiry(nodes, throttled[k]) {
          k := n;
        }
      }
    }

    /** Takes class `throttled[k]` out of the queue and lifts its throttle. */
    method LiftThrottle(k: nat, tsc: nat)
      requires Forest(nodes, rank) && AllCached(nodes, blocked) && Queued(nodes, throttled) && AllMetered(nodes, tsc)
      requires k < |throttled| && IsThrottled(nodes, throttled[k]) && Expiry(nodes, throttled[k]) < tsc
      modifies this`nodes, this`blocked, this`throttled
      ensures Forest(nodes, rank) && AllCached(nodes, blocked) && Queued(nodes, throttled) && AllMetered(nodes, tsc)
      ensures |throttled| == old(|throttled|) - 1
      ensures AllAlike(Lifted(old(nodes), old(throttled[k])), nodes)
      ensures LeavesKeep(old(nodes), old(blocked), blocked, NONE)
    {
      var i := throttled[k];
      ghost var lifted := Lifted(nodes, i);
      LiftKeeps(nodes, rank, blocked, throttled, k, tsc);
      nodes := nodes[i := nodes[i].(policy := Unthrottled(nodes[i].policy))];
      throttled := throttled[..k] + throttled[k + 1..];
      UnblockTowardsRoot(i, tsc);
      AlikeKeeps(lifted, nodes, throttled, tsc);
    }

    /** Every limiter whose expiration has passed is released, every other keeps its throttle. */
    method ResumeThrottled(tsc: nat)
      requires Valid() && clock <= tsc
      modifies this`nodes, this`blocked, this`throttled, this`clock
      ensures Valid() && clock == tsc
      ensures AllResumed(old(nodes), nodes, tsc) && LeavesKeep(old(nodes), old(blocked), blocked, NONE)
    {
      TimePasses(nodes, clock, tsc);
      clock := tsc;
      ghost var start := nodes;
      SomeResumedRefl(nodes, tsc);
      while throttled != []
        invariant Forest(nodes, rank) && AllCached(nodes, blocked) && Queued(nodes, throttled) && AllMetered(nodes, tsc)
        invariant clock == tsc && SomeResumed(start, nodes, tsc) && LeavesKeep(start, old(blocked), blocked, NONE)
        decreases |throttled|
      {
        var k := Earliest();
        if Expiry(nodes, throttled[k]) >= tsc {
          break;
        }
        ghost var before, flags, i := nodes, blocked, throttled[k];
        LiftThrottle(k, tsc);
        LeavesStillKeep(start, before, old(blocked), flags, blocked, tsc);
        OneMoreResumed(start, before, nodes, i, tsc);
      }
      InQueue(nodes, throttled);
      ResumedAll(start, nodes, throttled, tsc);
      assert Resumed(start, nodes, root, tsc);
    }

    // ---------------------------------------------------------- running

    /** Returns a leaf exactly when some leaf is unblocked with no throttled class above it, and
        such a one, by the path of every class's own pick. */
    method Next(tsc: nat) returns (l: int)
      requires Valid() && clock <= tsc
      modifies this`nodes, this`blocked, this`throttled, this`clock
      ensures Valid() && clock == tsc
      ensures AllResumed(old(nodes), nodes, tsc) && LeavesKeep(old(nodes), old(blocked), blocked, NONE)
      ensures l == NONE <==> !exists m :: Eligible(nodes, rank, blocked, m, root)
      ensures l != NONE ==> Eligible(nodes, rank, blocked, l, root) && Chosen(nodes, rank, blocked, root, l)
    {
      ResumeThrottled(tsc);
      UnblockedIff(nodes, rank, blocked, root);
      if blocked[root] {
        return NONE;
      }
      l := Descend();
    }

    method Descend() returns (l: int)
      requires Valid() && !blocked[root]
      ensures Eligible(nodes, rank, blocked, l, root) && Chosen(nodes, rank, blocked, root, l)
    {
      l := root;
      while !nodes[l].policy.Leaf?
        invariant 0 <= l < |nodes| && Chosen(nodes, rank, blocked, root, l)
        decreases rank[l]
      {
        DescendChosen(nodes, rank, blocked, root, l);
        l := Pick(nodes[l].policy);
      }
      ChosenIsOpen(nodes, rank, blocked, root, l);
    }

    /** FinishAndAccountTowardsRoot at class `i` for its picked child `c`. */
    method Account(i: int, c: int, usage: Usage, tsc: nat)
      requires Forest(nodes, rank) && 0 <= i < |nodes| && CachedBut(nodes, blocked, i)
      requires Queued(nodes, throttled) && AllMetered(nodes, tsc) && tsc > 0
      requires 0 <= root < |nodes| && Chosen(nodes, rank, blocked, root, i)
      requires Falling(nodes[i].policy, blocked, c) && Below(nodes, rank, i)
      modifies this`nodes, this`blocked, this`throttled
      ensures Forest(nodes, rank) && AllCached(nodes, blocked)
      ensures Queued(nodes, throttled) && AllMetered(nodes, tsc)
      ensures PathCharged(old(nodes), nodes, old(blocked), blocked, rank, i, usage, tsc)
      decreases Gap(Top(rank), rank[i])
    {
      KidsAreIn(nodes, rank, blocked, i);
      assert MeteredAt(nodes, i, tsc);
      var q, nowBlocked := Finish(nodes[i].policy, blocked, c, usage, tsc);
      OnlyParentOdd(nodes, rank, blocked, i, q, nowBlocked);
      ReplacedKeepsForest(nodes, rank, i, q);
      ChargeKeeps(nodes, throttled, i, q, blocked[c], usage, tsc);
      if nodes[i].parent == NONE {
        AccountRoot(i, q, nowBlocked, usage, tsc);
      } else {
        AccountParent(i, q, nowBlocked, usage, tsc);
      }
    }

    method AccountRoot(i: int, q: Policy, nowBlocked: bool, usage: Usage, tsc: nat)
      requires Forest(nodes, rank) && 0 <= i < |nodes| == |blocked| && nodes[i].parent == NONE
      requires Below(nodes, rank, i) && Finished(nodes[i].policy, q, Sleeps(blocked, Pick(nodes[i].policy)), usage, tsc)
      modifies this`nodes, this`blocked, this`throttled
      ensures nodes == Replaced(old(nodes), i, q) && blocked == old(blocked)[i := nowBlocked]
      ensures throttled == Enqueued(old(throttled), i, q)
      ensures PathCharged(old(nodes), nodes, old(blocked), blocked, rank, i, usage, tsc)
    {
      PathEnds(nodes, blocked, rank, i, q, nowBlocked, usage, tsc);
      nodes, blocked, throttled := Replaced(nodes, i, q), blocked[i := nowBlocked], Enqueued(throttled, i, q);
    }

    method AccountParent(i: int, q: Policy, nowBlocked: bool, usage: Usage, tsc: nat)
      requires Forest(nodes, rank) && 0 <= i < |nodes| && CachedBut(nodes, blocked, i) && tsc > 0
      requires nodes[i].parent != NONE && Kids(q) == Kids(nodes[i].policy)
      requires Below(nodes, rank, i) && Finished(nodes[i].policy, q, Sleeps(blocked, Pick(nodes[i].policy)), usage, tsc)
      requires 0 <= root < |nodes| && Chosen(nodes, rank, blocked, root, i)
      requires CachedBut(Replaced(nodes, i, q), blocked[i := nowBlocked], nodes[i].parent)
      requires Forest(Replaced(nodes, i, q), rank)
      requires Queued(Replaced(nodes, i, q), Enqueued(throttled, i, q)) && AllMetered(Replaced(nodes, i, q), tsc)
      modifies this`nodes, this`blocked, this`throttled
      ensures Forest(nodes, rank) && AllCached(nodes, blocked)
      ensures Queued(nodes, throttled) && AllMetered(nodes, tsc)
      ensures PathCharged(old(nodes), nodes, old(blocked), blocked, rank, i, usage, tsc)
      decreases Gap(Top(rank), rank[i]), 0
    {
      var p := nodes[i].parent;
      ParentLinked(nodes, rank, i);
      ParentFalls(nodes, rank, blocked, root, i, q, nowBlocked);
      ChosenFrame(nodes, rank, blocked, root, i, p, q, nowBlocked);
      nodes, blocked, throttled := Replaced(nodes, i, q), blocked[i := nowBlocked], Enqueued(throttled, i, q);
      Account(p, i, usage, tsc);
      PathGrows(old(nodes), nodes, old(blocked), blocked, rank, i, q, nowBlocked, usage, tsc);
    }

    /** One turn of the scheduler: pick, run, account. `mid` and `flags` are the tree once expired
        throttles are lifted: a leaf that may run in it runs, if there is one, and the classes
        above that leaf are charged. */
    method ScheduleOnce(tsc: nat, usage: Usage) returns (l: int, ghost mid: seq<Node>, ghost flags: seq<bool>)
      requires Valid() && clock <= tsc && tsc > 0
      modifies this`nodes, this`blocked, this`throttled, this`clock
      ensures Valid() && clock == tsc
      ensures AllResumed(old(nodes), mid, tsc) && LeavesKeep(old(nodes), old(blocked), flags, NONE)
      ensures Forest(mid, rank) && AllCached(mid, flags) && root < |mid|
      ensures l == NONE <==> !exists m :: Eligible(mid, rank, flags, m, root)
      ensures l == NONE ==> nodes == mid && blocked == flags
      ensures l != NONE ==> Eligible(mid, rank, flags, l, root) && Ran(mid, nodes, flags, blocked, rank, l, usage, tsc)
    {
      l := Next(tsc);
      mid, flags := nodes, blocked;
      if l != NONE {
        FinishLeaf(l, usage, tsc);
      }
    }

    method FinishLeaf(l: int, usage: Usage, tsc: nat)
      requires Valid() && clock == tsc && tsc > 0
      requires Eligible(nodes, rank, blocked, l, root) && Chosen(nodes, rank, blocked, root, l)
      modifies this`nodes, this`blocked, this`throttled
      ensures Valid() && Ran(old(nodes), nodes, old(blocked), blocked, rank, l, usage, tsc)
    {
      var p := nodes[l].parent;
      ParentLinked(nodes, rank, l);
      assert CachedAt(nodes, blocked, p);
      assert blocked[l := false] == blocked;
      Account(p, l, usage, tsc);
      assert ChargedAt(old(nodes), nodes, old(blocked), blocked, root, Above(old(nodes), rank, p, root), usage, tsc);
    }
  }
}
