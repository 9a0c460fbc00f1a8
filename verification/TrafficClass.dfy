/** The classes of the scheduling tree and what each caches about its children:
    runtime/bessport/traffic_class.{h,cc}. Classes are numbered; a link is a number. */
module TrafficClass {
  const NONE: int := -1

  datatype Resource = Count | Cycle | Packet | Bit

  /** What one run used of each resource. */
  datatype Usage = Usage(count: nat, cycle: nat, packet: nat, bit: nat) {
    function Of(r: Resource): nat {
      match r
      case Count => count
      case Cycle => cycle
      case Packet => packet
      case Bit => bit
    }
  }

  datatype PriorityChild = PriorityChild(priority: nat, id: int)

  /** A child of a weighted-fair class: its stride and its pass. */
  datatype Share = Share(stride: nat, pass: int, id: int)

  /** The token bucket of a limiter. `since` and `charged` are history: the time of its first
      run and the amplified usage charged so far. */
  datatype Meter = Meter(limit: nat, maxBurst: nat, tokens: nat, throttle: nat, last: nat,
                         since: int, charged: nat)

  datatype Policy =
    | Leaf(tasks: seq<nat>)
    | Priority(kids: seq<PriorityChild>, first: nat)
    | Weighted(resource: Resource, heap: seq<Share>, held: seq<Share>)
    | RoundRobin(ready: seq<int>, asleep: seq<int>, next: nat)
    | RateLimit(resource: Resource, child: int, meter: Meter)

  datatype Node = Node(parent: int, policy: Policy)

  function PriorityIds(kids: seq<PriorityChild>): seq<int> {
    seq(|kids|, j requires 0 <= j < |kids| => kids[j].id)
  }

  function ShareIds(shares: seq<Share>): seq<int> {
    seq(|shares|, j requires 0 <= j < |shares| => shares[j].id)
  }

  /** The children of a class, with multiplicity. */
  function Kids(p: Policy): multiset<int> {
    match p
    case Leaf(_) => multiset{}
    case Priority(kids, _) => multiset(PriorityIds(kids))
    case Weighted(_, heap, held) => multiset(ShareIds(heap)) + multiset(ShareIds(held))
    case RoundRobin(ready, asleep, _) => multiset(ready) + multiset(asleep)
    case RateLimit(_, child, _) => if child >= 0 then multiset{child} else multiset{}
  }

  // ------------------------------------------------------------ cached data

  ghost predicate Flag(blocked: seq<bool>, c: int, value: bool) {
    0 <= c < |blocked| && blocked[c] == value
  }

  ghost predicate AllAre(ids: multiset<int>, blocked: seq<bool>, value: bool) {
    forall c | c in ids :: Flag(blocked, c, value)
  }

  ghost predicate Distinct(ids: multiset<int>) {
    forall c :: ids[c] <= 1
  }

  /** The parent position in a binary heap. */
  function Up(j: nat): (r: nat)
    requires j > 0
    ensures 2 * r + 1 <= j <= 2 * r + 2
  {
    (j - 1) / 2
  }

  ghost predicate IsHeap(v: seq<Share>) {
    forall j | 0 < j < |v| :: v[Up(j)].pass <= v[j].pass
  }

  ghost predicate Ascending(kids: seq<PriorityChild>) {
    forall j, k | 0 <= j < k < |kids| :: kids[j].priority < kids[k].priority
  }

  /** The first `n` children of a priority class are blocked. */
  ghost predicate BlockedBefore(kids: seq<PriorityChild>, n: nat, blocked: seq<bool>) {
    n <= |kids| && forall j | 0 <= j < n :: Flag(blocked, kids[j].id, true)
  }

  /** `first_runnable_` is the best-priority child that is not blocked, or the end. */
  ghost predicate FirstReady(kids: seq<PriorityChild>, first: nat, blocked: seq<bool>) {
    && BlockedBefore(kids, first, blocked)
    && (first < |kids| ==> Flag(blocked, kids[first].id, false))
  }

  ghost predicate ChildReady(child: int, blocked: seq<bool>) {
    child >= 0 && Flag(blocked, child, false)
  }

  /** What a class with flag `self` caches about its children's flags is true. */
  ghost predicate Cached(p: Policy, self: bool, blocked: seq<bool>) {
    match p
    case Leaf(tasks) => tasks != [] ==> !self
    case Priority(kids, first) =>
      && Ascending(kids)
      && FirstReady(kids, first, blocked)
      && self == (first == |kids|)
    case Weighted(_, heap, held) =>
      && IsHeap(heap)
      && AllAre(multiset(ShareIds(heap)), blocked, false)
      && AllAre(multiset(ShareIds(held)), blocked, true)
      && self == (heap == [])
    case RoundRobin(ready, asleep, next) =>
      && (next < |ready| || next == 0)
      && AllAre(multiset(ready), blocked, false)
      && AllAre(multiset(asleep), blocked, true)
      && self == (ready == [])
    case RateLimit(_, child, meter) =>
      && meter.limit > 0
      && (meter.throttle != 0 ==> child >= 0)
      && self == (meter.throttle != 0 || !ChildReady(child, blocked))
  }

  /** The cache of a class some of whose blocked children may have become unblocked. */
  ghost predicate Rising(p: Policy, self: bool, blocked: seq<bool>) {
    match p
    case Leaf(tasks) => tasks != []
    case Priority(kids, _) =>
      && Ascending(kids)
      && (!self ==> exists j | 0 <= j < |kids| :: Flag(blocked, kids[j].id, false))
    case Weighted(_, heap, _) =>
      IsHeap(heap) && AllAre(multiset(ShareIds(heap)), blocked, false) && (!self ==> heap != [])
    case RoundRobin(ready, _, next) =>
      && (next < |ready| || next == 0)
      && AllAre(multiset(ready), blocked, false)
      && (!self ==> ready != [])
    case RateLimit(_, child, meter) =>
      && meter.limit > 0 && child >= 0
      && (!self ==> meter.throttle == 0 && ChildReady(child, blocked))
  }

  /** The child a class would run next. */
  function Pick(p: Policy): int {
    match p
    case Leaf(_) => NONE
    case Priority(kids, first) => if first < |kids| then kids[first].id else NONE
    case Weighted(_, heap, _) => if heap != [] then heap[0].id else NONE
    case RoundRobin(ready, _, next) => if next < |ready| then ready[next] else NONE
    case RateLimit(_, child, _) => child
  }

  /** An unblocked interior class picks one of its unblocked children. */
  lemma PickIsReady(p: Policy, blocked: seq<bool>)
    requires Cached(p, false, blocked) && !p.Leaf?
    ensures Pick(p) >= 0 && Pick(p) in Kids(p) && Flag(blocked, Pick(p), false)
  {
    match p
    case Priority(kids, first) => assert PriorityIds(kids)[first] == Pick(p);
    case Weighted(_, heap, held) => assert ShareIds(heap)[0] in multiset(ShareIds(heap));
    case RoundRobin(ready, asleep, next) => assert ready[next] in multiset(ready);
    case RateLimit(_, child, meter) =>
  }

  /** At a priority class every child of better priority than the one picked is blocked. */
  lemma PickIsBest(p: Policy, blocked: seq<bool>, c: PriorityChild)
    requires Cached(p, false, blocked) && p.Priority? && c in p.kids && Flag(blocked, c.id, false)
    ensures p.first < |p.kids| && p.kids[p.first].priority <= c.priority
  {
    var j :| 0 <= j < |p.kids| && p.kids[j] == c;
    assert j >= p.first;
  }

  /** The flag of a class other than a leaf or a limiter is up exactly when all children's are. */
  lemma FlagByKids(p: Policy, self: bool, blocked: seq<bool>)
    requires Cached(p, self, blocked) && !p.Leaf? && !p.RateLimit?
    ensures self <==> AllAre(Kids(p), blocked, true)
  {
    if self {
      match p
      case Priority(kids, first) =>
        forall c | c in Kids(p) ensures Flag(blocked, c, true) {
          var j :| 0 <= j < |kids| && PriorityIds(kids)[j] == c;
        }
      case Weighted(_, heap, held) => assert ShareIds(heap) == [];
      case RoundRobin(ready, asleep, next) =>
    } else {
      PickIsReady(p, blocked);
    }
  }

  /** Two settings of the flags agree on some children. */
  ghost predicate SameFlags(ids: multiset<int>, blocked: seq<bool>, blocked': seq<bool>) {
    forall c | c in ids :: 0 <= c < |blocked| && c < |blocked'| && blocked[c] == blocked'[c]
  }

  lemma AllAreFrame(ids: multiset<int>, all: multiset<int>, blocked: seq<bool>, blocked': seq<bool>, value: bool)
    requires AllAre(ids, blocked, value) && ids <= all && SameFlags(all, blocked, blocked')
    ensures AllAre(ids, blocked', value)
  {
    forall c | c in ids ensures Flag(blocked', c, value) {
      assert c in all && Flag(blocked, c, value);
    }
  }

  lemma FirstReadyFrame(kids: seq<PriorityChild>, first: nat, blocked: seq<bool>, blocked': seq<bool>)
    requires FirstReady(kids, first, blocked) && SameFlags(multiset(PriorityIds(kids)), blocked, blocked')
    ensures FirstReady(kids, first, blocked')
  {
    forall j | 0 <= j < |kids| ensures kids[j].id in multiset(PriorityIds(kids)) {
      assert PriorityIds(kids)[j] == kids[j].id;
    }
  }

  /** The cache depends on the children's flags only. */
  lemma CachedFrame(p: Policy, self: bool, blocked: seq<bool>, blocked': seq<bool>)
    requires Cached(p, self, blocked) && SameFlags(Kids(p), blocked, blocked')
    ensures Cached(p, self, blocked')
  {
    match p
    case Leaf(_) =>
    case Priority(kids, first) => FirstReadyFrame(kids, first, blocked, blocked');
    case Weighted(_, heap, held) =>
      AllAreFrame(multiset(ShareIds(heap)), Kids(p), blocked, blocked', false);
      AllAreFrame(multiset(ShareIds(held)), Kids(p), blocked, blocked', true);
    case RoundRobin(ready, asleep, next) =>
      AllAreFrame(multiset(ready), Kids(p), blocked, blocked', false);
      AllAreFrame(multiset(asleep), Kids(p), blocked, blocked', true);
    case RateLimit(_, child, meter) =>
  }

  /** When a child's flag changes from `blocked` to something else, and it is the one the class
      picked, the class must give it up: the cache is right if the flag is read as down. */
  ghost predicate Falling(p: Policy, blocked: seq<bool>, c: int) {
    && 0 <= c < |blocked|
    && Pick(p) == c
    && !p.Leaf?
    && Distinct(Kids(p))
    && Cached(p, false, blocked[c := false])
  }

  /** When one blocked child has its flag lowered, the cache of its parent is rising. */
  lemma RisingAfter(p: Policy, self: bool, blocked: seq<bool>, c: int)
    requires Cached(p, self, blocked) && c in Kids(p) && Flag(blocked, c, true)
    ensures Rising(p, self, blocked[c := false])
  {
  }
}
