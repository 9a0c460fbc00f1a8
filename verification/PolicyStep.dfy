/** The part of UnblockTowardsRoot and FinishAndAccountTowardsRoot that each class does on its
    own fields: runtime/bessport/traffic_class.cc. */
module PolicyStep {
  import opened TrafficClass
  import opened ShareHeap

  const AMPLIFIER := 0x1_0000_0000

  ghost predicate AllIn(ids: multiset<int>, blocked: seq<bool>) {
    forall c | c in ids :: 0 <= c < |blocked|
  }

  ghost predicate KidsIn(p: Policy, blocked: seq<bool>) {
    AllIn(Kids(p), blocked)
  }

  // Small facts about multisets.

  lemma MoveOne(a: multiset<int>, b: multiset<int>, h: multiset<int>, w: multiset<int>, x: int)
    requires a + b == h + w
    ensures (a + multiset{x}) + b == h + (w + multiset{x})
    ensures a + (b + multiset{x}) == h + (w + multiset{x})
  {
    assert (a + multiset{x}) + b == (a + b) + multiset{x};
  }

  lemma Parts(a: multiset<int>, b: multiset<int>, blocked: seq<bool>)
    ensures AllIn(a + b, blocked) ==> AllIn(a, blocked) && AllIn(b, blocked)
    ensures Distinct(a + b) ==> Distinct(a)
  {
    if AllIn(a + b, blocked) {
      forall c | c in a || c in b ensures 0 <= c < |blocked| { assert c in a + b; }
    }
    if Distinct(a + b) {
      forall c ensures a[c] <= 1 { assert (a + b)[c] <= 1; }
    }
  }

  lemma HandOver(a: multiset<int>, b: multiset<int>, c: int)
    requires c in a
    ensures (a - multiset{c}) + (b + multiset{c}) == a + b
  {
  }

  lemma AddOne(ids: multiset<int>, c: int, blocked: seq<bool>, value: bool)
    requires AllAre(ids, blocked, value) && Flag(blocked, c, value)
    ensures AllAre(ids + multiset{c}, blocked, value)
  {
  }

  // ------------------------------------------------------------ unblocking

  method FirstUnblocked(kids: seq<PriorityChild>, from: nat, blocked: seq<bool>) returns (first: nat)
    requires AllIn(multiset(PriorityIds(kids)), blocked)
    requires BlockedBefore(kids, from, blocked)
    ensures from <= first && FirstReady(kids, first, blocked)
  {
    first := from;
    assert forall j | 0 <= j < |kids| :: PriorityIds(kids)[j] in multiset(PriorityIds(kids));
    assert forall j | 0 <= j < |kids| :: kids[j].id == PriorityIds(kids)[j];
    while first < |kids| && blocked[kids[first].id]
      invariant from <= first <= |kids| && BlockedBefore(kids, first, blocked)
    {
      first := first + 1;
    }
  }

  lemma IdsOfAppend(v: seq<Share>, x: Share)
    ensures Ids(v + [x]) == Ids(v) + multiset{x.id}
  {
    assert ShareIds(v + [x]) == ShareIds(v) + [x.id];
  }

  predicate Sleeps(blocked: seq<bool>, c: int) {
    0 <= c < |blocked| && blocked[c]
  }

  /** The shares still blocked, in order. */
  function StillHeld(held: seq<Share>, blocked: seq<bool>): seq<Share> {
    if held == [] then [] else
      var k := |held| - 1;
      StillHeld(held[..k], blocked) + if Sleeps(blocked, held[k].id) then [held[k]] else []
  }

  /** The shares no longer blocked, their passes reset. */
  function Woken(held: seq<Share>, blocked: seq<bool>): seq<Share> {
    if held == [] then [] else
      var k := |held| - 1;
      Woken(held[..k], blocked) + if Sleeps(blocked, held[k].id) then [] else [held[k].(pass := 0)]
  }

  /** Woken children are children that were held and sleep no more, with pass zero. */
  lemma {:induction false} WokenFromZero(held: seq<Share>, blocked: seq<bool>, x: Share)
    requires x in Woken(held, blocked)
    ensures x.pass == 0 && !Sleeps(blocked, x.id) && exists y | y in held :: y.id == x.id && y.stride == x.stride
  {
    var k := |held| - 1;
    if x in Woken(held[..k], blocked) {
      WokenFromZero(held[..k], blocked, x);
      var y :| y in held[..k] && y.id == x.id && y.stride == x.stride;
      assert y in held;
    } else {
      assert held[k] in held;
    }
  }

  function StillAsleep(ids: seq<int>, blocked: seq<bool>): seq<int> {
    if ids == [] then [] else
      var k := |ids| - 1;
      StillAsleep(ids[..k], blocked) + if Sleeps(blocked, ids[k]) then [ids[k]] else []
  }

  function Awake(ids: seq<int>, blocked: seq<bool>): seq<int> {
    if ids == [] then [] else
      var k := |ids| - 1;
      Awake(ids[..k], blocked) + if Sleeps(blocked, ids[k]) then [] else [ids[k]]
  }

  lemma {:induction false} WokenStep(done: seq<Share>, x: Share, blocked: seq<bool>)
    ensures Sleeps(blocked, x.id) ==> StillHeld(done + [x], blocked) == StillHeld(done, blocked) + [x]
    ensures Sleeps(blocked, x.id) ==> Woken(done + [x], blocked) == Woken(done, blocked)
    ensures !Sleeps(blocked, x.id) ==> StillHeld(done + [x], blocked) == StillHeld(done, blocked)
    ensures !Sleeps(blocked, x.id) ==> Woken(done + [x], blocked) == Woken(done, blocked) + [x.(pass := 0)]
  {
    assert (done + [x])[..|done|] == done;
  }

  lemma {:induction false} AwakeStep(ids: seq<int>, k: nat, blocked: seq<bool>)
    requires k < |ids|
    ensures StillAsleep(ids[..k + 1], blocked) ==
      StillAsleep(ids[..k], blocked) + if Sleeps(blocked, ids[k]) then [ids[k]] else []
    ensures Awake(ids[..k + 1], blocked) ==
      Awake(ids[..k], blocked) + if Sleeps(blocked, ids[k]) then [] else [ids[k]]
  {
    assert ids[..k + 1][..k] == ids[..k];
  }

  lemma {:induction false} AwakeFlags(ids: seq<int>, blocked: seq<bool>)
    requires AllIn(multiset(ids), blocked)
    ensures AllAre(multiset(Awake(ids, blocked)), blocked, false)
    ensures AllAre(multiset(StillAsleep(ids, blocked)), blocked, true)
  {
    if ids != [] {
      var k := |ids| - 1;
      assert ids == ids[..k] + [ids[k]];
      Parts(multiset(ids[..k]), multiset{ids[k]}, blocked);
      AwakeFlags(ids[..k], blocked);
      assert ids[k] in multiset{ids[k]};
    }
  }

  lemma {:induction false} AwakeMultiset(ids: seq<int>, blocked: seq<bool>)
    ensures multiset(Awake(ids, blocked)) + multiset(StillAsleep(ids, blocked)) == multiset(ids)
  {
    if ids != [] {
      var k := |ids| - 1;
      var w, h := Awake(ids[..k], blocked), StillAsleep(ids[..k], blocked);
      assert ids == ids[..k] + [ids[k]];
      AwakeMultiset(ids[..k], blocked);
      MoveOne(multiset(w), multiset(h), multiset{}, multiset(ids[..k]), ids[k]);
      if Sleeps(blocked, ids[k]) {
        assert StillAsleep(ids, blocked) == h + [ids[k]];
      } else {
        assert Awake(ids, blocked) == w + [ids[k]];
      }
    }
  }

  /** Waking splits the blocked list by the children's flags, losing no child. */
  lemma {:induction false} AwakeSplits(ids: seq<int>, blocked: seq<bool>)
    requires AllIn(multiset(ids), blocked)
    ensures AllAre(multiset(Awake(ids, blocked)), blocked, false)
    ensures AllAre(multiset(StillAsleep(ids, blocked)), blocked, true)
    ensures multiset(Awake(ids, blocked)) + multiset(StillAsleep(ids, blocked)) == multiset(ids)
  {
    AwakeFlags(ids, blocked);
    AwakeMultiset(ids, blocked);
  }

  lemma {:induction false} WokenIds(held: seq<Share>, blocked: seq<bool>)
    ensures ShareIds(Woken(held, blocked)) == Awake(ShareIds(held), blocked)
    ensures ShareIds(StillHeld(held, blocked)) == StillAsleep(ShareIds(held), blocked)
  {
    if held != [] {
      var k := |held| - 1;
      WokenIds(held[..k], blocked);
      assert ShareIds(held)[..k] == ShareIds(held[..k]);
      assert ShareIds(held)[k] == held[k].id;
    }
  }

  /** `heap` is a queue of `start` and `more`. */
  ghost predicate Grown(heap: seq<Share>, start: seq<Share>, more: seq<Share>) {
    && IsHeap(heap)
    && multiset(heap) == multiset(start) + multiset(more)
    && Ids(heap) == Ids(start) + Ids(more)
  }

  /** The queue and the blocked list once the shares `done` of the blocked list are dealt with. */
  ghost predicate Waking(heap: seq<Share>, held: seq<Share>, heap0: seq<Share>, done: seq<Share>, blocked: seq<bool>) {
    Grown(heap, heap0, Woken(done, blocked)) && held == StillHeld(done, blocked)
  }

  /** Children of the blocked list that are no longer blocked go back into the queue with pass
      zero. */
  method WakeShares(heap0: seq<Share>, held0: seq<Share>, blocked: seq<bool>)
    returns (heap: seq<Share>, held: seq<Share>)
    requires IsHeap(heap0) && AllIn(Ids(held0), blocked)
    ensures Waking(heap, held, heap0, held0, blocked)
  {
    heap, held := heap0, [];
    ghost var done := [];
    StartWaking(heap0, blocked);
    var k := 0;
    while k < |held0|
      invariant 0 <= k <= |held0| && done == held0[..k]
      invariant Waking(heap, held, heap0, done, blocked)
    {
      ShareIn(held0, k, blocked);
      heap, held := WakeNext(heap, held, held0[k], blocked, heap0, done);
      done := done + [held0[k]];
      k := k + 1;
    }
    assert done == held0;
  }

  lemma StartWaking(heap: seq<Share>, blocked: seq<bool>)
    requires IsHeap(heap)
    ensures Waking(heap, [], heap, [], blocked)
  {
    assert ShareIds([]) == [];
  }

  lemma ShareIn(v: seq<Share>, k: nat, blocked: seq<bool>)
    requires AllIn(Ids(v), blocked) && k < |v|
    ensures 0 <= v[k].id < |blocked|
  {
    assert ShareIds(v)[k] in Ids(v);
  }

  /** One turn of the loop. */
  method WakeNext(heap0: seq<Share>, held0: seq<Share>, x: Share, blocked: seq<bool>,
                  ghost start: seq<Share>, ghost done: seq<Share>)
    returns (heap: seq<Share>, held: seq<Share>)
    requires Waking(heap0, held0, start, done, blocked) && 0 <= x.id < |blocked|
    ensures Waking(heap, held, start, done + [x], blocked)
  {
    WokenStep(done, x, blocked);
    heap, held := heap0, held0;
    if !blocked[x.id] {
      heap := WakeOne(heap, x.(pass := 0), start, Woken(done, blocked));
    } else {
      held := held + [x];
    }
  }

  method WakeOne(heap0: seq<Share>, x: Share, ghost start: seq<Share>, ghost w: seq<Share>) returns (heap: seq<Share>)
    requires Grown(heap0, start, w)
    ensures Grown(heap, start, w + [x])
  {
    IdsOfAppend(w, x);
    heap := Push(heap0, x);
  }

  method WakeReady(ready0: seq<int>, asleep0: seq<int>, blocked: seq<bool>)
    returns (ready: seq<int>, asleep: seq<int>)
    requires AllIn(multiset(asleep0), blocked)
    ensures ready == ready0 + Awake(asleep0, blocked) && asleep == StillAsleep(asleep0, blocked)
  {
    ready, asleep := ready0, [];
    var k := 0;
    while k < |asleep0|
      invariant 0 <= k <= |asleep0|
      invariant ready == ready0 + Awake(asleep0[..k], blocked)
      invariant asleep == StillAsleep(asleep0[..k], blocked)
    {
      AwakeStep(asleep0, k, blocked);
      assert asleep0[k] in multiset(asleep0);
      if !blocked[asleep0[k]] {
        ready := ready + [asleep0[k]];
      } else {
        asleep := asleep + [asleep0[k]];
      }
      k := k + 1;
    }
    assert asleep0[..k] == asleep0;
  }

  /** A class and its successor differ in nothing a relative sees: same children, same kind, and
      the same meter but for the time it was last looked at. */
  ghost predicate Alike(p: Policy, q: Policy) {
    && Kids(p) == Kids(q)
    && (p.Leaf? || q.Leaf? ==> p == q)
    && (p.Priority? ==> q.Priority? && p.kids == q.kids)
    && (p.RateLimit? <==> q.RateLimit?)
    && (p.RateLimit? ==> SameMeter(p.meter, q.meter))
  }

  ghost predicate SameMeter(m: Meter, n: Meter) {
    m == n.(last := m.last)
  }

  /** What UnblockTowardsRoot does to one class: children whose flags are down leave its blocked
      list, in order; nothing but its cache changes. */
  ghost predicate Rechecked(p: Policy, q: Policy, blocked: seq<bool>, tsc: nat) {
    match p
    case Leaf(_) => q == p
    case Priority(kids, _) => q.Priority? && q.kids == kids
    case Weighted(resource, heap, held) =>
      q.Weighted? && q.resource == resource && Waking(q.heap, q.held, heap, held, blocked)
    case RoundRobin(ready, asleep, next) =>
      q == RoundRobin(ready + Awake(asleep, blocked), StillAsleep(asleep, blocked), next)
    case RateLimit(_, _, meter) => q == p.(meter := meter.(last := tsc))
  }

  /** The class-specific part of UnblockTowardsRoot: after it the cache is right again. */
  method Recheck(p: Policy, ghost self: bool, blocked: seq<bool>, tsc: nat) returns (q: Policy, nowBlocked: bool)
    requires Rising(p, self, blocked) && KidsIn(p, blocked)
    ensures Alike(p, q) && Cached(q, nowBlocked, blocked) && Rechecked(p, q, blocked, tsc)
    ensures !self ==> !nowBlocked
  {
    match p
    case Leaf(tasks) => q, nowBlocked := p, tasks == [];
    case Priority(_, _) => q, nowBlocked := RecheckPriority(p, self, blocked);
    case Weighted(_, _, _) => q, nowBlocked := RecheckWeighted(p, self, blocked);
    case RoundRobin(_, _, _) => q, nowBlocked := RecheckRoundRobin(p, self, blocked);
    case RateLimit(_, child, meter) =>
      assert child in Kids(p);
      q := p.(meter := meter.(last := tsc));
      nowBlocked := meter.throttle != 0 || blocked[child];
  }

  method RecheckPriority(p: Policy, ghost self: bool, blocked: seq<bool>) returns (q: Policy, nowBlocked: bool)
    requires p.Priority? && Rising(p, self, blocked) && KidsIn(p, blocked)
    ensures Alike(p, q) && Cached(q, nowBlocked, blocked) && q.Priority? && q.kids == p.kids
    ensures !self ==> !nowBlocked
  {
    var first := FirstUnblocked(p.kids, 0, blocked);
    q, nowBlocked := p.(first := first), first == |p.kids|;
  }

  lemma Union(a: multiset<int>, b: multiset<int>, blocked: seq<bool>, value: bool)
    requires AllAre(a, blocked, value) && AllAre(b, blocked, value)
    ensures AllAre(a + b, blocked, value)
  {
  }

  lemma WakingDone(heap: seq<Share>, held: seq<Share>, heap0: seq<Share>, held0: seq<Share>, blocked: seq<bool>)
    requires Waking(heap, held, heap0, held0, blocked)
    requires AllAre(Ids(heap0), blocked, false) && AllIn(Ids(held0), blocked)
    ensures AllAre(Ids(heap), blocked, false) && AllAre(Ids(held), blocked, true)
    ensures Ids(heap) + Ids(held) == Ids(heap0) + Ids(held0)
  {
    WokenIds(held0, blocked);
    AwakeSplits(ShareIds(held0), blocked);
    var w := Ids(Woken(held0, blocked));
    Union(Ids(heap0), w, blocked, false);
    assert (Ids(heap0) + w) + Ids(held) == Ids(heap0) + (w + Ids(held));
  }

  lemma QueueStays(heap: seq<Share>, held: seq<Share>, heap0: seq<Share>, held0: seq<Share>, blocked: seq<bool>)
    requires Waking(heap, held, heap0, held0, blocked)
    ensures heap0 != [] ==> heap != []
  {
    if heap0 != [] { assert heap0[0] in multiset(heap); }
  }

  method RecheckWeighted(p: Policy, ghost self: bool, blocked: seq<bool>) returns (q: Policy, nowBlocked: bool)
    requires p.Weighted? && Rising(p, self, blocked) && KidsIn(p, blocked)
    ensures Alike(p, q) && Cached(q, nowBlocked, blocked)
    ensures q.Weighted? && q.resource == p.resource && Waking(q.heap, q.held, p.heap, p.held, blocked)
    ensures !self ==> !nowBlocked
  {
    Parts(Ids(p.heap), Ids(p.held), blocked);
    var heap, held := WakeShares(p.heap, p.held, blocked);
    WakingDone(heap, held, p.heap, p.held, blocked);
    QueueStays(heap, held, p.heap, p.held, blocked);
    q, nowBlocked := p.(heap := heap, held := held), heap == [];
  }

  method RecheckRoundRobin(p: Policy, ghost self: bool, blocked: seq<bool>) returns (q: Policy, nowBlocked: bool)
    requires p.RoundRobin? && Rising(p, self, blocked) && KidsIn(p, blocked)
    ensures Alike(p, q) && Cached(q, nowBlocked, blocked)
    ensures q == RoundRobin(p.ready + Awake(p.asleep, blocked), StillAsleep(p.asleep, blocked), p.next)
    ensures !self ==> !nowBlocked
  {
    Parts(multiset(p.ready), multiset(p.asleep), blocked);
    var ready, asleep := WakeReady(p.ready, p.asleep, blocked);
    AwakeSplits(p.asleep, blocked);
    Union(multiset(p.ready), multiset(Awake(p.asleep, blocked)), blocked, false);
    q, nowBlocked := p.(ready := ready, asleep := asleep), ready == [];
  }

  lemma {:induction false} AllHeld(held: seq<Share>, blocked: seq<bool>)
    requires AllAre(Ids(held), blocked, true)
    ensures Woken(held, blocked) == [] && StillHeld(held, blocked) == held
  {
    if held != [] {
      var k := |held| - 1;
      assert held == held[..k] + [held[k]];
      IdsOfAppend(held[..k], held[k]);
      assert held[k].id in Ids(held);
      AllHeld(held[..k], blocked);
    }
  }

  /** Where every held child is blocked, rechecking changes nothing but the layout of the heap. */
  lemma NobodyWakes(p: Policy, q: Policy, blocked: seq<bool>, tsc: nat)
    requires p.Weighted? && AllAre(Ids(p.held), blocked, true) && Rechecked(p, q, blocked, tsc)
    ensures q.Weighted? && q.resource == p.resource && q.held == p.held && multiset(q.heap) == multiset(p.heap)
  {
    AllHeld(p.held, blocked);
  }

  lemma {:induction false} AllAsleep(ids: seq<int>, blocked: seq<bool>)
    requires AllAre(multiset(ids), blocked, true)
    ensures Awake(ids, blocked) == [] && StillAsleep(ids, blocked) == ids
  {
    if ids != [] {
      var k := |ids| - 1;
      assert ids == ids[..k] + [ids[k]];
      assert ids[k] in multiset(ids);
      AllAsleep(ids[..k], blocked);
    }
  }

  lemma NobodyTurns(p: Policy, q: Policy, blocked: seq<bool>, tsc: nat)
    requires p.RoundRobin? && AllAre(multiset(p.asleep), blocked, true) && Rechecked(p, q, blocked, tsc)
    ensures q == p
  {
    AllAsleep(p.asleep, blocked);
  }

  // ------------------------------------------------------------ metering

  /** Accounting of a limiter. The clock is stored before the elapsed time is taken, so no time
      ever elapses. */
  function Settle(m: Meter, used: nat, tsc: nat): Meter
    requires m.limit > 0
  {
    var last := tsc;
    var elapsed := tsc - last;
    var tokens := m.tokens + m.limit * elapsed;
    var consumed := used * AMPLIFIER;
    var n := m.(last := last, since := if m.since < 0 then tsc else m.since, charged := m.charged + consumed);
    if tokens < consumed then n.(tokens := 0, throttle := tsc + (consumed - tokens) / m.limit)
    else n.(tokens := if tokens - consumed < m.maxBurst then tokens - consumed else m.maxBurst)
  }

  /** The time by which the charge made so far is paid for. */
  function Horizon(m: Meter, clock: nat): int {
    if m.throttle != 0 then m.throttle + 1 else clock
  }

  /** A limiter never has tokens, and has charged at most its limit for every unit of time since
      its first run: up to now when it may run, up to its expiration when throttled. */
  ghost predicate Metered(m: Meter, clock: nat) {
    && m.limit > 0
    && m.tokens == 0
    && (m.since < 0 ==> m.charged == 0 && m.throttle == 0)
    && (m.since >= 0 ==> m.since <= clock && m.charged <= m.limit * (Horizon(m, clock) - m.since))
  }

  lemma DivisionBound(consumed: nat, limit: nat)
    requires limit > 0
    ensures limit * (consumed / limit) <= consumed < limit * (consumed / limit + 1)
  {
    assert limit * (consumed / limit + 1) == limit * (consumed / limit) + limit;
  }

  /** Charging a limiter without tokens: it waits for as many whole units of time as the charge is
      worth at its limit. */
  lemma SettleWaits(m: Meter, used: nat, tsc: nat)
    requires m.limit > 0 && m.tokens == 0 && m.throttle == 0 && tsc > 0
    ensures var n, consumed := Settle(m, used, tsc), used * 0x1_0000_0000;
      && n.limit == m.limit && n.charged == m.charged + consumed && n.since == (if m.since < 0 then tsc else m.since)
      && (used == 0 ==> n.throttle == 0) && (used > 0 ==> n.throttle == tsc + consumed / m.limit)
  {
    assert m.limit * 0 == 0;
  }

  /** The tokens are used up. */
  lemma SettleSpends(m: Meter, used: nat, tsc: nat)
    requires m.limit > 0 && m.tokens == 0
    ensures Settle(m, used, tsc).tokens == 0
  {
    assert m.limit * 0 == 0;
  }

  lemma SettleKeeps(m: Meter, used: nat, tsc: nat)
    requires Metered(m, tsc) && m.throttle == 0 && tsc > 0
    ensures Metered(Settle(m, used, tsc), tsc)
    ensures Settle(m, used, tsc).throttle != 0 <==> used > 0
    ensures used > 0 ==>
      var wait := Settle(m, used, tsc).throttle - tsc;
      0 <= wait && m.limit * wait <= used * 0x1_0000_0000 < m.limit * (wait + 1)
  {
    SettleWaits(m, used, tsc);
    SettleSpends(m, used, tsc);
    DivisionBound(used * 0x1_0000_0000, m.limit);
    SettleCharges(m, Settle(m, used, tsc), used * 0x1_0000_0000, used * 0x1_0000_0000 / m.limit, tsc);
  }

  /** The bound, from what is known of the charge. */
  lemma SettleCharges(m: Meter, n: Meter, consumed: nat, wait: nat, tsc: nat)
    requires Metered(m, tsc) && m.throttle == 0 && tsc > 0 && consumed <= m.limit * (wait + 1)
    requires n.limit == m.limit && n.tokens == 0 && n.charged == m.charged + consumed
    requires n.since == (if m.since < 0 then tsc else m.since)
    requires n.throttle == (if consumed == 0 then 0 else tsc + wait)
    ensures Metered(n, tsc)
  {
    if m.since < 0 {
      assert m.limit * (tsc - n.since) == 0;
    }
    if consumed > 0 {
      Spread(m.limit, tsc - n.since, wait + 1);
      assert Horizon(n, tsc) - n.since == (tsc - n.since) + (wait + 1);
    }
  }

  lemma Spread(limit: int, a: int, b: int)
    ensures limit * (a + b) == limit * a + limit * b
  {
  }

  /** The bound survives the passing of time while the limiter waits or idles, and its throttle
      being lifted once expired. */
  lemma TimeKeeps(m: Meter, clock: nat, later: nat)
    requires Metered(m, clock) && clock <= later
    ensures Metered(m, later)
    ensures m.throttle < later ==> Metered(m.(throttle := 0), later)
  {
    if m.since >= 0 {
      var h := Horizon(m, clock);
      if h <= later { Grows(m.limit, h - m.since, later - m.since); }
    }
  }

  lemma Grows(limit: nat, a: int, b: int)
    requires a <= b
    ensures limit * a <= limit * b
  {
  }

  // ------------------------------------------------------------ accounting

  /** What FinishAndAccountTowardsRoot does to a class whose picked child is now blocked, or not. */
  ghost predicate Finished(p: Policy, q: Policy, childBlocked: bool, usage: Usage, tsc: nat) {
    match p
    case Leaf(_) => q == p
    case Priority(kids, first) => q.Priority? && q.kids == kids && q.first >= first && (!childBlocked ==> q == p)
    case Weighted(resource, heap, held) =>
      && q.Weighted? && q.resource == resource && heap != []
      && (childBlocked ==> multiset(q.heap) == multiset(heap) - multiset{heap[0]} && q.held == held + [heap[0]])
      && (!childBlocked ==> Accounted(heap, usage.Of(resource), q.heap) && q.held == held)
    case RoundRobin(ready, asleep, next) =>
      && q.RoundRobin? && next < |ready|
      && (childBlocked ==> q.ready == ready[..next] + ready[next + 1..] && q.asleep == asleep + [ready[next]])
      && (!childBlocked ==> q.ready == ready && q.asleep == asleep)
      && q.next == Turn(if childBlocked then next else next + 1, |q.ready|)
    case RateLimit(resource, child, meter) =>
      meter.limit > 0 && q == p.(meter := Settle(meter, usage.Of(resource), tsc))
  }

  /** The class-specific part of FinishAndAccountTowardsRoot for the picked child `c`: whether or
      not `c` is now blocked, afterwards the cache is right. */
  method Finish(p: Policy, blocked: seq<bool>, c: int, usage: Usage, tsc: nat) returns (q: Policy, nowBlocked: bool)
    requires Falling(p, blocked, c) && KidsIn(p, blocked) && tsc > 0
    requires p.RateLimit? ==> Metered(p.meter, tsc)
    ensures Kids(q) == Kids(p) && Cached(q, nowBlocked, blocked)
    ensures Finished(p, q, blocked[c], usage, tsc)
  {
    match p
    case Priority(kids, first) => q, nowBlocked := FinishPriority(p, blocked, c);
    case Weighted(_, heap, held) => q, nowBlocked := FinishWeighted(p, blocked, c, usage);
    case RoundRobin(ready, asleep, next) => q, nowBlocked := FinishRoundRobin(p, blocked, c);
    case RateLimit(_, child, meter) =>
      assert blocked[c := false][c] == false;
      var meter' := Settle(meter, usage.Of(p.resource), tsc);
      SettleKeeps(meter, usage.Of(p.resource), tsc);
      q := p.(meter := meter');
      nowBlocked := meter'.throttle != 0 || blocked[c];
  }

  method FinishPriority(p: Policy, blocked: seq<bool>, c: int) returns (q: Policy, nowBlocked: bool)
    requires p.Priority? && Falling(p, blocked, c) && KidsIn(p, blocked)
    ensures Kids(q) == Kids(p) && Cached(q, nowBlocked, blocked)
    ensures q.Priority? && q.kids == p.kids && q.first >= p.first && (!blocked[c] ==> q == p)
  {
    BeforePicked(p.kids, p.first, blocked, c);
    if blocked[c] {
      var first := FirstUnblocked(p.kids, p.first, blocked);
      q, nowBlocked := p.(first := first), first == |p.kids|;
    } else {
      q, nowBlocked := p, false;
    }
  }

  lemma BeforePicked(kids: seq<PriorityChild>, first: nat, blocked: seq<bool>, c: int)
    requires 0 <= c < |blocked| && BlockedBefore(kids, first, blocked[c := false])
    ensures BlockedBefore(kids, first, blocked)
  {
    forall j | 0 <= j < first ensures Flag(blocked, kids[j].id, true) {
      assert Flag(blocked[c := false], kids[j].id, true);
    }
  }

  /** Taking out the only occurrence of `c` leaves flags that do not depend on `c`. */
  lemma OthersReady(ids: multiset<int>, rest: multiset<int>, blocked: seq<bool>, c: int)
    requires 0 <= c < |blocked| && Distinct(ids) && rest == ids - multiset{c}
    requires AllAre(ids, blocked[c := false], false)
    ensures AllAre(rest, blocked, false)
  {
    forall d | d in rest ensures Flag(blocked, d, false) {
      assert d != c by { assert ids[c] <= 1; }
      assert d in ids;
    }
  }

  lemma HeldStill(ids: multiset<int>, blocked: seq<bool>, c: int)
    requires 0 <= c < |blocked| && AllAre(ids, blocked[c := false], true)
    ensures AllAre(ids, blocked, true)
  {
    forall d | d in ids ensures Flag(blocked, d, true) {
      assert Flag(blocked[c := false], d, true);
    }
  }

  method FinishWeighted(p: Policy, blocked: seq<bool>, c: int, usage: Usage) returns (q: Policy, nowBlocked: bool)
    requires p.Weighted? && Falling(p, blocked, c)
    ensures Kids(q) == Kids(p) && Cached(q, nowBlocked, blocked)
    ensures q.Weighted? && q.resource == p.resource && p.heap != []
    ensures blocked[c] ==> multiset(q.heap) == multiset(p.heap) - multiset{p.heap[0]} && q.held == p.held + [p.heap[0]]
    ensures !blocked[c] ==> Accounted(p.heap, usage.Of(p.resource), q.heap) && q.held == p.held
    ensures !blocked[c] ==> Paid(p.heap, usage.Of(p.resource), q.heap)
  {
    HeldStill(Ids(p.held), blocked, c);
    Parts(Ids(p.heap), Ids(p.held), blocked);
    assert c in Ids(p.heap) by { assert ShareIds(p.heap)[0] in Ids(p.heap); }
    if blocked[c] {
      var heap := Pop(p.heap);
      OthersReady(Ids(p.heap), Ids(heap), blocked, c);
      IdsOfAppend(p.held, p.heap[0]);
      AddOne(Ids(p.held), c, blocked, true);
      HandOver(Ids(p.heap), Ids(p.held), c);
      q, nowBlocked := p.(heap := heap, held := p.held + [p.heap[0]]), heap == [];
    } else {
      assert blocked[c := false] == blocked;
      var heap := Account(p.heap, usage.Of(p.resource));
      TopHasPaid(p.heap, usage.Of(p.resource), heap);
      assert heap != [] by { assert ShareIds(p.heap)[0] in Ids(heap); }
      q, nowBlocked := p.(heap := heap), false;
    }
  }

  function Turn(next: nat, n: nat): nat {
    if next >= n then 0 else next
  }

  lemma EraseAt(ids: seq<int>, k: nat)
    requires k < |ids|
    ensures multiset(ids[..k] + ids[k + 1..]) == multiset(ids) - multiset{ids[k]} && ids[k] in multiset(ids)
  {
    assert ids == ids[..k] + [ids[k]] + ids[k + 1..];
  }

  lemma PutToSleep(ready: seq<int>, asleep: seq<int>, k: nat, blocked: seq<bool>, c: int)
    requires k < |ready| && ready[k] == c && Flag(blocked, c, true)
    requires Distinct(multiset(ready) + multiset(asleep))
    requires AllAre(multiset(ready), blocked[c := false], false)
    requires AllAre(multiset(asleep), blocked[c := false], true)
    ensures AllAre(multiset(ready[..k] + ready[k + 1..]), blocked, false)
    ensures AllAre(multiset(asleep + [c]), blocked, true)
    ensures multiset(ready[..k] + ready[k + 1..]) + multiset(asleep + [c]) == multiset(ready) + multiset(asleep)
  {
    var rest := ready[..k] + ready[k + 1..];
    EraseAt(ready, k);
    HeldStill(multiset(asleep), blocked, c);
    Parts(multiset(ready), multiset(asleep), blocked);
    OthersReady(multiset(ready), multiset(rest), blocked, c);
    AddOne(multiset(asleep), c, blocked, true);
    HandOver(multiset(ready), multiset(asleep), c);
  }

  method FinishRoundRobin(p: Policy, blocked: seq<bool>, c: int) returns (q: Policy, nowBlocked: bool)
    requires p.RoundRobin? && Falling(p, blocked, c)
    ensures Kids(q) == Kids(p) && Cached(q, nowBlocked, blocked)
    ensures q.RoundRobin? && p.next < |p.ready| && p.ready[p.next] == c
    ensures blocked[c] ==> q.ready == p.ready[..p.next] + p.ready[p.next + 1..] && q.asleep == p.asleep + [c]
    ensures !blocked[c] ==> q.ready == p.ready && q.asleep == p.asleep
    ensures q.next == Turn(if blocked[c] then p.next else p.next + 1, |q.ready|)
  {
    var ready, asleep, next := p.ready, p.asleep, p.next;
    if blocked[c] {
      PutToSleep(ready, asleep, next, blocked, c);
      ready, asleep := ready[..next] + ready[next + 1..], asleep + [c];
    } else {
      assert blocked[c := false] == blocked;
      next := next + 1;
    }
    next := Turn(next, |ready|);
    q, nowBlocked := RoundRobin(ready, asleep, next), ready == [];
  }
}
