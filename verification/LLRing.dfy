/** The multi-producer/multi-consumer ring: runtime/bessport/kmod/llring.h.
    Threads run `__llring_mp_do_enqueue` and `__llring_mc_do_dequeue` (or their single-thread
    variants), one access to shared memory per step, interleaved in any order. Indices are
    unbounded here; RingIndex.dfy shows that the 32-bit ones agree. */
module LLRing {
  const NOBUF: int := 1
  const QUOT: int := 2
  const NOENT: int := 3
  const QUOT_EXCEED: int := 0x8000_0000

  /** A thread inside an enqueue. A retry goes back to ReadHead with the whole burst. */
  datatype Producer<T> =
    | Resting(ret: int)
    | ReadHead(objs: seq<T>, fixed: bool)
    | ReadTail(objs: seq<T>, fixed: bool, head: nat)
    | Reserve(objs: seq<T>, fixed: bool, head: nat, tail: nat)
    | Copy(items: seq<T>, fixed: bool, head: nat, free: int, done: nat)
    | Publish(items: seq<T>, fixed: bool, head: nat, free: int)

  /** A thread inside a dequeue. */
  datatype Consumer<T> =
    | Waiting(ret: int)
    | LoadHead(max: nat, fixed: bool)
    | LoadTail(max: nat, fixed: bool, head: nat)
    | Claim(max: nat, fixed: bool, head: nat, tail: nat)
    | Fetch(n: nat, fixed: bool, head: nat, got: seq<T>)
    | Release(fixed: bool, head: nat, got: seq<T>)

  /** mask + 1 slots; `sp` and `sc` select the single-producer and single-consumer variants. */
  datatype Config = Config(mask: nat, watermark: nat, sp: bool, sc: bool)

  /** The shared ring, the threads, and what has happened:
      log:       every item in the order in which places were reserved for them
      delivered: every item handed out by a finished dequeue */
  datatype Sys<T> = Sys(
    ring: seq<T>, prodHead: nat, prodTail: nat, consHead: nat, consTail: nat,
    prods: seq<Producer<T>>, cons: seq<Consumer<T>>,
    log: seq<T>, delivered: seq<T>)

  datatype Step<T> =
    | Enqueue(t: nat, objs: seq<T>, fixed: bool)    // a resting producer makes a call
    | Produce(t: nat)                               // the next access of producer t
    | Dequeue(t: nat, max: nat, fixed: bool)
    | Consume(t: nat)

  function At(p: nat, size: nat): nat
    requires size > 0
  {
    p % size
  }

  /** The value an enqueue of `n` items returns, with `free` entries seen before it. */
  function EnqueueResult(c: Config, fixed: bool, free: int, n: nat): int {
    if c.mask + 1 - free + n > c.watermark then
      if fixed then -QUOT else n + QUOT_EXCEED - 0x1_0000_0000
    else if fixed then 0 else n
  }

  function SetProd<T>(s: Sys<T>, t: nat, p: Producer<T>): Sys<T>
    requires t < |s.prods|
  {
    s.(prods := s.prods[t := p])
  }

  function SetCons<T>(s: Sys<T>, t: nat, k: Consumer<T>): Sys<T>
    requires t < |s.cons|
  {
    s.(cons := s.cons[t := k])
  }

  /** The room check and the compare-and-swap on prod.head (a plain store if `sp`). */
  function ReserveStep<T>(c: Config, s: Sys<T>, t: nat): Sys<T>
    requires t < |s.prods| && s.prods[t].Reserve?
  {
    var Reserve(objs, fixed, head, tail) := s.prods[t];
    var free: int := c.mask + tail - head;
    if |objs| > free && fixed then SetProd(s, t, Resting(-NOBUF))
    else if |objs| > free && free <= 0 then SetProd(s, t, Resting(0))
    else if c.sp || s.prodHead == head then
      var items := if |objs| > free then objs[..free] else objs;
      SetProd(s, t, Copy(items, fixed, head, free, 0)).(prodHead := head + |items|, log := s.log + items)
    else SetProd(s, t, ReadHead(objs, fixed))
  }

  function ProduceStep<T>(c: Config, s: Sys<T>, t: nat): Sys<T>
    requires t < |s.prods| && |s.ring| > 0
  {
    match s.prods[t]
    case Resting(_) => s
    case ReadHead(objs, fixed) => SetProd(s, t, ReadTail(objs, fixed, s.prodHead))
    case ReadTail(objs, fixed, head) => SetProd(s, t, Reserve(objs, fixed, head, s.consTail))
    case Reserve(_, _, _, _) => ReserveStep(c, s, t)
    case Copy(items, fixed, head, free, done) =>
      if done < |items| then
        SetProd(s, t, Copy(items, fixed, head, free, done + 1))
          .(ring := s.ring[At(head + done, |s.ring|) := items[done]])
      else if c.sp then
        SetProd(s, t, Resting(EnqueueResult(c, fixed, free, |items|))).(prodTail := head + |items|)
      else if s.prodTail == head then SetProd(s, t, Publish(items, fixed, head, free))
      else s
    case Publish(items, fixed, head, free) =>
      SetProd(s, t, Resting(EnqueueResult(c, fixed, free, |items|))).(prodTail := head + |items|)
  }

  function ClaimStep<T>(c: Config, s: Sys<T>, t: nat): Sys<T>
    requires t < |s.cons| && s.cons[t].Claim?
  {
    var Claim(max, fixed, head, tail) := s.cons[t];
    var entries: int := tail - head;
    if max > entries && fixed then SetCons(s, t, Waiting(-NOENT))
    else if max > entries && entries <= 0 then SetCons(s, t, Waiting(0))
    else if c.sc || s.consHead == head then
      var n: nat := if max > entries then entries else max;
      SetCons(s, t, Fetch(n, fixed, head, [])).(consHead := head + n)
    else SetCons(s, t, LoadHead(max, fixed))
  }

  function Finish<T>(s: Sys<T>, t: nat, fixed: bool, head: nat, got: seq<T>): Sys<T>
    requires t < |s.cons|
  {
    SetCons(s, t, Waiting(if fixed then 0 else |got|))
      .(consTail := head + |got|, delivered := s.delivered + got)
  }

  function ConsumeStep<T>(c: Config, s: Sys<T>, t: nat): Sys<T>
    requires t < |s.cons| && |s.ring| > 0
  {
    match s.cons[t]
    case Waiting(_) => s
    case LoadHead(max, fixed) => SetCons(s, t, LoadTail(max, fixed, s.consHead))
    case LoadTail(max, fixed, head) => SetCons(s, t, Claim(max, fixed, head, s.prodTail))
    case Claim(_, _, _, _) => ClaimStep(c, s, t)
    case Fetch(n, fixed, head, got) =>
      if |got| < n then SetCons(s, t, Fetch(n, fixed, head, got + [s.ring[At(head + |got|, |s.ring|)]]))
      else if c.sc then Finish(s, t, fixed, head, got)
      else if s.consTail == head then SetCons(s, t, Release(fixed, head, got))
      else s
    case Release(fixed, head, got) => Finish(s, t, fixed, head, got)
  }

  predicate Enabled<T>(s: Sys<T>, x: Step<T>) {
    match x
    case Enqueue(t, _, _) => t < |s.prods| && s.prods[t].Resting?
    case Produce(t) => t < |s.prods|
    case Dequeue(t, _, _) => t < |s.cons| && s.cons[t].Waiting?
    case Consume(t) => t < |s.cons|
  }

  predicate Empty<T>(x: Step<T>) {
    (x.Enqueue? && x.objs == []) || (x.Dequeue? && x.max == 0)
  }

  /** Requests for nothing matter to no one else where there is no other producer, or no place. */
  predicate LoneProducer(c: Config, producers: nat) {
    producers <= 1 || c.mask == 0
  }

  /** Likewise where there is no other consumer, or never an item. */
  predicate LoneConsumer(c: Config, producers: nat, consumers: nat) {
    consumers <= 1 || producers == 0 || c.mask == 0
  }

  /** Requests for nothing that can do harm: see TailsNeverGoBackIff. */
  predicate Risky<T>(c: Config, producers: nat, consumers: nat, x: Step<T>) {
    || (x.Enqueue? && x.objs == [] && !LoneProducer(c, producers))
    || (x.Dequeue? && x.max == 0 && !LoneConsumer(c, producers, consumers))
  }

  function Do<T>(c: Config, s: Sys<T>, x: Step<T>): (r: Sys<T>)
    requires Enabled(s, x) && |s.ring| > 0
    ensures |r.ring| == |s.ring| && |r.prods| == |s.prods| && |r.cons| == |s.cons|
  {
    match x
    case Enqueue(t, objs, fixed) => SetProd(s, t, ReadHead(objs, fixed))
    case Produce(t) => ProduceStep(c, s, t)
    case Dequeue(t, max, fixed) => SetCons(s, t, LoadHead(max, fixed))
    case Consume(t) => ConsumeStep(c, s, t)
  }

  /** `llring_init`, with any number of threads at rest. */
  function Start<T>(ring: seq<T>, producers: nat, consumers: nat): Sys<T> {
    Sys(ring, 0, 0, 0, 0, seq(producers, _ => Resting(0)), seq(consumers, _ => Waiting(0)), [], [])
  }

  predicate Legal<T>(c: Config, s: Sys<T>, run: seq<Step<T>>)
    requires |s.ring| > 0
    decreases run
  {
    run == [] || (Enabled(s, run[0]) && Legal(c, Do(c, s, run[0]), run[1..]))
  }

  function Exec<T>(c: Config, s: Sys<T>, run: seq<Step<T>>): Sys<T>
    requires |s.ring| > 0 && Legal(c, s, run)
    decreases run
  {
    if run == [] then s else Exec(c, Do(c, s, run[0]), run[1..])
  }

  // ---------------------------------------------------------------- the invariant

  /** The four indices never overtake each other, and the ring is never overfull. */
  ghost predicate Ordered<T>(c: Config, s: Sys<T>) {
    && |s.ring| == c.mask + 1
    && |s.log| == s.prodHead
    && (s.prods == [] ==> s.prodHead == 0)
    && s.consTail <= s.consHead <= s.prodTail <= s.prodHead <= s.consTail + c.mask
  }

  /** Every published item is in its slot until its dequeue is over. */
  ghost predicate Stored<T>(ring: seq<T>, log: seq<T>, from: nat, to: nat) {
    |ring| > 0 && to <= |log| && forall p :: from <= p < to ==> ring[At(p, |ring|)] == log[p]
  }

  /** A producer that holds places [head, head + |items|). */
  predicate Holding<T>(p: Producer<T>) {
    p.Copy? || p.Publish?
  }

  /** A burst has items, or nobody to disturb. */
  predicate Asks<T>(c: Config, s: Sys<T>, items: seq<T>) {
    items != [] || LoneProducer(c, |s.prods|)
  }

  predicate Wants<T>(c: Config, s: Sys<T>, n: nat) {
    n > 0 || LoneConsumer(c, |s.prods|, |s.cons|)
  }

  ghost predicate ProducerOk<T>(c: Config, s: Sys<T>, p: Producer<T>) {
    // a lone producer has nothing outstanding except while it holds places
    && (c.sp ==> s.prodHead == if Holding(p) then p.head + |p.items| else s.prodTail)
    && match p
       case Resting(_) => true
       case ReadHead(objs, _) => Asks(c, s, objs)
       case ReadTail(objs, _, head) => Asks(c, s, objs) && head <= s.prodHead && (c.sp ==> head == s.prodHead)
       case Reserve(objs, _, head, tail) =>
         && Asks(c, s, objs) && head <= s.prodHead && (c.sp ==> head == s.prodHead)
         && tail <= s.consTail && head <= tail + c.mask
       case Copy(items, _, head, _, done) =>
         && Asks(c, s, items) && done <= |items|
         && s.prodTail <= head && head + |items| <= s.prodHead <= |s.log|
         && items == s.log[head..head + |items|]
         && Stored(s.ring, s.log, head, head + done)
         && (c.sp ==> head == s.prodTail)
       case Publish(items, _, head, _) =>
         && Asks(c, s, items)
         && s.prodTail == head && head + |items| <= s.prodHead <= |s.log|
         && items == s.log[head..head + |items|]
         && Stored(s.ring, s.log, head, head + |items|)
  }

  predicate Claiming<T>(k: Consumer<T>) {
    k.Fetch? || k.Release?
  }

  function ClaimSize<T>(k: Consumer<T>): nat
    requires Claiming(k)
  {
    if k.Fetch? then k.n else |k.got|
  }

  ghost predicate ConsumerOk<T>(c: Config, s: Sys<T>, k: Consumer<T>) {
    && (c.sc ==> s.consHead == if Claiming(k) then k.head + ClaimSize(k) else s.consTail)
    && match k
       case Waiting(_) => true
       case LoadHead(max, _) => Wants(c, s, max)
       case LoadTail(max, _, head) => Wants(c, s, max) && head <= s.consHead && (c.sc ==> head == s.consHead)
       case Claim(max, _, head, tail) =>
         && Wants(c, s, max) && head <= s.consHead && (c.sc ==> head == s.consHead)
         && head <= tail <= s.prodTail
       case Fetch(n, _, head, got) =>
         && Wants(c, s, n) && |got| <= n
         && s.consTail <= head && head + n <= s.consHead <= |s.log|
         && got == s.log[head..head + |got|]
         && (c.sc ==> head == s.consTail)
       case Release(_, head, got) =>
         && Wants(c, s, |got|)
         && s.consTail == head && head + |got| <= s.consHead <= |s.log|
         && got == s.log[head..head + |got|]
  }

  /** No two threads hold the same place. */
  ghost predicate ProducersApart<T>(prods: seq<Producer<T>>) {
    forall i, j :: 0 <= i < |prods| && 0 <= j < |prods| && i != j && Holding(prods[i]) && Holding(prods[j]) ==>
      prods[i].head + |prods[i].items| <= prods[j].head || prods[j].head + |prods[j].items| <= prods[i].head
  }

  ghost predicate ConsumersApart<T>(cons: seq<Consumer<T>>) {
    forall i, j :: 0 <= i < |cons| && 0 <= j < |cons| && i != j && Claiming(cons[i]) && Claiming(cons[j]) ==>
      cons[i].head + ClaimSize(cons[i]) <= cons[j].head || cons[j].head + ClaimSize(cons[j]) <= cons[i].head
  }

  ghost predicate ThreadsOk<T>(c: Config, s: Sys<T>) {
    && (forall t :: 0 <= t < |s.prods| ==> ProducerOk(c, s, s.prods[t]))
    && (forall t :: 0 <= t < |s.cons| ==> ConsumerOk(c, s, s.cons[t]))
    && (c.sp ==> |s.prods| <= 1)
    && (c.sc ==> |s.cons| <= 1)
  }

  ghost predicate Inv<T>(c: Config, s: Sys<T>) {
    && Ordered(c, s)
    && Stored(s.ring, s.log, s.consTail, s.prodTail)
    && s.delivered == s.log[..s.consTail]
    && ThreadsOk(c, s)
    && ProducersApart(s.prods)
    && ConsumersApart(s.cons)
  }
}
