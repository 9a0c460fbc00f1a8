/** What each call on the ring was asked for, what it did, and what it returned. The book is kept
    beside the run: it reads the calls off the events, and the effects off the shared indices. */
module LLRingCalls {
  import opened LLRing
  import opened LLRingSafety

  /** An enqueue as asked for; `head` and `seen` are prod.head and cons.tail as it last read them,
      `took` is by how much it moved prod.head, once it has. */
  datatype Put<T> =
    | NoPut
    | Put(objs: seq<T>, fixed: bool, head: nat, seen: nat, took: int, placed: bool)

  /** A dequeue as asked for; `head` and `seen` are cons.head and prod.tail. */
  datatype Get =
    | NoGet
    | Get(max: nat, fixed: bool, head: nat, seen: nat, took: int, placed: bool)

  /** The last call of each thread, and the items whose places prod.head was moved over. */
  datatype Book<T> = Book(puts: seq<Put<T>>, gets: seq<Get>, items: seq<T>)

  function Blank<T>(producers: nat, consumers: nat): Book<T> {
    Book(seq(producers, _ => NoPut), seq(consumers, _ => NoGet), [])
  }

  /** The first `n` of what was asked for. */
  function First<T>(objs: seq<T>, n: int): seq<T> {
    if 0 <= n <= |objs| then objs[..n] else []
  }

  function NotePut<T>(s: Sys<T>, s': Sys<T>, t: nat, p: Put<T>): Put<T>
    requires t < |s.prods| == |s'.prods|
  {
    if p.NoPut? then p
    else if s.prods[t].ReadHead? then p.(head := s.prodHead)
    else if s.prods[t].ReadTail? then p.(seen := s.consTail)
    else if s.prods[t].Reserve? && s'.prods[t].Copy? then p.(took := s'.prodHead - s.prodHead, placed := true)
    else p
  }

  function NoteGet<T>(s: Sys<T>, s': Sys<T>, t: nat, g: Get): Get
    requires t < |s.cons| == |s'.cons|
  {
    if g.NoGet? then g
    else if s.cons[t].LoadHead? then g.(head := s.consHead)
    else if s.cons[t].LoadTail? then g.(seen := s.prodTail)
    else if s.cons[t].Claim? && s'.cons[t].Fetch? then g.(took := s'.consHead - s.consHead, placed := true)
    else g
  }

  predicate Fits<T>(s: Sys<T>, b: Book<T>) {
    |b.puts| == |s.prods| && |b.gets| == |s.cons|
  }

  function Note<T>(c: Config, s: Sys<T>, b: Book<T>, x: Step<T>): (r: Book<T>)
    requires Enabled(s, x) && |s.ring| > 0 && Fits(s, b)
    ensures Fits(Do(c, s, x), r)
  {
    var s' := Do(c, s, x);
    match x
    case Enqueue(t, objs, fixed) => b.(puts := b.puts[t := Put(objs, fixed, 0, 0, 0, false)])
    case Produce(t) =>
      var p := NotePut(s, s', t, b.puts[t]);
      var added := if p.Put? && s'.prodHead != s.prodHead then First(p.objs, s'.prodHead - s.prodHead) else [];
      b.(puts := b.puts[t := p], items := b.items + added)
    case Dequeue(t, max, fixed) => b.(gets := b.gets[t := Get(max, fixed, 0, 0, 0, false)])
    case Consume(t) => b.(gets := b.gets[t := NoteGet(s, s', t, b.gets[t])])
  }

  /** The book after a run. */
  function Kept<T>(c: Config, s: Sys<T>, b: Book<T>, run: seq<Step<T>>): Book<T>
    requires |s.ring| > 0 && Legal(c, s, run) && Fits(s, b)
    decreases run
  {
    if run == [] then b else Kept(c, Do(c, s, run[0]), Note(c, s, b, run[0]), run[1..])
  }

  // ------------------------------------------------------------ what a call promises

  /** The free entries an enqueue has seen. */
  function Room<T>(c: Config, p: Put<T>): int
    requires p.Put?
  {
    c.mask + p.seen - p.head
  }

  /** The call has its places: those of the first items asked for, all of them if their number is
      fixed or there was room, else as many as there was room for. */
  ghost predicate Placed<T>(c: Config, log: seq<T>, p: Put<T>) {
    && p.Put? && p.placed
    && 0 <= p.took <= |p.objs| && p.head + p.took <= |log|
    && log[p.head..p.head + p.took] == p.objs[..p.took]
    && (p.fixed || |p.objs| <= Room(c, p) ==> p.took == |p.objs|)
    && (|p.objs| > Room(c, p) ==> p.took == Room(c, p) > 0)
  }

  ghost predicate Unplaced<T>(p: Put<T>, objs: seq<T>, fixed: bool) {
    p.Put? && !p.placed && p.objs == objs && p.fixed == fixed
  }

  /** The value returned tells what happened: no room and nothing placed, or placed, and whether
      the watermark is exceeded. */
  ghost predicate Returned<T>(c: Config, log: seq<T>, p: Put<T>, ret: int) {
    p.Put? ==>
      if !p.placed then |p.objs| > Room(c, p) && (if p.fixed then ret == -NOBUF else Room(c, p) <= 0 == ret)
      else
        && Placed(c, log, p)
        && var over := c.mask + 1 - Room(c, p) + p.took > c.watermark;
           && (p.fixed ==> ret == if over then -QUOT else 0)
           && (!p.fixed && !over ==> ret == p.took)
           && (!p.fixed && over ==> ret + 0x8000_0000 == p.took)
  }

  ghost predicate PutOk<T>(c: Config, log: seq<T>, q: Producer<T>, p: Put<T>) {
    match q
    case Resting(ret) => Returned(c, log, p, ret)
    case ReadHead(objs, fixed) => Unplaced(p, objs, fixed)
    case ReadTail(objs, fixed, head) => Unplaced(p, objs, fixed) && p.head == head
    case Reserve(objs, fixed, head, tail) => Unplaced(p, objs, fixed) && p.head == head && p.seen == tail
    case Copy(items, fixed, head, free, _) =>
      Placed(c, log, p) && p.fixed == fixed && p.head == head && |items| == p.took && free == Room(c, p)
    case Publish(items, fixed, head, free) =>
      Placed(c, log, p) && p.fixed == fixed && p.head == head && |items| == p.took && free == Room(c, p)
  }

  ghost predicate Claimed(g: Get) {
    && g.Get? && g.placed
    && (g.fixed || g.max <= g.seen - g.head ==> g.took == g.max)
    && (g.max > g.seen - g.head ==> g.took == g.seen - g.head > 0)
  }

  ghost predicate Unclaimed(g: Get, max: nat, fixed: bool) {
    g.Get? && !g.placed && g.max == max && g.fixed == fixed
  }

  ghost predicate Handed(g: Get, ret: int) {
    g.Get? ==>
      if !g.placed then g.max > g.seen - g.head && (if g.fixed then ret == -NOENT else g.seen - g.head <= 0 == ret)
      else Claimed(g) && ret == if g.fixed then 0 else g.took
  }

  ghost predicate GetOk<T>(k: Consumer<T>, g: Get) {
    match k
    case Waiting(ret) => Handed(g, ret)
    case LoadHead(max, fixed) => Unclaimed(g, max, fixed)
    case LoadTail(max, fixed, head) => Unclaimed(g, max, fixed) && g.head == head
    case Claim(max, fixed, head, tail) => Unclaimed(g, max, fixed) && g.head == head && g.seen == tail
    case Fetch(n, fixed, head, _) => Claimed(g) && g.fixed == fixed && g.head == head && n == g.took
    case Release(fixed, head, got) => Claimed(g) && g.fixed == fixed && g.head == head && |got| == g.took
  }

  ghost predicate AllOk<T>(c: Config, s: Sys<T>, b: Book<T>) {
    && Fits(s, b) && s.log == b.items
    && (forall t :: 0 <= t < |s.prods| ==> PutOk(c, s.log, s.prods[t], b.puts[t]))
    && (forall t :: 0 <= t < |s.cons| ==> GetOk(s.cons[t], b.gets[t]))
  }

  // ------------------------------------------------------------ every step keeps it

  lemma PutFrame<T>(c: Config, log: seq<T>, log': seq<T>, q: Producer<T>, p: Put<T>)
    requires PutOk(c, log, q, p) && log <= log'
    ensures PutOk(c, log', q, p)
  {
    if p.Put? && p.placed && Placed(c, log, p) {
      assert log'[p.head..p.head + p.took] == log[p.head..p.head + p.took];
    }
  }

  lemma ReserveServes<T>(c: Config, s: Sys<T>, t: nat, p: Put<T>)
    requires |s.ring| > 0 && t < |s.prods| && s.prods[t].Reserve? && PutOk(c, s.log, s.prods[t], p)
    requires |s.log| == s.prodHead && (c.sp ==> s.prods[t].head == s.prodHead)
    ensures var s' := Do(c, s, Produce(t));
      var p' := NotePut(s, s', t, p);
      && PutOk(c, s'.log, s'.prods[t], p')
      && s'.log == s.log + if s'.prodHead != s.prodHead then First(p'.objs, s'.prodHead - s.prodHead) else []
  {
    var s' := Do(c, s, Produce(t));
    if s'.prods[t].Copy? {
      var items := s'.prods[t].items;
      assert s'.log == s.log + items;
      assert s'.log[s.prodHead..s.prodHead + |items|] == items;
    }
  }

  lemma ProduceServes<T>(c: Config, s: Sys<T>, t: nat, p: Put<T>)
    requires |s.ring| > 0 && t < |s.prods| && PutOk(c, s.log, s.prods[t], p)
    requires |s.log| == s.prodHead && ProducerOk(c, s, s.prods[t])
    ensures var s' := Do(c, s, Produce(t));
      var p' := NotePut(s, s', t, p);
      && PutOk(c, s'.log, s'.prods[t], p')
      && s'.log == s.log + if p'.Put? && s'.prodHead != s.prodHead then First(p'.objs, s'.prodHead - s.prodHead) else []
  {
    if s.prods[t].Reserve? {
      ReserveServes(c, s, t, p);
    }
  }

  lemma ConsumeServes<T>(c: Config, s: Sys<T>, t: nat, g: Get)
    requires |s.ring| > 0 && t < |s.cons| && GetOk(s.cons[t], g) && ConsumerOk(c, s, s.cons[t])
    ensures var s' := Do(c, s, Consume(t));
      GetOk(s'.cons[t], NoteGet(s, s', t, g)) && s'.log == s.log && s'.prods == s.prods
  {
  }

  /** A new call starts with nothing placed or claimed. */
  lemma AskServes<T>(c: Config, s: Sys<T>, b: Book<T>, x: Step<T>)
    requires (x.Enqueue? || x.Dequeue?) && |s.ring| > 0 && Enabled(s, x) && AllOk(c, s, b)
    ensures AllOk(c, Do(c, s, x), Note(c, s, b, x))
  {
  }

  lemma ProducersServe<T>(c: Config, s: Sys<T>, b: Book<T>, t: nat)
    requires Inv(c, s) && t < |s.prods| && AllOk(c, s, b)
    ensures AllOk(c, Do(c, s, Produce(t)), Note(c, s, b, Produce(t)))
  {
    var s', b' := Do(c, s, Produce(t)), Note(c, s, b, Produce(t));
    assert ProducerOk(c, s, s.prods[t]);
    ProduceServes(c, s, t, b.puts[t]);
    forall i | 0 <= i < |s'.prods| ensures PutOk(c, s'.log, s'.prods[i], b'.puts[i]) {
      if i != t {
        PutFrame(c, s.log, s'.log, s.prods[i], b.puts[i]);
      }
    }
    assert s'.cons == s.cons && b'.gets == b.gets;
  }

  lemma ConsumersServe<T>(c: Config, s: Sys<T>, b: Book<T>, t: nat)
    requires Inv(c, s) && t < |s.cons| && AllOk(c, s, b)
    ensures AllOk(c, Do(c, s, Consume(t)), Note(c, s, b, Consume(t)))
  {
    assert ConsumerOk(c, s, s.cons[t]);
    ConsumeServes(c, s, t, b.gets[t]);
  }

  lemma StepServes<T>(c: Config, s: Sys<T>, b: Book<T>, x: Step<T>)
    requires Inv(c, s) && Enabled(s, x) && AllOk(c, s, b)
    ensures AllOk(c, Do(c, s, x), Note(c, s, b, x))
  {
    match x
    case Enqueue(_, _, _) => AskServes(c, s, b, x);
    case Produce(t) => ProducersServe(c, s, b, t);
    case Dequeue(_, _, _) => AskServes(c, s, b, x);
    case Consume(t) => ConsumersServe(c, s, b, t);
  }

  lemma {:induction false} RunServes<T>(c: Config, s: Sys<T>, b: Book<T>, run: seq<Step<T>>)
    requires Inv(c, s) && Legal(c, s, run) && AllOk(c, s, b)
    requires forall i :: 0 <= i < |run| ==> !Risky(c, |s.prods|, |s.cons|, run[i])
    ensures AllOk(c, Exec(c, s, run), Kept(c, s, b, run))
    decreases run
  {
    if run != [] {
      StepKeepsInv(c, s, run[0]);
      StepServes(c, s, b, run[0]);
      RunServes(c, Do(c, s, run[0]), Note(c, s, b, run[0]), run[1..]);
    }
  }

  /** In every run, what dequeues have handed out is a prefix of what enqueues were asked to put in,
      call by call in the order of reservation; each enqueue has places for exactly the first items
      it was asked for, as many as its kind and the room it saw say, or none; each dequeue has
      claimed as many as its kind and the items it saw say, or none; and what a finished call has
      returned says which. */
  lemma {:induction false} EveryCallIsServed<T>(c: Config, ring: seq<T>, producers: nat, consumers: nat, run: seq<Step<T>>)
    requires |ring| == c.mask + 1 && (c.sp ==> producers <= 1) && (c.sc ==> consumers <= 1)
    requires Legal(c, Start(ring, producers, consumers), run)
    requires forall i :: 0 <= i < |run| ==> !Risky(c, producers, consumers, run[i])
    ensures
      var s0, b0: Book<T> := Start(ring, producers, consumers), Blank(producers, consumers);
      var s, b := Exec(c, s0, run), Kept(c, s0, b0, run);
      && AllOk(c, s, b)
      && s.consTail <= |b.items| && s.delivered == b.items[..s.consTail]
  {
    var s0, b0: Book<T> := Start(ring, producers, consumers), Blank(producers, consumers);
    StartHasInv(c, ring, producers, consumers);
    RunServes(c, s0, b0, run);
    RunKeepsInv(c, s0, run);
  }
}
