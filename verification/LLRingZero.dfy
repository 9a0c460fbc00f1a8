/** Requests for zero items: exactly when they can take an index back. */
module LLRingZero {
  import opened LLRing
  import opened LLRingSafety

  /** A legal run of `s0`, empty requests nowhere but perhaps at the start, ends in `s`. */
  ghost predicate Leads<T>(c: Config, s0: Sys<T>, run: seq<Step<T>>, s: Sys<T>) {
    && |s0.ring| > 0 && |s.ring| == |s0.ring|
    && Legal(c, s0, run) && Exec(c, s0, run) == s
    && forall i | 1 <= i < |run| :: !Empty(run[i])
  }

  lemma Go<T>(c: Config, s0: Sys<T>, run: seq<Step<T>>, s: Sys<T>, x: Step<T>) returns (run': seq<Step<T>>, s': Sys<T>)
    requires Leads(c, s0, run, s) && Enabled(s, x) && (run == [] || !Empty(x))
    ensures run' == run + [x] && s' == Do(c, s, x) && Leads(c, s0, run', s')
  {
    OneMoreStep(c, s0, run, x);
    run', s' := run + [x], Do(c, s, x);
  }

  /** Producer `t` apart, the same threads, and the same consumers' indices. */
  ghost predicate ProducerRan<T>(s: Sys<T>, s': Sys<T>, t: nat) {
    && |s'.ring| == |s.ring| && |s'.prods| == |s.prods| && s'.cons == s.cons
    && (forall i | 0 <= i < |s.prods| && i != t :: s'.prods[i] == s.prods[i])
    && s'.consHead == s.consHead && s'.consTail == s.consTail
  }

  /** Consumer `t` apart, the same threads, and the same producers' indices. */
  ghost predicate ConsumerRan<T>(s: Sys<T>, s': Sys<T>, t: nat) {
    && s'.ring == s.ring && |s'.cons| == |s.cons| && s'.prods == s.prods
    && (forall i | 0 <= i < |s.cons| && i != t :: s'.cons[i] == s.cons[i])
    && s'.prodHead == s.prodHead && s'.prodTail == s.prodTail
  }

  // ------------------------------------------------------------ enqueues

  /** The accesses of an enqueue up to the reservation, on a ring where nothing is reserved. */
  lemma ReachReserve<T>(c: Config, s0: Sys<T>, run0: seq<Step<T>>, s: Sys<T>, t: nat, objs: seq<T>)
    returns (run: seq<Step<T>>, r: Sys<T>)
    requires Leads(c, s0, run0, s) && t < |s.prods| && s.prods[t].Resting? && (run0 == [] || objs != [])
    ensures Leads(c, s0, run, r) && run != [] && ProducerRan(s, r, t)
    ensures (run0 == [] ==> run[0] == Enqueue(t, objs, true)) && (run0 != [] ==> run[0] == run0[0])
    ensures r.prods[t] == Reserve(objs, true, s.prodHead, s.consTail)
    ensures r.prodHead == s.prodHead && r.prodTail == s.prodTail
  {
    run, r := Go(c, s0, run0, s, Enqueue(t, objs, true));
    run, r := Go(c, s0, run, r, Produce(t));
    run, r := Go(c, s0, run, r, Produce(t));
  }

  /** An enqueue of nothing that has seen its turn. */
  lemma EmptyReady<T>(c: Config, s0: Sys<T>, t: nat) returns (run: seq<Step<T>>, r: Sys<T>)
    requires |s0.ring| > 0 && !c.sp && t < |s0.prods| && s0.prods[t].Resting?
    requires s0.prodHead == s0.prodTail <= s0.consTail + c.mask
    ensures Leads(c, s0, run, r) && run != [] && run[0] == Enqueue(t, [], true) && ProducerRan(s0, r, t)
    ensures r.prods[t].Publish? && r.prods[t].head == s0.prodTail && r.prods[t].items == []
    ensures r.prodHead == s0.prodHead && r.prodTail == s0.prodTail
  {
    run, r := ReachReserve(c, s0, [], s0, t, []);
    run, r := Go(c, s0, run, r, Produce(t));
    assert r.prods[t].Copy? && r.prods[t].items == [];
    run, r := Go(c, s0, run, r, Produce(t));
  }

  /** A whole enqueue of one item, on a ring with room where nothing is reserved. */
  lemma EnqueueOne<T>(c: Config, s0: Sys<T>, run0: seq<Step<T>>, s: Sys<T>, t: nat, x: T)
    returns (run: seq<Step<T>>, r: Sys<T>)
    requires Leads(c, s0, run0, s) && run0 != [] && t < |s.prods| && s.prods[t].Resting?
    requires s.prodHead == s.prodTail < s.consTail + c.mask
    ensures Leads(c, s0, run, r) && run != [] && run[0] == run0[0] && ProducerRan(s, r, t)
    ensures r.prodHead == r.prodTail == s.prodTail + 1
  {
    run, r := ReachReserve(c, s0, run0, s, t, [x]);
    run, r := Go(c, s0, run, r, Produce(t));
    assert r.prods[t] == Copy([x], true, s.prodHead, c.mask + s.consTail - s.prodHead, 0);
    run, r := Go(c, s0, run, r, Produce(t));
    assert r.prods[t] == Copy([x], true, s.prodHead, c.mask + s.consTail - s.prodHead, 1);
    run, r := Go(c, s0, run, r, Produce(t));
    if !c.sp {
      run, r := Go(c, s0, run, r, Produce(t));
    }
  }

  /** With two producers or more, an enqueue of nothing that has seen its turn can store prod.tail
      after a later enqueue has moved it on, and so take it back; on every such ring. */
  lemma EmptyEnqueueTakesTailBack<T>(c: Config, ring: seq<T>, producers: nat, consumers: nat)
    returns (run: seq<Step<T>>, s: Sys<T>)
    requires |ring| == c.mask + 1 && c.mask >= 1 && !c.sp && producers >= 2
    ensures Leads(c, Start(ring, producers, consumers), run, s) && run != [] && run[0] == Enqueue(0, [], true)
    ensures Enabled(s, Produce(0)) && Do(c, s, Produce(0)).prodTail < s.prodTail
  {
    var s0 := Start(ring, producers, consumers);
    run, s := EmptyReady(c, s0, 0);
    assert s.prods[1] == s0.prods[1];
    var ready := s;
    run, s := EnqueueOne(c, s0, run, s, 1, ring[0]);
    assert s.prods[0] == ready.prods[0];
  }

  // ------------------------------------------------------------ dequeues

  lemma ReachClaim<T>(c: Config, s0: Sys<T>, run0: seq<Step<T>>, s: Sys<T>, t: nat, max: nat)
    returns (run: seq<Step<T>>, r: Sys<T>)
    requires Leads(c, s0, run0, s) && t < |s.cons| && s.cons[t].Waiting? && (run0 == [] || max > 0)
    ensures Leads(c, s0, run, r) && run != [] && ConsumerRan(s, r, t)
    ensures (run0 == [] ==> run[0] == Dequeue(t, max, true)) && (run0 != [] ==> run[0] == run0[0])
    ensures r.cons[t] == Claim(max, true, s.consHead, s.prodTail)
    ensures r.consHead == s.consHead && r.consTail == s.consTail
  {
    run, r := Go(c, s0, run0, s, Dequeue(t, max, true));
    run, r := Go(c, s0, run, r, Consume(t));
    run, r := Go(c, s0, run, r, Consume(t));
  }

  /** A dequeue of nothing that has seen its turn. */
  lemma EmptyDequeueReady<T>(c: Config, s0: Sys<T>, t: nat) returns (run: seq<Step<T>>, r: Sys<T>)
    requires |s0.ring| > 0 && !c.sc && t < |s0.cons| && s0.cons[t].Waiting? && s0.consHead == s0.consTail <= s0.prodTail
    ensures Leads(c, s0, run, r) && run != [] && run[0] == Dequeue(t, 0, true) && ConsumerRan(s0, r, t)
    ensures r.cons[t] == Release(true, s0.consTail, [])
    ensures r.consHead == s0.consHead && r.consTail == s0.consTail
  {
    run, r := ReachClaim(c, s0, [], s0, t, 0);
    run, r := Go(c, s0, run, r, Consume(t));
    assert r.cons[t] == Fetch(0, true, s0.consHead, []);
    run, r := Go(c, s0, run, r, Consume(t));
  }

  lemma DequeueOne<T>(c: Config, s0: Sys<T>, run0: seq<Step<T>>, s: Sys<T>, t: nat)
    returns (run: seq<Step<T>>, r: Sys<T>)
    requires Leads(c, s0, run0, s) && run0 != [] && !c.sc && t < |s.cons| && s.cons[t].Waiting?
    requires s.consHead == s.consTail < s.prodTail
    ensures Leads(c, s0, run, r) && run != [] && run[0] == run0[0] && ConsumerRan(s, r, t)
    ensures r.consTail == s.consTail + 1
  {
    run, r := ReachClaim(c, s0, run0, s, t, 1);
    run, r := Go(c, s0, run, r, Consume(t));
    assert r.cons[t] == Fetch(1, true, s.consHead, []);
    run, r := Go(c, s0, run, r, Consume(t));
    run, r := Go(c, s0, run, r, Consume(t));
    run, r := Go(c, s0, run, r, Consume(t));
  }

  /** Likewise for dequeues and cons.tail, as soon as a producer can put an item in. */
  lemma EmptyDequeueTakesTailBack<T>(c: Config, ring: seq<T>, producers: nat, consumers: nat)
    returns (run: seq<Step<T>>, s: Sys<T>)
    requires |ring| == c.mask + 1 && c.mask >= 1 && !c.sc && producers >= 1 && consumers >= 2
    ensures Leads(c, Start(ring, producers, consumers), run, s) && run != [] && run[0] == Dequeue(0, 0, true)
    ensures Enabled(s, Consume(0)) && Do(c, s, Consume(0)).consTail < s.consTail
  {
    var s0 := Start(ring, producers, consumers);
    run, s := EmptyDequeueReady(c, s0, 0);
    assert s.cons[1] == s0.cons[1];
    run, s := EnqueueOne(c, s0, run, s, 0, ring[0]);
    var ready := s;
    run, s := DequeueOne(c, s0, run, s, 1);
    assert s.cons[0] == ready.cons[0];
  }

  // ------------------------------------------------------------ the exact condition

  /** After `run`, step `x` takes prod.tail or cons.tail back. */
  ghost predicate TakesBack<T>(c: Config, s0: Sys<T>, run: seq<Step<T>>, x: Step<T>)
    requires |s0.ring| > 0
  {
    && Legal(c, s0, run)
    && var s := Exec(c, s0, run);
    && |s.ring| > 0 && Enabled(s, x)
    && (Do(c, s, x).prodTail < s.prodTail || Do(c, s, x).consTail < s.consTail)
  }

  /** No step of a state that keeps the invariant takes a tail back. */
  lemma StepAdvances<T>(c: Config, s: Sys<T>, x: Step<T>)
    requires Inv(c, s) && Enabled(s, x)
    ensures Do(c, s, x).prodTail >= s.prodTail && Do(c, s, x).consTail >= s.consTail
  {
    match x
    case Enqueue(_, _, _) =>
    case Dequeue(_, _, _) =>
    case Produce(t) => assert ProducerOk(c, s, s.prods[t]);
    case Consume(t) => assert ConsumerOk(c, s, s.cons[t]);
  }

  lemma {:induction false} NothingTakesBack<T>(c: Config, ring: seq<T>, producers: nat, consumers: nat, run: seq<Step<T>>, x: Step<T>)
    requires |ring| == c.mask + 1 && (c.sp ==> producers <= 1) && (c.sc ==> consumers <= 1)
    requires LoneProducer(c, producers) && LoneConsumer(c, producers, consumers)
    ensures !TakesBack(c, Start(ring, producers, consumers), run, x)
  {
    var s0 := Start(ring, producers, consumers);
    if Legal(c, s0, run) && |Exec(c, s0, run).ring| > 0 && Enabled(Exec(c, s0, run), x) {
      StartHasInv(c, ring, producers, consumers);
      RunKeepsInv(c, s0, run);
      StepAdvances(c, Exec(c, s0, run), x);
    }
  }

  /** With requests of any size, zero included, no run takes an index back if and only if the ring
      has no place, or there is at most one producer and, if there is one, at most one consumer. */
  lemma {:induction false} TailsNeverGoBackIff<T>(c: Config, ring: seq<T>, producers: nat, consumers: nat)
    requires |ring| == c.mask + 1 && (c.sp ==> producers <= 1) && (c.sc ==> consumers <= 1)
    ensures (forall run, x :: !TakesBack(c, Start(ring, producers, consumers), run, x)) <==>
      LoneProducer(c, producers) && LoneConsumer(c, producers, consumers)
  {
    if !LoneProducer(c, producers) {
      var run, s := EmptyEnqueueTakesTailBack(c, ring, producers, consumers);
      assert TakesBack(c, Start(ring, producers, consumers), run, Produce(0));
    } else if !LoneConsumer(c, producers, consumers) {
      var run, s := EmptyDequeueTakesTailBack(c, ring, producers, consumers);
      assert TakesBack(c, Start(ring, producers, consumers), run, Consume(0));
    } else {
      forall run, x ensures !TakesBack(c, Start(ring, producers, consumers), run, x) {
        NothingTakesBack(c, ring, producers, consumers, run, x);
      }
    }
  }
}
