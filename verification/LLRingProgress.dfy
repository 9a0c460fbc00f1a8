/** No place is ever lost: whatever is reserved and not yet published is held by a thread, and
    the thread whose places come next can always finish. */
module LLRingProgress {
  import opened LLRing
  import opened LLRingSafety
  import opened RingIndex

  predicate HeldBy<T>(s: Sys<T>, place: nat, t: nat) {
    t < |s.prods| && Holding(s.prods[t]) && s.prods[t].head <= place < s.prods[t].head + |s.prods[t].items|
  }

  ghost predicate Held<T>(s: Sys<T>, place: nat) {
    exists t: nat :: HeldBy(s, place, t)
  }

  ghost predicate AllHeld<T>(s: Sys<T>) {
    forall place: nat :: s.prodTail <= place < s.prodHead ==> Held(s, place)
  }

  predicate ClaimedBy<T>(s: Sys<T>, place: nat, t: nat) {
    t < |s.cons| && Claiming(s.cons[t]) && s.cons[t].head <= place < s.cons[t].head + ClaimSize(s.cons[t])
  }

  ghost predicate Claimed<T>(s: Sys<T>, place: nat) {
    exists t: nat :: ClaimedBy(s, place, t)
  }

  ghost predicate AllClaimed<T>(s: Sys<T>) {
    forall place: nat :: s.consTail <= place < s.consHead ==> Claimed(s, place)
  }

  lemma ProduceKeepsHeld<T>(c: Config, s: Sys<T>, t: nat)
    requires Inv(c, s) && AllHeld(s) && t < |s.prods|
    ensures AllHeld(ProduceStep(c, s, t))
  {
    var s' := ProduceStep(c, s, t);
    assert ProducerOk(c, s, s.prods[t]);
    forall place: nat | s'.prodTail <= place < s'.prodHead ensures Held(s', place) {
      if place < s.prodHead {
        assert Held(s, place);
        var u: nat :| HeldBy(s, place, u);
        assert HeldBy(s', place, u);
      } else {
        assert HeldBy(s', place, t);
      }
    }
  }

  lemma ConsumeKeepsClaimed<T>(c: Config, s: Sys<T>, t: nat)
    requires Inv(c, s) && AllClaimed(s) && t < |s.cons|
    ensures AllClaimed(ConsumeStep(c, s, t))
  {
    var s' := ConsumeStep(c, s, t);
    assert ConsumerOk(c, s, s.cons[t]);
    forall place: nat | s'.consTail <= place < s'.consHead ensures Claimed(s', place) {
      if place < s.consHead {
        assert Claimed(s, place);
        var u: nat :| ClaimedBy(s, place, u);
        assert ClaimedBy(s', place, u);
      } else {
        assert ClaimedBy(s', place, t);
      }
    }
  }

  lemma SameHeld<T>(s: Sys<T>, s': Sys<T>)
    requires AllHeld(s) && s'.prodTail == s.prodTail && s'.prodHead == s.prodHead && |s'.prods| == |s.prods|
    requires forall t :: 0 <= t < |s.prods| && Holding(s.prods[t]) ==> s'.prods[t] == s.prods[t]
    ensures AllHeld(s')
  {
    forall place: nat | s'.prodTail <= place < s'.prodHead ensures Held(s', place) {
      assert Held(s, place);
      var t: nat :| HeldBy(s, place, t);
      assert HeldBy(s', place, t);
    }
  }

  lemma SameClaimed<T>(s: Sys<T>, s': Sys<T>)
    requires AllClaimed(s) && s'.consTail == s.consTail && s'.consHead == s.consHead && |s'.cons| == |s.cons|
    requires forall t :: 0 <= t < |s.cons| && Claiming(s.cons[t]) ==> s'.cons[t] == s.cons[t]
    ensures AllClaimed(s')
  {
    forall place: nat | s'.consTail <= place < s'.consHead ensures Claimed(s', place) {
      assert Claimed(s, place);
      var t: nat :| ClaimedBy(s, place, t);
      assert ClaimedBy(s', place, t);
    }
  }

  lemma StepKeepsHeld<T>(c: Config, s: Sys<T>, x: Step<T>)
    requires Inv(c, s) && AllHeld(s) && AllClaimed(s) && Enabled(s, x)
    ensures AllHeld(Do(c, s, x)) && AllClaimed(Do(c, s, x))
  {
    var s' := Do(c, s, x);
    if x.Produce? {
      ProduceKeepsHeld(c, s, x.t);
    } else {
      SameHeld(s, s');
    }
    if x.Consume? {
      ConsumeKeepsClaimed(c, s, x.t);
    } else {
      SameClaimed(s, s');
    }
  }

  lemma {:induction false} RunKeepsHeld<T>(c: Config, s: Sys<T>, run: seq<Step<T>>)
    requires Inv(c, s) && AllHeld(s) && AllClaimed(s) && Legal(c, s, run)
    requires forall i :: 0 <= i < |run| ==> !Risky(c, |s.prods|, |s.cons|, run[i])
    ensures AllHeld(Exec(c, s, run)) && AllClaimed(Exec(c, s, run)) && Inv(c, Exec(c, s, run))
    decreases run
  {
    if run != [] {
      StepKeepsInv(c, s, run[0]);
      StepKeepsHeld(c, s, run[0]);
      RunKeepsHeld(c, Do(c, s, run[0]), run[1..]);
    }
  }

  // ------------------------------------------------------------ a schedule that gets on

  /** `n` steps of the same thread. */
  function Again<T>(x: Step<T>, n: nat): (run: seq<Step<T>>)
    ensures |run| == n && forall i | 0 <= i < n :: run[i] == x
  {
    seq(n, _ => x)
  }

  lemma AgainSplit<T>(x: Step<T>, n: nat)
    requires n > 0
    ensures Again(x, n)[0] == x && Again(x, n)[1..] == Again(x, n - 1)
  {
  }

  /** What copying from place `done` on leaves: every write of the burst. */
  ghost function Written<T>(s: Sys<T>, t: nat): Sys<T>
    requires |s.ring| > 0 && t < |s.prods| && s.prods[t].Copy? && s.prods[t].done <= |s.prods[t].items|
  {
    var p := s.prods[t];
    SetProd(s, t, p.(done := |p.items|)).(ring := PutAll(s.ring, p.head + p.done, p.items[p.done..]))
  }

  lemma {:induction false} PutFirst<T>(ring: seq<T>, head: nat, x: T, items: seq<T>)
    requires |ring| > 0
    ensures PutAll(ring, head, [x] + items) == PutAll(ring[At(head, |ring|) := x], head + 1, items)
    decreases |items|
  {
    var all := [x] + items;
    if items == [] {
      assert all == [x] && all[..0] == [];
      assert PutAll(ring, head, []) == ring;
    } else {
      var n := |items| - 1;
      assert all[..|all| - 1] == [x] + items[..n];
      PutFirst(ring, head, x, items[..n]);
    }
  }

  lemma WrittenStep<T>(c: Config, s: Sys<T>, t: nat)
    requires |s.ring| > 0 && t < |s.prods| && s.prods[t].Copy? && s.prods[t].done < |s.prods[t].items|
    ensures Written(ProduceStep(c, s, t), t) == Written(s, t)
  {
    var p, s1 := s.prods[t], ProduceStep(c, s, t);
    assert p.items[p.done..] == [p.items[p.done]] + p.items[p.done + 1..];
    PutFirst(s.ring, p.head + p.done, p.items[p.done], p.items[p.done + 1..]);
    assert s1.prods[t := p.(done := |p.items|)] == s.prods[t := p.(done := |p.items|)];
  }

  /** The one-slot copy steps of a producer together write what the copy macro writes. */
  lemma {:induction false} CopyRun<T>(c: Config, s: Sys<T>, t: nat)
    requires |s.ring| > 0 && t < |s.prods| && s.prods[t].Copy? && s.prods[t].done <= |s.prods[t].items|
    ensures var run := Again(Produce(t), |s.prods[t].items| - s.prods[t].done);
      Legal(c, s, run) && Exec(c, s, run) == Written(s, t)
    decreases |s.prods[t].items| - s.prods[t].done
  {
    var p := s.prods[t];
    var n := |p.items| - p.done;
    if n == 0 {
      assert p.items[p.done..] == [] && p.(done := |p.items|) == p && s.prods[t := p] == s.prods;
    } else {
      var x: Step<T> := Produce(t);
      AgainSplit(x, n);
      CopyRun(c, Do(c, s, x), t);
      WrittenStep(c, s, t);
    }
  }

  /** What fetching the rest of a claim leaves: every read of it. */
  ghost function Read<T>(s: Sys<T>, t: nat): Sys<T>
    requires |s.ring| > 0 && t < |s.cons| && s.cons[t].Fetch? && |s.cons[t].got| <= s.cons[t].n
  {
    var k := s.cons[t];
    SetCons(s, t, Fetch(k.n, k.fixed, k.head, k.got + GetAll(s.ring, k.head + |k.got|, k.n - |k.got|)))
  }

  lemma {:induction false} GetFirst<T>(ring: seq<T>, head: nat, n: nat)
    requires |ring| > 0
    ensures GetAll(ring, head, n + 1) == [ring[At(head, |ring|)]] + GetAll(ring, head + 1, n)
    decreases n
  {
    if n == 0 {
      assert GetAll(ring, head, 0) == [] && GetAll(ring, head + 1, 0) == [];
    } else {
      GetFirst(ring, head, n - 1);
    }
  }

  /** The one-slot fetch steps of a consumer together read what the copy macro reads. */
  lemma {:induction false} FetchRun<T>(c: Config, s: Sys<T>, t: nat)
    requires |s.ring| > 0 && t < |s.cons| && s.cons[t].Fetch? && |s.cons[t].got| <= s.cons[t].n
    ensures var run := Again(Consume(t), s.cons[t].n - |s.cons[t].got|);
      Legal(c, s, run) && Exec(c, s, run) == Read(s, t)
    decreases s.cons[t].n - |s.cons[t].got|
  {
    var k := s.cons[t];
    var n, p := k.n - |k.got|, k.head + |k.got|;
    if n == 0 {
      assert k.got + GetAll(s.ring, p, 0) == k.got && s.cons[t := k] == s.cons;
    } else {
      var x: Step<T> := Consume(t);
      AgainSplit(x, n);
      var s1, item := Do(c, s, x), s.ring[At(p, |s.ring|)];
      FetchRun(c, s1, t);
      GetFirst(s.ring, p, n - 1);
      assert (k.got + [item]) + GetAll(s.ring, p + 1, n - 1) == k.got + GetAll(s.ring, p, n);
      var k' := Fetch(k.n, k.fixed, k.head, k.got + GetAll(s.ring, p, n));
      assert s1.cons[t := k'] == s.cons[t := k'];
    }
  }

  lemma {:induction false} ExecAfter<T>(c: Config, s: Sys<T>, run1: seq<Step<T>>, run2: seq<Step<T>>)
    requires |s.ring| > 0 && Legal(c, s, run1) && |Exec(c, s, run1).ring| > 0 && Legal(c, Exec(c, s, run1), run2)
    ensures Legal(c, s, run1 + run2) && Exec(c, s, run1 + run2) == Exec(c, Exec(c, s, run1), run2)
    decreases run1
  {
    if run1 == [] {
      assert run1 + run2 == run2;
    } else {
      assert (run1 + run2)[0] == run1[0] && (run1 + run2)[1..] == run1[1..] + run2;
      ExecAfter(c, Do(c, s, run1[0]), run1[1..], run2);
    }
  }

  lemma {:induction false} OneStepOf<T>(c: Config, s: Sys<T>, x: Step<T>)
    requires |s.ring| > 0 && Enabled(s, x)
    ensures Legal(c, s, Again(x, 1)) && Exec(c, s, Again(x, 1)) == Do(c, s, x)
  {
    AgainSplit(x, 1);
    assert Again(x, 0) == [];
    assert Exec(c, Do(c, s, x), []) == Do(c, s, x);
  }

  lemma {:induction false} TwoStepsOf<T>(c: Config, s: Sys<T>, x: Step<T>)
    requires |s.ring| > 0 && Enabled(s, x) && Enabled(Do(c, s, x), x)
    ensures Legal(c, s, Again(x, 2)) && Exec(c, s, Again(x, 2)) == Do(c, Do(c, s, x), x)
  {
    AgainSplit(x, 2);
    OneStepOf(c, Do(c, s, x), x);
  }

  lemma AgainJoin<T>(x: Step<T>, m: nat, n: nat)
    ensures Again(x, m) + Again(x, n) == Again(x, m + n)
  {
  }

  /** `n` steps of producer `t` alone publish everything it holds. */
  ghost predicate Publishes<T>(c: Config, s: Sys<T>, t: nat, n: nat)
    requires |s.ring| > 0 && t < |s.prods| && Holding(s.prods[t])
  {
    var run := Again(Produce(t), n);
    Legal(c, s, run) && Exec(c, s, run).prodTail == s.prods[t].head + |s.prods[t].items|
  }

  lemma {:induction false} ProducerFinishes<T>(c: Config, s: Sys<T>, t: nat) returns (n: nat)
    requires Inv(c, s) && t < |s.prods| && Holding(s.prods[t]) && s.prods[t].head == s.prodTail
    ensures Publishes(c, s, t, n)
  {
    var p, x: Step<T> := s.prods[t], Produce(t);
    assert ProducerOk(c, s, p);
    if p.Publish? {
      n := 1;
      OneStepOf(c, s, x);
    } else {
      var m := |p.items| - p.done;
      CopyRun(c, s, t);
      var l := CopiedFinishes(c, Written(s, t), t);
      n := m + l;
      ExecAfter(c, s, Again(x, m), Again(x, l));
      AgainJoin(x, m, l);
    }
  }

  lemma {:induction false} CopiedFinishes<T>(c: Config, s: Sys<T>, t: nat) returns (n: nat)
    requires |s.ring| > 0 && t < |s.prods| && s.prods[t].Copy? && s.prods[t].done == |s.prods[t].items|
    requires s.prods[t].head == s.prodTail
    ensures Publishes(c, s, t, n)
  {
    if c.sp {
      n := 1;
      OneStepOf(c, s, Produce(t));
    } else {
      n := 2;
      TwoStepsOf(c, s, Produce(t));
    }
  }

  /** `n` steps of consumer `t` alone hand out everything it has claimed. */
  ghost predicate Delivers<T>(c: Config, s: Sys<T>, t: nat, n: nat)
    requires |s.ring| > 0 && t < |s.cons| && Claiming(s.cons[t])
  {
    var run := Again(Consume(t), n);
    Legal(c, s, run) && Exec(c, s, run).consTail == s.cons[t].head + ClaimSize(s.cons[t])
  }

  lemma {:induction false} ConsumerFinishes<T>(c: Config, s: Sys<T>, t: nat) returns (n: nat)
    requires Inv(c, s) && t < |s.cons| && Claiming(s.cons[t]) && s.cons[t].head == s.consTail
    ensures Delivers(c, s, t, n)
  {
    var k, x: Step<T> := s.cons[t], Consume(t);
    assert ConsumerOk(c, s, k);
    if k.Release? {
      n := 1;
      OneStepOf(c, s, x);
    } else {
      var m := k.n - |k.got|;
      FetchRun(c, s, t);
      var l := FetchedFinishes(c, Read(s, t), t);
      n := m + l;
      ExecAfter(c, s, Again(x, m), Again(x, l));
      AgainJoin(x, m, l);
    }
  }

  lemma {:induction false} FetchedFinishes<T>(c: Config, s: Sys<T>, t: nat) returns (n: nat)
    requires |s.ring| > 0 && t < |s.cons| && s.cons[t].Fetch? && |s.cons[t].got| == s.cons[t].n
    requires s.cons[t].head == s.consTail
    ensures Delivers(c, s, t, n)
  {
    if c.sc {
      n := 1;
      OneStepOf(c, s, Consume(t));
    } else {
      n := 2;
      TwoStepsOf(c, s, Consume(t));
    }
  }

  lemma NextPublisher<T>(c: Config, s: Sys<T>) returns (t: nat)
    requires Inv(c, s) && AllHeld(s) && s.prodTail < s.prodHead
    ensures HeldBy(s, s.prodTail, t) && s.prods[t].head == s.prodTail
  {
    assert Held(s, s.prodTail);
    t :| HeldBy(s, s.prodTail, t);
    assert ProducerOk(c, s, s.prods[t]);
  }

  lemma NextDeliverer<T>(c: Config, s: Sys<T>) returns (t: nat)
    requires Inv(c, s) && AllClaimed(s) && s.consTail < s.consHead
    ensures ClaimedBy(s, s.consTail, t) && s.cons[t].head == s.consTail
  {
    assert Claimed(s, s.consTail);
    t :| ClaimedBy(s, s.consTail, t);
    assert ConsumerOk(c, s, s.cons[t]);
  }

  /** `n` steps of producer `t` move prod.tail over its places, of which there are some. */
  ghost predicate MovesProdTail<T>(c: Config, s: Sys<T>, t: nat, n: nat)
    requires |s.ring| > 0
  {
    HeldBy(s, s.prodTail, t) && s.prods[t].head == s.prodTail && Publishes(c, s, t, n)
  }

  ghost predicate MovesConsTail<T>(c: Config, s: Sys<T>, t: nat, n: nat)
    requires |s.ring| > 0
  {
    ClaimedBy(s, s.consTail, t) && s.cons[t].head == s.consTail && Delivers(c, s, t, n)
  }

  /** In every run: if reserved places are unpublished, some producer, left to itself, publishes the
      next of them in finitely many steps, whatever the other threads are waiting for; and likewise
      for claimed places and a consumer. So the spinning threads never all wait for each other. */
  lemma {:induction false} SomeoneCanFinish<T>(c: Config, ring: seq<T>, producers: nat, consumers: nat, run: seq<Step<T>>, s: Sys<T>)
    requires |ring| == c.mask + 1 && (c.sp ==> producers <= 1) && (c.sc ==> consumers <= 1)
    requires Legal(c, Start(ring, producers, consumers), run) && s == Exec(c, Start(ring, producers, consumers), run)
    requires forall i :: 0 <= i < |run| ==> !Risky(c, producers, consumers, run[i])
    ensures |s.ring| > 0
    ensures s.prodTail < s.prodHead ==> exists t: nat, n: nat :: MovesProdTail(c, s, t, n)
    ensures s.consTail < s.consHead ==> exists t: nat, n: nat :: MovesConsTail(c, s, t, n)
  {
    StartHasInv(c, ring, producers, consumers);
    RunKeepsHeld(c, Start(ring, producers, consumers), run);
    if s.prodTail < s.prodHead {
      var t := NextPublisher(c, s);
      var n := ProducerFinishes(c, s, t);
      assert MovesProdTail(c, s, t, n);
    }
    if s.consTail < s.consHead {
      var t := NextDeliverer(c, s);
      var n := ConsumerFinishes(c, s, t);
      assert MovesConsTail(c, s, t, n);
    }
  }
}
