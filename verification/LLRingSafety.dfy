/** Every access of every thread keeps the ring's invariant, whatever the interleaving. */
module LLRingSafety {
  import opened LLRing

  lemma MultipleBounds(k: int, n: nat)
    ensures k * n <= 0 || k * n >= n
  {
  }

  /** Places less than a ring apart are in different slots. */
  lemma SlotsDiffer(a: nat, b: nat, size: nat)
    requires a < b < a + size
    ensures At(a, size) != At(b, size)
  {
    assert a == (a / size) * size + a % size && b == (b / size) * size + b % size;
    assert (b / size) * size - (a / size) * size == (b / size - a / size) * size;
    MultipleBounds(b / size - a / size, size);
  }

  /** Writing place `w` does not disturb places less than a ring away. */
  lemma StoredAfterWrite<T>(ring: seq<T>, log: seq<T>, from: nat, to: nat, w: nat, x: T)
    requires Stored(ring, log, from, to)
    requires to <= w < from + |ring| || (w < from && to <= w + |ring|)
    ensures Stored(ring[At(w, |ring|) := x], log, from, to)
  {
    forall p | from <= p < to ensures ring[At(w, |ring|) := x][At(p, |ring|)] == log[p] {
      if p < w {
        SlotsDiffer(p, w, |ring|);
      } else {
        SlotsDiffer(w, p, |ring|);
      }
    }
  }

  lemma StoredLogGrows<T>(ring: seq<T>, log: seq<T>, log': seq<T>, from: nat, to: nat)
    requires Stored(ring, log, from, to) && log <= log'
    ensures Stored(ring, log', from, to)
  {
  }

  /** The places of a producer still hold their items. */
  ghost predicate KeepsPlaces<T>(s: Sys<T>, s': Sys<T>, p: Producer<T>)
    requires Holding(p)
  {
    && s'.prodTail <= p.head && (p.Publish? ==> s'.prodTail == p.head)
    && (p.Copy? ==> Stored(s'.ring, s'.log, p.head, p.head + p.done))
    && (p.Publish? ==> Stored(s'.ring, s'.log, p.head, p.head + |p.items|))
  }

  ghost predicate Grows<T>(s: Sys<T>, s': Sys<T>) {
    && |s'.ring| == |s.ring| && |s'.prods| == |s.prods| && |s'.cons| == |s.cons|
    && s.prodHead <= s'.prodHead <= |s'.log| && s.prodTail <= s'.prodTail
    && s.consHead <= s'.consHead && s.consTail <= s'.consTail
    && s.log <= s'.log
  }

  lemma ProducerFrame<T>(c: Config, s: Sys<T>, s': Sys<T>, p: Producer<T>)
    requires ProducerOk(c, s, p) && Grows(s, s')
    requires c.sp ==> s'.prodHead == s.prodHead && s'.prodTail == s.prodTail
    requires Holding(p) ==> KeepsPlaces(s, s', p)
    ensures ProducerOk(c, s', p)
  {
    if Holding(p) {
      assert s'.log[p.head..p.head + |p.items|] == s.log[p.head..p.head + |p.items|];
    }
  }

  lemma ConsumerFrame<T>(c: Config, s: Sys<T>, s': Sys<T>, k: Consumer<T>)
    requires ConsumerOk(c, s, k) && Grows(s, s') && s'.consHead <= |s'.log|
    requires c.sc ==> s'.consHead == s.consHead && s'.consTail == s.consTail
    requires Claiming(k) ==> s'.consTail <= k.head && (k.Release? ==> s'.consTail == k.head)
    ensures ConsumerOk(c, s', k)
  {
    if Claiming(k) {
      assert s'.log[k.head..k.head + |k.got|] == s.log[k.head..k.head + |k.got|];
    }
  }

  /** A step that changes only what producer `t` remembers. */
  lemma PrivateProduce<T>(c: Config, s: Sys<T>, t: nat, p: Producer<T>)
    requires Inv(c, s) && t < |s.prods|
    requires ProducerOk(c, s, p) && (Holding(p) ==> Holding(s.prods[t]) && p.head == s.prods[t].head && p.items == s.prods[t].items)
    ensures Inv(c, SetProd(s, t, p))
  {
    var s' := SetProd(s, t, p);
    forall i | 0 <= i < |s'.prods| ensures ProducerOk(c, s', s'.prods[i]) {
      assert ProducerOk(c, s, s.prods[i]);
      ProducerFrame(c, s, s', if i == t then p else s.prods[i]);
    }
    forall i | 0 <= i < |s'.cons| ensures ConsumerOk(c, s', s'.cons[i]) {
      ConsumerFrame(c, s, s', s.cons[i]);
    }
  }

  lemma PrivateConsume<T>(c: Config, s: Sys<T>, t: nat, k: Consumer<T>)
    requires Inv(c, s) && t < |s.cons|
    requires ConsumerOk(c, s, k)
    requires Claiming(k) ==> Claiming(s.cons[t]) && k.head == s.cons[t].head && ClaimSize(k) == ClaimSize(s.cons[t])
    ensures Inv(c, SetCons(s, t, k))
  {
    var s' := SetCons(s, t, k);
    forall i | 0 <= i < |s'.prods| ensures ProducerOk(c, s', s'.prods[i]) {
      ProducerFrame(c, s, s', s.prods[i]);
    }
    forall i | 0 <= i < |s'.cons| ensures ConsumerOk(c, s', s'.cons[i]) {
      assert ConsumerOk(c, s, s.cons[i]);
      ConsumerFrame(c, s, s', if i == t then k else s.cons[i]);
    }
  }

  /** The state after producer `t` has reserved places for `items`. */
  function Reserved<T>(c: Config, s: Sys<T>, t: nat, items: seq<T>): Sys<T>
    requires t < |s.prods| && s.prods[t].Reserve?
  {
    var p := Copy(items, s.prods[t].fixed, s.prodHead, c.mask + s.prods[t].tail - s.prods[t].head, 0);
    SetProd(s, t, p).(prodHead := s.prodHead + |items|, log := s.log + items)
  }

  lemma ReserveThreads<T>(c: Config, s: Sys<T>, t: nat, items: seq<T>)
    requires Inv(c, s) && t < |s.prods| && s.prods[t].Reserve? && Asks(c, s, items)
    requires s.prods[t].head == s.prodHead && |items| <= c.mask + s.prods[t].tail - s.prods[t].head
    ensures ThreadsOk(c, Reserved(c, s, t, items))
  {
    var s' := Reserved(c, s, t, items);
    assert ProducerOk(c, s, s.prods[t]);
    forall i | 0 <= i < |s'.prods| ensures ProducerOk(c, s', s'.prods[i]) {
      if i != t {
        ProducerFrame(c, s, s', s.prods[i]);
      }
    }
    forall i | 0 <= i < |s'.cons| ensures ConsumerOk(c, s', s'.cons[i]) {
      ConsumerFrame(c, s, s', s.cons[i]);
    }
  }

  lemma HeldBelow<T>(c: Config, s: Sys<T>, i: nat)
    requires Inv(c, s) && i < |s.prods| && Holding(s.prods[i])
    ensures s.prods[i].head + |s.prods[i].items| <= s.prodHead
  {
    assert ProducerOk(c, s, s.prods[i]);
  }

  lemma ReserveKeeps<T>(c: Config, s: Sys<T>, t: nat, items: seq<T>)
    requires Inv(c, s) && t < |s.prods| && s.prods[t].Reserve? && Asks(c, s, items)
    requires s.prods[t].head == s.prodHead && |items| <= c.mask + s.prods[t].tail - s.prods[t].head
    ensures Inv(c, Reserved(c, s, t, items))
  {
    var s' := Reserved(c, s, t, items);
    assert ProducerOk(c, s, s.prods[t]);
    ReserveThreads(c, s, t, items);
    StoredLogGrows(s.ring, s.log, s'.log, s.consTail, s.prodTail);
    assert s'.log[..s.consTail] == s.log[..s.consTail];
    forall i | 0 <= i < |s.prods| && Holding(s.prods[i])
      ensures s.prods[i].head + |s.prods[i].items| <= s.prodHead
    {
      HeldBelow(c, s, i);
    }
  }

  /** The item just written is in its slot, and so are all published ones. */
  lemma CopyStored<T>(c: Config, s: Sys<T>, t: nat)
    requires Inv(c, s) && t < |s.prods| && s.prods[t].Copy? && s.prods[t].done < |s.prods[t].items|
    ensures var s' := ProduceStep(c, s, t);
      Stored(s'.ring, s'.log, s'.consTail, s'.prodTail) && ProducerOk(c, s', s'.prods[t])
  {
    var p, s' := s.prods[t], ProduceStep(c, s, t);
    assert ProducerOk(c, s, p);
    var w, x := p.head + p.done, p.items[p.done];
    StoredAfterWrite(s.ring, s.log, s.consTail, s.prodTail, w, x);
    StoredAfterWrite(s.ring, s.log, p.head, p.head + p.done, w, x);
    assert s.log[w] == x;
    assert Stored(s'.ring, s'.log, p.head, p.head + p.done + 1);
  }

  lemma CopyProducer<T>(c: Config, s: Sys<T>, t: nat, i: nat)
    requires Inv(c, s) && t < |s.prods| && s.prods[t].Copy? && s.prods[t].done < |s.prods[t].items|
    requires i < |s.prods|
    ensures ProducerOk(c, ProduceStep(c, s, t), ProduceStep(c, s, t).prods[i])
  {
    if i == t {
      CopyStored(c, s, t);
    } else {
      assert ProducerOk(c, s, s.prods[i]);
      OtherCopyKept(c, s, t, i);
      ProducerFrame(c, s, ProduceStep(c, s, t), s.prods[i]);
    }
  }

  lemma CopyConsumer<T>(c: Config, s: Sys<T>, t: nat, i: nat)
    requires Inv(c, s) && t < |s.prods| && s.prods[t].Copy? && s.prods[t].done < |s.prods[t].items|
    requires i < |s.cons|
    ensures ConsumerOk(c, ProduceStep(c, s, t), ProduceStep(c, s, t).cons[i])
  {
    assert ConsumerOk(c, s, s.cons[i]);
    ConsumerFrame(c, s, ProduceStep(c, s, t), s.cons[i]);
  }

  /** Progress of one producer's copy leaves who holds what as it was. */
  lemma CopyApart<T>(prods: seq<Producer<T>>, t: nat)
    requires ProducersApart(prods) && t < |prods| && prods[t].Copy?
    ensures ProducersApart(prods[t := prods[t].(done := prods[t].done + 1)])
  {
  }

  lemma CopyKeeps<T>(c: Config, s: Sys<T>, t: nat)
    requires Inv(c, s) && t < |s.prods| && s.prods[t].Copy? && s.prods[t].done < |s.prods[t].items|
    ensures Inv(c, ProduceStep(c, s, t))
  {
    var s' := ProduceStep(c, s, t);
    CopyStored(c, s, t);
    forall i | 0 <= i < |s'.prods| ensures ProducerOk(c, s', s'.prods[i]) {
      CopyProducer(c, s, t, i);
    }
    forall i | 0 <= i < |s'.cons| ensures ConsumerOk(c, s', s'.cons[i]) {
      CopyConsumer(c, s, t, i);
    }
    CopyApart(s.prods, t);
    assert s'.prods == s.prods[t := s.prods[t].(done := s.prods[t].done + 1)];
  }

  lemma OtherCopyKept<T>(c: Config, s: Sys<T>, t: nat, i: nat)
    requires Inv(c, s) && t < |s.prods| && s.prods[t].Copy? && s.prods[t].done < |s.prods[t].items|
    requires i < |s.prods| && i != t
    ensures Holding(s.prods[i]) ==> KeepsPlaces(s, ProduceStep(c, s, t), s.prods[i])
  {
    var p, o := s.prods[t], s.prods[i];
    assert ProducerOk(c, s, p) && ProducerOk(c, s, o);
    if Holding(o) {
      var to := if o.Copy? then o.head + o.done else o.head + |o.items|;
      StoredAfterWrite(s.ring, s.log, o.head, to, p.head + p.done, p.items[p.done]);
    }
  }

  /** Only the producer whose places come next gets to move prod.tail. */
  lemma PublishKeeps<T>(c: Config, s: Sys<T>, t: nat, ret: int)
    requires Inv(c, s) && t < |s.prods| && Holding(s.prods[t])
    requires s.prods[t].head == s.prodTail && (s.prods[t].Copy? ==> s.prods[t].done == |s.prods[t].items|)
    ensures Inv(c, SetProd(s, t, Resting(ret)).(prodTail := s.prodTail + |s.prods[t].items|))
  {
    var p := s.prods[t];
    var s' := SetProd(s, t, Resting(ret)).(prodTail := s.prodTail + |p.items|);
    assert ProducerOk(c, s, p);
    forall i | 0 <= i < |s'.prods| ensures ProducerOk(c, s', s'.prods[i]) {
      if i != t {
        PublishProducer(c, s, s', t, i);
      }
    }
    forall i | 0 <= i < |s'.cons| ensures ConsumerOk(c, s', s'.cons[i]) {
      ConsumerFrame(c, s, s', s.cons[i]);
    }
  }

  lemma PublishProducer<T>(c: Config, s: Sys<T>, s': Sys<T>, t: nat, i: nat)
    requires Inv(c, s) && t < |s.prods| && Holding(s.prods[t]) && s.prods[t].head == s.prodTail
    requires i < |s.prods| && i != t && |s'.prods| == |s.prods|
    requires s' == s.(prods := s'.prods, prodTail := s.prodTail + |s.prods[t].items|)
    ensures ProducerOk(c, s', s.prods[i])
  {
    assert ProducerOk(c, s, s.prods[t]);
    assert ProducerOk(c, s, s.prods[i]);
    ProducerFrame(c, s, s', s.prods[i]);
  }

  lemma ReserveRefusedKeeps<T>(c: Config, s: Sys<T>, t: nat, p: Producer<T>)
    requires Inv(c, s) && t < |s.prods| && s.prods[t].Reserve?
    requires p.Resting? || p == ReadHead(s.prods[t].objs, s.prods[t].fixed)
    ensures Inv(c, SetProd(s, t, p))
  {
    assert ProducerOk(c, s, s.prods[t]);
    PrivateProduce(c, s, t, p);
  }

  lemma ReserveStepKeeps<T>(c: Config, s: Sys<T>, t: nat)
    requires Inv(c, s) && t < |s.prods| && s.prods[t].Reserve?
    ensures Inv(c, ReserveStep(c, s, t))
  {
    var Reserve(objs, fixed, head, tail) := s.prods[t];
    var free: int := c.mask + tail - head;
    if (|objs| > free && (fixed || free <= 0)) || !(c.sp || s.prodHead == head) {
      ReserveRefusedKeeps(c, s, t, ReserveStep(c, s, t).prods[t]);
    } else {
      var items := if |objs| > free then objs[..free] else objs;
      assert ProducerOk(c, s, s.prods[t]);
      assert ReserveStep(c, s, t) == Reserved(c, s, t, items);
      ReserveKeeps(c, s, t, items);
    }
  }

  lemma CopyStepKeeps<T>(c: Config, s: Sys<T>, t: nat)
    requires Inv(c, s) && t < |s.prods| && s.prods[t].Copy?
    ensures Inv(c, ProduceStep(c, s, t))
  {
    var Copy(items, fixed, head, free, done) := s.prods[t];
    assert ProducerOk(c, s, s.prods[t]);
    if done < |items| {
      CopyKeeps(c, s, t);
    } else if c.sp {
      PublishKeeps(c, s, t, EnqueueResult(c, fixed, free, |items|));
    } else if s.prodTail == head {
      PrivateProduce(c, s, t, Publish(items, fixed, head, free));
    }
  }

  lemma ReadStepKeeps<T>(c: Config, s: Sys<T>, t: nat)
    requires Inv(c, s) && t < |s.prods| && (s.prods[t].ReadHead? || s.prods[t].ReadTail?)
    ensures Inv(c, ProduceStep(c, s, t))
  {
    assert ProducerOk(c, s, s.prods[t]);
    PrivateProduce(c, s, t, ProduceStep(c, s, t).prods[t]);
  }

  lemma PublishStepKeeps<T>(c: Config, s: Sys<T>, t: nat)
    requires Inv(c, s) && t < |s.prods| && s.prods[t].Publish?
    ensures Inv(c, ProduceStep(c, s, t))
  {
    var p := s.prods[t];
    assert ProducerOk(c, s, p);
    PublishKeeps(c, s, t, EnqueueResult(c, p.fixed, p.free, |p.items|));
  }

  lemma ProduceKeeps<T>(c: Config, s: Sys<T>, t: nat)
    requires Inv(c, s) && t < |s.prods|
    ensures Inv(c, ProduceStep(c, s, t))
  {
    match s.prods[t]
    case Resting(_) => assert ProduceStep(c, s, t) == s;
    case ReadHead(_, _) => ReadStepKeeps(c, s, t);
    case ReadTail(_, _, _) => ReadStepKeeps(c, s, t);
    case Reserve(_, _, _, _) => ReserveStepKeeps(c, s, t);
    case Copy(_, _, _, _, _) => CopyStepKeeps(c, s, t);
    case Publish(_, _, _, _) => PublishStepKeeps(c, s, t);
  }

  lemma ClaimKeeps<T>(c: Config, s: Sys<T>, t: nat, n: nat)
    requires Inv(c, s) && t < |s.cons| && s.cons[t].Claim? && Wants(c, s, n)
    requires s.cons[t].head == s.consHead && n <= s.cons[t].tail - s.cons[t].head
    ensures Inv(c, SetCons(s, t, Fetch(n, s.cons[t].fixed, s.consHead, [])).(consHead := s.consHead + n))
  {
    var k: Consumer<T> := Fetch(n, s.cons[t].fixed, s.consHead, []);
    var s' := SetCons(s, t, k).(consHead := s.consHead + n);
    assert ConsumerOk(c, s, s.cons[t]);
    forall i | 0 <= i < |s'.prods| ensures ProducerOk(c, s', s'.prods[i]) {
      ProducerFrame(c, s, s', s.prods[i]);
    }
    forall i | 0 <= i < |s'.cons| ensures ConsumerOk(c, s', s'.cons[i]) {
      if i != t {
        ConsumerFrame(c, s, s', s.cons[i]);
      }
    }
    forall i | 0 <= i < |s.cons| && Claiming(s.cons[i])
      ensures s.cons[i].head + ClaimSize(s.cons[i]) <= s.consHead
    {
      assert ConsumerOk(c, s, s.cons[i]);
    }
  }

  /** Only the consumer whose places come next gets to move cons.tail. */
  lemma FinishKeeps<T>(c: Config, s: Sys<T>, t: nat, fixed: bool, got: seq<T>)
    requires Inv(c, s) && t < |s.cons| && Claiming(s.cons[t])
    requires s.cons[t].head == s.consTail && got == s.cons[t].got && |got| == ClaimSize(s.cons[t])
    ensures Inv(c, Finish(s, t, fixed, s.consTail, got))
  {
    var k, s' := s.cons[t], Finish(s, t, fixed, s.consTail, got);
    assert ConsumerOk(c, s, k);
    assert s.log[..s.consTail] + got == s.log[..s.consTail + |got|];
    forall i | 0 <= i < |s'.prods| ensures ProducerOk(c, s', s'.prods[i]) {
      ProducerFrame(c, s, s', s.prods[i]);
    }
    forall i | 0 <= i < |s'.cons| ensures ConsumerOk(c, s', s'.cons[i]) {
      if i != t {
        assert ConsumerOk(c, s, s.cons[i]);
        ConsumerFrame(c, s, s', s.cons[i]);
      }
    }
  }

  lemma FetchKeeps<T>(c: Config, s: Sys<T>, t: nat)
    requires Inv(c, s) && t < |s.cons| && s.cons[t].Fetch? && |s.cons[t].got| < s.cons[t].n
    ensures Inv(c, ConsumeStep(c, s, t))
  {
    var k := s.cons[t];
    assert ConsumerOk(c, s, k);
    var p := k.head + |k.got|;
    assert s.ring[At(p, |s.ring|)] == s.log[p];
    assert s.log[k.head..p] + [s.log[p]] == s.log[k.head..p + 1];
    var k' := Fetch(k.n, k.fixed, k.head, k.got + [s.log[p]]);
    assert ConsumeStep(c, s, t) == SetCons(s, t, k');
    PrivateConsume(c, s, t, k');
  }

  lemma ClaimRefusedKeeps<T>(c: Config, s: Sys<T>, t: nat, k: Consumer<T>)
    requires Inv(c, s) && t < |s.cons| && s.cons[t].Claim?
    requires k.Waiting? || k == LoadHead(s.cons[t].max, s.cons[t].fixed)
    ensures Inv(c, SetCons(s, t, k))
  {
    assert ConsumerOk(c, s, s.cons[t]);
    PrivateConsume(c, s, t, k);
  }

  lemma ClaimStepKeeps<T>(c: Config, s: Sys<T>, t: nat)
    requires Inv(c, s) && t < |s.cons| && s.cons[t].Claim?
    ensures Inv(c, ClaimStep(c, s, t))
  {
    var Claim(max, fixed, head, tail) := s.cons[t];
    var entries: int := tail - head;
    if (max > entries && (fixed || entries <= 0)) || !(c.sc || s.consHead == head) {
      ClaimRefusedKeeps(c, s, t, ClaimStep(c, s, t).cons[t]);
    } else {
      assert ConsumerOk(c, s, s.cons[t]);
      var n: nat := if max > entries then entries else max;
      ClaimKeeps(c, s, t, n);
      assert ClaimStep(c, s, t) == SetCons(s, t, Fetch(n, fixed, s.consHead, [])).(consHead := s.consHead + n);
    }
  }

  lemma FetchStepKeeps<T>(c: Config, s: Sys<T>, t: nat)
    requires Inv(c, s) && t < |s.cons| && s.cons[t].Fetch?
    ensures Inv(c, ConsumeStep(c, s, t))
  {
    var Fetch(n, fixed, head, got) := s.cons[t];
    assert ConsumerOk(c, s, s.cons[t]);
    if |got| < n {
      FetchKeeps(c, s, t);
    } else if c.sc {
      FinishKeeps(c, s, t, fixed, got);
    } else if s.consTail == head {
      PrivateConsume(c, s, t, Release(fixed, head, got));
    }
  }

  lemma LoadStepKeeps<T>(c: Config, s: Sys<T>, t: nat)
    requires Inv(c, s) && t < |s.cons| && (s.cons[t].LoadHead? || s.cons[t].LoadTail?)
    ensures Inv(c, ConsumeStep(c, s, t))
  {
    assert ConsumerOk(c, s, s.cons[t]);
    PrivateConsume(c, s, t, ConsumeStep(c, s, t).cons[t]);
  }

  lemma ReleaseStepKeeps<T>(c: Config, s: Sys<T>, t: nat)
    requires Inv(c, s) && t < |s.cons| && s.cons[t].Release?
    ensures Inv(c, ConsumeStep(c, s, t))
  {
    assert ConsumerOk(c, s, s.cons[t]);
    FinishKeeps(c, s, t, s.cons[t].fixed, s.cons[t].got);
  }

  lemma ConsumeKeeps<T>(c: Config, s: Sys<T>, t: nat)
    requires Inv(c, s) && t < |s.cons|
    ensures Inv(c, ConsumeStep(c, s, t))
  {
    match s.cons[t]
    case Waiting(_) => assert ConsumeStep(c, s, t) == s;
    case LoadHead(_, _) => LoadStepKeeps(c, s, t);
    case LoadTail(_, _, _) => LoadStepKeeps(c, s, t);
    case Claim(_, _, _, _) => ClaimStepKeeps(c, s, t);
    case Fetch(_, _, _, _) => FetchStepKeeps(c, s, t);
    case Release(_, _, _) => ReleaseStepKeeps(c, s, t);
  }

  lemma StepKeepsInv<T>(c: Config, s: Sys<T>, x: Step<T>)
    requires Inv(c, s) && Enabled(s, x) && !Risky(c, |s.prods|, |s.cons|, x)
    ensures Inv(c, Do(c, s, x))
  {
    match x
    case Enqueue(t, objs, fixed) => PrivateProduce(c, s, t, ReadHead(objs, fixed));
    case Produce(t) => ProduceKeeps(c, s, t);
    case Dequeue(t, max, fixed) => PrivateConsume(c, s, t, LoadHead(max, fixed));
    case Consume(t) => ConsumeKeeps(c, s, t);
  }

  lemma {:induction false} RunKeepsInv<T>(c: Config, s: Sys<T>, run: seq<Step<T>>)
    requires Inv(c, s) && Legal(c, s, run)
    requires forall i :: 0 <= i < |run| ==> !Risky(c, |s.prods|, |s.cons|, run[i])
    ensures Inv(c, Exec(c, s, run))
    decreases run
  {
    if run != [] {
      StepKeepsInv(c, s, run[0]);
      RunKeepsInv(c, Do(c, s, run[0]), run[1..]);
    }
  }

  lemma StartHasInv<T>(c: Config, ring: seq<T>, producers: nat, consumers: nat)
    requires |ring| == c.mask + 1 && (c.sp ==> producers <= 1) && (c.sc ==> consumers <= 1)
    ensures Inv(c, Start(ring, producers, consumers))
  {
  }

  /** Main theorem: whatever the interleaving of any number of producers and consumers, the
      indices stay in order and the ring is never overfull; no two threads hold the same
      place; finished dequeues have handed out exactly the first items in reservation order,
      each once; and a dequeue that has copied everything holds exactly its own stretch. */
  lemma {:induction false} EveryRunIsSafe<T>(c: Config, ring: seq<T>, producers: nat, consumers: nat, run: seq<Step<T>>)
    requires |ring| == c.mask + 1 && (c.sp ==> producers <= 1) && (c.sc ==> consumers <= 1)
    requires Legal(c, Start(ring, producers, consumers), run)
    requires forall i :: 0 <= i < |run| ==> !Risky(c, producers, consumers, run[i])
    ensures
      var s := Exec(c, Start(ring, producers, consumers), run);
      && s.consTail <= s.consHead <= s.prodTail <= s.prodHead <= s.consTail + c.mask
      && s.prodHead == |s.log| && s.delivered == s.log[..s.consTail]
      && ProducersApart(s.prods) && ConsumersApart(s.cons)
      && (forall t :: 0 <= t < |s.cons| && s.cons[t].Release? ==>
            && s.cons[t].head == s.consTail && s.consTail + |s.cons[t].got| <= |s.log|
            && s.cons[t].got == s.log[s.consTail..s.consTail + |s.cons[t].got|])
  {
    StartHasInv(c, ring, producers, consumers);
    RunKeepsInv(c, Start(ring, producers, consumers), run);
    var s := Exec(c, Start(ring, producers, consumers), run);
    forall t | 0 <= t < |s.cons| && s.cons[t].Release?
      ensures s.cons[t].head == s.consTail && s.consTail + |s.cons[t].got| <= |s.log|
      ensures s.cons[t].got == s.log[s.consTail..s.consTail + |s.cons[t].got|]
    {
      assert ConsumerOk(c, s, s.cons[t]);
    }
  }

  lemma {:induction false} OneMoreStep<T>(c: Config, s: Sys<T>, run: seq<Step<T>>, x: Step<T>)
    requires |s.ring| > 0 && Legal(c, s, run) && |Exec(c, s, run).ring| > 0 && Enabled(Exec(c, s, run), x)
    ensures Legal(c, s, run + [x]) && Exec(c, s, run + [x]) == Do(c, Exec(c, s, run), x)
    decreases run
  {
    if run == [] {
      assert run + [x] == [x] && [x][1..] == [];
      assert Exec(c, Do(c, s, x), []) == Do(c, s, x);
    } else {
      assert (run + [x])[1..] == run[1..] + [x];
      OneMoreStep(c, Do(c, s, run[0]), run[1..], x);
    }
  }
}
