/** Every step of the channel keeps the invariant, so every run is safe. */
module ChannelSafety {
  import opened Packets
  import opened SendQueue
  import opened Framing
  import opened Endpoint
  import opened Channel
  import ReliableP2P

  lemma {:induction false} FlattenOneMore(ms: seq<Message>, m: Message)
    requires forall i :: 0 <= i < |ms| ==> ms[i].Fits()
    requires m.Fits()
    ensures forall i :: 0 <= i < |ms + [m]| ==> (ms + [m])[i].Fits()
    ensures Flatten(ms + [m]) == Flatten(ms) + Encode(m)
  {
    if ms == [] {
      assert Flatten([]) == [];
      assert ms + [m] == [m] && [m][1..] == [];
    } else {
      assert (ms + [m])[1..] == ms[1..] + [m] && (ms + [m])[0] == ms[0];
      FlattenOneMore(ms[1..], m);
      Associate(Encode(ms[0]), Flatten(ms[1..]), Encode(m));
    }
  }

  lemma Associate(a: seq<Payload>, b: seq<Payload>, c: seq<Payload>)
    ensures a + (b + c) == (a + b) + c
  {
  }

  lemma {:induction false} PushAllQueued(q: Queue, pushed: seq<Payload>, stamps: seq<nat>, ps: seq<Payload>)
    requires q.head < SEQ_SPACE && Queued(q, pushed, stamps) && |q.buf| + |ps| <= QUEUE_SIZE
    requires |pushed| + |ps| < SEQ_SPACE
    ensures Queued(PushAll(q, ps), pushed + ps, stamps)
  {
    if ps == [] {
      assert pushed + ps == pushed;
    } else {
      var init, last := ps[..|ps| - 1], ps[|ps| - 1];
      PushAllQueued(q, pushed, stamps, init);
      assert pushed + ps == (pushed + init) + [last];
      PushQueued(PushAll(q, init), pushed + init, stamps, last);
    }
  }

  lemma PushQueued(q: Queue, pushed: seq<Payload>, stamps: seq<nat>, p: Payload)
    requires q.head < SEQ_SPACE && Queued(q, pushed, stamps) && |q.buf| < QUEUE_SIZE
    requires |pushed| + 1 < SEQ_SPACE
    ensures Queued(Push(q, p), pushed + [p], stamps)
  {
  }

  lemma SubmitKeepsSending(x: Side, m: Message)
    requires Sending(x) && x.ep.WellFormed() && m.Fits()
    requires |OnSubmit(x, m).pushed| < SEQ_SPACE - 1
    ensures Sending(OnSubmit(x, m))
  {
    var ps := Encode(m);
    if CanSend(x.ep, |ps|) {
      FlattenOneMore(x.messages, m);
      PushAllQueued(x.ep.q, x.pushed, x.stamps, ps);
      assert Genuine(x.out, |x.stamps|, x.pushed + ps);
    }
  }

  lemma SubmitKeepsLinks(x: Side, peer: Side, m: Message)
    requires x.ep.WellFormed() && m.Fits() && Linked(x, peer) && Linked(peer, x)
    ensures Linked(OnSubmit(x, m), peer) && Linked(peer, OnSubmit(x, m))
  {
    var ps := Encode(m);
    assert (x.pushed + ps)[..|peer.accepted|] == x.pushed[..|peer.accepted|];
  }

  lemma TransmitQueued(q: Queue, pushed: seq<Payload>, stamps: seq<nat>, n: nat, now: nat)
    requires q.sent <= |q.times| && Queued(q, pushed, stamps) && q.sent + n <= |q.buf|
    requires |stamps| <= |pushed|
    ensures
      var stamps' := Stamp(stamps, q.head - 1 + q.sent, n, now);
      && Queued(Transmit(q, n, now), pushed, stamps')
      && |stamps| <= |stamps'| <= |pushed|
      && q.head - 1 + q.sent + n <= |stamps'|
  {
    var stamps' := Stamp(stamps, q.head - 1 + q.sent, n, now);
    assert Transmit(q, n, now).times == stamps'[q.head - 1..];
  }

  /** What a window transmission puts on the network. */
  lemma TransmittedGenuine(q: Queue, pushed: seq<Payload>, stamps: seq<nat>, n: nat)
    requires Queued(q, pushed, stamps) && q.sent + n <= |q.buf|
    ensures Genuine(FrameSet(q.buf[q.sent..q.sent + n]), q.head - 1 + q.sent + n, pushed)
  {
    var frames := q.buf[q.sent..q.sent + n];
    forall f | f in FrameSet(frames) && f.Data?
      ensures 1 <= f.seqNum <= q.head - 1 + q.sent + n && f.payload == pushed[f.seqNum - 1]
    {
      var i :| 0 <= i < n && frames[i] == f;
      assert f == q.buf[q.sent + i];
    }
  }

  lemma GenuineGrows(out: set<Frame>, n: nat, more: set<Frame>, k: nat, m: nat, pushed: seq<Payload>)
    requires Genuine(out, n, pushed) && Genuine(more, k, pushed)
    requires n <= m <= |pushed| && k <= m
    ensures Genuine(out + more, m, pushed)
  {
  }

  lemma WindowUp(x: Side, window: nat, copied: nat, now: nat)
    requires x.ep.WellFormed() && Queued(x.ep.q, x.pushed, x.stamps) && |x.stamps| <= |x.pushed|
    ensures
      var r := OnWindow(x, window, copied, now);
      && Queued(r.ep.q, r.pushed, r.stamps)
      && |x.stamps| <= |r.stamps| <= |x.pushed|
      && x.ep.q.head - 1 + x.ep.q.sent + BatchSize(x.ep.q, window, copied) <= |r.stamps|
  {
    var q, n, r := x.ep.q, BatchSize(x.ep.q, window, copied), OnWindow(x, window, copied, now);
    assert WindowStart(x) == q.head - 1 + q.sent;
    assert |Transmitted(x.ep, window, copied)| == n;
    TransmitQueued(q, x.pushed, x.stamps, n, now);
    assert r.ep.q == Transmit(q, n, now) && r.pushed == x.pushed;
    assert r.stamps == Stamp(x.stamps, q.head - 1 + q.sent, n, now);
  }

  lemma WindowOut(x: Side, window: nat, copied: nat, now: nat)
    requires x.ep.WellFormed()
    ensures OnWindow(x, window, copied, now).out ==
      x.out + FrameSet(x.ep.q.buf[x.ep.q.sent..x.ep.q.sent + BatchSize(x.ep.q, window, copied)])
  {
  }

  lemma WindowGenuine(x: Side, window: nat, copied: nat, now: nat)
    requires x.ep.WellFormed() && Queued(x.ep.q, x.pushed, x.stamps)
    requires Genuine(x.out, |x.stamps|, x.pushed)
    ensures Genuine(OnWindow(x, window, copied, now).out,
                    |OnWindow(x, window, copied, now).stamps|, x.pushed)
  {
    WindowUp(x, window, copied, now);
    WindowOut(x, window, copied, now);
    var q, n := x.ep.q, BatchSize(x.ep.q, window, copied);
    TransmittedGenuine(q, x.pushed, x.stamps, n);
    GenuineGrows(x.out, |x.stamps|, FrameSet(q.buf[q.sent..q.sent + n]), q.head - 1 + q.sent + n,
                 |OnWindow(x, window, copied, now).stamps|, x.pushed);
  }

  lemma WindowDown(x: Side, window: nat, copied: nat, now: nat)
    requires x.ep.WellFormed() && x.ep.q.buf == []
    ensures OnWindow(x, window, copied, now).out == x.out
    ensures OnWindow(x, window, copied, now).stamps == x.stamps
  {
  }

  lemma WindowKeepsSending(x: Side, window: nat, copied: nat, now: nat)
    requires Sending(x) && x.ep.WellFormed()
    ensures Sending(OnWindow(x, window, copied, now))
    ensures |x.stamps| <= |OnWindow(x, window, copied, now).stamps|
  {
    if x.ep.up {
      WindowUp(x, window, copied, now);
      WindowGenuine(x, window, copied, now);
    } else {
      WindowDown(x, window, copied, now);
    }
  }

  lemma WindowKeepsLinks(x: Side, peer: Side, window: nat, copied: nat, now: nat)
    requires x.ep.WellFormed() && Linked(x, peer) && Linked(peer, x)
    requires |x.stamps| <= |OnWindow(x, window, copied, now).stamps|
    ensures Linked(OnWindow(x, window, copied, now), peer)
    ensures Linked(peer, OnWindow(x, window, copied, now))
  {
    var frames := Transmitted(x.ep, window, copied);
    assert forall f :: f in FrameSet(frames) ==> f.Data?;
  }

  lemma SendAckKeeps(x: Side, peer: Side)
    requires Sending(x) && x.ep.WellFormed() && Linked(x, peer) && Linked(peer, x)
    ensures Sending(OnSendAck(x)) && Linked(OnSendAck(x), peer) && Linked(peer, OnSendAck(x))
  {
  }

  lemma PopQueued(q: Queue, pushed: seq<Payload>, stamps: seq<nat>, n: nat, now: nat, stale: nat)
    requires q.WellFormed() && Queued(q, pushed, stamps)
    requires TakesAck(q, n) && n <= 1 + |stamps|
    ensures 1 < n && Queued(Pop(q, n, now, stale), pushed, stamps)
    ensures Pop(q, n, now, stale).rtt == Sub64(now, stamps[n - 2])
  {
    PopInBounds(q, n);
    var k := n - q.head;
    assert q.times[k - 1] == stamps[n - 2];
    assert q.times[k..] == stamps[n - 1..];
  }

  /** An ack taken from the network covers only packets that were transmitted and accepted,
      and the round-trip sample reads the time of the last of them. */
  lemma AckKeeps(x: Side, peer: Side, n: nat, now: nat, stale: nat)
    requires Sending(x) && x.ep.WellFormed() && Linked(x, peer) && Ack(n) in peer.out
    ensures Sending(x.(ep := RecvAck(x.ep, n, now, stale)))
    ensures Linked(x.(ep := RecvAck(x.ep, n, now, stale)), peer)
    ensures TakesAck(x.ep.q, n) ==>
      && 1 < n <= 1 + |peer.accepted| <= 1 + |x.stamps|
      && RecvAck(x.ep, n, now, stale).q.rtt == Sub64(now, x.stamps[n - 2])
  {
    assert Ack(n).Ack? && n <= 1 + |peer.accepted|;
    if TakesAck(x.ep.q, n) {
      PopQueued(x.ep.q, x.pushed, x.stamps, n, now, stale);
    }
  }

  lemma AcceptKeeps(x: Side, pushed: seq<Payload>, p: Payload)
    requires x.ep.WellFormed() && Received(x, pushed) && x.ep.up
    requires |x.accepted| < |pushed| < SEQ_SPACE - 1 && p == pushed[|x.accepted|]
    ensures Received(x.(ep := Accept(x.ep, p), accepted := x.accepted + [p],
                        delivered := x.delivered + Feed(x.ep.asm, p).1), pushed)
  {
    FeedOneMore(IDLE, x.accepted, p);
    assert pushed[..|x.accepted| + 1] == pushed[..|x.accepted|] + [p];
  }

  lemma MismatchKeeps(x: Side, pushed: seq<Payload>)
    requires x.ep.WellFormed() && Received(x, pushed)
    ensures Received(x.(ep := Mismatch(x.ep)), pushed)
  {
  }

  lemma DataKeepsReceived(x: Side, peer: Side, n: nat, p: Payload)
    requires x.ep.WellFormed() && Linked(peer, x) && Genuine(peer.out, |peer.stamps|, peer.pushed)
    requires Data(n, p) in peer.out && |peer.pushed| < SEQ_SPACE - 1
    ensures Received(OnData(x, n, p), peer.pushed)
    ensures |x.accepted| <= |OnData(x, n, p).accepted| <= |peer.stamps|
  {
    assert Data(n, p).Data? && 1 <= n <= |peer.stamps| && p == peer.pushed[n - 1];
    if n == x.ep.nextRecv {
      AcceptKeeps(x, peer.pushed, p);
    } else {
      MismatchKeeps(x, peer.pushed);
    }
  }

  lemma DataKeeps(x: Side, peer: Side, n: nat, p: Payload)
    requires Sending(x) && x.ep.WellFormed() && Linked(x, peer) && Linked(peer, x)
    requires Received(OnData(x, n, p), peer.pushed)
    requires |x.accepted| <= |OnData(x, n, p).accepted| <= |peer.stamps|
    ensures Sending(OnData(x, n, p)) && Linked(OnData(x, n, p), peer) && Linked(peer, OnData(x, n, p))
  {
  }

  lemma CheckKeepsSending(x: Side, now: nat)
    requires Sending(x) && x.ep.WellFormed()
    ensures Sending(x.(ep := Check(x.ep, now)))
  {
    if x.ep.up {
      assert Queued(ResetWindow(x.ep.q), x.pushed, x.stamps);
    }
  }

  lemma CheckKeepsLinks(x: Side, peer: Side, now: nat)
    requires x.ep.WellFormed() && Linked(x, peer) && Linked(peer, x)
    ensures Linked(x.(ep := Check(x.ep, now)), peer) && Linked(peer, x.(ep := Check(x.ep, now)))
  {
  }

  lemma ActKeeps(x: Side, peer: Side, e: Event)
    requires Sending(x) && Sending(peer) && Linked(x, peer) && Linked(peer, x) && Enabled(peer, e)
    requires x.ep.WellFormed() && |Act(x, e).pushed| < SEQ_SPACE - 1 && |peer.pushed| < SEQ_SPACE - 1
    ensures Sending(Act(x, e)) && Linked(Act(x, e), peer) && Linked(peer, Act(x, e))
  {
    match e
    case Submit(m) =>
      SubmitKeepsSending(x, m);
      SubmitKeepsLinks(x, peer, m);
    case SendWindow(window, copied, now) =>
      WindowKeepsSending(x, window, copied, now);
      WindowKeepsLinks(x, peer, window, copied, now);
    case SendAck =>
      SendAckKeeps(x, peer);
    case Arrive(Ack(n), now, stale) =>
      AckKeeps(x, peer, n, now, stale);
    case Arrive(Data(n, p), _, _) =>
      DataKeepsReceived(x, peer, n, p);
      DataKeeps(x, peer, n, p);
    case Timer(now) =>
      CheckKeepsSending(x, now);
      CheckKeepsLinks(x, peer, now);
  }

  lemma ActGrowsPushed(x: Side, e: Event)
    requires x.ep.WellFormed() && (e.Submit? ==> e.m.Fits())
    ensures |x.pushed| <= |Act(x, e).pushed|
  {
  }

  lemma StepKeepsInv(s: State, x: Action)
    requires WellFormed(s) && Possible(s, x) && Inv(s)
    ensures Inv(Step(s, x))
  {
    if Small(Step(s, x)) {
      ActGrowsPushed(if x.first then s.a else s.b, x.e);
      if x.first {
        ActKeeps(s.a, s.b, x.e);
      } else {
        ActKeeps(s.b, s.a, x.e);
      }
    }
  }

  lemma StartHasInv(now: nat)
    ensures Inv(State(Start(now), Start(now)))
  {
    assert Output(IDLE, []) == [] && After(IDLE, []) == IDLE && Flatten([]) == [];
  }

  lemma {:induction false} ExecKeepsInv(s: State, run: seq<Action>)
    requires WellFormed(s) && Legal(s, run) && Inv(s)
    ensures Inv(Exec(s, run))
    decreases run
  {
    if run != [] {
      StepKeepsInv(s, run[0]);
      ExecKeepsInv(Step(s, run[0]), run[1..]);
    }
  }

  /** From the sender's point of view at one moment. */
  ghost predicate SafeTowards(x: Side, y: Side) {
    // what the receiver took is a prefix of what was pushed: in order, exactly once
    && y.accepted <= x.pushed
    // its handlers saw exactly the messages complete in that prefix, unaltered and in order
    && (forall i :: 0 <= i < |x.messages| ==> x.messages[i].Fits())
    && |y.delivered| == CompleteWithin(x.messages, |y.accepted|)
    && Delivers(x.messages, y.delivered)
    // a connected sender still holds everything the receiver has not taken
    && (x.ep.up ==> x.ep.q.head - 1 <= |y.accepted| && x.ep.q.head + |x.ep.q.buf| == 1 + |x.pushed|)
  }

  lemma InvIsSafe(x: Side, y: Side)
    requires Sending(x) && Linked(x, y)
    ensures SafeTowards(x, y)
  {
    PrefixDelivers(x.messages, IDLE, |y.accepted|);
  }

  /** Main theorem: in every run over a network that loses, duplicates and reorders, with either
      side giving the connection up or not, both directions are safe as long as fewer than 2^32
      packets have been pushed each way. */
  lemma {:induction false} EveryRunIsSafe(now: nat, run: seq<Action>)
    requires Legal(State(Start(now), Start(now)), run)
    ensures
      var s := Exec(State(Start(now), Start(now)), run);
      Small(s) ==> SafeTowards(s.a, s.b) && SafeTowards(s.b, s.a)
  {
    StartHasInv(now);
    ExecKeepsInv(State(Start(now), Start(now)), run);
    var s := Exec(State(Start(now), Start(now)), run);
    if Small(s) {
      InvIsSafe(s.a, s.b);
      InvIsSafe(s.b, s.a);
    }
  }

  /** If `x` takes an ack that `y` has sent, it covers only packets `x` has transmitted and `y` has
      accepted, and the new round-trip time is measured from the last transmission of the newest
      packet covered. */
  ghost predicate AckEarned(x: Side, y: Side, n: nat, t: nat, stale: nat)
    requires x.ep.WellFormed()
  {
    Ack(n) in y.out && TakesAck(x.ep.q, n) ==>
      && 1 < n <= 1 + |y.accepted| <= 1 + |x.stamps|
      && var rtt, stamp := Act(x, Arrive(Ack(n), t, stale)).ep.q.rtt, x.stamps[n - 2];
         && rtt == Sub64(t, stamp)
         && (stamp <= t < 0x1_0000_0000_0000_0000 ==> rtt == t - stamp)
  }

  /** Clocks that have not wrapped between two readings. */
  lemma Elapsed(t: nat, stamp: nat)
    requires stamp <= t < 0x1_0000_0000_0000_0000
    ensures Sub64(t, stamp) == t - stamp
  {
  }

  lemma AckIsEarned(x: Side, y: Side, n: nat, t: nat, stale: nat)
    requires x.ep.WellFormed() && Sending(x) && Linked(x, y)
    ensures AckEarned(x, y, n, t, stale)
  {
    if Ack(n) in y.out && TakesAck(x.ep.q, n) {
      AckKeeps(x, y, n, t, stale);
      var stamp := x.stamps[n - 2];
      if stamp <= t < 0x1_0000_0000_0000_0000 {
        Elapsed(t, stamp);
      }
    }
  }

  /** In every run every ack that either side takes has been earned. */
  lemma {:induction false} EveryAckIsEarned(now: nat, run: seq<Action>, n: nat, t: nat, stale: nat)
    requires Legal(State(Start(now), Start(now)), run)
    ensures
      var s := Exec(State(Start(now), Start(now)), run);
      Small(s) ==> AckEarned(s.a, s.b, n, t, stale) && AckEarned(s.b, s.a, n, t, stale)
  {
    StartHasInv(now);
    ExecKeepsInv(State(Start(now), Start(now)), run);
    var s := Exec(State(Start(now), Start(now)), run);
    if Small(s) {
      AckIsEarned(s.a, s.b, n, t, stale);
      AckIsEarned(s.b, s.a, n, t, stale);
    }
  }

  /** The packet after the `n` accepted ones may be taken. */
  lemma NextMayBeTaken(messages: seq<Message>, pushed: seq<Payload>, n: nat)
    requires Submitted(messages, pushed) && n < |pushed|
    ensures Takes(After(IDLE, pushed[..n]), pushed[n])
  {
    NextIsReadable(messages, IDLE, n);
  }

  lemma NextArrives(x: Side, y: Side, f: Frame)
    requires Genuine(x.out, |x.stamps|, x.pushed) && Received(y, x.pushed)
    requires f in x.out && f.Data? && f.seqNum == y.ep.nextRecv
    ensures |y.accepted| < |x.pushed| && f.payload == x.pushed[|y.accepted|]
    ensures y.ep.asm == After(IDLE, x.pushed[..|y.accepted|])
  {
  }

  lemma ArrivalIsReadable(x: Side, y: Side, f: Frame)
    requires Sending(x) && Sending(y) && Linked(x, y) && f in x.out
    requires |x.pushed| < SEQ_SPACE - 1 && |y.pushed| < SEQ_SPACE - 1
    requires AcksUpTo(x.out, 1 + |y.pushed|)
    ensures ReliableP2P.Readable(y.ep, f)
  {
    if f.Data? && f.seqNum == y.ep.nextRecv {
      NextArrives(x, y, f);
      NextMayBeTaken(x.messages, x.pushed, |y.accepted|);
    }
  }

  /** In every run, whatever frame arrives at either side, all that the connection object reads of it
      lies inside the packets: the header of a message, the tags of a completed batch, and the
      packets these tags speak of. */
  lemma {:induction false} EveryArrivalIsReadable(now: nat, run: seq<Action>, f: Frame)
    requires Legal(State(Start(now), Start(now)), run)
    ensures
      var s := Exec(State(Start(now), Start(now)), run);
      Small(s) ==>
      && (f in s.a.out ==> ReliableP2P.Readable(s.b.ep, f))
      && (f in s.b.out ==> ReliableP2P.Readable(s.a.ep, f))
  {
    StartHasInv(now);
    ExecKeepsInv(State(Start(now), Start(now)), run);
    var s := Exec(State(Start(now), Start(now)), run);
    if Small(s) && f in s.a.out {
      ArrivalIsReadable(s.a, s.b, f);
    }
    if Small(s) && f in s.b.out {
      ArrivalIsReadable(s.b, s.a, f);
    }
  }
}
