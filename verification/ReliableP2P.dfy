/** The connection object itself: runtime/reliable/reliable_p2p.{h,cc}. Each method does to its
    fields what the function of the same purpose in `Endpoint` does to a value. */
module ReliableP2P {
  import opened Packets
  import opened SendQueue
  import opened Framing
  import opened Endpoint

  // Reads of packet bytes; each demands that the bytes are there.

  method ReadTag(p: Payload) returns (tag: nat)
    requires |p| >= TAG_BYTES
    ensures tag == Tag(p)
  {
    tag := Value(p[..TAG_BYTES]);
  }

  method ReadNum(p: Payload) returns (num: nat)
    requires |p| >= TAG_BYTES + 1
    ensures num == Num(p)
  {
    num := Value(p[TAG_BYTES..TAG_BYTES + 1]);
  }

  method ReadHeader(p: Payload) returns (h: Header)
    requires |p| >= HEADER_BYTES
    ensures h == DecodeHeader(p)
  {
    h := Header(Value(p[0..4]), Value(p[4..8]), Value(p[8..12]), Value(p[12..14]), Value(p[14..16]));
  }

  /** The loop of `reliable_single_msg::format`. */
  method FormatBatch(msg: Single, batch: seq<Payload>) returns (ok: bool, s: Single)
    requires WellTagged(batch, 0) && TagsInside(batch, 0)
    ensures (ok, s) == Format(msg, batch, 0)
  {
    s, ok := msg, true;
    var i := 0;
    while i < |batch|
      invariant 0 <= i <= |batch|
      invariant ok ==> WellTagged(batch, i) && TagsInside(batch, i) && Format(s, batch, i) == Format(msg, batch, 0)
      invariant !ok ==> i == |batch| && (false, s) == Format(msg, batch, 0)
      decreases |batch| - i
    {
      var tag := ReadTag(batch[i]);
      if tag == CSTRUCT_TAG {
        s := s.(cstruct := Adj(batch[i], TAG_BYTES));
        i := i + 1;
      } else if tag == FLOW_STATE_TAG {
        var num := ReadNum(batch[i]);
        var states := s.states + [Adj(batch[i], TAG_BYTES + 1)];
        for j := 1 to num
          invariant states == s.states + [Adj(batch[i], TAG_BYTES + 1)] + batch[i + 1..i + j]
        {
          states := states + [batch[i + j]];
        }
        s := s.(states := states);
        i := i + num;
      } else if tag == PACKET_TAG {
        var num := ReadNum(batch[i]);
        var first := Adj(batch[i], TAG_BYTES + 1);
        s := s.(raw := if num == 2 then first + batch[i + 1] else first);
        i := i + num;
      } else {
        ok := false;
        i := |batch|;
      }
    }
  }

  /** Frames this end may be handed: what it reads of them must be there. */
  ghost predicate Readable(e: Endpoint, f: Frame) {
    f.seqNum < SEQ_SPACE && (f.Data? && f.seqNum == e.nextRecv ==> Takes(e.asm, f.payload))
  }

  lemma {:induction false} PushAllOne(q: Queue, p: Payload)
    requires q.head < SEQ_SPACE && |q.buf| < QUEUE_SIZE
    ensures PushAll(q, [p]) == Push(q, p)
  {
    assert [p][..0] == [];
  }

  class ReliableP2P {
    const sendQueue: ReliableSendQueue
    var nextSeqNumToRecv: nat
    var nextSeqNumToRecvSnapshot: nat
    var errorCounter: nat
    var batch: seq<Payload>
    var curMsg: Single
    var nextCheckTime: nat
    var lastCheckHeadSeqNum: nat
    var consecutiveCounter: nat
    var isConnectionUp: bool

    ghost predicate Valid()
      reads this, sendQueue, sendQueue.ringBuf, sendQueue.sendTime
    {
      && sendQueue.Valid()
      && nextSeqNumToRecv < SEQ_SPACE
      && nextSeqNumToRecvSnapshot < SEQ_SPACE
    }

    ghost function View(): Endpoint
      reads this, sendQueue
    {
      Endpoint(sendQueue.q, nextSeqNumToRecv, nextSeqNumToRecvSnapshot, errorCounter,
               Reassembly(batch, curMsg), nextCheckTime, lastCheckHeadSeqNum,
               consecutiveCounter, isConnectionUp)
    }

    constructor (now: nat)
      ensures Valid() && View() == Init(now)
      ensures fresh(sendQueue) && fresh(sendQueue.ringBuf) && fresh(sendQueue.sendTime)
    {
      sendQueue := new ReliableSendQueue();
      nextSeqNumToRecv, nextSeqNumToRecvSnapshot := 1, 1;
      errorCounter := 0;
      batch, curMsg := [], NO_MESSAGE;
      nextCheckTime := now + CHECK_TIMES * DEFAULT_RTT;
      lastCheckHeadSeqNum := 1;
      consecutiveCounter := 0;
      isConnectionUp := true;
    }

    /** `reliable_send` for a plain struct. */
    method SendCStruct(msgId: nat, sendActor: nat, recvActor: nat, msgType: nat, body: Payload)
      returns (ok: bool)
      requires Valid() && CStruct(sendActor, recvActor, msgId, msgType, body).Fits()
      modifies sendQueue, sendQueue.ringBuf
      ensures Valid()
      ensures ok <==> CanSend(old(View()), 1)
      ensures View() == Send(old(View()), Encode(CStruct(sendActor, recvActor, msgId, msgType, body)))
    {
      if !isConnectionUp || QUEUE_SIZE - sendQueue.curSize == 0 {
        return false;
      }
      var pkt := Bytes(CSTRUCT_TAG, TAG_BYTES) + body;
      pkt := Header(sendActor, recvActor, msgId, msgType, 1).Encode() + pkt;
      PushAllOne(sendQueue.q, pkt);
      ok := sendQueue.PushOne(pkt);
    }

    /** `reliable_send` for a batch of flow-state packets. */
    method SendStates(msgId: nat, sendActor: nat, recvActor: nat, msgType: nat, bodies: seq<Payload>)
      returns (ok: bool)
      requires Valid() && States(sendActor, recvActor, msgId, msgType, bodies).Fits()
      modifies sendQueue, sendQueue.ringBuf
      ensures Valid()
      ensures ok <==> CanSend(old(View()), |bodies|)
      ensures View() == Send(old(View()), Encode(States(sendActor, recvActor, msgId, msgType, bodies)))
    {
      if !isConnectionUp || QUEUE_SIZE - sendQueue.curSize < |bodies| {
        return false;
      }
      var first := Bytes(|bodies|, 1) + bodies[0];
      first := Bytes(FLOW_STATE_TAG, TAG_BYTES) + first;
      first := Header(sendActor, recvActor, msgId, msgType, |bodies|).Encode() + first;
      ok := sendQueue.PushBatch([first] + bodies[1..]);
    }

    method GetSendBatch(size: nat, copied: nat, now: nat) returns (frames: seq<Frame>)
      requires Valid()
      modifies sendQueue, sendQueue.sendTime
      ensures Valid()
      ensures frames == Transmitted(old(View()), size, copied)
      ensures View() == SendBatch(old(View()), size, copied, now)
    {
      frames := sendQueue.GetWindowBatch(size, copied, now);
    }

    method GetAckPkt() returns (due: bool, ack: Frame)
      requires Valid()
      modifies this
      ensures Valid()
      ensures due <==> AckDue(old(View()))
      ensures due ==> ack == Ack(old(View()).nextRecv)
      ensures View() == if due then AckSent(old(View())) else old(View())
    {
      ack := Ack(nextSeqNumToRecv);
      due := nextSeqNumToRecvSnapshot != nextSeqNumToRecv;
      if due {
        nextSeqNumToRecvSnapshot := nextSeqNumToRecv;
      }
    }

    /** Joins the packet to the batch and formats the batch once it is complete. */
    method Assemble(p: Payload) returns (ready: bool)
      requires Takes(View().asm, p)
      modifies this`batch, this`curMsg
      ensures
        var (asm, out) := Feed(old(View()).asm, p);
        && View() == old(View()).(asm := Reassembly(batch, curMsg))
        && ready == (|out| == 1)
        && (if ready then batch == [] && out[0] == curMsg && asm == Reassembly([], Clean(curMsg))
            else asm == Reassembly(batch, curMsg))
    {
      if |batch| == 0 {
        var header := ReadHeader(p);
        curMsg := curMsg.(header := header);
        batch := [Adj(p, HEADER_BYTES)];
      } else {
        batch := batch + [p];
      }
      if |batch| != curMsg.header.pktNum {
        return false;
      }
      ready, curMsg := FormatBatch(curMsg, batch);
      batch := [];
      if !ready {
        curMsg := Clean(curMsg);
      }
    }

    /** `recv` followed by what every caller does with its result: dispatch, then `clean`.
        `delivered` is the message the dispatcher sees, if any. */
    method Recv(f: Frame, now: nat) returns (delivered: seq<Single>)
      requires Valid() && Readable(View(), f)
      modifies this, sendQueue
      ensures Valid()
      ensures f.Ack? ==> delivered == []
      ensures f.Ack? ==> exists stale: nat :: View() == RecvAck(old(View()), f.seqNum, now, stale)
      ensures f.Data? ==> View() == RecvData(old(View()), f.seqNum, f.payload)
      ensures f.Data? && f.seqNum == old(View()).nextRecv ==>
                delivered == Feed(old(View()).asm, f.payload).1
      ensures f.Data? && f.seqNum != old(View()).nextRecv ==> delivered == []
    {
      delivered := [];
      match f
      case Ack(n) =>
        ghost var e := View();
        var _ := sendQueue.PopAcked(n, now);
        ghost var stale: nat :| sendQueue.q == Pop(e.q, n, now, stale);
        assert View() == RecvAck(e, n, now, stale);
      case Data(n, p) =>
        if n != nextSeqNumToRecv {
          errorCounter := errorCounter + 1;
          if errorCounter > ERROR_LIMIT {
            errorCounter := 0;
            nextSeqNumToRecvSnapshot := Before32(nextSeqNumToRecv);
          }
          return;
        }
        errorCounter := 0;
        nextSeqNumToRecv := Add32(nextSeqNumToRecv, 1);
        var ready := Assemble(p);
        if ready {
          delivered := [curMsg];
          curMsg := Clean(curMsg);
        }
    }

    method Reset()
      requires Valid()
      modifies this, sendQueue
      ensures Valid()
      ensures View() == old(View()).(q := EMPTY_QUEUE.(rtt := old(View()).q.rtt), nextRecv := 1,
                                     asm := Reassembly([], Clean(old(View()).asm.msg)))
    {
      var _ := sendQueue.Reset();
      nextSeqNumToRecv := 1;
      curMsg := Clean(curMsg);
      batch := [];
    }

    /** The head has not moved: everything is to be sent again, or the connection is given up. */
    method SendAgain()
      requires Valid()
      modifies this, sendQueue
      ensures Valid()
      ensures
        var e := old(View());
        var g := e.(q := ResetWindow(e.q), consecutive := e.consecutive + 1);
        View() == (if e.consecutive + 1 == DOWN_AFTER then Down(g) else g)
    {
      var _ := sendQueue.ResetWindowPos();
      consecutiveCounter := consecutiveCounter + 1;
      if consecutiveCounter == DOWN_AFTER {
        isConnectionUp := false;
        Reset();
        nextSeqNumToRecv := 0;
        nextSeqNumToRecvSnapshot := 0;
      }
    }

    method CheckTimer(now: nat)
      requires Valid()
      modifies this, sendQueue
      ensures Valid() && View() == Check(old(View()), now)
      ensures nextCheckTime == if old(nextCheckTime) < now then now + 5 * sendQueue.rtt else old(nextCheckTime)
    {
      if nextCheckTime < now {
        if lastCheckHeadSeqNum == sendQueue.headSeqNum && sendQueue.curSize > 0 {
          SendAgain();
        } else {
          consecutiveCounter := 0;
        }
        nextCheckTime := now + CHECK_TIMES * sendQueue.rtt;
        lastCheckHeadSeqNum := sendQueue.headSeqNum;
      }
    }
  }
}
