/** The ring buffer behind a reliable connection: runtime/reliable/base/reliable_send_queue.h.
    `Queue` is what the ring means; `ReliableSendQueue` is the ring itself. */
module SendQueue {
  import opened Packets

  /** head:  sequence number of the oldest unacknowledged packet
      buf:   every unacknowledged packet, oldest first
      sent:  how many of them lie before the window cursor
      times: last transmission time of the packets transmitted at least once
      rtt:   last round-trip sample */
  datatype Queue = Queue(head: nat, buf: seq<Frame>, sent: nat, times: seq<nat>, rtt: nat) {
    ghost predicate WellFormed() {
      && head < SEQ_SPACE
      && sent <= |times| <= |buf| <= QUEUE_SIZE
      && forall i :: 0 <= i < |buf| ==> buf[i].Data? && buf[i].seqNum == Add32(head, i)
    }

    function Next(): nat
      requires head < SEQ_SPACE && |buf| <= QUEUE_SIZE
    {
      Add32(head, |buf|)
    }
  }

  const DEFAULT_RTT: nat := 20000

  const EMPTY_QUEUE := Queue(1, [], 0, [], DEFAULT_RTT)

  function Push(q: Queue, p: Payload): Queue
    requires q.head < SEQ_SPACE && |q.buf| < QUEUE_SIZE
  {
    q.(buf := q.buf + [Data(q.Next(), p)])
  }

  function PushAll(q: Queue, ps: seq<Payload>): (r: Queue)
    requires q.head < SEQ_SPACE && |q.buf| + |ps| <= QUEUE_SIZE
    ensures r.head == q.head && |r.buf| == |q.buf| + |ps|
  {
    if ps == [] then q else Push(PushAll(q, ps[..|ps| - 1]), ps[|ps| - 1])
  }

  /** The test at the top of `pop`: the comparisons are plain, not modular. */
  predicate TakesAck(q: Queue, ack: nat)
    requires q.head < SEQ_SPACE && |q.buf| <= QUEUE_SIZE
  {
    q.buf != [] && q.head < ack <= q.Next()
  }

  /** `stale` is what the timestamp slot holds if that packet was never transmitted. */
  function Pop(q: Queue, ack: nat, now: nat, stale: nat): Queue
    requires q.WellFormed()
  {
    if !TakesAck(q, ack) then q
    else
      var k := ack - q.head;
      Queue(ack, q.buf[k..],
            if k > q.sent then 0 else q.sent - k,
            if k <= |q.times| then q.times[k..] else [],
            Sub64(now, if k <= |q.times| then q.times[k - 1] else stale))
  }

  /** The stamps once the `n` packets from index `from` on are (re)transmitted. */
  function Stamp(times: seq<nat>, from: nat, n: nat, now: nat): (r: seq<nat>)
    requires from <= |times|
  {
    seq(if from + n <= |times| then |times| else from + n,
        i requires 0 <= i && (i < from + n || i < |times|) => if from <= i < from + n then now else times[i])
  }

  /** `copied` is the number of packet copies that can be allocated. */
  function BatchSize(q: Queue, window: nat, copied: nat): (n: nat)
    requires q.sent <= |q.buf|
    ensures n <= window && n <= copied && q.sent + n <= |q.buf|
    ensures n == window || n == copied || q.sent + n == |q.buf|
  {
    Min(Min(window, |q.buf| - q.sent), copied)
  }

  function Transmit(q: Queue, n: nat, now: nat): Queue
    requires q.sent <= |q.times| && q.sent + n <= |q.buf|
  {
    q.(sent := q.sent + n, times := Stamp(q.times, q.sent, n, now))
  }

  function ResetWindow(q: Queue): Queue {
    q.(sent := 0)
  }

  /** Behind the plain comparisons of `pop`, an ack never names more packets than the queue
      holds, so the assertion in the source cannot fire, wrap-around or not. */
  lemma PopInBounds(q: Queue, ack: nat)
    requires q.WellFormed() && TakesAck(q, ack)
    ensures 0 < ack - q.head <= |q.buf|
    ensures q.head + |q.buf| < SEQ_SPACE
  {
  }

  /** A genuine ack, one past a packet still in the queue, is taken exactly when no sequence
      number between the head and the next one has wrapped. */
  lemma GenuineAckTakenIff(q: Queue, k: nat)
    requires q.WellFormed() && 0 < k <= |q.buf|
    ensures TakesAck(q, Add32(q.head, k)) <==> q.head + |q.buf| < SEQ_SPACE
  {
  }

  /** An empty queue after one push and one transmission. */
  function SendOne(q: Queue, p: Payload, now: nat): (r: Queue)
    requires q.head < SEQ_SPACE && q.buf == [] && q.sent == 0 && q.times == []
    ensures r.head == q.head && r.buf == [Data(q.head, p)] && r.sent == 1 && r.times == [now]
  {
    Transmit(Push(q, p), 1, now)
  }

  function AckOne(q: Queue, now: nat): (r: Queue)
    requires q.head + 1 < SEQ_SPACE && |q.buf| == 1 && q.buf[0].Data? && q.buf[0].seqNum == q.head
    requires q.sent == 1 && |q.times| == 1
    ensures r.head == q.head + 1 && r.buf == [] && r.sent == 0 && r.times == []
  {
    Pop(q, q.Next(), now, 0)
  }

  /** The queue with one packet on its way, after `n` packets that were each pushed, transmitted
      and acknowledged before the next. */
  function OneOnTheWay(n: nat, p: Payload, now: nat): (r: Queue)
    requires n + 1 < SEQ_SPACE
    ensures r.head == n + 1 && r.buf == [Data(n + 1, p)] && r.sent == 1 && r.times == [now]
    decreases n
  {
    SendOne(if n == 0 then EMPTY_QUEUE else AckOne(OneOnTheWay(n - 1, p, now), now), p, now)
  }

  /** So the packet numbered 2^32 - 1, the one after 2^32 - 2 others, is the first whose ack is
      refused. */
  lemma {:induction false} LastNumberIsNeverAcked(n: nat, p: Payload, now: nat)
    requires n + 1 < SEQ_SPACE
    ensures
      var q := OneOnTheWay(n, p, now);
      TakesAck(q, q.Next()) <==> n + 2 < SEQ_SPACE
  {
    GenuineAckTakenIff(OneOnTheWay(n, p, now), 1);
  }

  lemma PushKeepsWellFormed(q: Queue, p: Payload)
    requires q.WellFormed() && |q.buf| < QUEUE_SIZE
    ensures Push(q, p).WellFormed()
  {
  }

  lemma {:induction false} PushAllKeepsWellFormed(q: Queue, ps: seq<Payload>)
    requires q.WellFormed() && |q.buf| + |ps| <= QUEUE_SIZE
    ensures PushAll(q, ps).WellFormed()
    ensures PushAll(q, ps).head == q.head && PushAll(q, ps).buf[..|q.buf|] == q.buf
    ensures forall i :: 0 <= i < |ps| ==>
      PushAll(q, ps).buf[|q.buf| + i] == Data(Add32(q.head, |q.buf| + i), ps[i])
  {
    if ps != [] {
      PushAllKeepsWellFormed(q, ps[..|ps| - 1]);
      PushKeepsWellFormed(PushAll(q, ps[..|ps| - 1]), ps[|ps| - 1]);
    }
  }

  lemma PopKeepsWellFormed(q: Queue, ack: nat, now: nat, stale: nat)
    requires q.WellFormed()
    ensures Pop(q, ack, now, stale).WellFormed()
  {
    if TakesAck(q, ack) {
      PopInBounds(q, ack);
      var k := ack - q.head;
      forall i | 0 <= i < |q.buf| - k
        ensures q.buf[k..][i].Data? && q.buf[k..][i].seqNum == Add32(ack, i)
      {
        assert q.buf[k..][i] == q.buf[k + i];
      }
    }
  }

  lemma TransmitKeepsWellFormed(q: Queue, n: nat, now: nat)
    requires q.WellFormed() && q.sent + n <= |q.buf|
    ensures Transmit(q, n, now).WellFormed()
  {
  }

  /** Position `i` places after `pos` in the ring, which is what masking with N - 1 computes. */
  function Slot(pos: nat, i: nat): (r: nat)
    requires pos < QUEUE_SIZE && i <= QUEUE_SIZE
    ensures r < QUEUE_SIZE
  {
    if pos + i < QUEUE_SIZE then pos + i else pos + i - QUEUE_SIZE
  }

  /** `(pos + i) & mask` for a power-of-two ring. */
  method Masked(pos: nat, i: nat) returns (r: nat)
    requires pos < QUEUE_SIZE && i <= QUEUE_SIZE
    ensures r == Slot(pos, i)
  {
    r := (pos + i) % QUEUE_SIZE;
  }

  /** The ring holds `contents` from position `pos` on. */
  ghost predicate Holds<T>(ring: seq<T>, pos: nat, contents: seq<T>) {
    && |contents| <= |ring| == QUEUE_SIZE
    && pos < QUEUE_SIZE
    && forall i {:trigger contents[i]} :: 0 <= i < |contents| ==> ring[Slot(pos, i)] == contents[i]
  }

  lemma HoldsAppend<T>(ring: seq<T>, pos: nat, contents: seq<T>, x: T)
    requires Holds(ring, pos, contents) && |contents| < QUEUE_SIZE
    ensures Holds(ring[Slot(pos, |contents|) := x], pos, contents + [x])
  {
  }

  lemma HoldsUpdate<T>(ring: seq<T>, pos: nat, contents: seq<T>, k: nat, x: T)
    requires Holds(ring, pos, contents) && k < |contents|
    ensures Holds(ring[Slot(pos, k) := x], pos, contents[k := x])
  {
  }

  lemma HoldsDrop<T>(ring: seq<T>, pos: nat, contents: seq<T>, k: nat)
    requires Holds(ring, pos, contents) && k <= |contents|
    ensures Holds(ring, Slot(pos, k), contents[k..])
  {
    forall i | 0 <= i < |contents| - k
      ensures ring[Slot(Slot(pos, k), i)] == contents[k..][i]
    {
      assert Slot(Slot(pos, k), i) == Slot(pos, k + i);
    }
  }

  /** Stamping one more packet of the window. */
  lemma HoldsStamp(ring: seq<nat>, pos: nat, q: Queue, n: nat, now: nat)
    requires q.WellFormed() && q.sent + n < |q.buf|
    requires Holds(ring, pos, Transmit(q, n, now).times)
    ensures Holds(ring[Slot(pos, q.sent + n) := now], pos, Transmit(q, n + 1, now).times)
  {
    var times := Transmit(q, n, now).times;
    if q.sent + n < |times| {
      assert Transmit(q, n + 1, now).times == times[q.sent + n := now];
      HoldsUpdate(ring, pos, times, q.sent + n, now);
    } else {
      assert Transmit(q, n + 1, now).times == times + [now];
      HoldsAppend(ring, pos, times, now);
    }
  }

  /** The scalar fields of the ring, all of them determined by `headPos` and the queue. */
  datatype Cursors = Cursors(headPos: nat, headSeqNum: nat, tailPos: nat, nextSeqNum: nat,
                             curSize: nat, windowPos: nat, windowSeqNum: nat,
                             pendingSendNum: nat, rtt: nat)

  ghost function CursorsOf(q: Queue, headPos: nat): Cursors
    requires q.WellFormed() && headPos < QUEUE_SIZE
  {
    Cursors(headPos, q.head, Slot(headPos, |q.buf|), q.Next(), |q.buf|,
            Slot(headPos, q.sent), Add32(q.head, q.sent), |q.buf| - q.sent, q.rtt)
  }

  /** The cursors after `n` packets have been popped by `ack`: a window left behind follows. */
  function PoppedCursors(c: Cursors, headPos: nat, n: nat, ack: nat, rtt: nat): Cursors
    requires n <= c.curSize
  {
    var moved := c.(headPos := headPos, headSeqNum := ack, curSize := c.curSize - n, rtt := rtt);
    if ack > c.windowSeqNum
    then moved.(windowPos := headPos, pendingSendNum := moved.curSize, windowSeqNum := ack)
    else moved
  }

  lemma CursorsAfterPop(q: Queue, headPos: nat, ack: nat, now: nat, stale: nat)
    requires q.WellFormed() && headPos < QUEUE_SIZE && TakesAck(q, ack)
    ensures Pop(q, ack, now, stale).WellFormed()
    ensures var r, n := Pop(q, ack, now, stale), ack - q.head;
      && n <= CursorsOf(q, headPos).curSize
      && CursorsOf(r, Slot(headPos, n)) == PoppedCursors(CursorsOf(q, headPos), Slot(headPos, n), n, ack, r.rtt)
  {
    PopKeepsWellFormed(q, ack, now, stale);
  }

  /** The cursors after `n` packets have been transmitted. */
  lemma CursorsAfterTransmit(q: Queue, headPos: nat, n: nat, now: nat)
    requires q.WellFormed() && headPos < QUEUE_SIZE && q.sent + n <= |q.buf|
    ensures Transmit(q, n, now).WellFormed()
    ensures var c := CursorsOf(q, headPos);
      CursorsOf(Transmit(q, n, now), headPos) ==
      c.(windowPos := Slot(c.windowPos, n), windowSeqNum := Add32(c.windowSeqNum, n), pendingSendNum := c.pendingSendNum - n)
  {
    TransmitKeepsWellFormed(q, n, now);
  }

  lemma HoldsAfterPop(ring: seq<Frame>, stamps: seq<nat>, q: Queue, headPos: nat,
                      ack: nat, now: nat, stale: nat)
    requires q.WellFormed() && TakesAck(q, ack)
    requires Holds(ring, headPos, q.buf) && Holds(stamps, headPos, q.times)
    ensures Holds(ring, Slot(headPos, ack - q.head), Pop(q, ack, now, stale).buf)
    ensures Holds(stamps, Slot(headPos, ack - q.head), Pop(q, ack, now, stale).times)
    ensures q.buf[..ack - q.head] + Pop(q, ack, now, stale).buf == q.buf
  {
    HoldsDrop(ring, headPos, q.buf, ack - q.head);
    if ack - q.head <= |q.times| {
      HoldsDrop(stamps, headPos, q.times, ack - q.head);
    }
  }

  class ReliableSendQueue {
    var headPos: nat
    var headSeqNum: nat
    var tailPos: nat
    var nextSeqNum: nat
    var curSize: nat
    var windowPos: nat
    var windowSeqNum: nat
    var pendingSendNum: nat
    var rtt: nat
    const ringBuf: array<Frame>
    const sendTime: array<nat>

    ghost var q: Queue    // what the ring means

    ghost predicate Valid()
      reads this, ringBuf, sendTime
    {
      && q.WellFormed()
      && headPos < QUEUE_SIZE
      && Fields() == CursorsOf(q, headPos)
      && Holds(ringBuf[..], headPos, q.buf)
      && Holds(sendTime[..], headPos, q.times)
    }

    ghost function Fields(): Cursors
      reads this
    {
      Cursors(headPos, headSeqNum, tailPos, nextSeqNum, curSize, windowPos, windowSeqNum,
              pendingSendNum, rtt)
    }

    constructor ()
      ensures Valid() && q == EMPTY_QUEUE
      ensures fresh(ringBuf) && fresh(sendTime)
    {
      headPos, headSeqNum, tailPos, nextSeqNum := 0, 1, 0, 1;
      curSize, windowPos, windowSeqNum, pendingSendNum := 0, 0, 1, 0;
      rtt := DEFAULT_RTT;
      ringBuf := new Frame[QUEUE_SIZE](_ => Ack(0));
      sendTime := new nat[QUEUE_SIZE](_ => 0);
      q := EMPTY_QUEUE;
    }

    /** Hands the `n` oldest packets to the garbage collector. */
    method Collect(n: nat) returns (garbage: seq<Frame>)
      requires Valid() && n <= |q.buf|
      ensures garbage == q.buf[..n]
    {
      garbage := [];
      for i := 0 to n
        invariant garbage == q.buf[..i]
      {
        var at := Masked(headPos, i);
        assert ringBuf[..][at] == q.buf[i];
        garbage := garbage + [ringBuf[at]];
      }
    }

    /** `reset`: every queued packet goes to the garbage collector, the ring is empty again. */
    method Reset() returns (garbage: seq<Frame>)
      requires Valid()
      modifies this
      ensures Valid()
      ensures garbage == old(q.buf)
      ensures q == EMPTY_QUEUE.(rtt := old(q.rtt))
    {
      garbage := Collect(curSize);
      headPos, headSeqNum, tailPos, nextSeqNum := 0, 1, 0, 1;
      curSize, windowPos, windowSeqNum, pendingSendNum := 0, 0, 1, 0;
      q := EMPTY_QUEUE.(rtt := rtt);
    }

    method PushOne(p: Payload) returns (ok: bool)
      requires Valid()
      modifies this, ringBuf
      ensures Valid()
      ensures ok <==> |old(q.buf)| < QUEUE_SIZE
      ensures q == if ok then Push(old(q), p) else old(q)
    {
      if curSize == QUEUE_SIZE {
        return false;
      }
      HoldsAppend(ringBuf[..], headPos, q.buf, Data(nextSeqNum, p));
      ringBuf[tailPos] := Data(nextSeqNum, p);
      tailPos := Masked(tailPos, 1);
      nextSeqNum := Add32(nextSeqNum, 1);
      curSize := curSize + 1;
      pendingSendNum := pendingSendNum + 1;
      PushKeepsWellFormed(q, p);
      q := Push(q, p);
      return true;
    }

    method PushBatch(batch: seq<Payload>) returns (ok: bool)
      requires Valid()
      modifies this, ringBuf
      ensures Valid()
      ensures ok <==> |old(q.buf)| + |batch| <= QUEUE_SIZE
      ensures q == if ok then PushAll(old(q), batch) else old(q)
    {
      if |batch| + curSize > QUEUE_SIZE {
        return false;
      }
      assert batch[..0] == [];
      for i := 0 to |batch|
        invariant Valid()
        invariant q == PushAll(old(q), batch[..i])
      {
        assert batch[..i + 1][..i] == batch[..i];
        var _ := PushOne(batch[i]);
      }
      assert batch[..|batch|] == batch;
      return true;
    }

    method PopAcked(ack: nat, now: nat) returns (garbage: seq<Frame>)
      requires Valid() && ack < SEQ_SPACE
      modifies this
      ensures Valid()
      ensures exists stale: nat :: q == Pop(old(q), ack, now, stale)
      ensures garbage + q.buf == old(q.buf)
    {
      garbage := [];
      if curSize == 0 || ack <= headSeqNum || ack > nextSeqNum {
        assert q == Pop(q, ack, now, 0);
        return;
      }
      PopInBounds(q, ack);
      var popNum := ack - headSeqNum;
      assert popNum <= curSize;
      garbage := Collect(popNum);
      AdvanceHead(popNum, ack, now);
    }

    /** The second half of `pop`, once the ack is known to name `popNum` queued packets. */
    method AdvanceHead(popNum: nat, ack: nat, now: nat)
      requires Valid() && TakesAck(q, ack) && popNum == ack - q.head
      modifies this
      ensures Valid()
      ensures exists stale: nat :: q == Pop(old(q), ack, now, stale)
      ensures old(q.buf)[..popNum] + q.buf == old(q.buf)
    {
      ghost var w, h := q, headPos;
      ghost var ring, stamps := ringBuf[..], sendTime[..];
      PopInBounds(w, ack);
      var posBeforeAck := Masked(headPos, popNum - 1);
      var newHead := Masked(headPos, popNum);
      ghost var stale := sendTime[posBeforeAck];
      CursorsAfterPop(w, h, ack, now, stale);
      HoldsAfterPop(ring, stamps, w, h, ack, now, stale);
      assert stale == if popNum <= |w.times| then w.times[popNum - 1] else stale;
      MoveHead(newHead, popNum, ack, Sub64(now, sendTime[posBeforeAck]));
      q := Pop(w, ack, now, stale);
      assert Fields() == CursorsOf(q, newHead);
      assert ringBuf[..] == ring && sendTime[..] == stamps;
    }

    method MoveHead(newHead: nat, popNum: nat, ack: nat, sample: nat)
      requires popNum <= curSize
      modifies this`rtt, this`headPos, this`curSize, this`headSeqNum, this`windowPos, this`pendingSendNum, this`windowSeqNum
      ensures Fields() == PoppedCursors(old(Fields()), newHead, popNum, ack, sample)
    {
      rtt := sample;
      headPos := newHead;
      curSize := curSize - popNum;
      headSeqNum := ack;
      if ack > windowSeqNum {
        windowPos := headPos;
        pendingSendNum := curSize;
        windowSeqNum := headSeqNum;
      }
    }

    /** The copy loop of `get_window_batch`: it stops when a copy cannot be allocated. */
    method CopyWindow(size: nat, copied: nat, now: nat) returns (batch: seq<Frame>)
      requires Valid() && q.sent + size <= |q.buf|
      modifies sendTime
      ensures |batch| == Min(size, copied)
      ensures batch == q.buf[q.sent..q.sent + |batch|]
      ensures Holds(sendTime[..], headPos, Transmit(q, |batch|, now).times)
    {
      ghost var w, h := q, headPos;
      var base := windowPos;
      batch := [];
      var pos := 0;
      assert Transmit(w, 0, now).times == w.times;
      while pos < size && pos < copied
        invariant 0 <= pos <= Min(size, copied)
        invariant batch == w.buf[w.sent..w.sent + pos]
        invariant Holds(sendTime[..], h, Transmit(w, pos, now).times)
        invariant Holds(ringBuf[..], h, w.buf)
      {
        var f := CopyOne(base, pos, now, w, h);
        batch := batch + [f];
        pos := pos + 1;
      }
    }

    /** One turn of it: the packet is copied and its time stamped. */
    method CopyOne(base: nat, pos: nat, now: nat, ghost w: Queue, ghost h: nat) returns (f: Frame)
      requires w.WellFormed() && w.sent + pos < |w.buf| && h < QUEUE_SIZE && base == Slot(h, w.sent)
      requires ringBuf.Length == sendTime.Length == QUEUE_SIZE && ringBuf as object != sendTime as object
      requires Holds(ringBuf[..], h, w.buf) && Holds(sendTime[..], h, Transmit(w, pos, now).times)
      modifies sendTime
      ensures f == w.buf[w.sent + pos] && ringBuf[..] == old(ringBuf[..])
      ensures Holds(sendTime[..], h, Transmit(w, pos + 1, now).times)
    {
      var at := Masked(base, pos);
      assert ringBuf[..][at] == w.buf[w.sent + pos];
      HoldsStamp(sendTime[..], h, w, pos, now);
      f := ringBuf[at];
      ghost var stamps := sendTime[..];
      sendTime[at] := now;
      assert sendTime[..] == stamps[at := now];
    }

    method GetWindowBatch(windowSize: nat, copied: nat, now: nat) returns (batch: seq<Frame>)
      requires Valid()
      modifies this, sendTime
      ensures Valid()
      ensures |batch| == BatchSize(old(q), windowSize, copied)
      ensures batch == old(q.buf)[old(q.sent)..old(q.sent) + |batch|]
      ensures q == Transmit(old(q), |batch|, now)
    {
      var size := windowSize;
      if size > pendingSendNum {
        size := pendingSendNum;
      }
      ghost var ring := ringBuf[..];
      batch := CopyWindow(size, copied, now);
      assert ringBuf[..] == ring;
      MoveWindow(|batch|, now);
    }

    method MoveWindow(n: nat, ghost now: nat)
      requires q.WellFormed() && headPos < QUEUE_SIZE && Fields() == CursorsOf(q, headPos) && q.sent + n <= |q.buf|
      requires Holds(ringBuf[..], headPos, q.buf) && Holds(sendTime[..], headPos, Transmit(q, n, now).times)
      modifies this`windowPos, this`pendingSendNum, this`windowSeqNum, this`q
      ensures Valid() && q == Transmit(old(q), n, now)
    {
      CursorsAfterTransmit(q, headPos, n, now);
      windowPos := Masked(windowPos, n);
      pendingSendNum := pendingSendNum - n;
      windowSeqNum := Add32(windowSeqNum, n);
      q := Transmit(q, n, now);
    }

    method ResetWindowPos() returns (morePktsToSend: nat)
      requires Valid()
      modifies this
      ensures Valid()
      ensures morePktsToSend == old(q.sent)
      ensures q == ResetWindow(old(q))
    {
      morePktsToSend := curSize - pendingSendNum;
      windowPos := headPos;
      pendingSendNum := curSize;
      windowSeqNum := headSeqNum;
      q := ResetWindow(q);
    }
  }
}
