/** One end of a reliable connection as a value: runtime/reliable/reliable_p2p.{h,cc}.
    Every function is one call on the connection object. */
module Endpoint {
  import opened Packets
  import opened SendQueue
  import opened Framing

  const ERROR_LIMIT: nat := 16        // mismatches tolerated before a repeated ack
  const DOWN_AFTER: nat := 5000       // fruitless checks before the connection is down
  const CHECK_TIMES: nat := 5         // initial_check_times and next_check_times

  datatype Endpoint = Endpoint(
    q: Queue,
    nextRecv: nat,        // next_seq_num_to_recv_
    snapshot: nat,        // next_seq_num_to_recv_snapshot_
    errors: nat,          // error_counter_
    asm: Reassembly,      // batch_ and cur_msg_
    nextCheck: nat,       // next_check_time_
    lastHead: nat,        // last_check_head_seq_num_
    consecutive: nat,     // consecutive_counter_
    up: bool)             // is_connection_up_
  {
    ghost predicate WellFormed() {
      && q.WellFormed()
      && nextRecv < SEQ_SPACE
      && snapshot < SEQ_SPACE
    }
  }

  function Init(now: nat): (e: Endpoint)
    ensures e.WellFormed()
  {
    Endpoint(EMPTY_QUEUE, 1, 1, 0, IDLE, now + CHECK_TIMES * DEFAULT_RTT, 1, 0, true)
  }

  predicate CanSend(e: Endpoint, n: nat) {
    e.up && |e.q.buf| + n <= QUEUE_SIZE
  }

  /** Both `reliable_send` overloads: all packets of the message, or none. */
  function Send(e: Endpoint, ps: seq<Payload>): (r: Endpoint)
    requires e.WellFormed()
    ensures r.WellFormed()
  {
    if !CanSend(e, |ps|) then e
    else
      PushAllKeepsWellFormed(e.q, ps);
      e.(q := PushAll(e.q, ps))
  }

  function Transmitted(e: Endpoint, window: nat, copied: nat): seq<Frame>
    requires e.WellFormed()
  {
    e.q.buf[e.q.sent..e.q.sent + BatchSize(e.q, window, copied)]
  }

  /** `get_send_batch`. */
  function SendBatch(e: Endpoint, window: nat, copied: nat, now: nat): (r: Endpoint)
    requires e.WellFormed()
    ensures r.WellFormed()
  {
    TransmitKeepsWellFormed(e.q, BatchSize(e.q, window, copied), now);
    e.(q := Transmit(e.q, BatchSize(e.q, window, copied), now))
  }

  predicate AckDue(e: Endpoint) {
    e.snapshot != e.nextRecv
  }

  /** `get_ack_pkt`, when it returns an ack for `nextRecv`. */
  function AckSent(e: Endpoint): (r: Endpoint)
    requires e.WellFormed()
    ensures r.WellFormed()
  {
    e.(snapshot := e.nextRecv)
  }

  function RecvAck(e: Endpoint, ack: nat, now: nat, stale: nat): (r: Endpoint)
    requires e.WellFormed()
    ensures r.WellFormed()
  {
    PopKeepsWellFormed(e.q, ack, now, stale);
    e.(q := Pop(e.q, ack, now, stale))
  }

  function Before32(n: nat): (r: nat)
    requires n < SEQ_SPACE
    ensures r < SEQ_SPACE
  {
    if n == 0 then SEQ_SPACE - 1 else n - 1
  }

  /** A data packet with the wrong sequence number: every 17th in a row forces a new ack. */
  function Mismatch(e: Endpoint): (r: Endpoint)
    requires e.WellFormed()
    ensures r.WellFormed()
  {
    if e.errors + 1 > ERROR_LIMIT then e.(errors := 0, snapshot := Before32(e.nextRecv))
    else e.(errors := e.errors + 1)
  }

  function Accept(e: Endpoint, p: Payload): (r: Endpoint)
    requires e.WellFormed()
    ensures r.WellFormed()
  {
    e.(errors := 0, nextRecv := Add32(e.nextRecv, 1), asm := Feed(e.asm, p).0)
  }

  function RecvData(e: Endpoint, seqNum: nat, p: Payload): (r: Endpoint)
    requires e.WellFormed()
    ensures r.WellFormed()
  {
    if seqNum == e.nextRecv then Accept(e, p) else Mismatch(e)
  }

  /** The connection is given up: the queue is dropped and no sequence number is expected. */
  function Down(e: Endpoint): (r: Endpoint)
    requires e.WellFormed()
    ensures r.WellFormed()
  {
    e.(q := EMPTY_QUEUE.(rtt := e.q.rtt), nextRecv := 0, snapshot := 0,
       asm := Reassembly([], Clean(e.asm.msg)), up := false)
  }

  predicate Stalled(e: Endpoint) {
    e.lastHead == e.q.head && e.q.buf != []
  }

  /** `check` once its timer has expired. */
  function CheckDue(e: Endpoint, now: nat): (r: Endpoint)
    requires e.WellFormed()
    ensures r.WellFormed()
  {
    var f :=
      if !Stalled(e) then e.(consecutive := 0)
      else
        var g := e.(q := ResetWindow(e.q), consecutive := e.consecutive + 1);
        if g.consecutive == DOWN_AFTER then Down(g) else g;
    f.(nextCheck := now + CHECK_TIMES * f.q.rtt, lastHead := f.q.head)
  }

  function Check(e: Endpoint, now: nat): (r: Endpoint)
    requires e.WellFormed()
    ensures r.WellFormed()
  {
    if e.nextCheck < now then CheckDue(e, now) else e
  }
}
