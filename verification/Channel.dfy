/** Two endpoints and a network that loses, duplicates and reorders packets at will.
    The network is the set of frames ever put on it: any of them may arrive, any number of
    times, in any order, or never. */
module Channel {
  import opened Packets
  import opened SendQueue
  import opened Framing
  import opened Endpoint

  /** An endpoint with what has happened to it so far. */
  datatype Side = Side(
    ep: Endpoint,
    messages: seq<Message>,    // messages accepted by reliable_send, in order
    pushed: seq<Payload>,      // their packets: pushed[i] carries sequence number i + 1
    stamps: seq<nat>,          // last transmission time of every packet transmitted so far
    out: set<Frame>,           // everything put on the network
    accepted: seq<Payload>,    // packets taken from the peer
    delivered: seq<Single>)    // messages handed to the handlers

  datatype State = State(a: Side, b: Side)

  function SideOf(first: bool, s: State): Side {
    if first then s.a else s.b
  }

  datatype Event =
    | Submit(m: Message)
    | SendWindow(window: nat, copied: nat, now: nat)
    | SendAck
    | Arrive(f: Frame, now: nat, stale: nat)
    | Timer(now: nat)

  /** `first` says which of the two sides acts. */
  datatype Action = Action(first: bool, e: Event)

  function Start(now: nat): (s: Side)
    ensures s.ep.WellFormed()
  {
    Side(Init(now), [], [], [], {}, [], [])
  }

  predicate Enabled(peer: Side, e: Event) {
    match e
    case Submit(m) => m.Fits()
    case Arrive(f, _, _) => f in peer.out
    case _ => true
  }

  function FrameSet(frames: seq<Frame>): set<Frame> {
    set f | f in frames
  }

  function OnSubmit(s: Side, m: Message): (r: Side)
    requires s.ep.WellFormed() && m.Fits()
    ensures r.ep.WellFormed()
  {
    var ps := Encode(m);
    if !CanSend(s.ep, |ps|) then s
    else s.(ep := Send(s.ep, ps), messages := s.messages + [m], pushed := s.pushed + ps)
  }

  /** Index of the first packet behind the window cursor. */
  function WindowStart(s: Side): int {
    |s.stamps| - |s.ep.q.times| + s.ep.q.sent
  }

  function OnWindow(s: Side, window: nat, copied: nat, now: nat): (r: Side)
    requires s.ep.WellFormed()
    ensures r.ep.WellFormed()
  {
    var frames := Transmitted(s.ep, window, copied);
    s.(ep := SendBatch(s.ep, window, copied, now), out := s.out + FrameSet(frames),
       stamps := if 0 <= WindowStart(s) <= |s.stamps|
                 then Stamp(s.stamps, WindowStart(s), |frames|, now) else s.stamps)
  }

  function OnSendAck(s: Side): (r: Side)
    requires s.ep.WellFormed()
    ensures r.ep.WellFormed()
  {
    if AckDue(s.ep) then s.(ep := AckSent(s.ep), out := s.out + {Ack(s.ep.nextRecv)}) else s
  }

  function OnData(s: Side, n: nat, p: Payload): (r: Side)
    requires s.ep.WellFormed()
    ensures r.ep.WellFormed()
  {
    if n == s.ep.nextRecv then
      s.(ep := RecvData(s.ep, n, p), accepted := s.accepted + [p],
         delivered := s.delivered + Feed(s.ep.asm, p).1)
    else s.(ep := RecvData(s.ep, n, p))
  }

  function Act(s: Side, e: Event): (r: Side)
    requires s.ep.WellFormed() && (e.Submit? ==> e.m.Fits())
    ensures r.ep.WellFormed()
  {
    match e
    case Submit(m) => OnSubmit(s, m)
    case SendWindow(window, copied, now) => OnWindow(s, window, copied, now)
    case SendAck => OnSendAck(s)
    case Arrive(Ack(n), now, stale) => s.(ep := RecvAck(s.ep, n, now, stale))
    case Arrive(Data(n, p), _, _) => OnData(s, n, p)
    case Timer(now) => s.(ep := Check(s.ep, now))
  }

  ghost predicate WellFormed(s: State) {
    s.a.ep.WellFormed() && s.b.ep.WellFormed()
  }

  predicate Possible(s: State, x: Action) {
    if x.first then Enabled(s.b, x.e) else Enabled(s.a, x.e)
  }

  function Step(s: State, x: Action): (r: State)
    requires WellFormed(s) && Possible(s, x)
    ensures WellFormed(r)
  {
    if x.first then s.(a := Act(s.a, x.e)) else s.(b := Act(s.b, x.e))
  }

  predicate Legal(s: State, run: seq<Action>)
    requires WellFormed(s)
    decreases run
  {
    run == [] || (Possible(s, run[0]) && Legal(Step(s, run[0]), run[1..]))
  }

  function Exec(s: State, run: seq<Action>): (r: State)
    requires WellFormed(s) && Legal(s, run)
    ensures WellFormed(r)
    decreases run
  {
    if run == [] then s else Exec(Step(s, run[0]), run[1..])
  }

  /** Fewer than 2^32 packets each way, so that no sequence number has wrapped. */
  ghost predicate Small(s: State) {
    |s.a.pushed| < SEQ_SPACE - 1 && |s.b.pushed| < SEQ_SPACE - 1
  }

  /** Every data frame on the network is a transmitted packet under its own number. */
  ghost predicate Genuine(out: set<Frame>, transmitted: nat, pushed: seq<Payload>) {
    && transmitted <= |pushed|
    && forall f :: f in out && f.Data? ==>
         1 <= f.seqNum <= transmitted && f.payload == pushed[f.seqNum - 1]
  }

  ghost predicate AcksUpTo(out: set<Frame>, n: nat) {
    forall f :: f in out && f.Ack? ==> f.seqNum <= n
  }

  /** The queue is the unacknowledged tail of what was pushed, with its own timestamps. */
  ghost predicate Queued(q: Queue, pushed: seq<Payload>, stamps: seq<nat>) {
    && 1 <= q.head
    && q.head + |q.buf| == 1 + |pushed|
    && (forall i :: 0 <= i < |q.buf| ==> q.buf[i] == Data(q.head + i, pushed[q.head - 1 + i]))
    && q.head - 1 <= |stamps|
    && q.times == stamps[q.head - 1..]
  }

  ghost predicate Submitted(messages: seq<Message>, pushed: seq<Payload>) {
    && (forall i :: 0 <= i < |messages| ==> messages[i].Fits())
    && pushed == Flatten(messages)
  }

  /** What a side knows about its own sending direction. */
  ghost predicate Sending(x: Side) {
    && Submitted(x.messages, x.pushed)
    && Genuine(x.out, |x.stamps|, x.pushed)
    && (x.ep.up ==> Queued(x.ep.q, x.pushed, x.stamps))
    && (x.ep.up ==> x.ep.lastHead <= x.ep.q.head && x.ep.consecutive < DOWN_AFTER)
    && (!x.ep.up ==> x.ep.q.buf == [])
  }

  /** The receiver has taken a prefix of what was pushed, and formatted exactly that. */
  ghost predicate Received(y: Side, pushed: seq<Payload>) {
    && |y.accepted| <= |pushed|
    && y.accepted == pushed[..|y.accepted|]
    && y.delivered == Output(IDLE, y.accepted)
    && (y.ep.up ==> y.ep.nextRecv == 1 + |y.accepted| && y.ep.asm == After(IDLE, y.accepted))
    && (!y.ep.up ==> y.ep.nextRecv == 0)
    && (y.ep.up ==> y.ep.snapshot <= y.ep.nextRecv)
    && y.ep.errors <= ERROR_LIMIT
  }

  /** What holds between a sender and the receiver at the other end. */
  ghost predicate Linked(x: Side, y: Side) {
    && Received(y, x.pushed)
    && |y.accepted| <= |x.stamps|
    && AcksUpTo(y.out, 1 + |y.accepted|)
    && (x.ep.up ==> x.ep.q.head <= 1 + |y.accepted|)
  }

  ghost predicate Inv(s: State) {
    Small(s) ==>
      && Sending(s.a) && Sending(s.b)
      && Linked(s.a, s.b) && Linked(s.b, s.a)
  }
}
