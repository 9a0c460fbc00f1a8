/** When can a connected sender still empty its queue?
    A schedule is a sequence of moves that lose nothing: what is sent in a move arrives in it. */
module ChannelDrain {
  import opened Packets
  import opened SendQueue
  import opened Framing
  import opened Endpoint
  import opened Channel
  import opened ChannelSafety
  import ReliableP2P

  /** Probe:  the first side's retransmission check
      Resend: the first side sends one packet from its window, and it arrives
      Reack:  the second side sends an ack if one is due, and it arrives */
  datatype Move = Probe(now: nat) | Resend(now: nat) | Reack(now: nat)

  /** The steps of the channel a move consists of. */
  function Steps(s: State, m: Move): seq<Action>
    requires WellFormed(s)
  {
    match m
    case Probe(now) => [Action(true, Timer(now))]
    case Resend(now) =>
      if s.a.ep.q.sent == |s.a.ep.q.buf| then []
      else [Action(true, SendWindow(1, 1, now)),
            Action(false, Arrive(s.a.ep.q.buf[s.a.ep.q.sent], now, 0))]
    case Reack(now) =>
      if !AckDue(s.b.ep) then []
      else [Action(false, SendAck), Action(true, Arrive(Ack(s.b.ep.nextRecv), now, 0))]
  }

  function AfterResend(s: State, now: nat): (r: State)
    requires WellFormed(s) && s.a.ep.q.sent < |s.a.ep.q.buf|
    ensures WellFormed(r)
  {
    var f := s.a.ep.q.buf[s.a.ep.q.sent];
    State(OnWindow(s.a, 1, 1, now), OnData(s.b, f.seqNum, f.payload))
  }

  function AfterReack(s: State, now: nat): (r: State)
    requires WellFormed(s) && AckDue(s.b.ep)
    ensures WellFormed(r)
  {
    State(s.a.(ep := RecvAck(s.a.ep, s.b.ep.nextRecv, now, 0)), OnSendAck(s.b))
  }

  function AfterMove(s: State, m: Move): (r: State)
    requires WellFormed(s)
    ensures WellFormed(r)
  {
    match m
    case Probe(now) => s.(a := s.a.(ep := Check(s.a.ep, now)))
    case Resend(now) => if s.a.ep.q.sent == |s.a.ep.q.buf| then s else AfterResend(s, now)
    case Reack(now) => if !AckDue(s.b.ep) then s else AfterReack(s, now)
  }

  lemma {:induction false} OneStepRun(s: State, x: Action)
    requires WellFormed(s) && Possible(s, x)
    ensures Legal(s, [x]) && Exec(s, [x]) == Step(s, x)
  {
    assert [x][1..] == [];
    assert Exec(Step(s, x), []) == Step(s, x);
  }

  lemma {:induction false} TwoStepRun(s: State, x: Action, y: Action)
    requires WellFormed(s) && Possible(s, x) && Possible(Step(s, x), y)
    ensures Legal(s, [x, y]) && Exec(s, [x, y]) == Step(Step(s, x), y)
  {
    assert [x, y][1..] == [y];
    OneStepRun(Step(s, x), y);
  }

  lemma {:induction false} ResendIsRun(s: State, now: nat)
    requires WellFormed(s) && s.a.ep.q.sent < |s.a.ep.q.buf|
    ensures var run := Steps(s, Resend(now));
      Legal(s, run) && Exec(s, run) == AfterResend(s, now)
  {
    var q, run := s.a.ep.q, Steps(s, Resend(now));
    var s1 := Step(s, run[0]);
    assert Transmitted(s.a.ep, 1, 1) == [q.buf[q.sent]];
    assert q.buf[q.sent] in s1.a.out;
    TwoStepRun(s, run[0], run[1]);
  }

  /** A move is a run of the channel. */
  lemma {:induction false} MoveIsRun(s: State, m: Move)
    requires WellFormed(s)
    ensures Legal(s, Steps(s, m)) && Exec(s, Steps(s, m)) == AfterMove(s, m)
  {
    var run := Steps(s, m);
    if run != [] {
      match m
      case Probe(now) => OneStepRun(s, run[0]);
      case Resend(now) => ResendIsRun(s, now);
      case Reack(now) => TwoStepRun(s, run[0], run[1]);
    }
  }

  function Play(s: State, moves: seq<Move>): (r: State)
    requires WellFormed(s)
    ensures WellFormed(r)
    decreases moves
  {
    if moves == [] then s else Play(AfterMove(s, moves[0]), moves[1..])
  }

  ghost predicate Drained(s: State) {
    s.a.ep.up && s.a.ep.q.buf == []
  }

  /** What decides the question, relative to the head of the queue:
      size:  packets in the queue          taken: how many of them the receiver has
      sent:  position of the window        errors: mismatches counted by the receiver
      due:   an ack would be sent          moved: the head has moved since the last check
      probes: fruitless checks so far */
  datatype Gap = Gap(size: nat, sent: nat, taken: nat, errors: nat, due: bool, moved: bool, probes: nat)

  const LAST_PROBE: nat := DOWN_AFTER - 1

  ghost predicate GapOk(g: Gap) {
    && g.sent <= g.size && g.taken <= g.size
    && g.errors <= ERROR_LIMIT && g.probes <= LAST_PROBE
  }

  /** One packet at position `sent` arrives. */
  function GapResend(g: Gap): Gap {
    if g.sent == g.taken then g.(sent := g.sent + 1, taken := g.taken + 1, errors := 0, due := true)
    else if g.errors == ERROR_LIMIT then g.(sent := g.sent + 1, errors := 0, due := true)
    else g.(sent := g.sent + 1, errors := g.errors + 1)
  }

  function GapReack(g: Gap): Gap
    requires g.taken <= g.size
  {
    if g.taken == 0 then g.(due := false)
    else g.(size := g.size - g.taken, taken := 0, due := false, moved := true,
            sent := if g.taken > g.sent then 0 else g.sent - g.taken)
  }

  predicate GivesUp(g: Gap) {
    g.size > 0 && !g.moved && g.probes == LAST_PROBE
  }

  function GapProbe(g: Gap): Gap {
    if g.size == 0 || g.moved then g.(moved := false, probes := 0)
    else g.(sent := 0, probes := g.probes + 1)
  }

  /** The exact condition, in terms of the fields of the two endpoints: the queue is empty, or
      the head moved since the last check, or an ack for queued packets is due, or the window
      has not passed the packet the receiver waits for, or that packet exists and one more
      check is allowed, or enough mismatches can still be provoked to force a repeated ack. */
  predicate CanDrain(g: Gap) {
    || g.size == 0
    || g.moved
    || (g.taken > 0 && g.due)
    || (g.taken < g.size && (g.sent <= g.taken || g.probes < LAST_PROBE))
    || (g.taken > 0 && g.errors + (g.size - g.sent) > ERROR_LIMIT)
    || (g.taken == g.size &&
        g.errors + (g.size - g.sent) + (LAST_PROBE - g.probes) * g.size > ERROR_LIMIT)
  }

  ghost function GapOf(s: State): Gap
    requires s.a.ep.q.head <= 1 + |s.b.accepted|
  {
    Gap(|s.a.ep.q.buf|, s.a.ep.q.sent, 1 + |s.b.accepted| - s.a.ep.q.head, s.b.ep.errors,
        AckDue(s.b.ep), s.a.ep.lastHead < s.a.ep.q.head, s.a.ep.consecutive)
  }

  /** Both sides connected, anything reachable. */
  ghost predicate Connected(s: State) {
    WellFormed(s) && Inv(s) && Small(s) && s.a.ep.up && s.b.ep.up
  }

  lemma GapIsOk(s: State)
    requires Connected(s)
    ensures s.a.ep.q.head <= 1 + |s.b.accepted| && GapOk(GapOf(s))
  {
  }

  lemma MoveKeepsConnected(s: State, m: Move)
    requires Connected(s)
    ensures WellFormed(AfterMove(s, m)) && Inv(AfterMove(s, m)) && Small(AfterMove(s, m))
    ensures AfterMove(s, m).b.ep.up
  {
    MoveIsRun(s, m);
    ExecKeepsInv(s, Steps(s, m));
  }

  /** The packet at the window and what it does to either end. */
  lemma ResendOne(s: State, now: nat)
    requires WellFormed(s) && s.a.ep.q.sent < |s.a.ep.q.buf|
    requires Queued(s.a.ep.q, s.a.pushed, s.a.stamps)
    requires s.a.ep.q.head <= s.b.ep.nextRecv == 1 + |s.b.accepted|
    ensures
      var (q, r) := (s.a.ep.q, AfterResend(s, now));
      && q.buf[q.sent].seqNum == q.head + q.sent
      && r.a.ep == s.a.ep.(q := Transmit(q, 1, now))
      && r.b.ep == RecvData(s.b.ep, q.head + q.sent, q.buf[q.sent].payload)
      && |r.b.accepted| == |s.b.accepted| + if q.sent == GapOf(s).taken then 1 else 0
  {
    var q := s.a.ep.q;
    assert BatchSize(q, 1, 1) == 1;
    assert q.buf[q.sent] == Data(q.head + q.sent, s.a.pushed[q.head - 1 + q.sent]);
  }

  lemma ResendGap(s: State, now: nat)
    requires Connected(s) && s.a.ep.q.sent < |s.a.ep.q.buf|
    ensures Connected(AfterResend(s, now))
    ensures GapOf(AfterResend(s, now)) == GapResend(GapOf(s))
  {
    GapIsOk(s);
    MoveKeepsConnected(s, Resend(now));
    ResendGapEnds(s, now);
  }

  lemma ResendGapEnds(s: State, now: nat)
    requires Connected(s) && s.a.ep.q.sent < |s.a.ep.q.buf| && s.a.ep.q.head <= 1 + |s.b.accepted|
    ensures var r := AfterResend(s, now);
      r.a.ep.up && r.a.ep.q.head <= 1 + |r.b.accepted| && GapOf(r) == GapResend(GapOf(s))
  {
    ResendOne(s, now);
    var q, r := s.a.ep.q, AfterResend(s, now);
    assert r.a.ep.q.head == q.head && |r.a.ep.q.buf| == |q.buf| && r.a.ep.q.sent == q.sent + 1;
    assert r.b.ep.errors == GapResend(GapOf(s)).errors;
    assert AckDue(r.b.ep) == GapResend(GapOf(s)).due;
  }

  lemma ReackOne(s: State, now: nat)
    requires Connected(s) && AckDue(s.b.ep)
    ensures
      var (g, r) := (GapOf(s), AfterReack(s, now));
      && r.b.ep == AckSent(s.b.ep) && r.b.accepted == s.b.accepted
      && r.a.ep == s.a.ep.(q := r.a.ep.q)
      && (g.taken == 0 ==> r.a.ep.q == s.a.ep.q)
      && (g.taken > 0 ==>
            && r.a.ep.q.head == s.a.ep.q.head + g.taken
            && |r.a.ep.q.buf| == g.size - g.taken
            && r.a.ep.q.sent == if g.taken > g.sent then 0 else g.sent - g.taken)
  {
    GapIsOk(s);
    var q, n := s.a.ep.q, s.b.ep.nextRecv;
    assert n == q.head + GapOf(s).taken;
    if GapOf(s).taken > 0 {
      assert TakesAck(q, n);
    }
  }

  lemma ReackGap(s: State, now: nat)
    requires Connected(s) && AckDue(s.b.ep)
    ensures Connected(AfterReack(s, now))
    ensures GapOf(AfterReack(s, now)) == GapReack(GapOf(s))
  {
    GapIsOk(s);
    MoveKeepsConnected(s, Reack(now));
    ReackOne(s, now);
  }

  lemma ProbeGap(s: State, now: nat)
    requires Connected(s) && s.a.ep.nextCheck < now
    ensures
      var r := AfterMove(s, Probe(now));
      if GivesUp(GapOf(s)) then !r.a.ep.up
      else Connected(r) && GapOf(r) == GapProbe(GapOf(s))
  {
    GapIsOk(s);
    MoveKeepsConnected(s, Probe(now));
  }

  /** The plan: collect a due ack, else resend, else check. */
  function Plan(g: Gap, now: nat): Move {
    if g.due && g.taken > 0 then Reack(now) else if g.sent < g.size then Resend(now) else Probe(now)
  }

  function Budget(g: Gap): nat
    requires GapOk(g)
  {
    if g.moved then DOWN_AFTER else LAST_PROBE - g.probes
  }

  lemma OneProbeLess(g: Gap)
    requires g.probes < LAST_PROBE
    ensures (LAST_PROBE - g.probes) * g.size == (LAST_PROBE - (g.probes + 1)) * g.size + g.size
  {
  }

  lemma AtLeast(k: nat, n: nat)
    requires n > 0
    ensures k * n >= k
  {
  }

  lemma PlanWorks(g: Gap)
    requires GapOk(g) && CanDrain(g) && g.size > 0
    ensures g.due && g.taken > 0 ==>
      GapOk(GapReack(g)) && CanDrain(GapReack(g)) && GapReack(g).size < g.size
    ensures !(g.due && g.taken > 0) && g.sent < g.size ==>
      GapOk(GapResend(g)) && CanDrain(GapResend(g))
  {
  }

  lemma PlannedProbeWorks(g: Gap)
    requires GapOk(g) && CanDrain(g) && g.size > 0 && !(g.due && g.taken > 0) && g.sent == g.size
    ensures !GivesUp(g)
    ensures GapOk(GapProbe(g)) && CanDrain(GapProbe(g)) && Budget(GapProbe(g)) < Budget(g)
  {
    if g.moved {
      AtLeast(LAST_PROBE, g.size);
    } else {
      OneProbeLess(g);
    }
  }

  ghost predicate Good(s: State) {
    && Connected(s)
    && s.a.ep.q.head <= 1 + |s.b.accepted|
    && GapOk(GapOf(s))
    && CanDrain(GapOf(s))
  }

  ghost function Collecting(g: Gap): nat {
    if g.due && g.taken > 0 then 0 else 1
  }

  ghost predicate Closer(h: Gap, g: Gap)
    requires GapOk(g) && GapOk(h)
  {
    || h.size < g.size
    || (h.size == g.size && Budget(h) < Budget(g))
    || (h.size == g.size && Budget(h) == Budget(g) && Collecting(h) <= Collecting(g) &&
        h.size - h.sent < g.size - g.sent)
  }

  ghost function PlannedGap(g: Gap): Gap
    requires GapOk(g)
  {
    if g.due && g.taken > 0 then GapReack(g) else if g.sent < g.size then GapResend(g) else GapProbe(g)
  }

  lemma PlannedGapIsCloser(g: Gap)
    requires GapOk(g) && CanDrain(g) && g.size > 0
    ensures GapOk(PlannedGap(g)) && CanDrain(PlannedGap(g)) && Closer(PlannedGap(g), g)
  {
    PlanWorks(g);
    if !(g.due && g.taken > 0) && g.sent == g.size {
      PlannedProbeWorks(g);
    }
  }

  lemma PlanStep(s: State, m: Move)
    requires Good(s) && GapOf(s).size > 0 && m == Plan(GapOf(s), s.a.ep.nextCheck + 1)
    ensures Good(AfterMove(s, m)) && Closer(GapOf(AfterMove(s, m)), GapOf(s))
  {
    var g := GapOf(s);
    PlannedGapIsCloser(g);
    if g.due && g.taken > 0 {
      ReackGap(s, m.now);
    } else if g.sent < g.size {
      ResendGap(s, m.now);
    } else {
      PlannedProbeWorks(g);
      ProbeGap(s, m.now);
    }
  }

  /** If the condition holds, following the plan empties the queue. */
  lemma {:induction false} PlanDrains(s: State) returns (moves: seq<Move>)
    requires Good(s)
    ensures Drained(Play(s, moves))
    decreases GapOf(s).size, Budget(GapOf(s)), Collecting(GapOf(s)), GapOf(s).size - GapOf(s).sent
  {
    if GapOf(s).size == 0 {
      return [];
    }
    var m := Plan(GapOf(s), s.a.ep.nextCheck + 1);
    PlanStep(s, m);
    var rest := PlanDrains(AfterMove(s, m));
    moves := [m] + rest;
    assert moves[1..] == rest;
  }

  lemma StuckStays(g: Gap)
    requires GapOk(g) && !CanDrain(g)
    ensures g.sent < g.size ==> GapOk(GapResend(g)) && !CanDrain(GapResend(g))
    ensures g.due ==> GapOk(GapReack(g)) && !CanDrain(GapReack(g))
  {
  }

  lemma StuckProbe(g: Gap)
    requires GapOk(g) && !CanDrain(g) && !GivesUp(g)
    ensures GapOk(GapProbe(g)) && !CanDrain(GapProbe(g))
  {
    OneProbeLess(g);
    var h := GapProbe(g);
    assert h.size == g.size && h.sent == 0 && h.probes == g.probes + 1 && !h.moved;
    NotNegative(LAST_PROBE - h.probes, h.size);
    assert g.taken == g.size;
  }

  lemma NotNegative(a: nat, b: nat)
    ensures a * b >= 0
  {
  }

  lemma {:induction false} DownStays(s: State, moves: seq<Move>)
    requires WellFormed(s) && !s.a.ep.up
    ensures !Drained(Play(s, moves))
    decreases moves
  {
    if moves != [] {
      DownStays(AfterMove(s, moves[0]), moves[1..]);
    }
  }

  /** If it does not, no schedule does. */
  lemma {:induction false} StuckNeverDrains(s: State, moves: seq<Move>)
    requires Connected(s) && s.a.ep.q.head <= 1 + |s.b.accepted|
    requires GapOk(GapOf(s)) && !CanDrain(GapOf(s))
    ensures !Drained(Play(s, moves))
    decreases moves
  {
    if moves != [] {
      var s', m := AfterMove(s, moves[0]), moves[0];
      StuckStays(GapOf(s));
      if m.Probe? && s.a.ep.nextCheck < m.now {
        if !GivesUp(GapOf(s)) {
          StuckProbe(GapOf(s));
        }
        ProbeGap(s, m.now);
      } else if m.Resend? && s.a.ep.q.sent < |s.a.ep.q.buf| {
        ResendGap(s, m.now);
      } else if m.Reack? && AckDue(s.b.ep) {
        ReackGap(s, m.now);
      }
      if s'.a.ep.up {
        StuckNeverDrains(s', moves[1..]);
      } else {
        DownStays(s', moves[1..]);
      }
    }
  }

  ghost predicate SomeScheduleDrains(s: State)
    requires WellFormed(s)
  {
    exists moves :: Drained(Play(s, moves))
  }

  lemma GoodDrains(s: State)
    requires Good(s)
    ensures SomeScheduleDrains(s)
  {
    var moves := PlanDrains(s);
  }

  lemma StuckDoesNotDrain(s: State)
    requires Connected(s) && s.a.ep.q.head <= 1 + |s.b.accepted|
    requires GapOk(GapOf(s)) && !CanDrain(GapOf(s))
    ensures !SomeScheduleDrains(s)
  {
    forall moves ensures !Drained(Play(s, moves)) {
      StuckNeverDrains(s, moves);
    }
  }

  /** In every reachable state with both sides connected, some loss-free schedule of checks,
      resends and acks empties the first side's queue if and only if CanDrain holds. */
  lemma {:induction false} DrainsIff(now: nat, run: seq<Action>, s: State)
    requires Legal(State(Start(now), Start(now)), run)
    requires s == Exec(State(Start(now), Start(now)), run)
    requires Small(s) && s.a.ep.up && s.b.ep.up
    ensures s.a.ep.q.head <= 1 + |s.b.accepted|
    ensures CanDrain(GapOf(s)) <==> SomeScheduleDrains(s)
  {
    StartHasInv(now);
    ExecKeepsInv(State(Start(now), Start(now)), run);
    GapIsOk(s);
    if CanDrain(GapOf(s)) {
      GoodDrains(s);
    } else {
      StuckDoesNotDrain(s);
    }
  }

  /** The lost last ack: everything was taken, nothing is due, the window is used up. With at
      most 4982 fruitless checks behind it the queue can always be emptied. */
  lemma LostAckRecovers(g: Gap)
    requires GapOk(g) && g.probes <= LAST_PROBE - (ERROR_LIMIT + 1)
    ensures CanDrain(g)
  {
    if g.size > 0 {
      AtLeast(LAST_PROBE - g.probes, g.size);
    }
  }

  lemma {:induction false} ExecConcat(s: State, run1: seq<Action>, run2: seq<Action>)
    requires WellFormed(s) && Legal(s, run1) && Legal(Exec(s, run1), run2)
    ensures Legal(s, run1 + run2) && Exec(s, run1 + run2) == Exec(Exec(s, run1), run2)
    decreases run1
  {
    if run1 == [] {
      assert run1 + run2 == run2;
    } else {
      var t := Step(s, run1[0]);
      assert (run1 + run2)[0] == run1[0] && (run1 + run2)[1..] == run1[1..] + run2;
      assert Exec(s, run1) == Exec(t, run1[1..]);
      ExecConcat(t, run1[1..], run2);
      assert Exec(s, run1 + run2) == Exec(t, run1[1..] + run2);
    }
  }

  /** `k` checks in a row, none of which finds the head moved. */
  lemma {:induction false} ProbeMany(s: State, k: nat) returns (run: seq<Action>, t: nat)
    requires WellFormed(s) && Stalled(s.a.ep) && 0 < k && s.a.ep.consecutive + k < DOWN_AFTER
    ensures Legal(s, run)
    ensures Exec(s, run) ==
            s.(a := s.a.(ep := s.a.ep.(q := ResetWindow(s.a.ep.q), nextCheck := t,
                                       consecutive := s.a.ep.consecutive + k)))
    decreases k
  {
    var x := Action(true, Timer(s.a.ep.nextCheck + 1));
    OneStepRun(s, x);
    if k == 1 {
      return [x], Step(s, x).a.ep.nextCheck;
    }
    var rest;
    rest, t := ProbeMany(Step(s, x), k - 1);
    run := [x] + rest;
    assert run[1..] == rest;
  }

  const SOME_MESSAGE := CStruct(0, 0, 0, 0, [])

  /** One message submitted and transmitted. */
  lemma OneTransmitted() returns (run: seq<Action>, s: State)
    ensures Legal(State(Start(0), Start(0)), run) && Exec(State(Start(0), Start(0)), run) == s
    ensures s.b == Start(0) && s.a.ep == Init(0).(q := s.a.ep.q) && |s.a.pushed| == 1
    ensures s.a.ep.q.head == 1 && |s.a.ep.q.buf| == 1 && Data(1, Encode(SOME_MESSAGE)[0]) in s.a.out
  {
    var s0 := State(Start(0), Start(0));
    var p := Encode(SOME_MESSAGE)[0];
    var x1, x2 := Action(true, Submit(SOME_MESSAGE)), Action(true, SendWindow(1, 1, 0));
    assert Encode(SOME_MESSAGE) == [p];
    ReliableP2P.PushAllOne(s0.a.ep.q, p);
    var s1 := Step(s0, x1);
    assert s1.a.ep.q.buf == [Data(1, p)];
    assert Transmitted(s1.a.ep, 1, 1) == [Data(1, p)];
    s := Step(s1, x2);
    OneStepRun(s0, x1);
    OneStepRun(s1, x2);
    ExecConcat(s0, [x1], [x2]);
    run := [x1] + [x2];
  }

  /** It is received and acknowledged; the ack has not arrived. */
  lemma AckInFlight() returns (run: seq<Action>, s: State)
    ensures Legal(State(Start(0), Start(0)), run) && Exec(State(Start(0), Start(0)), run) == s
    ensures s.a.ep == Init(0).(q := s.a.ep.q) && s.b.ep.up && Small(s)
    ensures |s.a.ep.q.buf| == 1 && s.a.ep.q.head == 1
    ensures |s.b.accepted| == 1 && s.b.ep.errors == 0 && !AckDue(s.b.ep)
  {
    var run1, s1 := OneTransmitted();
    var x1 := Action(false, Arrive(Data(1, Encode(SOME_MESSAGE)[0]), 0, 0));
    OneStepRun(s1, x1);
    var s2 := Step(s1, x1);
    var x2 := Action(false, SendAck);
    OneStepRun(s2, x2);
    s := Step(s2, x2);
    ExecConcat(s1, [x1], [x2]);
    ExecConcat(State(Start(0), Start(0)), run1, [x1] + [x2]);
    run := run1 + ([x1] + [x2]);
  }

  /** The condition is needed: some run ends with both sides connected, one packet delivered,
      its ack lost, 4999 fruitless checks behind and the window used up. No loss-free schedule
      empties that queue; the next check gives the connection up. */
  lemma SomeRunIsStuck() returns (run: seq<Action>, s: State)
    ensures Legal(State(Start(0), Start(0)), run) && Exec(State(Start(0), Start(0)), run) == s
    ensures s.a.ep.up && s.b.ep.up && Small(s)
    ensures s.a.ep.q.head <= 1 + |s.b.accepted| && !CanDrain(GapOf(s))
  {
    var run1, s1 := AckInFlight();
    var run2, t := ProbeMany(s1, LAST_PROBE);
    var s2 := Exec(s1, run2);
    ExecConcat(State(Start(0), Start(0)), run1, run2);
    var x := Action(true, SendWindow(1, 1, t));
    OneStepRun(s2, x);
    ExecConcat(State(Start(0), Start(0)), run1 + run2, [x]);
    run, s := run1 + run2 + [x], Step(s2, x);
    assert BatchSize(s2.a.ep.q, 1, 1) == 1;
  }
}
