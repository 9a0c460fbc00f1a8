/** When the retransmission check of a connection acts, and how long it takes to give the
    connection up. The watch is kept beside the run: it is read off the times of the events and the
    visible queue, not off the timer's own fields. */
module ChannelTimer {
  import opened Packets
  import opened SendQueue
  import opened Framing
  import opened Endpoint
  import opened Channel

  /** The last check that did anything: its time, the round-trip time and the head of the queue it
      left, and the number of checks in a row, up to it, that found the head unmoved. */
  datatype Watch = Watch(time: nat, rtt: nat, head: nat, count: nat)

  predicate Sendable(es: seq<Event>) {
    forall e | e in es && e.Submit? :: e.m.Fits()
  }

  /** One side left to itself: every event may happen at any time. */
  function Alone(now: nat, es: seq<Event>): (s: Side)
    requires Sendable(es)
    ensures s.ep.WellFormed()
  {
    if es == [] then Start(now) else Act(Alone(now, es[..|es| - 1]), es[|es| - 1])
  }

  /** The packets are stuck: none has been acknowledged since the last check. */
  predicate Stuck(s: Side, w: Watch) {
    s.ep.q.head == w.head && s.ep.q.buf != []
  }

  function Watched(now: nat, es: seq<Event>): Watch
    requires Sendable(es)
  {
    if es == [] then Watch(now, 20000, 1, 0)
    else
      var s, e, w := Alone(now, es[..|es| - 1]), es[|es| - 1], Watched(now, es[..|es| - 1]);
      if !e.Timer? || Act(s, e) == s then w
      else Watch(e.now, Act(s, e).ep.q.rtt, Act(s, e).ep.q.head, if Stuck(s, w) then w.count + 1 else 0)
  }

  /** What the fields of the timer have to do with the watch. */
  ghost predicate InStep(s: Side, w: Watch) {
    && s.ep.nextCheck == w.time + 5 * w.rtt
    && s.ep.lastHead == w.head
    && s.ep.consecutive == w.count
    && (s.ep.up ==> w.head <= s.ep.q.head && (s.ep.q.head == w.head ==> s.ep.q.rtt == w.rtt))
  }

  /** Nothing about the timer has changed, and the head only if packets were acknowledged. */
  ghost predicate Untimed(e: Endpoint, f: Endpoint) {
    && f.nextCheck == e.nextCheck && f.lastHead == e.lastHead && f.consecutive == e.consecutive && f.up == e.up
    && e.q.head <= f.q.head && (e.q.head == f.q.head ==> e.q.rtt == f.q.rtt)
  }

  lemma {:induction false} PushAllKeepsRtt(q: Queue, ps: seq<Payload>)
    requires q.head < SEQ_SPACE && |q.buf| + |ps| <= QUEUE_SIZE
    ensures PushAll(q, ps).rtt == q.rtt
  {
    if ps != [] {
      PushAllKeepsRtt(q, ps[..|ps| - 1]);
    }
  }

  lemma SubmitIsUntimed(s: Side, m: Message)
    requires s.ep.WellFormed() && m.Fits()
    ensures Untimed(s.ep, OnSubmit(s, m).ep)
  {
    var ps := Encode(m);
    if CanSend(s.ep, |ps|) {
      PushAllKeepsRtt(s.ep.q, ps);
    }
  }

  lemma AckIsUntimed(e: Endpoint, n: nat, t: nat, stale: nat)
    requires e.WellFormed()
    ensures Untimed(e, RecvAck(e, n, t, stale))
  {
  }

  lemma DataIsUntimed(s: Side, n: nat, p: Payload)
    requires s.ep.WellFormed()
    ensures Untimed(s.ep, OnData(s, n, p).ep)
  {
  }

  lemma EventIsUntimed(s: Side, e: Event)
    requires s.ep.WellFormed() && (e.Submit? ==> e.m.Fits()) && !e.Timer?
    ensures Untimed(s.ep, Act(s, e).ep)
  {
    match e
    case Submit(m) => SubmitIsUntimed(s, m);
    case SendWindow(window, copied, now) =>
    case SendAck =>
    case Arrive(Ack(n), now, stale) => AckIsUntimed(s.ep, n, now, stale);
    case Arrive(Data(n, p), _, _) => DataIsUntimed(s, n, p);
  }

  lemma UntimedKeepsInStep(s: Side, w: Watch, r: Side)
    requires InStep(s, w) && Untimed(s.ep, r.ep)
    ensures InStep(r, w)
  {
  }

  lemma CheckKeepsInStep(s: Side, w: Watch, t: nat)
    requires s.ep.WellFormed() && InStep(s, w)
    ensures Act(s, Timer(t)) != s <==> t > w.time + 5 * w.rtt
    ensures Act(s, Timer(t)) != s ==>
      InStep(Act(s, Timer(t)), Watch(t, Act(s, Timer(t)).ep.q.rtt, Act(s, Timer(t)).ep.q.head,
                                     if Stuck(s, w) then w.count + 1 else 0))
  {
    var r := Act(s, Timer(t));
    if t > w.time + 5 * w.rtt {
      assert r.ep.nextCheck == t + 5 * r.ep.q.rtt;
      assert r.ep.nextCheck != s.ep.nextCheck;
    }
  }

  lemma {:induction false} RunKeepsInStep(now: nat, es: seq<Event>)
    requires Sendable(es)
    ensures InStep(Alone(now, es), Watched(now, es))
  {
    if es != [] {
      var s, e, w := Alone(now, es[..|es| - 1]), es[|es| - 1], Watched(now, es[..|es| - 1]);
      RunKeepsInStep(now, es[..|es| - 1]);
      if e.Timer? {
        CheckKeepsInStep(s, w, e.now);
      } else {
        EventIsUntimed(s, e);
        UntimedKeepsInStep(s, w, Act(s, e));
      }
    }
  }

  /** In every run, a check at time `t` does something if and only if more than five round-trip times
      have passed since the last that did, the first one five times 20000 ns after the start; and it
      gives the connection up if and only if it is the 5000th in a row to find the same packet at
      the head. */
  lemma {:induction false} ChecksAreFiveRoundTripsApart(now: nat, es: seq<Event>, t: nat)
    requires Sendable(es)
    ensures
      var s, w := Alone(now, es), Watched(now, es);
      var r := Act(s, Timer(t));
      && (r != s <==> t > w.time + 5 * w.rtt)
      && (s.ep.up ==> (!r.ep.up <==> r != s && Stuck(s, w) && w.count == 4999))
      && (r != s && Stuck(s, w) && r.ep.up ==> r.ep.q == s.ep.q.(sent := 0))
      && (!Stuck(s, w) ==> r.ep.q == s.ep.q)
  {
    RunKeepsInStep(now, es);
    CheckKeepsInStep(Alone(now, es), Watched(now, es), t);
  }

  // ------------------------------------------------------------ giving up

  /** From event `i` on, up to now, nothing was acknowledged. */
  ghost predicate Unmoved(now: nat, es: seq<Event>, i: nat)
    requires Sendable(es)
  {
    i <= |es| && forall j | i <= j <= |es| :: SameHead(Alone(now, es[..j]), Alone(now, es))
  }

  predicate SameHead(a: Side, b: Side) {
    a.ep.q.head == b.ep.q.head && a.ep.q.rtt == b.ep.q.rtt
  }

  /** The time of the check after which `i` events had happened, or of the start. */
  function TimeOf(now: nat, es: seq<Event>, i: nat): nat
    requires i <= |es|
  {
    if i == 0 || !es[i - 1].Timer? then now else es[i - 1].now
  }

  /** Since event `i`, a check or the start, nothing was acknowledged, and the checks since then
      have taken their time. */
  ghost predicate Streak(now: nat, es: seq<Event>, i: nat)
    requires Sendable(es)
  {
    && Unmoved(now, es, i)
    && (i == 0 || es[i - 1].Timer?)
    && TimeOf(now, es, i) + Watched(now, es).count * (5 * Alone(now, es).ep.q.rtt) <= Watched(now, es).time
  }

  lemma {:induction false} UnmovedOneMore(now: nat, es: seq<Event>, e: Event, i: nat)
    requires Sendable(es + [e]) && Sendable(es) && Unmoved(now, es, i)
    requires SameHead(Alone(now, es), Alone(now, es + [e]))
    ensures Unmoved(now, es + [e], i)
  {
    var es' := es + [e];
    forall j | i <= j <= |es'| ensures SameHead(Alone(now, es'[..j]), Alone(now, es')) {
      if j == |es'| {
        assert es'[..j] == es';
      } else {
        assert es'[..j] == es[..j];
      }
    }
  }

  lemma UnmovedNow(now: nat, es: seq<Event>)
    requires Sendable(es)
    ensures Unmoved(now, es, |es|)
  {
    assert es[..|es|] == es;
  }

  /** A check that finds the head unmoved makes the streak one longer. */
  lemma LongerStreak(count: nat, rtt: nat, begun: nat, time: nat, t: nat)
    requires begun + count * (5 * rtt) <= time && t > time + 5 * rtt
    ensures begun + (count + 1) * (5 * rtt) < t
  {
  }

  lemma HeadMovesByAcksOnly(s: Side, e: Event)
    requires s.ep.WellFormed() && (e.Submit? ==> e.m.Fits())
    requires Act(s, e).ep.up && s.ep.up
    ensures s.ep.q.head <= Act(s, e).ep.q.head
    ensures s.ep.q.head == Act(s, e).ep.q.head ==> SameHead(s, Act(s, e))
  {
    if !e.Timer? {
      EventIsUntimed(s, e);
    }
  }

  lemma {:induction false} StreakOneMore(now: nat, es: seq<Event>, e: Event, i: nat) returns (i': nat)
    requires Sendable(es) && Sendable(es + [e])
    requires Alone(now, es).ep.up && Alone(now, es + [e]).ep.up
    requires Alone(now, es).ep.q.head == Watched(now, es).head ==> Streak(now, es, i)
    requires Alone(now, es + [e]).ep.q.head == Watched(now, es + [e]).head
    ensures Streak(now, es + [e], i')
  {
    var es' := es + [e];
    assert es'[..|es|] == es && es'[|es|] == e;
    var s, w, s' := Alone(now, es), Watched(now, es), Alone(now, es');
    assert s' == Act(s, e);
    RunKeepsInStep(now, es);
    HeadMovesByAcksOnly(s, e);
    if e.Timer? && s' != s && !Stuck(s, w) {
      i' := |es'|;
      UnmovedNow(now, es');
    } else {
      i' := i;
      UnmovedOneMore(now, es, e, i);
      if e.Timer? && s' != s {
        CheckKeepsInStep(s, w, e.now);
        LongerStreak(w.count, s.ep.q.rtt, TimeOf(now, es, i), w.time, e.now);
      }
    }
  }

  /** Once down, a side stays down. */
  lemma {:induction false} UpBefore(now: nat, es: seq<Event>)
    requires Sendable(es) && es != [] && Alone(now, es).ep.up
    ensures Alone(now, es[..|es| - 1]).ep.up
  {
  }

  lemma {:induction false} StreakAtStart(now: nat)
    ensures Streak(now, [], 0)
  {
    UnmovedNow(now, []);
  }

  lemma {:induction false} StreakSoFar(now: nat, es: seq<Event>) returns (i: nat)
    requires Sendable(es) && Alone(now, es).ep.up
    ensures Alone(now, es).ep.q.head == Watched(now, es).head ==> Streak(now, es, i)
  {
    if es == [] {
      StreakAtStart(now);
      i := 0;
    } else {
      var before, e := es[..|es| - 1], es[|es| - 1];
      assert es == before + [e];
      UpBefore(now, es);
      i := StreakSoFar(now, before);
      if Alone(now, es).ep.q.head == Watched(now, es).head {
        i := StreakOneMore(now, before, e, i);
      }
    }
  }

  /** In every run, a side that gives the connection up at time `t` has had no packet acknowledged
      for more than 25000 of its round-trip times: since some check that long ago, or the start. */
  lemma {:induction false} GivingUpTakesItsTime(now: nat, es: seq<Event>, t: nat) returns (i: nat)
    requires Sendable(es) && Alone(now, es).ep.up && !Act(Alone(now, es), Timer(t)).ep.up
    ensures Unmoved(now, es, i) && (i == 0 || es[i - 1].Timer?)
    ensures Alone(now, es).ep.q.buf != []
    ensures t > TimeOf(now, es, i) + 25000 * Alone(now, es).ep.q.rtt
  {
    ChecksAreFiveRoundTripsApart(now, es, t);
    RunKeepsInStep(now, es);
    i := StreakSoFar(now, es);
    LongerStreak(4999, Alone(now, es).ep.q.rtt, TimeOf(now, es, i), Watched(now, es).time, t);
  }

  // ------------------------------------------------------------ both sides of a channel

  /** The events of one side of a run. */
  function Of(first: bool, run: seq<Action>): seq<Event> {
    if run == [] then []
    else (if run[0].first == first then [run[0].e] else []) + Of(first, run[1..])
  }

  function From(s: Side, es: seq<Event>): (r: Side)
    requires s.ep.WellFormed() && Sendable(es)
    ensures r.ep.WellFormed()
    decreases es
  {
    if es == [] then s else From(Act(s, es[0]), es[1..])
  }

  lemma {:induction false} OneEvent(s: Side, e: Event, es: seq<Event>)
    requires s.ep.WellFormed() && Sendable(es) && (e.Submit? ==> e.m.Fits())
    ensures Sendable([e] + es) && From(s, [e] + es) == From(Act(s, e), es)
  {
    assert ([e] + es)[1..] == es;
  }

  lemma StepOfSide(s: State, x: Action, first: bool)
    requires WellFormed(s) && Possible(s, x)
    ensures x.e.Submit? ==> x.e.m.Fits()
    ensures SideOf(first, Step(s, x)) == if x.first == first then Act(SideOf(first, s), x.e) else SideOf(first, s)
  {
  }

  lemma {:induction false} SideRuns(s: State, run: seq<Action>, first: bool)
    requires WellFormed(s) && Legal(s, run)
    ensures Sendable(Of(first, run)) && SideOf(first, Exec(s, run)) == From(SideOf(first, s), Of(first, run))
    decreases run
  {
    if run != [] {
      var x, es := run[0], Of(first, run[1..]);
      SideRuns(Step(s, x), run[1..], first);
      StepOfSide(s, x, first);
      if x.first == first {
        OneEvent(SideOf(first, s), x.e, es);
      } else {
        assert Of(first, run) == es;
      }
    }
  }

  lemma {:induction false} FromLast(s: Side, es: seq<Event>, e: Event)
    requires s.ep.WellFormed() && Sendable(es) && Sendable(es + [e])
    ensures From(s, es + [e]) == Act(From(s, es), e)
    decreases es
  {
    if es == [] {
      assert (es + [e])[1..] == [];
    } else {
      assert (es + [e])[1..] == es[1..] + [e];
      FromLast(Act(s, es[0]), es[1..], e);
    }
  }

  lemma {:induction false} AloneIsFrom(now: nat, es: seq<Event>)
    requires Sendable(es)
    ensures Alone(now, es) == From(Start(now), es)
  {
    if es != [] {
      var before, e := es[..|es| - 1], es[|es| - 1];
      assert es == before + [e];
      AloneIsFrom(now, before);
      FromLast(Start(now), before, e);
    }
  }

  /** Each side of every run of a channel is a side left to itself, so all of the above holds of it. */
  lemma {:induction false} EverySideIsAlone(now: nat, run: seq<Action>)
    requires Legal(State(Start(now), Start(now)), run)
    ensures Sendable(Of(true, run)) && Sendable(Of(false, run))
    ensures Exec(State(Start(now), Start(now)), run) == State(Alone(now, Of(true, run)), Alone(now, Of(false, run)))
  {
    SideRuns(State(Start(now), Start(now)), run, true);
    SideRuns(State(Start(now), Start(now)), run, false);
    AloneIsFrom(now, Of(true, run));
    AloneIsFrom(now, Of(false, run));
  }
}
