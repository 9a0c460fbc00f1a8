/** When each packet was last transmitted, read off the events of a run; and so what a round-trip
    sample measures. */
module ChannelStamps {
  import opened Packets
  import opened SendQueue
  import opened Framing
  import opened Endpoint
  import opened Channel
  import opened ChannelSafety

  /** The event puts packet `n` of side `x` on the network. */
  predicate Sends(x: Side, e: Event, n: nat)
    requires x.ep.WellFormed()
  {
    e.SendWindow? && exists f | f in Transmitted(x.ep, e.window, e.copied) :: f.seqNum == n
  }

  /** When side `first` last put its packet `n` on the network, in a run from `s`; `t` if it did not. */
  function LastSent(s: State, run: seq<Action>, first: bool, n: nat, t: nat): nat
    requires WellFormed(s) && Legal(s, run)
    decreases run
  {
    if run == [] then t
    else LastSent(Step(s, run[0]), run[1..], first, n,
                  if run[0].first == first && Sends(SideOf(first, s), run[0].e, n) then run[0].e.now else t)
  }

  /** Packet `n`, if it was transmitted at all, was so last at time `t`. */
  ghost predicate StampedAt(x: Side, n: nat, t: nat) {
    0 < n <= |x.stamps| ==> x.stamps[n - 1] == t
  }

  /** The `i`-th packet behind the window cursor. */
  lemma WindowNumber(x: Side, i: nat)
    requires x.ep.WellFormed() && Sending(x) && x.ep.q.sent + i < |x.ep.q.buf|
    ensures 0 <= WindowStart(x) <= |x.stamps| && x.ep.q.buf[x.ep.q.sent + i].seqNum == WindowStart(x) + i + 1
  {
  }

  /** The packets a window transmission puts on the network. */
  lemma SendsIff(x: Side, e: Event, n: nat)
    requires x.ep.WellFormed() && Sending(x) && e.SendWindow? && BatchSize(x.ep.q, e.window, e.copied) > 0
    ensures 0 <= WindowStart(x) <= |x.stamps|
    ensures Sends(x, e, n) <==> WindowStart(x) < n <= WindowStart(x) + BatchSize(x.ep.q, e.window, e.copied)
  {
    var frames, k := Transmitted(x.ep, e.window, e.copied), BatchSize(x.ep.q, e.window, e.copied);
    WindowNumber(x, 0);
    var w := WindowStart(x);
    if w < n <= w + k {
      WindowNumber(x, n - w - 1);
      assert frames[n - w - 1] in frames;
    } else {
      forall f | f in frames ensures f.seqNum != n {
        var i :| 0 <= i < k && frames[i] == f;
        WindowNumber(x, i);
      }
    }
  }

  lemma StampAt(stamps: seq<nat>, from: nat, k: nat, now: nat, n: nat)
    requires from <= |stamps| && n > 0
    ensures var r := Stamp(stamps, from, k, now);
      0 < n <= |r| ==> if from < n <= from + k then r[n - 1] == now else n <= |stamps| && r[n - 1] == stamps[n - 1]
  {
  }

  lemma WindowStamps(x: Side, window: nat, copied: nat, now: nat, n: nat, t: nat)
    requires x.ep.WellFormed() && Sending(x) && StampedAt(x, n, t) && n > 0
    ensures StampedAt(OnWindow(x, window, copied, now), n, if Sends(x, SendWindow(window, copied, now), n) then now else t)
  {
    var e, k := SendWindow(window, copied, now), BatchSize(x.ep.q, window, copied);
    if k > 0 {
      SendsIff(x, e, n);
      StampAt(x.stamps, WindowStart(x), k, now, n);
    } else {
      assert Transmitted(x.ep, window, copied) == [];
      if 0 <= WindowStart(x) <= |x.stamps| {
        StampAt(x.stamps, WindowStart(x), 0, now, n);
      }
    }
  }

  lemma EventStamps(x: Side, e: Event, n: nat, t: nat)
    requires x.ep.WellFormed() && (e.Submit? ==> e.m.Fits()) && Sending(x) && StampedAt(x, n, t) && n > 0
    ensures StampedAt(Act(x, e), n, if Sends(x, e, n) then e.now else t)
  {
    if e.SendWindow? {
      WindowStamps(x, e.window, e.copied, e.now, n, t);
    }
  }

  /** Pushed packets only become more. */
  lemma EventPushes(x: Side, e: Event)
    requires x.ep.WellFormed() && (e.Submit? ==> e.m.Fits())
    ensures |x.pushed| <= |Act(x, e).pushed|
  {
  }

  lemma {:induction false} RunPushes(s: State, run: seq<Action>)
    requires WellFormed(s) && Legal(s, run)
    ensures Small(Exec(s, run)) ==> Small(s)
    decreases run
  {
    if run != [] {
      var x := run[0];
      EventPushes(SideOf(x.first, s), x.e);
      RunPushes(Step(s, x), run[1..]);
    }
  }

  lemma {:induction false} RunStamps(s: State, run: seq<Action>, first: bool, n: nat, t: nat)
    requires WellFormed(s) && Legal(s, run) && Inv(s) && Small(Exec(s, run)) && n > 0
    requires StampedAt(SideOf(first, s), n, t)
    ensures StampedAt(SideOf(first, Exec(s, run)), n, LastSent(s, run, first, n, t))
    decreases run
  {
    if run != [] {
      var x := run[0];
      RunPushes(s, run);
      StepKeepsInv(s, x);
      if x.first == first {
        EventStamps(SideOf(first, s), x.e, n, t);
      }
      RunStamps(Step(s, x), run[1..], first, n,
                if x.first == first && Sends(SideOf(first, s), x.e, n) then x.e.now else t);
    }
  }

  /** In every run, an ack that a side takes gives as round-trip time what has passed since the event
      that last put the newest packet it covers on the network. */
  lemma {:induction false} RoundTripIsMeasured(now: nat, run: seq<Action>, first: bool, n: nat, t: nat, stale: nat)
    requires Legal(State(Start(now), Start(now)), run)
    requires Small(Exec(State(Start(now), Start(now)), run))
    ensures
      var s0 := State(Start(now), Start(now));
      var s := Exec(s0, run);
      var x, y := SideOf(first, s), SideOf(!first, s);
      Ack(n) in y.out && TakesAck(x.ep.q, n) ==>
        && n > 1
        && var sent := LastSent(s0, run, first, n - 1, 0);
           sent <= t < 0x1_0000_0000_0000_0000 ==> Act(x, Arrive(Ack(n), t, stale)).ep.q.rtt == t - sent
  {
    var s0 := State(Start(now), Start(now));
    EveryAckIsEarned(now, run, n, t, stale);
    StartHasInv(now);
    if n > 1 {
      RunStamps(s0, run, first, n - 1, 0);
    }
  }
}
