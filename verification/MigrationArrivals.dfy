/** What arrives at the source and at each target, read off the events of a run: every packet
    counts, but for those the protocol drops. */
module MigrationArrivals {
  import opened ServiceChain
  import opened FlowActor
  import opened Migration

  /** The packets for target `i` in a run from `s`, in order, without those that found no room
      while it was waiting for its state. */
  function Arrivals(svc: Service, s: State, es: seq<Event>, i: nat): seq<int>
    requires Legal(svc, s, es)
    decreases |es|
  {
    if es == [] then []
    else
      (match es[0]
       case PacketAtTarget(j, p, room) => if j == i && (room || s.targets[j].mode != Waiting) then [p] else []
       case _ => [])
      + Arrivals(svc, Step(svc, s, es[0]), es[1..], i)
  }

  /** The packets at the source in a run from `s`, in order, without those that came while its state
      was on its way. */
  function SourceArrivals(svc: Service, s: State, es: seq<Event>): seq<int>
    requires Legal(svc, s, es)
    decreases |es|
  {
    if es == [] then []
    else
      (if es[0].PacketAtSource? && s.actor.phase != Routed then [es[0].p] else [])
      + SourceArrivals(svc, Step(svc, s, es[0]), es[1..])
  }

  /** What target `i` has taken in, nothing before there is one. */
  function TakenIn(s: State, i: nat): seq<int> {
    if i < |s.targets| then s.targets[i].accepted else []
  }

  lemma StepTakesIn(svc: Service, s: State, e: Event, i: nat)
    requires Enabled(s, e)
    ensures |Step(svc, s, e).targets| >= |s.targets|
    ensures TakenIn(Step(svc, s, e), i) == TakenIn(s, i) +
      match e
      case PacketAtTarget(j, p, room) => if j == i && (room || s.targets[j].mode != Waiting) then [p] else []
      case _ => []
  {
  }

  lemma {:induction false} TargetTakesAll(svc: Service, s: State, es: seq<Event>, i: nat)
    requires Legal(svc, s, es)
    ensures TakenIn(Exec(svc, s, es), i) == TakenIn(s, i) + Arrivals(svc, s, es, i)
    decreases |es|
  {
    if es != [] {
      StepTakesIn(svc, s, es[0], i);
      TargetTakesAll(svc, Step(svc, s, es[0]), es[1..], i);
    }
  }

  lemma StepLogs(svc: Service, s: State, e: Event)
    requires Enabled(s, e)
    ensures Step(svc, s, e).actor.log == s.actor.log +
      if e.PacketAtSource? && s.actor.phase != Routed then [e.p] else []
  {
  }

  lemma {:induction false} SourceTakesAll(svc: Service, s: State, es: seq<Event>)
    requires Legal(svc, s, es)
    ensures Exec(svc, s, es).actor.log == s.actor.log + SourceArrivals(svc, s, es)
    decreases |es|
  {
    if es != [] {
      StepLogs(svc, s, es[0]);
      SourceTakesAll(svc, Step(svc, s, es[0]), es[1..]);
    }
  }

  /** From the start: the history of the source and of every target is what came to them. */
  lemma {:induction false} HistoryIsArrivals(svc: Service, es: seq<Event>, i: nat)
    requires Legal(svc, Initial(svc), es)
    ensures Exec(svc, Initial(svc), es).actor.log == SourceArrivals(svc, Initial(svc), es)
    ensures i < |Exec(svc, Initial(svc), es).targets| ==>
      Exec(svc, Initial(svc), es).targets[i].accepted == Arrivals(svc, Initial(svc), es, i)
  {
    SourceTakesAll(svc, Initial(svc), es);
    TargetTakesAll(svc, Initial(svc), es, i);
  }
}
