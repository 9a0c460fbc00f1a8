/** Output through a replica: the primary sends its flow state with every packet, the replica
    installs the state and releases the packet. Handlers: runtime/actor/flow_actor.cc and the
    replication_msg case of runtime/reliable/process_reliable_msg.h. */
module Replication {
  import opened ServiceChain

  /** A state with the packet it is the state after. `n` is history: how many packets the primary
      had processed. */
  datatype Copy = Copy(fs: seq<int>, pkt: int, n: nat)

  /** The actor of the flow at the other runtime. Promoted is an actor that has taken the flow
      over, Deadend stands for the flow when no actor could be allocated. */
  datatype Replica = Absent | Replica(fs: seq<int>) | Promoted(fs: seq<int>) | Deadend

  /** `log`, `released` and `direct` are history: packets the primary has processed, copies whose
      packets the replica has released, and packets the primary has sent out itself. */
  datatype State = State(fs: seq<int>, linked: bool, channel: seq<Copy>, replica: Replica,
                         log: seq<int>, released: seq<Copy>, direct: seq<int>)

  datatype Event =
    | Packet(p: int, connected: bool, accepted: bool)
    | Deliver(room: bool)
    | ReplicaPacket(p: int)
    | ReplicaIdles
    | ReplicaTakesOver

  predicate Enabled(s: State, e: Event) {
    match e
    case Packet(_, _, _) => true
    case Deliver(_) => s.channel != []
    case ReplicaPacket(_) => s.replica.Replica?
    case ReplicaIdles => s.replica.Replica?
    case ReplicaTakesOver => s.replica.Replica?
  }

  /** pkt_normal_nf_processing followed by the output function for the replication state. */
  function AtPrimary(svc: Service, s: State, p: int, connected: bool, accepted: bool): State {
    var r := Run(svc, s.fs, p);
    var t := s.(fs := r.fs, log := s.log + [p]);
    if !s.linked then t.(direct := t.direct + [r.pkt])
    else if !connected then t.(linked := false, direct := t.direct + [r.pkt])
    else if accepted then t.(channel := t.channel + [Copy(r.fs, r.pkt, |t.log|)])
    else t
  }

  /** The first copy of a flow creates its actor; only a replica takes copies. */
  function AtReplica(svc: Service, s: State, room: bool): State
    requires s.channel != []
  {
    var m, t := s.channel[0], s.(channel := s.channel[1..]);
    if s.replica.Replica? || (s.replica.Absent? && room) then
      t.(replica := Replica(m.fs), released := t.released + [m])
    else if s.replica.Absent? then t.(replica := Deadend)
    else t
  }

  function Step(svc: Service, s: State, e: Event): State
    requires Enabled(s, e)
  {
    match e
    case Packet(p, connected, accepted) => AtPrimary(svc, s, p, connected, accepted)
    case Deliver(room) => AtReplica(svc, s, room)
    case ReplicaPacket(p) => s.(replica := Replica(Run(svc, s.replica.fs, p).fs))
    case ReplicaIdles => s.(replica := Absent)
    case ReplicaTakesOver => s.(replica := Promoted(s.replica.fs))
  }

  function Initial(svc: Service): State {
    State(svc.init, true, [], Absent, [], [], [])
  }

  predicate Legal(svc: Service, s: State, es: seq<Event>)
    decreases |es|
  {
    es == [] || (Enabled(s, es[0]) && Legal(svc, Step(svc, s, es[0]), es[1..]))
  }

  function Exec(svc: Service, s: State, es: seq<Event>): State
    requires Legal(svc, s, es)
    decreases |es|
  {
    if es == [] then s else Exec(svc, Step(svc, s, es[0]), es[1..])
  }

  // ------------------------------------------------------------ invariant

  /** A copy is the primary's state just after its n-th packet, with what the chain made of that
      packet. */
  ghost predicate Faithful(svc: Service, log: seq<int>, m: Copy) {
    && 1 <= m.n <= |log|
    && m.fs == Fold(svc, svc.init, log[..m.n])
    && m.pkt == Run(svc, Fold(svc, svc.init, log[..m.n - 1]), log[m.n - 1]).pkt
  }

  ghost predicate AllFaithful(svc: Service, log: seq<int>, ms: seq<Copy>) {
    forall i | 0 <= i < |ms| :: Faithful(svc, log, ms[i])
  }

  predicate Increasing(ms: seq<Copy>) {
    forall i, j | 0 <= i < j < |ms| :: ms[i].n < ms[j].n
  }

  predicate AllBefore(ms: seq<Copy>, n: nat) {
    forall i | 0 <= i < |ms| :: ms[i].n <= n
  }

  predicate Apart(ms: seq<Copy>, ns: seq<Copy>) {
    forall i, j | 0 <= i < |ms| && 0 <= j < |ns| :: ms[i].n < ns[j].n
  }

  ghost predicate Inv(svc: Service, s: State) {
    && s.fs == Fold(svc, svc.init, s.log)
    && AllFaithful(svc, s.log, s.released) && AllFaithful(svc, s.log, s.channel)
    && Increasing(s.released) && Increasing(s.channel) && Apart(s.released, s.channel)
    && AllBefore(s.channel, |s.log|) && AllBefore(s.released, |s.log|)
    && (s.linked ==> s.direct == [])
  }

  lemma LongerLog(svc: Service, log: seq<int>, p: int, ms: seq<Copy>)
    requires AllFaithful(svc, log, ms)
    ensures AllFaithful(svc, log + [p], ms)
  {
    forall i | 0 <= i < |ms| ensures Faithful(svc, log + [p], ms[i]) {
      assert Faithful(svc, log, ms[i]);
      assert (log + [p])[..ms[i].n] == log[..ms[i].n] && (log + [p])[..ms[i].n - 1] == log[..ms[i].n - 1];
    }
  }

  lemma {:induction false} NewCopyIsFaithful(svc: Service, s: State, p: int)
    requires Inv(svc, s)
    ensures var r := Run(svc, s.fs, p);
      Faithful(svc, s.log + [p], Copy(r.fs, r.pkt, |s.log| + 1)) && r.fs == Fold(svc, svc.init, s.log + [p])
  {
    FoldOneMore(svc, svc.init, s.log, p);
    assert (s.log + [p])[..|s.log| + 1] == s.log + [p] && (s.log + [p])[..|s.log|] == s.log;
  }

  lemma PrimaryKeepsInv(svc: Service, s: State, p: int, connected: bool, accepted: bool)
    requires Inv(svc, s)
    ensures Inv(svc, AtPrimary(svc, s, p, connected, accepted))
  {
    var t := AtPrimary(svc, s, p, connected, accepted);
    LongerLog(svc, s.log, p, s.released);
    LongerLog(svc, s.log, p, s.channel);
    NewCopyIsFaithful(svc, s, p);
    forall i | 0 <= i < |t.channel| ensures Faithful(svc, t.log, t.channel[i]) {
      if i < |s.channel| { assert Faithful(svc, t.log, s.channel[i]); }
    }
  }

  /** Taking the head of the channel, to the released copies or nowhere, keeps the order. */
  lemma MoveHead(released: seq<Copy>, channel: seq<Copy>)
    requires Increasing(released) && Increasing(channel) && Apart(released, channel) && channel != []
    ensures Increasing(channel[1..]) && Apart(released, channel[1..])
    ensures Increasing(released + [channel[0]]) && Apart(released + [channel[0]], channel[1..])
  {
    assert forall i | 0 <= i < |channel[1..]| :: channel[1..][i] == channel[i + 1];
  }

  lemma HeadIsFaithful(svc: Service, log: seq<int>, released: seq<Copy>, channel: seq<Copy>)
    requires AllFaithful(svc, log, released) && AllFaithful(svc, log, channel) && channel != []
    ensures AllFaithful(svc, log, channel[1..]) && AllFaithful(svc, log, released + [channel[0]])
  {
    forall i | 0 <= i < |channel[1..]| ensures Faithful(svc, log, channel[1..][i]) {
      assert Faithful(svc, log, channel[i + 1]);
    }
  }

  lemma HeadIsBefore(released: seq<Copy>, channel: seq<Copy>, n: nat)
    requires AllBefore(released, n) && AllBefore(channel, n) && channel != []
    ensures AllBefore(channel[1..], n) && AllBefore(released + [channel[0]], n)
  {
    assert forall i | 0 <= i < |channel[1..]| :: channel[1..][i] == channel[i + 1];
  }

  /** The head of the channel has been released, or dropped. */
  lemma TakenKeepsInv(svc: Service, s: State, t: State)
    requires Inv(svc, s) && s.channel != []
    requires t == s.(channel := s.channel[1..], replica := t.replica, released := t.released)
    requires t.released == s.released || t.released == s.released + [s.channel[0]]
    ensures Inv(svc, t)
  {
    HeadIsBefore(s.released, s.channel, |s.log|);
    MoveHead(s.released, s.channel);
    HeadIsFaithful(svc, s.log, s.released, s.channel);
  }

  lemma ReplicaKeepsInv(svc: Service, s: State, room: bool)
    requires Inv(svc, s) && s.channel != []
    ensures Inv(svc, AtReplica(svc, s, room))
  {
    TakenKeepsInv(svc, s, AtReplica(svc, s, room));
  }

  lemma StepKeepsInv(svc: Service, s: State, e: Event)
    requires Inv(svc, s) && Enabled(s, e)
    ensures Inv(svc, Step(svc, s, e))
  {
    match e
    case Packet(p, connected, accepted) => PrimaryKeepsInv(svc, s, p, connected, accepted);
    case Deliver(room) => ReplicaKeepsInv(svc, s, room);
    case ReplicaPacket(_) =>
    case ReplicaIdles =>
    case ReplicaTakesOver =>
  }

  lemma {:induction false} RunKeepsInv(svc: Service, s: State, es: seq<Event>)
    requires Inv(svc, s) && Legal(svc, s, es)
    ensures Inv(svc, Exec(svc, s, es))
    decreases |es|
  {
    if es != [] {
      StepKeepsInv(svc, s, es[0]);
      RunKeepsInv(svc, Step(svc, s, es[0]), es[1..]);
    }
  }

  // ------------------------------------------------------------ main results

  /** Output commit: in every run, a copy that arrives is released exactly when there is a replica or
      one can be created, and when the replica releases a packet, the state it then holds is the
      primary's state just after that packet, later than any it released before. Refused sends, idle
      replicas, and packets that reach the replica itself make no difference. */
  lemma {:induction false} ReleasedAfterCommit(svc: Service, es: seq<Event>, room: bool)
    requires Legal(svc, Initial(svc), es) && Enabled(Exec(svc, Initial(svc), es), Deliver(room))
    ensures var s := Exec(svc, Initial(svc), es);
      var t, m := Step(svc, s, Deliver(room)), s.channel[0];
      && t.channel == s.channel[1..]
      && t.released == (if s.replica.Replica? || (s.replica.Absent? && room) then s.released + [m] else s.released)
      && (t.released != s.released ==>
            && t.replica == Replica(m.fs)
            && Faithful(svc, t.log, m)
            && (forall i | 0 <= i < |s.released| :: s.released[i].n < m.n))
  {
    assert Inv(svc, Initial(svc));
    RunKeepsInv(svc, Initial(svc), es);
    var s := Exec(svc, Initial(svc), es);
    assert Faithful(svc, s.log, s.channel[0]);
  }

  // ------------------------------------------------------------ read off the events

  /** The packets that came to the primary. */
  function Came(es: seq<Event>): seq<int> {
    if es == [] then [] else (if es[0].Packet? then [es[0].p] else []) + Came(es[1..])
  }

  /** The numbers of the packets whose copies were accepted for sending: `n` packets came before
      `es`, and the primary has its replica until it finds the connection down. */
  function Accepted(linked: bool, n: nat, es: seq<Event>): seq<nat>
    decreases es
  {
    if es == [] then []
    else match es[0]
      case Packet(_, connected, accepted) =>
        (if linked && connected && accepted then [n + 1] else []) + Accepted(linked && connected, n + 1, es[1..])
      case _ => Accepted(linked, n, es[1..])
  }

  /** How many of the packets of `es` came before the primary found the connection down. */
  function WhileLinked(es: seq<Event>): nat {
    if es == [] then 0
    else if es[0].Packet? && !es[0].connected then 0
    else (if es[0].Packet? then 1 else 0) + WhileLinked(es[1..])
  }

  function Numbers(ms: seq<Copy>): seq<nat> {
    seq(|ms|, i requires 0 <= i < |ms| => ms[i].n)
  }

  /** A copy that arrives now is taken: by the replica, or by one that can be created for it. */
  predicate Takes(s: State, room: bool) {
    s.replica.Replica? || (s.replica.Absent? && room)
  }

  /** The copies of a run from `s` that arrived where nobody took them. */
  function Lost(svc: Service, s: State, es: seq<Event>): nat
    requires Legal(svc, s, es)
    decreases |es|
  {
    if es == [] then 0
    else (if es[0].Deliver? && !Takes(s, es[0].room) then 1 else 0) + Lost(svc, Step(svc, s, es[0]), es[1..])
  }

  function Ours(s: State): seq<nat> {
    Numbers(s.released + s.channel)
  }

  lemma DeliverConserves(svc: Service, s: State, room: bool)
    requires s.channel != []
    ensures var t := AtReplica(svc, s, room);
      && (Takes(s, room) ==> t.replica == Replica(s.channel[0].fs) && t.released == s.released + [s.channel[0]] && Ours(t) == Ours(s))
      && (!Takes(s, room) ==> t.released == s.released && |Ours(t)| == |Ours(s)| - 1)
      && t.channel == s.channel[1..] && t.log == s.log && t.linked == s.linked && t.direct == s.direct
  {
    assert s.channel == [s.channel[0]] + s.channel[1..];
    assert s.released + s.channel == s.released + [s.channel[0]] + s.channel[1..];
  }

  lemma PacketConserves(svc: Service, s: State, p: int, connected: bool, accepted: bool)
    ensures var t := AtPrimary(svc, s, p, connected, accepted);
      && t.log == s.log + [p] && t.linked == (s.linked && connected) && t.replica == s.replica && t.released == s.released
      && Ours(t) == Ours(s) + (if s.linked && connected && accepted then [|s.log| + 1] else [])
      && t.direct == s.direct + (if t.linked then [] else [Run(svc, s.fs, p).pkt])
  {
    var t := AtPrimary(svc, s, p, connected, accepted);
    if s.linked && connected && accepted {
      var m := t.channel[|s.channel|];
      assert t.released + t.channel == s.released + s.channel + [m];
    }
  }

  /** The number of the copy that an event adds. */
  function Adds(s: State, e: Event): seq<nat> {
    if e.Packet? && s.linked && e.connected && e.accepted then [|s.log| + 1] else []
  }

  lemma StepConserves(svc: Service, s: State, e: Event)
    requires Enabled(s, e)
    ensures var t := Step(svc, s, e);
      && t.log == s.log + (if e.Packet? then [e.p] else [])
      && t.linked == (s.linked && (e.Packet? ==> e.connected))
      && if e.Deliver? && !Takes(s, e.room) then |Ours(t)| == |Ours(s)| - 1 else Ours(t) == Ours(s) + Adds(s, e)
  {
    match e
    case Packet(p, connected, accepted) => PacketConserves(svc, s, p, connected, accepted);
    case Deliver(room) => DeliverConserves(svc, s, room);
    case ReplicaPacket(_) =>
    case ReplicaIdles =>
    case ReplicaTakesOver =>
  }

  /** Conservation: with those lost, the copies released and on their way are as many as were
      accepted; with none lost they are the accepted ones, in order. */
  lemma {:induction false} RunConserves(svc: Service, s: State, es: seq<Event>)
    requires Legal(svc, s, es)
    ensures var t, sent := Exec(svc, s, es), Accepted(s.linked, |s.log|, es);
      && t.log == s.log + Came(es)
      && |Ours(t)| + Lost(svc, s, es) == |Ours(s)| + |sent|
      && (Lost(svc, s, es) == 0 ==> Ours(t) == Ours(s) + sent)
    decreases |es|
  {
    if es != [] {
      StepConserves(svc, s, es[0]);
      RunConserves(svc, Step(svc, s, es[0]), es[1..]);
    }
  }

  /** Without a take-over, and with room wherever a copy arrives, none is lost. */
  lemma {:induction false} NoneLost(svc: Service, s: State, es: seq<Event>)
    requires Legal(svc, s, es) && (s.replica.Absent? || s.replica.Replica?)
    requires forall e | e in es :: !e.ReplicaTakesOver? && (e.Deliver? ==> e.room)
    ensures Lost(svc, s, es) == 0
    decreases |es|
  {
    if es != [] {
      assert es[0] in es;
      NoneLost(svc, Step(svc, s, es[0]), es[1..]);
    }
  }

  // ------------------------------------------------------------ what the primary sends out itself

  /** What the chain makes of the packets from number `d` on. */
  function Outputs(svc: Service, log: seq<int>, d: nat): seq<int>
    requires d <= |log|
  {
    seq(|log| - d, i requires 0 <= i < |log| - d => Run(svc, Fold(svc, svc.init, log[..d + i]), log[d + i]).pkt)
  }

  lemma {:induction false} OutputsOneMore(svc: Service, log: seq<int>, d: nat, p: int)
    requires d <= |log|
    ensures Outputs(svc, log + [p], d) == Outputs(svc, log, d) + [Run(svc, Fold(svc, svc.init, log), p).pkt]
  {
    var log' := log + [p];
    forall i | 0 <= i < |log| - d ensures Outputs(svc, log', d)[i] == Outputs(svc, log, d)[i] {
      assert log'[..d + i] == log[..d + i];
    }
    assert log'[..|log|] == log;
  }

  /** The primary has sent out itself what came from number `d` on. */
  ghost predicate SentItself(svc: Service, s: State, d: nat) {
    && d <= |s.log| && (s.linked ==> d == |s.log|)
    && s.direct == Outputs(svc, s.log, d)
  }

  lemma {:induction false} RunSendsItself(svc: Service, s: State, es: seq<Event>, d: nat)
    requires Legal(svc, s, es) && Inv(svc, s) && SentItself(svc, s, d)
    ensures SentItself(svc, Exec(svc, s, es), if s.linked then |s.log| + WhileLinked(es) else d)
    decreases |es|
  {
    if es != [] {
      var e := es[0];
      StepKeepsInv(svc, s, e);
      var d' := StepSendsItself(svc, s, e, d);
      RunSendsItself(svc, Step(svc, s, e), es[1..], d');
    }
  }

  lemma {:induction false} StepSendsItself(svc: Service, s: State, e: Event, d: nat) returns (d': nat)
    requires Enabled(s, e) && Inv(svc, s) && SentItself(svc, s, d)
    ensures SentItself(svc, Step(svc, s, e), d')
    ensures d' == if s.linked && e.Packet? && e.connected then d + 1 else d
    ensures Step(svc, s, e).linked == (s.linked && (e.Packet? ==> e.connected))
    ensures |Step(svc, s, e).log| == |s.log| + if e.Packet? then 1 else 0
  {
    d' := if s.linked && e.Packet? && e.connected then d + 1 else d;
    match e
    case Packet(p, connected, accepted) =>
      PacketConserves(svc, s, p, connected, accepted);
      OutputsOneMore(svc, s.log, d, p);
    case Deliver(room) => DeliverConserves(svc, s, room);
    case ReplicaPacket(_) =>
    case ReplicaIdles =>
    case ReplicaTakesOver =>
  }

  lemma {:induction false} StartConserves(svc: Service, es: seq<Event>)
    requires Legal(svc, Initial(svc), es)
    ensures var s, sent := Exec(svc, Initial(svc), es), Accepted(true, 0, es);
      && s.log == Came(es)
      && |s.released + s.channel| + Lost(svc, Initial(svc), es) == |sent|
      && (Lost(svc, Initial(svc), es) == 0 <==> Numbers(s.released + s.channel) == sent)
  {
    RunConserves(svc, Initial(svc), es);
    assert Ours(Initial(svc)) == [];
  }

  lemma {:induction false} StartSendsItself(svc: Service, es: seq<Event>)
    requires Legal(svc, Initial(svc), es)
    ensures SentItself(svc, Exec(svc, Initial(svc), es), WhileLinked(es))
  {
    assert Inv(svc, Initial(svc));
    assert SentItself(svc, Initial(svc), 0);
    RunSendsItself(svc, Initial(svc), es, 0);
  }

  /** In every run: the released packets are packets of the primary in its order, each released with
      its own state; the copies released and on their way, with those that nobody took on arrival,
      are as many as the events accepted, and exactly those if nobody missed one; and the primary
      lets out itself exactly the packets from the one on at which it found the connection down. */
  lemma {:induction false} OutputIsCommitted(svc: Service, es: seq<Event>)
    requires Legal(svc, Initial(svc), es)
    ensures var s, sent := Exec(svc, Initial(svc), es), Accepted(true, 0, es);
      && s.log == Came(es)
      && AllFaithful(svc, s.log, s.released) && Increasing(s.released)
      && |s.released + s.channel| + Lost(svc, Initial(svc), es) == |sent|
      && (Lost(svc, Initial(svc), es) == 0 <==> Numbers(s.released + s.channel) == sent)
      && WhileLinked(es) <= |s.log| && s.direct == Outputs(svc, s.log, WhileLinked(es))
  {
    assert Inv(svc, Initial(svc));
    RunKeepsInv(svc, Initial(svc), es);
    StartConserves(svc, es);
    StartSendsItself(svc, es);
  }

  /** So without a take-over, and with room wherever a copy arrives, nothing accepted is lost, whether
      replicas idle out in between or not. */
  lemma {:induction false} NothingAcceptedIsLost(svc: Service, es: seq<Event>)
    requires Legal(svc, Initial(svc), es)
    requires forall e | e in es :: !e.ReplicaTakesOver? && (e.Deliver? ==> e.room)
    ensures var s := Exec(svc, Initial(svc), es);
      Numbers(s.released + s.channel) == Accepted(true, 0, es)
  {
    NoneLost(svc, Initial(svc), es);
    OutputIsCommitted(svc, es);
  }
}
