/** The message handlers of a flow actor during migration: runtime/actor/flow_actor.cc. Each is a
    function from the actor to the actor, the messages it sends and what it adds to the
    statistics. */
module FlowActor {
  import opened ServiceChain

  /** `current_state_` of a source actor. Moved is the state of an actor that has been removed
      after its flow has gone. */
  datatype Phase = Normal | Source | Routed | Failure | Moved

  /** The encoding of the states. */
  function Code(p: Phase): nat {
    match p
    case Normal => 0x1
    case Source => 0x2
    case Routed => 0x6
    case Failure => 0x4
    case Moved => 0x1
  }

  datatype Kind = Start | Route | Install | Other

  const INVALID_ID := 0
  const FIRST_ID := 2

  /** The migration timer: id 0 when it is not armed. */
  datatype Timer = Timer(id: nat, kind: Kind) {
    predicate Armed() { id != INVALID_ID }
  }

  const UNARMED := Timer(INVALID_ID, Other)

  datatype Place = AtSource | AtTarget

  datatype ToTarget = Create(id: nat) | Migrate(id: nat, actor: nat, fs: seq<int>, log: seq<int>)
  datatype ToSwitch = SetRoute(id: nat, to: Place)

  datatype Tally = Nothing | Failed | Succeeded

  /** A source actor. `log` is history: the packets it has processed. `snap` is the log when it
      last sent its state, `routeId` and `routeTo` its last route request. */
  datatype Actor = Actor(phase: Phase, timer: Timer, target: nat, fs: seq<int>,
                         log: seq<int>, snap: seq<int>, routeId: nat, routeTo: Place)

  /** What a handler does: the new actor, messages that were accepted for sending, the ids it
      used and its effect on the statistics. */
  datatype Out = Out(actor: Actor, toTarget: seq<ToTarget>, toSwitch: seq<ToSwitch>, ids: seq<Kind>, tally: Tally)

  function Quiet(a: Actor): Out {
    Out(a, [], [], [], Nothing)
  }

  function GiveUp(a: Actor): Out {
    Out(a.(phase := Normal, timer := UNARMED), [], [], [], Failed)
  }

  /** start_migration: an actor with a replica does not migrate. */
  function Begin(a: Actor, id: nat, replica: bool, accepted: bool): Out {
    if replica then Out(a.(phase := Normal), [], [], [], Failed)
    else Out(a.(phase := Source, timer := Timer(id, Start)), if accepted then [Create(id)] else [], [], [Start], Nothing)
  }

  function StartTimeout(a: Actor): Out {
    GiveUp(a)
  }

  function AskRoute(a: Actor, id: nat, to: Place, accepted: bool): Out {
    Out(a.(timer := Timer(id, Route), routeId := id, routeTo := to),
        [], if accepted then [SetRoute(id, to)] else [], [Route], Nothing)
  }

  function OnStarted(a: Actor, request: nat, target: nat, id: nat, accepted: bool): Out {
    if request != a.timer.id then Quiet(a)
    else AskRoute(a.(target := target), id, AtTarget, accepted)
  }

  /** failure_handling: ask the switch for the flow back. */
  function RollBack(a: Actor, id: nat, accepted: bool): Out {
    AskRoute(a.(phase := Failure), id, AtSource, accepted)
  }

  function RouteTimeout(a: Actor, connected: bool, id: nat, accepted: bool): Out {
    if !connected then GiveUp(a) else RollBack(a.(timer := UNARMED), id, accepted)
  }

  function OnRouteSet(a: Actor, request: nat, ok: bool, id: nat, sent: bool, accepted: bool): Out {
    if request != a.timer.id then Quiet(a)
    else if a.phase == Failure || !ok then GiveUp(a)
    else
      var b := a.(phase := Routed, timer := UNARMED, snap := a.log);
      if sent then
        Out(b.(timer := Timer(id, Install)), [Migrate(id, a.target, a.fs, a.log)], [], [Install], Nothing)
      else
        var o := RollBack(b, id + 1, accepted);
        o.(ids := [Install] + o.ids)
  }

  function StateTimeout(a: Actor, id: nat, accepted: bool): Out {
    RollBack(a.(timer := UNARMED), id, accepted)
  }

  function OnMigrated(a: Actor, request: nat): Out {
    if request != a.timer.id then Quiet(a)
    else Out(a.(phase := Moved, timer := UNARMED), [], [], [], Succeeded)
  }

  /** A packet of the flow: processed, except once the route has changed. */
  function OnPacket(svc: Service, a: Actor, p: int): Actor {
    if a.phase == Routed then a else a.(fs := Run(svc, a.fs, p).fs, log := a.log + [p])
  }

  /** check_idle removes an actor that saw no packet, unless it is migrating. */
  predicate MayIdleOut(a: Actor) {
    Code(a.phase) % 2 == 1
  }

  predicate Migrating(p: Phase) {
    p == Source || p == Routed || p == Failure
  }
}
