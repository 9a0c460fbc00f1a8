/** The migration of one flow as a state machine over three parties: the source actor, the target
    runtime with the actors it has created for the flow, and the upstream switch. Parties talk
    over channels that deliver in order, once, where a send may be refused. Handlers:
    runtime/actor/flow_actor.cc, runtime/actor/coordinator.cc,
    runtime/reliable/process_reliable_msg.h. */
module Migration {
  import opened ServiceChain
  import opened FlowActor

  datatype Mode = Waiting | Running | Removed

  /** An actor at the target. `request` is the id that had it created, `via` the id of the
      message that brought the state. `base` and `accepted` are history: the packets the source
      had processed, and the packets taken in here, in the order of arrival. */
  datatype Target = Target(mode: Mode, fs: seq<int>, buffer: seq<int>,
                           request: nat, via: nat, base: seq<int>, accepted: seq<int>)

  /** The flow at the switch. `epoch` counts how often the flow has been created anew; `last`,
      `lastTo` and `lastEpoch` describe the last request that was served. */
  datatype Switch = Switch(has: bool, route: Place, epoch: nat, last: nat, lastTo: Place, lastEpoch: int)

  datatype FromTarget = Started(request: nat, actor: nat) | Migrated(request: nat, actor: nat)
  datatype FromSwitch = RouteSet(request: nat, ok: bool, epoch: nat)

  datatype State = State(actor: Actor, targets: seq<Target>, switch: Switch,
                         toTarget: seq<ToTarget>, fromTarget: seq<FromTarget>,
                         toSwitch: seq<ToSwitch>, fromSwitch: seq<FromSwitch>,
                         ids: seq<Kind>)

  /** The next message id. All ids ever given out are recorded in `ids`. */
  function NextId(s: State): nat {
    FIRST_ID + |s.ids|
  }

  datatype Event =
    | StartMigration(replica: bool, accepted: bool)
    | Timeout(connected: bool, accepted: bool)
    | SourceHearsTarget(accepted: bool)
    | SourceHearsSwitch(sent: bool, accepted: bool)
    | TargetHears(room: bool, accepted: bool)
    | SwitchHears(accepted: bool)
    | SwitchForgets
    | SwitchLearns(to: Place)
    | PacketAtSource(p: int)
    | PacketAtTarget(actor: nat, p: int, room: bool)
    | TargetIdles(actor: nat)
    | OtherId(kind: Kind)

  predicate Enabled(s: State, e: Event) {
    match e
    case StartMigration(_, _) => s.actor.phase == Normal
    case Timeout(_, _) => s.actor.timer.Armed()
    case SourceHearsTarget(_) => s.fromTarget != []
    case SourceHearsSwitch(_, _) => s.fromSwitch != []
    case TargetHears(_, _) => s.toTarget != []
    case SwitchHears(_) => s.toSwitch != []
    case SwitchForgets => s.switch.has
    case SwitchLearns(_) => !s.switch.has
    case PacketAtSource(_) => s.actor.phase != Moved
    case PacketAtTarget(i, _, _) => i < |s.targets| && s.targets[i].mode != Removed
    case TargetIdles(i) => i < |s.targets|
    case OtherId(kind) => kind == Other
  }

  /** The effect of a handler of the source actor. */
  function Apply(s: State, o: Out): State {
    s.(actor := o.actor, toTarget := s.toTarget + o.toTarget, toSwitch := s.toSwitch + o.toSwitch, ids := s.ids + o.ids)
  }

  function OnTimeout(s: State, connected: bool, accepted: bool): Out {
    match s.actor.timer.kind
    case Start => StartTimeout(s.actor)
    case Route => RouteTimeout(s.actor, connected, NextId(s), accepted)
    case Install => StateTimeout(s.actor, NextId(s), accepted)
    case Other => Quiet(s.actor)
  }

  /** Messages for an actor that is gone are dropped. */
  function HearTarget(s: State, m: FromTarget, accepted: bool): Out {
    if s.actor.phase == Moved then Quiet(s.actor)
    else match m
      case Started(request, target) => OnStarted(s.actor, request, target, NextId(s), accepted)
      case Migrated(request, _) => OnMigrated(s.actor, request)
  }

  function HearSwitch(s: State, m: FromSwitch, sent: bool, accepted: bool): Out {
    if s.actor.phase == Moved then Quiet(s.actor)
    else OnRouteSet(s.actor, m.request, m.ok, NextId(s), sent, accepted)
  }

  /** create_migration_target_actor: nothing happens when no actor can be allocated. */
  function AtCreate(svc: Service, s: State, id: nat, room: bool, accepted: bool): State {
    if !room then s
    else s.(targets := s.targets + [Target(Waiting, svc.init, [], id, INVALID_ID, [], [])],
            fromTarget := s.fromTarget + if accepted then [Started(id, |s.targets|)] else [])
  }

  /** migrate_flow_state: install the state, answer, process what was buffered. */
  function AtMigrate(svc: Service, s: State, m: ToTarget, accepted: bool): State
    requires m.Migrate?
  {
    if m.actor >= |s.targets| || s.targets[m.actor].mode == Removed then s
    else
      var t := s.targets[m.actor];
      var t' := t.(mode := Running, fs := Fold(svc, m.fs, t.buffer), buffer := [], via := m.id, base := m.log);
      s.(targets := s.targets[m.actor := t'],
         fromTarget := s.fromTarget + if accepted then [Migrated(m.id, m.actor)] else [])
  }

  /** change_vswitch_route. */
  function AtSwitch(s: State, m: ToSwitch, accepted: bool): State {
    var w := if s.switch.has then s.switch.(route := m.to, last := m.id, lastTo := m.to, lastEpoch := s.switch.epoch)
             else s.switch.(last := m.id, lastTo := m.to, lastEpoch := -1);
    s.(switch := w, fromSwitch := s.fromSwitch + if accepted then [RouteSet(m.id, s.switch.has, s.switch.epoch)] else [])
  }

  /** A packet at the target: buffered while there is room, then processed. */
  function AtTargetPacket(svc: Service, t: Target, p: int, room: bool): Target {
    match t.mode
    case Waiting => if room then t.(buffer := t.buffer + [p], accepted := t.accepted + [p]) else t
    case Running => t.(fs := Run(svc, t.fs, p).fs, accepted := t.accepted + [p])
    case Removed => t
  }

  function Step(svc: Service, s: State, e: Event): State
    requires Enabled(s, e)
  {
    match e
    case StartMigration(replica, accepted) => Apply(s, Begin(s.actor, NextId(s), replica, accepted))
    case Timeout(connected, accepted) => Apply(s, OnTimeout(s, connected, accepted))
    case SourceHearsTarget(accepted) =>
      Apply(s.(fromTarget := s.fromTarget[1..]), HearTarget(s, s.fromTarget[0], accepted))
    case SourceHearsSwitch(sent, accepted) =>
      Apply(s.(fromSwitch := s.fromSwitch[1..]), HearSwitch(s, s.fromSwitch[0], sent, accepted))
    case TargetHears(room, accepted) =>
      var s' := s.(toTarget := s.toTarget[1..]);
      (match s.toTarget[0]
       case Create(id) => AtCreate(svc, s', id, room, accepted)
       case Migrate(_, _, _, _) => AtMigrate(svc, s', s.toTarget[0], accepted))
    case SwitchHears(accepted) => AtSwitch(s.(toSwitch := s.toSwitch[1..]), s.toSwitch[0], accepted)
    case SwitchForgets => s.(switch := s.switch.(has := false))
    case SwitchLearns(to) => s.(switch := s.switch.(has := true, route := to, epoch := s.switch.epoch + 1))
    case PacketAtSource(p) => s.(actor := OnPacket(svc, s.actor, p))
    case PacketAtTarget(i, p, room) => s.(targets := s.targets[i := AtTargetPacket(svc, s.targets[i], p, room)])
    case TargetIdles(i) => s.(targets := s.targets[i := s.targets[i].(mode := Removed, buffer := [])])
    case OtherId(kind) => s.(ids := s.ids + [kind])
  }

  /** A flow that has been processed at the source so far, and routed there. */
  function Initial(svc: Service): State {
    State(Actor(Normal, UNARMED, 0, svc.init, [], [], 0, AtSource), [],
          Switch(true, AtSource, 0, 0, AtSource, 0), [], [], [], [], [])
  }

  predicate Legal(svc: Service, s: State, es: seq<Event>)
    decreases |es|
  {
    es == [] || (Enabled(s, es[0]) && Legal(svc, Step(svc, s, es[0]), es[1..]))
  }

  function Exec(svc: Service, s: State, es: seq<Event>): State
    requires Legal(svc, s, es)
    decreases |es|
  {
    if es == [] then s else Exec(svc, Step(svc, s, es[0]), es[1..])
  }

  // ------------------------------------------------------------ invariant

  /** Id `id` was given out for a request of kind `kind`. */
  predicate IsA(ids: seq<Kind>, id: nat, kind: Kind) {
    FIRST_ID <= id < FIRST_ID + |ids| && ids[id - FIRST_ID] == kind
  }

  /** The timer is armed exactly while migrating, for what the phase waits for. */
  predicate TimerOk(a: Actor, ids: seq<Kind>) {
    && (Migrating(a.phase) <==> a.timer.Armed())
    && (a.timer.Armed() ==> IsA(ids, a.timer.id, a.timer.kind) && a.timer.kind != Other)
    && (a.timer.Armed() && a.timer.kind == Start ==> a.phase == Source)
    && (a.timer.Armed() && a.timer.kind == Route ==> a.phase == Source || a.phase == Failure)
    && (a.timer.Armed() && a.timer.kind == Install ==> a.phase == Routed)
    && (a.phase == Routed ==> a.timer.kind == Install)
    && (a.phase == Failure ==> a.timer == Timer(a.routeId, Route) && a.routeTo == AtSource)
    && (a.timer.Armed() && a.timer.kind == Route ==> a.timer.id == a.routeId)
    && (a.routeId == 0 || IsA(ids, a.routeId, Route))
  }

  /** Every message in flight carries an id of its own kind. */
  predicate KindsOk(s: State) {
    && (forall m | m in s.toTarget :: IsA(s.ids, m.id, if m.Create? then Start else Install))
    && (forall m | m in s.fromTarget :: IsA(s.ids, m.request, if m.Started? then Start else Install))
    && (forall m | m in s.toSwitch :: IsA(s.ids, m.id, Route))
    && (forall m | m in s.fromSwitch :: IsA(s.ids, m.request, Route))
    && (forall t | t in s.targets :: IsA(s.ids, t.request, Start))
  }

  /** Route requests wait at the switch in the order of their ids, after the last one served. */
  predicate RequestsInOrder(w: Switch, q: seq<ToSwitch>, routeId: nat, routeTo: Place) {
    && w.last <= routeId
    && (w.last == routeId && routeId != 0 ==> w.lastTo == routeTo)
    && (forall i | 0 <= i < |q| :: w.last < q[i].id <= routeId && (q[i].id == routeId ==> q[i].to == routeTo))
    && (forall i, j | 0 <= i < j < |q| :: q[i].id < q[j].id)
  }

  /** A response is for a request served before; if for the last, the flow's epoch is known. After
      a refusal the switch has no flow until it creates one anew. */
  predicate ResponsesServed(w: Switch, q: seq<FromSwitch>) {
    forall m | m in q ::
      && m.request <= w.last && m.epoch <= w.epoch
      && (m.request == w.last && m.ok ==> m.epoch == w.lastEpoch)
      && (!m.ok && m.epoch == w.epoch ==> !w.has)
  }

  /** While the flow is the one the last request was served on, its route is as requested. */
  predicate RouteAsServed(w: Switch) {
    w.lastEpoch <= w.epoch && (w.last != 0 && w.has && w.lastEpoch == w.epoch ==> w.route == w.lastTo)
  }

  predicate RoutingOk(s: State) {
    && RequestsInOrder(s.switch, s.toSwitch, s.actor.routeId, s.actor.routeTo)
    && ResponsesServed(s.switch, s.fromSwitch)
    && RouteAsServed(s.switch)
  }

  /** No state is on its way to target actor `i`, nor has it received one. */
  predicate Fresh(targets: seq<Target>, q: seq<ToTarget>, i: nat) {
    i < |targets| && targets[i].mode != Running && forall m | m in q :: m.Migrate? ==> m.actor != i
  }

  /** A state in flight is the fold over packets the source has processed, for an actor that has
      not received one. */
  predicate StateInFlight(svc: Service, a: Actor, targets: seq<Target>, m: ToTarget) {
    m.Migrate? ==>
      && m.fs == Fold(svc, svc.init, m.log) && m.log <= a.log
      && m.actor < |targets| && targets[m.actor].mode != Running
  }

  predicate StatesInFlight(svc: Service, a: Actor, targets: seq<Target>, q: seq<ToTarget>) {
    && (forall i | 0 <= i < |q| :: StateInFlight(svc, a, targets, q[i]))
    && (forall i, j | 0 <= i < j < |q| && q[i].Migrate? && q[j].Migrate? :: q[i].actor != q[j].actor)
  }

  /** A target actor has buffered what it took in, or has folded it onto what the source did. */
  predicate TargetOk(svc: Service, a: Actor, ids: seq<Kind>, t: Target) {
    && (t.mode == Waiting ==> t.buffer == t.accepted && t.via == INVALID_ID)
    && (t.mode == Running ==> t.buffer == [] && t.fs == Fold(svc, svc.init, t.base + t.accepted) && t.via != INVALID_ID)
    && t.base <= a.log
    && (t.via == INVALID_ID || IsA(ids, t.via, Install))
  }

  predicate TargetsOk(svc: Service, a: Actor, ids: seq<Kind>, targets: seq<Target>) {
    forall i | 0 <= i < |targets| :: TargetOk(svc, a, ids, targets[i])
  }

  /** Answers name the actors they come from. */
  predicate AnswersOk(targets: seq<Target>, q: seq<FromTarget>) {
    forall m | m in q ::
      && m.actor < |targets|
      && (m.Started? ==> targets[m.actor].request == m.request)
      && (m.Migrated? ==> targets[m.actor].via == m.request)
  }

  /** Before it sends its state the source has chosen an actor that has none. */
  predicate AwaitingOk(a: Actor, targets: seq<Target>, q: seq<ToTarget>) {
    && (a.timer.Armed() && a.timer.kind == Start ==>
          forall i | 0 <= i < |targets| && targets[i].request == a.timer.id :: Fresh(targets, q, i))
    && (a.phase == Source && a.timer.kind == Route ==> Fresh(targets, q, a.target))
  }

  /** After it has sent its state the source changes it no more, and only the chosen actor gets
      it. */
  predicate SentOk(a: Actor, targets: seq<Target>, q: seq<ToTarget>) {
    && (a.phase == Routed ==>
          && a.snap == a.log
          && (forall m | m in q && m.Migrate? && m.id == a.timer.id :: m.actor == a.target && m.log == a.snap)
          && (forall i | 0 <= i < |targets| && targets[i].via == a.timer.id :: i == a.target && targets[i].base == a.snap))
    && (a.phase == Moved ==> a.target < |targets| && targets[a.target].via != INVALID_ID && targets[a.target].base == a.log)
  }

  ghost predicate StateOk(svc: Service, s: State) {
    && s.actor.fs == Fold(svc, svc.init, s.actor.log)
    && StatesInFlight(svc, s.actor, s.targets, s.toTarget)
    && TargetsOk(svc, s.actor, s.ids, s.targets)
    && AnswersOk(s.targets, s.fromTarget)
    && AwaitingOk(s.actor, s.targets, s.toTarget)
    && SentOk(s.actor, s.targets, s.toTarget)
  }

  ghost predicate ControlOk(s: State) {
    TimerOk(s.actor, s.ids) && KindsOk(s) && RoutingOk(s)
  }

  ghost predicate Inv(svc: Service, s: State) {
    ControlOk(s) && StateOk(svc, s)
  }
}
