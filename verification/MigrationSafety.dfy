/** Every run of the migration machine keeps its invariant, and what follows. */
module MigrationSafety {
  import opened ServiceChain
  import opened FlowActor
  import opened Migration
  import opened MigrationArrivals

  // ------------------------------------------------------------ ids, timers, routes

  /** What a handler of the source may do to timers, ids and routes. */
  predicate HandlerOk(ids: seq<Kind>, a: Actor, o: Out) {
    && TimerOk(o.actor, ids + o.ids)
    && (forall m | m in o.toTarget :: IsA(ids + o.ids, m.id, if m.Create? then Start else Install))
    && (o.toSwitch == [] || o.toSwitch == [SetRoute(o.actor.routeId, o.actor.routeTo)])
    && ((o.toSwitch == [] && o.actor.routeId == a.routeId && o.actor.routeTo == a.routeTo)
        || o.actor.routeId >= FIRST_ID + |ids|)
  }

  lemma IdsGrow(ids: seq<Kind>, more: seq<Kind>, id: nat, kind: Kind)
    requires IsA(ids, id, kind)
    ensures IsA(ids + more, id, kind)
  {
  }

  lemma QuietOk(ids: seq<Kind>, a: Actor)
    requires TimerOk(a, ids)
    ensures HandlerOk(ids, a, Quiet(a))
  {
    assert ids + [] == ids;
  }

  lemma GiveUpOk(ids: seq<Kind>, a: Actor)
    requires TimerOk(a, ids)
    ensures HandlerOk(ids, a, GiveUp(a))
  {
    assert ids + [] == ids;
  }

  lemma RollBackOk(ids: seq<Kind>, pre: seq<Kind>, a: Actor, b: Actor, accepted: bool)
    requires TimerOk(a, ids)
    ensures var o := RollBack(b, FIRST_ID + |ids| + |pre|, accepted);
      HandlerOk(ids, a, o.(ids := pre + o.ids))
  {
  }

  lemma HearTargetOk(s: State, m: FromTarget, accepted: bool)
    requires TimerOk(s.actor, s.ids) && IsA(s.ids, m.request, if m.Started? then Start else Install)
    ensures HandlerOk(s.ids, s.actor, HearTarget(s, m, accepted))
  {
    QuietOk(s.ids, s.actor);
    if s.actor.phase != Moved && m.request == s.actor.timer.id {
      assert s.ids + [] == s.ids;
    }
  }

  lemma HearSwitchOk(s: State, m: FromSwitch, sent: bool, accepted: bool)
    requires TimerOk(s.actor, s.ids) && IsA(s.ids, m.request, Route)
    ensures HandlerOk(s.ids, s.actor, HearSwitch(s, m, sent, accepted))
  {
    var a := s.actor;
    QuietOk(s.ids, a);
    GiveUpOk(s.ids, a);
    RollBackOk(s.ids, [Install], a, a.(phase := Routed, timer := UNARMED, snap := a.log), accepted);
    if a.routeId != 0 { IdsGrow(s.ids, [Install], a.routeId, Route); }
  }

  lemma TimeoutOk(s: State, connected: bool, accepted: bool)
    requires TimerOk(s.actor, s.ids)
    ensures HandlerOk(s.ids, s.actor, OnTimeout(s, connected, accepted))
  {
    QuietOk(s.ids, s.actor);
    GiveUpOk(s.ids, s.actor);
    RollBackOk(s.ids, [], s.actor, s.actor.(timer := UNARMED), accepted);
    var o := RollBack(s.actor.(timer := UNARMED), NextId(s), accepted);
    assert o.(ids := [] + o.ids) == o;
  }

  lemma BeginOk(s: State, replica: bool, accepted: bool)
    requires TimerOk(s.actor, s.ids) && s.actor.phase == Normal
    ensures HandlerOk(s.ids, s.actor, Begin(s.actor, NextId(s), replica, accepted))
  {
    assert s.ids + [] == s.ids;
    if s.actor.routeId != 0 { IdsGrow(s.ids, [Start], s.actor.routeId, Route); }
  }

  lemma ApplyKeepsKinds(s: State, o: Out)
    requires KindsOk(s) && HandlerOk(s.ids, s.actor, o)
    ensures KindsOk(Apply(s, o))
  {
    var s' := Apply(s, o);
    assert forall id, kind | IsA(s.ids, id, kind) :: IsA(s'.ids, id, kind);
  }

  lemma ApplyKeepsRouting(s: State, o: Out)
    requires ControlOk(s) && HandlerOk(s.ids, s.actor, o)
    ensures RoutingOk(Apply(s, o))
  {
  }

  lemma ApplyKeepsControl(s: State, o: Out)
    requires ControlOk(s) && HandlerOk(s.ids, s.actor, o)
    ensures ControlOk(Apply(s, o))
  {
    ApplyKeepsKinds(s, o);
    ApplyKeepsRouting(s, o);
  }

  lemma ServeKeepsRouting(s: State, accepted: bool)
    requires ControlOk(s) && s.toSwitch != []
    ensures ControlOk(AtSwitch(s.(toSwitch := s.toSwitch[1..]), s.toSwitch[0], accepted))
  {
    var m, q := s.toSwitch[0], s.toSwitch[1..];
    var t := AtSwitch(s.(toSwitch := q), m, accepted);
    assert m in s.toSwitch;
    forall i | 0 <= i < |q| ensures m.id < q[i].id && q[i] == s.toSwitch[i + 1] {
    }
    assert RequestsInOrder(t.switch, q, s.actor.routeId, s.actor.routeTo);
    assert ResponsesServed(t.switch, t.fromSwitch);
  }

  /** Steps that leave the source, the switch and their channels alone. */
  lemma TargetSideKeepsControl(s: State, t: State)
    requires ControlOk(s)
    requires t == s.(targets := t.targets, toTarget := t.toTarget, fromTarget := t.fromTarget)
    requires forall m | m in t.toTarget :: m in s.toTarget
    requires forall m | m in t.fromTarget :: IsA(s.ids, m.request, if m.Started? then Start else Install)
    requires forall u | u in t.targets :: IsA(s.ids, u.request, Start)
    ensures ControlOk(t)
  {
  }

  lemma TargetHearsKeepsControl(svc: Service, s: State, room: bool, accepted: bool)
    requires ControlOk(s) && s.toTarget != []
    ensures ControlOk(Step(svc, s, TargetHears(room, accepted)))
  {
    var t := Step(svc, s, TargetHears(room, accepted));
    assert s.toTarget[0] in s.toTarget;
    TargetSideKeepsControl(s, t);
  }

  lemma AtTargetKeepsControl(s: State, i: nat, u: Target)
    requires ControlOk(s) && i < |s.targets| && u.request == s.targets[i].request
    ensures ControlOk(s.(targets := s.targets[i := u]))
  {
    assert s.targets[i] in s.targets;
    TargetSideKeepsControl(s, s.(targets := s.targets[i := u]));
  }

  lemma OtherIdKeepsControl(s: State)
    requires ControlOk(s)
    ensures ControlOk(s.(ids := s.ids + [Other]))
  {
    var t := s.(ids := s.ids + [Other]);
    assert forall id, kind | IsA(s.ids, id, kind) :: IsA(t.ids, id, kind);
  }

  lemma ForgettingKeepsControl(svc: Service, s: State)
    requires ControlOk(s) && Enabled(s, SwitchForgets)
    ensures ControlOk(Step(svc, s, SwitchForgets))
  {
  }

  lemma LearningKeepsControl(svc: Service, s: State, to: Place)
    requires ControlOk(s) && Enabled(s, SwitchLearns(to))
    ensures ControlOk(Step(svc, s, SwitchLearns(to)))
  {
  }

  lemma SourcePacketKeepsControl(svc: Service, s: State, p: int)
    requires ControlOk(s) && Enabled(s, PacketAtSource(p))
    ensures ControlOk(Step(svc, s, PacketAtSource(p)))
  {
  }

  /** The control part of the invariant is kept by every step. */
  lemma StepKeepsControl(svc: Service, s: State, e: Event)
    requires ControlOk(s) && Enabled(s, e)
    ensures ControlOk(Step(svc, s, e))
  {
    match e
    case StartMigration(replica, accepted) =>
      BeginOk(s, replica, accepted);
      ApplyKeepsControl(s, Begin(s.actor, NextId(s), replica, accepted));
    case Timeout(connected, accepted) =>
      TimeoutOk(s, connected, accepted);
      ApplyKeepsControl(s, OnTimeout(s, connected, accepted));
    case SourceHearsTarget(accepted) =>
      HearTargetOk(s, s.fromTarget[0], accepted);
      ApplyKeepsControl(s.(fromTarget := s.fromTarget[1..]), HearTarget(s, s.fromTarget[0], accepted));
    case SourceHearsSwitch(sent, accepted) =>
      HearSwitchOk(s, s.fromSwitch[0], sent, accepted);
      ApplyKeepsControl(s.(fromSwitch := s.fromSwitch[1..]), HearSwitch(s, s.fromSwitch[0], sent, accepted));
    case TargetHears(room, accepted) => TargetHearsKeepsControl(svc, s, room, accepted);
    case SwitchHears(accepted) => ServeKeepsRouting(s, accepted);
    case SwitchForgets => ForgettingKeepsControl(svc, s);
    case SwitchLearns(to) => LearningKeepsControl(svc, s, to);
    case PacketAtSource(p) => SourcePacketKeepsControl(svc, s, p);
    case PacketAtTarget(i, p, room) => AtTargetKeepsControl(s, i, AtTargetPacket(svc, s.targets[i], p, room));
    case TargetIdles(i) => AtTargetKeepsControl(s, i, s.targets[i].(mode := Removed, buffer := []));
    case OtherId(kind) => OtherIdKeepsControl(s);
  }

  // ------------------------------------------------------------ states

  /** A handler that neither sends a state nor touches it. */
  predicate SendsNoState(a: Actor, o: Out) {
    o.actor.log == a.log && o.actor.fs == a.fs && forall m | m in o.toTarget :: m.Create?
  }

  lemma MoreIds(ids: seq<Kind>, more: seq<Kind>)
    ensures forall id, kind | IsA(ids, id, kind) :: IsA(ids + more, id, kind)
  {
  }

  lemma TargetsWithMoreIds(svc: Service, a: Actor, b: Actor, ids: seq<Kind>, more: seq<Kind>, targets: seq<Target>)
    requires TargetsOk(svc, a, ids, targets) && a.log <= b.log
    ensures TargetsOk(svc, b, ids + more, targets)
  {
    MoreIds(ids, more);
    forall i | 0 <= i < |targets| ensures TargetOk(svc, b, ids + more, targets[i]) {
      assert TargetOk(svc, a, ids, targets[i]);
    }
  }

  lemma MoreInFlight(svc: Service, a: Actor, b: Actor, targets: seq<Target>, q: seq<ToTarget>, more: seq<ToTarget>)
    requires StatesInFlight(svc, a, targets, q) && a.log <= b.log && forall m | m in more :: m.Create?
    ensures StatesInFlight(svc, b, targets, q + more)
  {
    forall i | 0 <= i < |q + more| ensures StateInFlight(svc, b, targets, (q + more)[i]) {
      if i < |q| {
        assert StateInFlight(svc, a, targets, q[i]);
      } else {
        assert (q + more)[i] == more[i - |q|] && more[i - |q|] in more;
      }
    }
    forall i | |q| <= i < |q + more| ensures (q + more)[i].Create? {
      assert (q + more)[i] == more[i - |q|] && more[i - |q|] in more;
    }
    forall i, j | 0 <= i < j < |q + more| && (q + more)[i].Migrate? && (q + more)[j].Migrate?
      ensures (q + more)[i].actor != (q + more)[j].actor
    {
    }
  }

  lemma StillFresh(targets: seq<Target>, q: seq<ToTarget>, more: seq<ToTarget>, i: nat)
    requires Fresh(targets, q, i) && forall m | m in more :: m.Create?
    ensures Fresh(targets, q + more, i)
  {
  }

  /** The part of the invariant that does not depend on what the source waits for. */
  lemma {:induction false} NoStateKeeps(svc: Service, s: State, o: Out)
    requires StateOk(svc, s) && SendsNoState(s.actor, o)
    ensures var t := Apply(s, o);
      && t.actor.fs == Fold(svc, svc.init, t.actor.log)
      && StatesInFlight(svc, t.actor, t.targets, t.toTarget)
      && TargetsOk(svc, t.actor, t.ids, t.targets)
      && AnswersOk(t.targets, t.fromTarget)
  {
    TargetsWithMoreIds(svc, s.actor, o.actor, s.ids, o.ids, s.targets);
    MoreInFlight(svc, s.actor, o.actor, s.targets, s.toTarget, o.toTarget);
  }

  /** A handler that leaves the source neither waiting for an answer that matters to the target
      nor after sending its state. */
  lemma IdleKeepsState(svc: Service, s: State, o: Out)
    requires StateOk(svc, s) && SendsNoState(s.actor, o)
    requires o.actor.phase == Normal || o.actor.phase == Failure
    requires o.actor.timer.Armed() ==> o.actor.timer.kind != Start
    ensures StateOk(svc, Apply(s, o))
  {
    NoStateKeeps(svc, s, o);
  }

  lemma QuietKeepsState(svc: Service, s: State)
    requires StateOk(svc, s)
    ensures StateOk(svc, Apply(s, Quiet(s.actor)))
  {
    assert s.toTarget + [] == s.toTarget && s.toSwitch + [] == s.toSwitch && s.ids + [] == s.ids;
    assert Apply(s, Quiet(s.actor)) == s;
  }

  lemma BeginKeepsState(svc: Service, s: State, replica: bool, accepted: bool)
    requires Inv(svc, s) && s.actor.phase == Normal
    ensures StateOk(svc, Apply(s, Begin(s.actor, NextId(s), replica, accepted)))
  {
    var o := Begin(s.actor, NextId(s), replica, accepted);
    if replica {
      IdleKeepsState(svc, s, o);
    } else {
      NoStateKeeps(svc, s, o);
      forall i | 0 <= i < |s.targets| ensures s.targets[i].request != NextId(s) {
        assert s.targets[i] in s.targets;
      }
    }
  }

  lemma StartedKeepsState(svc: Service, s: State, m: FromTarget, accepted: bool)
    requires Inv(svc, s) && m in s.fromTarget && m.Started? && m.request == s.actor.timer.id
    ensures StateOk(svc, Apply(s, OnStarted(s.actor, m.request, m.actor, NextId(s), accepted)))
  {
    var o := OnStarted(s.actor, m.request, m.actor, NextId(s), accepted);
    NoStateKeeps(svc, s, o);
    assert s.actor.timer.kind == Start;
    assert s.targets[m.actor].request == s.actor.timer.id;
    assert Fresh(s.targets, s.toTarget, m.actor);
    StillFresh(s.targets, s.toTarget, o.toTarget, m.actor);
  }

  lemma MigratedKeepsState(svc: Service, s: State, m: FromTarget)
    requires Inv(svc, s) && m in s.fromTarget && m.Migrated? && m.request == s.actor.timer.id
    ensures StateOk(svc, Apply(s, OnMigrated(s.actor, m.request)))
  {
    var o := OnMigrated(s.actor, m.request);
    NoStateKeeps(svc, s, o);
    assert s.actor.timer.kind == Install && s.actor.phase == Routed;
    assert s.targets[m.actor].via == s.actor.timer.id;
  }

  /** The source sends its state. */
  lemma SendKeepsState(svc: Service, s: State, m: FromSwitch, accepted: bool)
    requires Inv(svc, s) && m in s.fromSwitch && m.request == s.actor.timer.id && m.ok && s.actor.phase != Failure
    ensures StateOk(svc, Apply(s, OnRouteSet(s.actor, m.request, m.ok, NextId(s), true, accepted)))
  {
    var a, o := s.actor, OnRouteSet(s.actor, m.request, m.ok, NextId(s), true, accepted);
    var t := Apply(s, o);
    assert a.timer.kind == Route && a.phase == Source;
    assert Fresh(s.targets, s.toTarget, a.target);
    TargetsWithMoreIds(svc, a, t.actor, s.ids, o.ids, s.targets);
    NewStateInFlight(svc, a, s.targets, s.toTarget, o.toTarget[0]);
    assert StatesInFlight(svc, t.actor, t.targets, t.toTarget);
    NewIdIsNew(svc, s);
  }

  lemma NewStateInFlight(svc: Service, a: Actor, targets: seq<Target>, q: seq<ToTarget>, m: ToTarget)
    requires StatesInFlight(svc, a, targets, q) && m.Migrate? && StateInFlight(svc, a, targets, m)
    requires Fresh(targets, q, m.actor)
    ensures forall b: Actor | b.log == a.log :: StatesInFlight(svc, b, targets, q + [m])
  {
    forall b: Actor | b.log == a.log ensures StatesInFlight(svc, b, targets, q + [m]) {
      forall i | 0 <= i < |q + [m]| ensures StateInFlight(svc, b, targets, (q + [m])[i]) {
        if i < |q| { assert StateInFlight(svc, a, targets, q[i]); }
      }
    }
  }

  lemma NewIdIsNew(svc: Service, s: State)
    requires Inv(svc, s)
    ensures forall m | m in s.toTarget :: m.id != NextId(s)
    ensures forall i | 0 <= i < |s.targets| :: s.targets[i].via != NextId(s)
  {
    forall i | 0 <= i < |s.targets| ensures s.targets[i].via != NextId(s) {
      assert TargetOk(svc, s.actor, s.ids, s.targets[i]);
    }
  }

  lemma HearSwitchKeepsState(svc: Service, s: State, m: FromSwitch, sent: bool, accepted: bool)
    requires Inv(svc, s) && m in s.fromSwitch
    ensures StateOk(svc, Apply(s, HearSwitch(s, m, sent, accepted)))
  {
    var a, o := s.actor, HearSwitch(s, m, sent, accepted);
    if a.phase == Moved || m.request != a.timer.id {
      QuietKeepsState(svc, s);
    } else if a.phase != Failure && m.ok && sent {
      SendKeepsState(svc, s, m, accepted);
    } else {
      IdleKeepsState(svc, s, o);
    }
  }

  lemma HearTargetKeepsState(svc: Service, s: State, m: FromTarget, accepted: bool)
    requires Inv(svc, s) && m in s.fromTarget
    ensures StateOk(svc, Apply(s, HearTarget(s, m, accepted)))
  {
    if s.actor.phase == Moved || m.request != s.actor.timer.id {
      QuietKeepsState(svc, s);
    } else if m.Started? {
      StartedKeepsState(svc, s, m, accepted);
    } else {
      MigratedKeepsState(svc, s, m);
    }
  }

  lemma TimeoutKeepsState(svc: Service, s: State, connected: bool, accepted: bool)
    requires Inv(svc, s) && s.actor.timer.Armed()
    ensures StateOk(svc, Apply(s, OnTimeout(s, connected, accepted)))
  {
    IdleKeepsState(svc, s, OnTimeout(s, connected, accepted));
  }

  // ------------------------------------------------------------ the target's side

  lemma ShorterQueue(svc: Service, s: State)
    requires Inv(svc, s) && s.toTarget != []
    ensures Inv(svc, s.(toTarget := s.toTarget[1..]))
  {
    var q := s.toTarget[1..];
    forall m | m in q ensures m in s.toTarget {
    }
    TargetSideKeepsControl(s, s.(toTarget := q));
    forall i | 0 <= i < |q| ensures StateInFlight(svc, s.actor, s.targets, q[i]) {
      assert StateInFlight(svc, s.actor, s.targets, s.toTarget[i + 1]);
    }
    assert StatesInFlight(svc, s.actor, s.targets, q);
    forall i: nat | Fresh(s.targets, s.toTarget, i) ensures Fresh(s.targets, q, i) {
    }
  }

  lemma CreateKeepsState(svc: Service, s: State, id: nat, room: bool, accepted: bool)
    requires Inv(svc, s) && IsA(s.ids, id, Start)
    ensures StateOk(svc, AtCreate(svc, s, id, room, accepted))
  {
    if room {
      var t := AtCreate(svc, s, id, room, accepted);
      var n := |s.targets|;
      forall i | 0 <= i < |t.targets| ensures TargetOk(svc, t.actor, t.ids, t.targets[i]) {
        if i < n { assert TargetOk(svc, s.actor, s.ids, s.targets[i]); }
      }
      forall i | 0 <= i < |s.toTarget| ensures StateInFlight(svc, t.actor, t.targets, t.toTarget[i]) {
        assert StateInFlight(svc, s.actor, s.targets, s.toTarget[i]);
      }
      NobodySendsTo(svc, s, n);
      forall i: nat | i < n && Fresh(s.targets, s.toTarget, i) ensures Fresh(t.targets, t.toTarget, i) {
      }
      assert Fresh(t.targets, t.toTarget, n);
      assert AwaitingOk(t.actor, t.targets, t.toTarget);
      assert SentOk(t.actor, t.targets, t.toTarget);
    }
  }

  lemma NobodySendsTo(svc: Service, s: State, n: nat)
    requires StateOk(svc, s) && n >= |s.targets|
    ensures forall m | m in s.toTarget :: m.Migrate? ==> m.actor != n
  {
    forall m | m in s.toTarget ensures m.Migrate? ==> m.actor != n {
      var i :| 0 <= i < |s.toTarget| && s.toTarget[i] == m;
      assert StateInFlight(svc, s.actor, s.targets, s.toTarget[i]);
    }
  }

  /** Replacing one target actor, the source's expectations aside. */
  lemma TargetChangeKeeps(svc: Service, s: State, i: nat, u: Target)
    requires Inv(svc, s) && i < |s.targets|
    requires TargetOk(svc, s.actor, s.ids, u) && u.request == s.targets[i].request && u.via == s.targets[i].via && u.base == s.targets[i].base
    requires u.mode == Running ==> s.targets[i].mode == Running
    ensures StateOk(svc, s.(targets := s.targets[i := u]))
  {
    var t := s.(targets := s.targets[i := u]);
    forall j | 0 <= j < |t.targets| ensures TargetOk(svc, t.actor, t.ids, t.targets[j]) {
      assert TargetOk(svc, s.actor, s.ids, s.targets[j]);
    }
    forall j | 0 <= j < |s.toTarget| ensures StateInFlight(svc, t.actor, t.targets, t.toTarget[j]) {
      assert StateInFlight(svc, s.actor, s.targets, s.toTarget[j]);
    }
    forall j: nat | Fresh(s.targets, s.toTarget, j) ensures Fresh(t.targets, t.toTarget, j) {
    }
    assert AwaitingOk(t.actor, t.targets, t.toTarget);
    assert SentOk(t.actor, t.targets, t.toTarget);
  }

  lemma TargetPacketKeepsState(svc: Service, s: State, i: nat, p: int, room: bool)
    requires Inv(svc, s) && i < |s.targets| && s.targets[i].mode != Removed
    ensures StateOk(svc, s.(targets := s.targets[i := AtTargetPacket(svc, s.targets[i], p, room)]))
  {
    var u := s.targets[i];
    assert TargetOk(svc, s.actor, s.ids, u);
    FoldOneMore(svc, svc.init, u.base + u.accepted, p);
    assert u.base + (u.accepted + [p]) == (u.base + u.accepted) + [p];
    TargetChangeKeeps(svc, s, i, AtTargetPacket(svc, u, p, room));
  }

  lemma TargetIdleKeepsState(svc: Service, s: State, i: nat)
    requires Inv(svc, s) && i < |s.targets|
    ensures StateOk(svc, s.(targets := s.targets[i := s.targets[i].(mode := Removed, buffer := [])]))
  {
    assert TargetOk(svc, s.actor, s.ids, s.targets[i]);
    TargetChangeKeeps(svc, s, i, s.targets[i].(mode := Removed, buffer := []));
  }

  /** A waiting actor with the state installed and its buffer processed. */
  lemma {:induction false} InstalledIsOk(svc: Service, a: Actor, ids: seq<Kind>, u: Target, m: ToTarget)
    requires m.Migrate? && TargetOk(svc, a, ids, u) && u.mode == Waiting
    requires m.fs == Fold(svc, svc.init, m.log) && m.log <= a.log && m.id != INVALID_ID && IsA(ids, m.id, Install)
    ensures TargetOk(svc, a, ids, u.(mode := Running, fs := Fold(svc, m.fs, u.buffer), buffer := [], via := m.id, base := m.log))
  {
    FoldSplit(svc, svc.init, m.log, u.buffer);
  }

  /** The state arrives. `s` is the state with the message still in flight. */
  lemma InstallKeepsTargets(svc: Service, s: State, accepted: bool)
    requires Inv(svc, s) && s.toTarget != [] && s.toTarget[0].Migrate?
    requires s.targets[s.toTarget[0].actor].mode != Removed
    ensures var m := s.toTarget[0];
      var t := AtMigrate(svc, s.(toTarget := s.toTarget[1..]), m, accepted);
      && TargetsOk(svc, t.actor, t.ids, t.targets)
      && StatesInFlight(svc, t.actor, t.targets, t.toTarget)
      && AnswersOk(t.targets, t.fromTarget)
  {
    var m := s.toTarget[0];
    var t := AtMigrate(svc, s.(toTarget := s.toTarget[1..]), m, accepted);
    var u := s.targets[m.actor];
    assert m in s.toTarget && StateInFlight(svc, s.actor, s.targets, m);
    assert TargetOk(svc, s.actor, s.ids, u);
    InstalledIsOk(svc, s.actor, s.ids, u, m);
    forall j | 0 <= j < |t.targets| ensures TargetOk(svc, t.actor, t.ids, t.targets[j]) {
      if j != m.actor { assert TargetOk(svc, s.actor, s.ids, s.targets[j]); }
    }
    forall j | 0 <= j < |t.toTarget| ensures StateInFlight(svc, t.actor, t.targets, t.toTarget[j]) {
      assert StateInFlight(svc, s.actor, s.targets, s.toTarget[j + 1]);
    }
    InstallAnswers(svc, s, accepted);
  }

  lemma InstallAnswers(svc: Service, s: State, accepted: bool)
    requires Inv(svc, s) && s.toTarget != [] && s.toTarget[0].Migrate?
    requires s.toTarget[0].actor < |s.targets| && s.targets[s.toTarget[0].actor].mode == Waiting
    ensures var t := AtMigrate(svc, s.(toTarget := s.toTarget[1..]), s.toTarget[0], accepted);
      AnswersOk(t.targets, t.fromTarget)
  {
    var m := s.toTarget[0];
    assert TargetOk(svc, s.actor, s.ids, s.targets[m.actor]);
    forall n | n in s.fromTarget && n.Migrated? ensures n.actor != m.actor {
      assert IsA(s.ids, n.request, Install);
    }
  }

  lemma InstallKeepsWaiting(svc: Service, s: State, accepted: bool)
    requires Inv(svc, s) && s.toTarget != [] && s.toTarget[0].Migrate?
    requires s.toTarget[0].actor < |s.targets| && s.targets[s.toTarget[0].actor].mode == Waiting
    ensures var t := AtMigrate(svc, s.(toTarget := s.toTarget[1..]), s.toTarget[0], accepted);
      AwaitingOk(t.actor, t.targets, t.toTarget) && SentOk(t.actor, t.targets, t.toTarget)
  {
    var m := s.toTarget[0];
    var t := AtMigrate(svc, s.(toTarget := s.toTarget[1..]), m, accepted);
    assert m in s.toTarget;
    assert TargetOk(svc, s.actor, s.ids, s.targets[m.actor]);
    forall i: nat | Fresh(s.targets, s.toTarget, i) ensures Fresh(t.targets, t.toTarget, i) {
      assert i != m.actor;
    }
    assert AwaitingOk(t.actor, t.targets, t.toTarget);
  }

  lemma TargetHearsKeepsState(svc: Service, s: State, room: bool, accepted: bool)
    requires Inv(svc, s) && s.toTarget != []
    ensures StateOk(svc, Step(svc, s, TargetHears(room, accepted)))
  {
    var m := s.toTarget[0];
    assert m in s.toTarget;
    ShorterQueue(svc, s);
    if m.Create? {
      CreateKeepsState(svc, s.(toTarget := s.toTarget[1..]), m.id, room, accepted);
    } else {
      assert StateInFlight(svc, s.actor, s.targets, s.toTarget[0]);
      if s.targets[m.actor].mode != Removed {
        InstallKeepsTargets(svc, s, accepted);
        InstallKeepsWaiting(svc, s, accepted);
      }
    }
  }

  // ------------------------------------------------------------ the source's packets

  lemma SourcePacketKeepsState(svc: Service, s: State, p: int)
    requires Inv(svc, s) && s.actor.phase != Moved
    ensures StateOk(svc, s.(actor := OnPacket(svc, s.actor, p)))
  {
    var a, b := s.actor, OnPacket(svc, s.actor, p);
    FoldOneMore(svc, svc.init, a.log, p);
    TargetsWithMoreIds(svc, a, b, s.ids, [], s.targets);
    assert s.ids + [] == s.ids;
    MoreInFlight(svc, a, b, s.targets, s.toTarget, []);
    assert s.toTarget + [] == s.toTarget;
  }

  lemma OtherIdKeepsState(svc: Service, s: State)
    requires StateOk(svc, s)
    ensures StateOk(svc, s.(ids := s.ids + [Other]))
  {
    TargetsWithMoreIds(svc, s.actor, s.actor, s.ids, [Other], s.targets);
  }

  lemma FewerAnswers(svc: Service, s: State, q: seq<FromTarget>)
    requires StateOk(svc, s) && forall m | m in q :: m in s.fromTarget
    ensures StateOk(svc, s.(fromTarget := q))
  {
  }

  /** The invariant is kept by every step. */
  lemma StepKeepsInv(svc: Service, s: State, e: Event)
    requires Inv(svc, s) && Enabled(s, e)
    ensures Inv(svc, Step(svc, s, e))
  {
    StepKeepsControl(svc, s, e);
    match e
    case StartMigration(replica, accepted) => BeginKeepsState(svc, s, replica, accepted);
    case Timeout(connected, accepted) => TimeoutKeepsState(svc, s, connected, accepted);
    case SourceHearsTarget(accepted) =>
      HearTargetKeepsState(svc, s, s.fromTarget[0], accepted);
      FewerAnswers(svc, Apply(s, HearTarget(s, s.fromTarget[0], accepted)), s.fromTarget[1..]);
    case SourceHearsSwitch(sent, accepted) => HearSwitchKeepsState(svc, s, s.fromSwitch[0], sent, accepted);
    case TargetHears(room, accepted) => TargetHearsKeepsState(svc, s, room, accepted);
    case SwitchHears(accepted) =>
    case SwitchForgets =>
    case SwitchLearns(to) =>
    case PacketAtSource(p) => SourcePacketKeepsState(svc, s, p);
    case PacketAtTarget(i, p, room) => TargetPacketKeepsState(svc, s, i, p, room);
    case TargetIdles(i) => TargetIdleKeepsState(svc, s, i);
    case OtherId(kind) => OtherIdKeepsState(svc, s);
  }

  lemma {:induction false} RunKeepsInv(svc: Service, s: State, es: seq<Event>)
    requires Inv(svc, s) && Legal(svc, s, es)
    ensures Inv(svc, Exec(svc, s, es))
    decreases |es|
  {
    if es != [] {
      StepKeepsInv(svc, s, es[0]);
      RunKeepsInv(svc, Step(svc, s, es[0]), es[1..]);
    }
  }

  lemma InitialInv(svc: Service)
    ensures Inv(svc, Initial(svc))
  {
  }

  // ------------------------------------------------------------ main results

  /** In every run, with timeouts, retries, refused sends and late answers in any order: when the
      source is about to leave failure processing on the answer it waits for, and the switch has
      not since created the flow anew, the route of the flow is back at the source. */
  lemma {:induction false} RouteIsRestored(svc: Service, es: seq<Event>)
    requires Legal(svc, Initial(svc), es)
    ensures var s := Exec(svc, Initial(svc), es);
      var a, w := s.actor, s.switch;
      a.phase == Failure && s.fromSwitch != [] && s.fromSwitch[0].request == a.timer.id ==>
      w.has && w.epoch == s.fromSwitch[0].epoch ==> w.route == AtSource
  {
    InitialInv(svc);
    RunKeepsInv(svc, Initial(svc), es);
    var s := Exec(svc, Initial(svc), es);
    if s.fromSwitch != [] { assert s.fromSwitch[0] in s.fromSwitch; }
  }

  /** An actor is in a migrating state exactly while its timer is armed, and an answer that
      matches the timer is an answer to what the timer waits for. */
  lemma {:induction false} TimersMatch(svc: Service, es: seq<Event>)
    requires Legal(svc, Initial(svc), es)
    ensures var s := Exec(svc, Initial(svc), es);
      && (Migrating(s.actor.phase) <==> s.actor.timer.Armed())
      && (forall m | m in s.fromTarget && m.request == s.actor.timer.id ::
            s.actor.timer.kind == if m.Started? then Start else Install)
      && (forall m | m in s.fromSwitch && m.request == s.actor.timer.id :: s.actor.timer.kind == Route)
  {
    InitialInv(svc);
    RunKeepsInv(svc, Initial(svc), es);
  }

  /** In every run the source's state is the fold over every packet that came to it outside the
      hand-over, and the state of a target actor that has received one is the fold over exactly
      what the source had processed when it sent it, followed by every packet that came to the
      actor, in the order of arrival, but for those that found no room while it was waiting. While
      it waits it holds those packets. */
  lemma {:induction false} TargetsExtendTheFold(svc: Service, es: seq<Event>, i: nat)
    requires Legal(svc, Initial(svc), es) && i < |Exec(svc, Initial(svc), es).targets|
    ensures var s := Exec(svc, Initial(svc), es);
      var t, came := s.targets[i], Arrivals(svc, Initial(svc), es, i);
      && s.actor.log == SourceArrivals(svc, Initial(svc), es)
      && s.actor.fs == Fold(svc, svc.init, s.actor.log)
      && t.accepted == came
      && (t.mode == Running ==> t.base <= s.actor.log && t.fs == Fold(svc, svc.init, t.base + came))
      && (t.mode == Waiting ==> t.buffer == came)
  {
    InitialInv(svc);
    RunKeepsInv(svc, Initial(svc), es);
    var s := Exec(svc, Initial(svc), es);
    assert TargetOk(svc, s.actor, s.ids, s.targets[i]);
    HistoryIsArrivals(svc, es, i);
  }

  lemma {:induction false} MovedState(svc: Service, es: seq<Event>)
    requires Legal(svc, Initial(svc), es) && Exec(svc, Initial(svc), es).actor.phase == Moved
    ensures var s := Exec(svc, Initial(svc), es);
      && s.actor.target < |s.targets|
      && var t := s.targets[s.actor.target];
      t.base == s.actor.log && (t.mode == Running ==> t.fs == Fold(svc, svc.init, s.actor.log + t.accepted))
  {
    InitialInv(svc);
    RunKeepsInv(svc, Initial(svc), es);
    var s := Exec(svc, Initial(svc), es);
    assert TargetOk(svc, s.actor, s.ids, s.targets[s.actor.target]);
  }

  /** When the source has been told that its flow has moved, the chosen target has the state after
      every packet that came to the source, but for those during the hand-over, and then every packet
      that came to the target, but for those that found no room. */
  lemma {:induction false} MovedIsComplete(svc: Service, es: seq<Event>)
    requires Legal(svc, Initial(svc), es)
    ensures var s := Exec(svc, Initial(svc), es);
      s.actor.phase == Moved ==>
      && s.actor.target < |s.targets|
      && var t := s.targets[s.actor.target];
      && t.base == s.actor.log == SourceArrivals(svc, Initial(svc), es)
      && (t.mode == Running ==> t.fs == Fold(svc, svc.init, s.actor.log + Arrivals(svc, Initial(svc), es, s.actor.target)))
  {
    var s := Exec(svc, Initial(svc), es);
    if s.actor.phase == Moved {
      MovedState(svc, es);
      HistoryIsArrivals(svc, es, s.actor.target);
    }
  }

  // ------------------------------------------------------------ runs without timeouts

  predicate CalmEvent(e: Event) {
    !e.Timeout?
  }

  /** Unless the source has sent its state nobody has one; once sent, it stays what was sent. */
  ghost predicate Calm(s: State) {
    && (s.actor.phase == Normal || s.actor.phase == Source || s.actor.phase == Failure ==>
          && (forall m | m in s.toTarget :: m.Create?)
          && (forall t | t in s.targets :: t.via == INVALID_ID))
    && (s.actor.phase == Routed || s.actor.phase == Moved ==>
          && (forall m | m in s.toTarget && m.Migrate? :: m.log == s.actor.log)
          && (forall t | t in s.targets && t.via != INVALID_ID :: t.base == s.actor.log))
  }

  lemma CalmApply(s: State, o: Out)
    requires Calm(s) && SendsNoState(s.actor, o)
    requires s.actor.phase == Routed || s.actor.phase == Moved <==> o.actor.phase == Routed || o.actor.phase == Moved
    ensures Calm(Apply(s, o))
  {
  }

  lemma CalmSource(svc: Service, s: State, e: Event)
    requires Inv(svc, s) && Calm(s) && Enabled(s, e) && CalmEvent(e)
    requires e.StartMigration? || e.SourceHearsTarget? || e.SourceHearsSwitch?
    ensures Calm(Step(svc, s, e))
  {
    match e
    case StartMigration(replica, accepted) => CalmApply(s, Begin(s.actor, NextId(s), replica, accepted));
    case SourceHearsTarget(accepted) =>
      assert s.fromTarget[0] in s.fromTarget;
      CalmApply(s.(fromTarget := s.fromTarget[1..]), HearTarget(s, s.fromTarget[0], accepted));
    case SourceHearsSwitch(sent, accepted) =>
      var m, r := s.fromSwitch[0], s.(fromSwitch := s.fromSwitch[1..]);
      assert m in s.fromSwitch;
      var o := HearSwitch(s, m, sent, accepted);
      if !(s.actor.phase == Source && m.request == s.actor.timer.id && m.ok && sent) {
        CalmApply(r, o);
      }
  }

  lemma CalmTarget(svc: Service, s: State, room: bool, accepted: bool)
    requires Inv(svc, s) && Calm(s) && s.toTarget != []
    ensures Calm(Step(svc, s, TargetHears(room, accepted)))
  {
    assert s.toTarget[0] in s.toTarget;
    assert forall m | m in s.toTarget[1..] :: m in s.toTarget;
  }

  lemma CalmStep(svc: Service, s: State, e: Event)
    requires Inv(svc, s) && Calm(s) && Enabled(s, e) && CalmEvent(e)
    ensures Calm(Step(svc, s, e))
  {
    match e
    case TargetHears(room, accepted) => CalmTarget(svc, s, room, accepted);
    case PacketAtTarget(i, p, room) => assert s.targets[i] in s.targets;
    case TargetIdles(i) => assert s.targets[i] in s.targets;
    case StartMigration(_, _) => CalmSource(svc, s, e);
    case SourceHearsTarget(_) => CalmSource(svc, s, e);
    case SourceHearsSwitch(_, _) => CalmSource(svc, s, e);
    case SwitchHears(_) =>
    case SwitchForgets =>
    case SwitchLearns(_) =>
    case PacketAtSource(p) =>
    case OtherId(_) =>
  }

  lemma {:induction false} RunKeepsCalm(svc: Service, s: State, es: seq<Event>)
    requires Inv(svc, s) && Calm(s) && Legal(svc, s, es) && forall e | e in es :: CalmEvent(e)
    ensures Calm(Exec(svc, s, es))
    decreases |es|
  {
    if es != [] {
      CalmStep(svc, s, es[0]);
      StepKeepsInv(svc, s, es[0]);
      RunKeepsCalm(svc, Step(svc, s, es[0]), es[1..]);
    }
  }

  lemma {:induction false} CalmState(svc: Service, es: seq<Event>, i: nat)
    requires Legal(svc, Initial(svc), es) && forall e | e in es :: CalmEvent(e)
    requires i < |Exec(svc, Initial(svc), es).targets|
    ensures var s := Exec(svc, Initial(svc), es);
      s.targets[i].mode == Running ==>
      s.targets[i].base == s.actor.log && s.targets[i].fs == Fold(svc, svc.init, s.actor.log + s.targets[i].accepted)
  {
    InitialInv(svc);
    RunKeepsInv(svc, Initial(svc), es);
    RunKeepsCalm(svc, Initial(svc), es);
    var s := Exec(svc, Initial(svc), es);
    assert TargetOk(svc, s.actor, s.ids, s.targets[i]);
    assert s.targets[i] in s.targets;
  }

  /** In every run without timeouts, whatever sends are refused, the state a target has installed is
      the fold over every packet that came to the source, but for those during the hand-over, and
      then every packet that came to the target, but for those that found no room: at any later time
      too, the source changes it no further. */
  lemma {:induction false} CalmRunsHandOver(svc: Service, es: seq<Event>, i: nat)
    requires Legal(svc, Initial(svc), es) && forall e | e in es :: CalmEvent(e)
    requires i < |Exec(svc, Initial(svc), es).targets|
    ensures var s := Exec(svc, Initial(svc), es);
      s.targets[i].mode == Running ==>
      && s.targets[i].base == s.actor.log == SourceArrivals(svc, Initial(svc), es)
      && s.targets[i].fs == Fold(svc, svc.init, s.actor.log + Arrivals(svc, Initial(svc), es, i))
  {
    CalmState(svc, es, i);
    HistoryIsArrivals(svc, es, i);
  }

  // ------------------------------------------------------------ why the switch must keep the flow

  /** The source asks for the flow back, the switch serves that, then loses the flow and creates
      it anew with a route to the target. */
  const RELEARNED: seq<Event> := [
    StartMigration(false, true), TargetHears(true, true), SourceHearsTarget(true), Timeout(true, true),
    SwitchHears(true), SwitchHears(true), SwitchForgets, SwitchLearns(AtTarget), SourceHearsSwitch(true, true)]

  function Prefix(svc: Service, n: nat): State
    requires n <= 4
  {
    var a := Actor(Normal, UNARMED, 0, svc.init, [], [], 0, AtSource);
    var w := Switch(true, AtSource, 0, 0, AtSource, 0);
    var t := Target(Waiting, svc.init, [], 2, INVALID_ID, [], []);
    match n
    case 0 => State(a, [], w, [], [], [], [], [])
    case 1 => State(a.(phase := Source, timer := Timer(2, Start)), [], w, [Create(2)], [], [], [], [Start])
    case 2 => State(a.(phase := Source, timer := Timer(2, Start)), [t], w, [], [Started(2, 0)], [], [], [Start])
    case 3 => State(a.(phase := Source, timer := Timer(3, Route), routeId := 3, routeTo := AtTarget), [t], w, [], [],
                    [SetRoute(3, AtTarget)], [], [Start, Route])
    case 4 => State(a.(phase := Failure, timer := Timer(4, Route), routeId := 4), [t], w, [], [],
                    [SetRoute(3, AtTarget), SetRoute(4, AtSource)], [], [Start, Route, Route])
  }

  lemma PrefixSteps(svc: Service, n: nat)
    requires n < 4
    ensures Enabled(Prefix(svc, n), RELEARNED[n]) && Step(svc, Prefix(svc, n), RELEARNED[n]) == Prefix(svc, n + 1)
  {
  }

  function Suffix(svc: Service, n: nat): State
    requires 4 <= n <= 9
  {
    var s := Prefix(svc, 4);
    var first, second := RouteSet(3, true, 0), RouteSet(4, true, 0);
    match n
    case 4 => s
    case 5 => s.(switch := Switch(true, AtTarget, 0, 3, AtTarget, 0), toSwitch := [SetRoute(4, AtSource)], fromSwitch := [first])
    case 6 => s.(switch := Switch(true, AtSource, 0, 4, AtSource, 0), toSwitch := [], fromSwitch := [first, second])
    case 7 => s.(switch := Switch(false, AtSource, 0, 4, AtSource, 0), toSwitch := [], fromSwitch := [first, second])
    case 8 => s.(switch := Switch(true, AtTarget, 1, 4, AtSource, 0), toSwitch := [], fromSwitch := [first, second])
    case 9 => s.(switch := Switch(true, AtTarget, 1, 4, AtSource, 0), toSwitch := [], fromSwitch := [second])
  }

  lemma SuffixSteps(svc: Service, n: nat)
    requires 4 <= n < 9
    ensures Enabled(Suffix(svc, n), RELEARNED[n]) && Step(svc, Suffix(svc, n), RELEARNED[n]) == Suffix(svc, n + 1)
  {
  }

  lemma {:induction false} FollowSuffix(svc: Service, n: nat)
    requires 4 <= n <= 9
    ensures Legal(svc, Suffix(svc, n), RELEARNED[n..]) && Exec(svc, Suffix(svc, n), RELEARNED[n..]) == Suffix(svc, 9)
    decreases 9 - n
  {
    if n < 9 {
      SuffixSteps(svc, n);
      FollowSuffix(svc, n + 1);
      assert RELEARNED[n..][0] == RELEARNED[n] && RELEARNED[n..][1..] == RELEARNED[n + 1..];
    }
  }

  lemma {:induction false} FollowPrefix(svc: Service, n: nat)
    requires n <= 4
    ensures Legal(svc, Prefix(svc, n), RELEARNED[n..]) && Exec(svc, Prefix(svc, n), RELEARNED[n..]) == Suffix(svc, 9)
    decreases 4 - n
  {
    if n < 4 {
      PrefixSteps(svc, n);
      FollowPrefix(svc, n + 1);
      assert RELEARNED[n..][0] == RELEARNED[n] && RELEARNED[n..][1..] == RELEARNED[n + 1..];
    } else {
      FollowSuffix(svc, 4);
    }
  }

  /** Without the condition on the switch the route need not be back: the flow it serves may be a
      new one. */
  lemma {:induction false} RelearnedFlowIsElsewhere(svc: Service)
    ensures Legal(svc, Initial(svc), RELEARNED)
    ensures var s := Exec(svc, Initial(svc), RELEARNED);
      && s.actor.phase == Failure && s.fromSwitch != []
      && s.fromSwitch[0].request == s.actor.timer.id && s.fromSwitch[0].ok
      && s.switch.has && s.switch.route == AtTarget && s.switch.epoch != s.fromSwitch[0].epoch
  {
    FollowPrefix(svc, 0);
    assert RELEARNED[0..] == RELEARNED;
  }
}
