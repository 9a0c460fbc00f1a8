/** The flow actor as an object: its handlers update its fields in place, keep its invariant and do
    what the functions of FlowActor and Migration say. */
module FlowActorObject {
  import opened ServiceChain
  import opened FlowActor
  import opened Migration
  import opened MigrationSafety

  /** The state of an actor is the fold over the packets it has processed, and once it has been sent
      it is what was sent. */
  ghost predicate FlowOk(svc: Service, a: Actor) {
    a.fs == Fold(svc, svc.init, a.log) && (a.phase == Routed ==> a.snap == a.log)
  }

  /** What every handler keeps, given the ids handed out so far: the timer is armed exactly while
      migrating and waits for what the phase waits for, route requests are recorded, the flow's
      state is the fold, a state that is sent is the whole of it, and a migration that ends is
      counted. */
  ghost predicate Orderly(svc: Service, ids: seq<Kind>, a: Actor, o: Out) {
    && HandlerOk(ids, a, o)
    && FlowOk(svc, o.actor) && o.actor.log == a.log
    && (forall m | m in o.toTarget && m.Migrate? ::
          m.actor == a.target && m.log == a.log && m.fs == Fold(svc, svc.init, a.log))
    && (Migrating(a.phase) ==> (o.tally == Nothing <==> Migrating(o.actor.phase)))
    && (o.tally == Succeeded <==> a.phase != Moved && o.actor.phase == Moved)
  }

  /** One actor, for the lemmas about whole systems. */
  ghost function Alone(a: Actor, ids: seq<Kind>): State {
    State(a, [], Switch(true, AtSource, 0, 0, AtSource, 0), [], [], [], [], ids)
  }

  lemma BeginKeeps(svc: Service, ids: seq<Kind>, a: Actor, replica: bool, accepted: bool)
    requires TimerOk(a, ids) && FlowOk(svc, a) && a.phase == Normal
    ensures Orderly(svc, ids, a, Begin(a, FIRST_ID + |ids|, replica, accepted))
  {
    BeginOk(Alone(a, ids), replica, accepted);
  }

  lemma StartedKeeps(svc: Service, ids: seq<Kind>, a: Actor, request: nat, target: nat, accepted: bool)
    requires TimerOk(a, ids) && FlowOk(svc, a) && a.phase != Moved && IsA(ids, request, Start)
    ensures Orderly(svc, ids, a, OnStarted(a, request, target, FIRST_ID + |ids|, accepted))
  {
    HearTargetOk(Alone(a, ids), Started(request, target), accepted);
  }

  lemma RouteSetKeeps(svc: Service, ids: seq<Kind>, a: Actor, request: nat, ok: bool, sent: bool, accepted: bool)
    requires TimerOk(a, ids) && FlowOk(svc, a) && a.phase != Moved && IsA(ids, request, Route)
    ensures Orderly(svc, ids, a, OnRouteSet(a, request, ok, FIRST_ID + |ids|, sent, accepted))
  {
    HearSwitchOk(Alone(a, ids), RouteSet(request, ok, 0), sent, accepted);
  }

  lemma MigratedKeeps(svc: Service, ids: seq<Kind>, a: Actor, request: nat)
    requires TimerOk(a, ids) && FlowOk(svc, a) && a.phase != Moved && IsA(ids, request, Install)
    ensures Orderly(svc, ids, a, OnMigrated(a, request))
  {
    HearTargetOk(Alone(a, ids), Migrated(request, 0), true);
  }

  lemma TimeoutKeeps(svc: Service, ids: seq<Kind>, a: Actor, connected: bool, accepted: bool)
    requires TimerOk(a, ids) && FlowOk(svc, a) && a.timer.Armed()
    ensures Orderly(svc, ids, a, OnTimeout(Alone(a, ids), connected, accepted))
  {
    TimeoutOk(Alone(a, ids), connected, accepted);
  }

  /** An actor at the source. */
  class SourceActor {
    var phase: Phase
    var timer: Timer
    var target: nat
    const fs: array<int>
    var log: seq<int>
    ghost var snap: seq<int>
    ghost var routeId: nat
    ghost var routeTo: Place

    ghost function View(): Actor
      reads this, fs
    {
      Actor(phase, timer, target, fs[..], log, snap, routeId, routeTo)
    }

    /** `ids` are the message ids handed out so far, by kind. */
    ghost predicate Valid(svc: Service, ids: seq<Kind>)
      reads this, fs
    {
      TimerOk(View(), ids) && FlowOk(svc, View())
    }

    constructor (svc: Service)
      ensures fresh(fs) && Valid(svc, []) && phase == Normal && log == []
    {
      phase, timer, target := Normal, UNARMED, 0;
      fs := new int[|svc.init|](i requires 0 <= i < |svc.init| => svc.init[i]);
      log, snap, routeId, routeTo := [], [], 0, AtSource;
      new;
      assert fs[..] == svc.init;
    }

    /** start_migration: refused with a replica, else the timer waits for the answer to a request
        of its own. */
    method StartMigration(id: nat, replica: bool, accepted: bool, ghost svc: Service, ghost given: seq<Kind>)
      returns (toTarget: seq<ToTarget>, ids: seq<Kind>, tally: Tally)
      requires Valid(svc, given) && phase == Normal && id == FIRST_ID + |given|
      modifies this
      ensures Valid(svc, given + ids) && Orderly(svc, given, old(View()), Out(View(), toTarget, [], ids, tally))
      ensures if replica then tally == Failed && phase == Normal else timer == Timer(id, Start) && tally == Nothing
    {
      BeginKeeps(svc, given, View(), replica, accepted);
      toTarget, ids, tally := [], [], Nothing;
      if replica {
        phase, tally := Normal, Failed;
        return;
      }
      phase := Source;
      if accepted {
        toTarget := [Create(id)];
      }
      timer, ids := Timer(id, Start), [Start];
    }

    /** start_migration_timeout: the actor is as before, and the attempt is counted as failed. */
    method StartMigrationTimeout(ghost svc: Service, ghost given: seq<Kind>) returns (tally: Tally)
      requires Valid(svc, given) && timer.Armed() && timer.kind == Start
      modifies this
      ensures Valid(svc, given) && Orderly(svc, given, old(View()), Out(View(), [], [], [], tally))
      ensures phase == Normal && tally == Failed
    {
      TimeoutKeeps(svc, given, View(), false, false);
      assert given + [] == given;
      timer := UNARMED;
      phase, tally := Normal, Failed;
    }

    /** start_migration_response: an answer that does not match the timer changes nothing; one that
        does makes the timer wait for the switch. */
    method StartMigrationResponse(request: nat, actor: nat, id: nat, accepted: bool, ghost svc: Service, ghost given: seq<Kind>)
      returns (toSwitch: seq<ToSwitch>, ids: seq<Kind>)
      requires Valid(svc, given) && phase != Moved && IsA(given, request, Start) && id == FIRST_ID + |given|
      modifies this
      ensures Valid(svc, given + ids) && Orderly(svc, given, old(View()), Out(View(), [], toSwitch, ids, Nothing))
      ensures if request != old(timer.id) then View() == old(View()) && toSwitch == []
              else phase == Source && target == actor && timer == Timer(id, Route) && routeTo == AtTarget
    {
      StartedKeeps(svc, given, View(), request, actor, accepted);
      toSwitch, ids := [], [];
      if request != timer.id {
        assert given + [] == given;
        return;
      }
      timer := UNARMED;
      target := actor;
      if accepted {
        toSwitch := [SetRoute(id, AtTarget)];
      }
      timer, ids := Timer(id, Route), [Route];
      routeId, routeTo := id, AtTarget;
    }

    /** failure_handling: whatever led here, the last route request is for the source and the timer
        waits for its answer. */
    method FailureHandling(id: nat, accepted: bool, ghost given: seq<Kind>) returns (toSwitch: seq<ToSwitch>, ids: seq<Kind>)
      requires id == FIRST_ID + |given|
      modifies this
      ensures TimerOk(View(), given + ids)
      ensures View() == old(View()).(phase := Failure, timer := Timer(id, Route), routeId := id, routeTo := AtSource)
      ensures ids == [Route] && toSwitch == if accepted then [SetRoute(id, AtSource)] else []
    {
      phase := Failure;
      toSwitch := if accepted then [SetRoute(id, AtSource)] else [];
      timer, ids := Timer(id, Route), [Route];
      routeId, routeTo := id, AtSource;
    }

    /** change_vswitch_route_timeout: gives up when the switch cannot be reached, else asks for the
        route back. */
    method ChangeRouteTimeout(connected: bool, id: nat, accepted: bool, ghost svc: Service, ghost given: seq<Kind>)
      returns (toSwitch: seq<ToSwitch>, ids: seq<Kind>, tally: Tally)
      requires Valid(svc, given) && timer.Armed() && timer.kind == Route && id == FIRST_ID + |given|
      modifies this
      ensures Valid(svc, given + ids) && Orderly(svc, given, old(View()), Out(View(), [], toSwitch, ids, tally))
      ensures if connected then phase == Failure && routeId == id else phase == Normal && tally == Failed && toSwitch == []
    {
      TimeoutKeeps(svc, given, View(), connected, accepted);
      timer := UNARMED;
      if !connected {
        assert given + [] == given;
        toSwitch, ids, phase, tally := [], [], Normal, Failed;
      } else {
        toSwitch, ids := FailureHandling(id, accepted, given);
        tally := Nothing;
      }
    }

    /** change_vswitch_route_response: failure processing ends with any matching answer, and so does
        a migration whose route was refused; otherwise the state goes out, all of it, and if it
        cannot, the route is asked back. */
    method ChangeRouteResponse(request: nat, ok: bool, id: nat, sent: bool, accepted: bool, ghost svc: Service, ghost given: seq<Kind>)
      returns (toTarget: seq<ToTarget>, toSwitch: seq<ToSwitch>, ids: seq<Kind>, tally: Tally)
      requires Valid(svc, given) && phase != Moved && IsA(given, request, Route) && id == FIRST_ID + |given|
      modifies this
      ensures Valid(svc, given + ids) && Orderly(svc, given, old(View()), Out(View(), toTarget, toSwitch, ids, tally))
      ensures request != old(timer.id) ==> View() == old(View()) && toTarget == [] && toSwitch == []
      ensures request == old(timer.id) && (old(phase) == Failure || !ok) ==> phase == Normal && tally == Failed
      ensures request == old(timer.id) && old(phase) != Failure && ok ==>
        if sent then phase == Routed && |toTarget| == 1 && toTarget[0].Migrate? else phase == Failure && toTarget == []
    {
      RouteSetKeeps(svc, given, View(), request, ok, sent, accepted);
      toTarget, toSwitch, ids, tally := [], [], [], Nothing;
      if request != timer.id {
        assert given + [] == given;
        return;
      }
      timer := UNARMED;
      if phase == Failure || !ok {
        assert given + [] == given;
        phase, tally := Normal, Failed;
        return;
      }
      phase, snap := Routed, log;
      if sent {
        toTarget := [Migrate(id, target, fs[..], log)];
        timer, ids := Timer(id, Install), [Install];
      } else {
        toSwitch, ids := FailureHandling(id + 1, accepted, given + [Install]);
        ids := [Install] + ids;
      }
    }

    /** migrate_flow_state_timeout: asks for the route back. */
    method MigrateStateTimeout(id: nat, accepted: bool, ghost svc: Service, ghost given: seq<Kind>)
      returns (toSwitch: seq<ToSwitch>, ids: seq<Kind>)
      requires Valid(svc, given) && timer.Armed() && timer.kind == Install && id == FIRST_ID + |given|
      modifies this
      ensures Valid(svc, given + ids) && Orderly(svc, given, old(View()), Out(View(), [], toSwitch, ids, Nothing))
      ensures phase == Failure && routeId == id
    {
      TimeoutKeeps(svc, given, View(), true, accepted);
      timer := UNARMED;
      toSwitch, ids := FailureHandling(id, accepted, given);
    }

    /** migrate_flow_state_response: only a matching answer ends the migration, and it does so with
        nothing processed since the state was sent. */
    method MigrateStateResponse(request: nat, ghost svc: Service, ghost given: seq<Kind>) returns (tally: Tally)
      requires Valid(svc, given) && phase != Moved && IsA(given, request, Install)
      modifies this
      ensures Valid(svc, given) && Orderly(svc, given, old(View()), Out(View(), [], [], [], tally))
      ensures if request != old(timer.id) then View() == old(View()) && tally == Nothing
              else phase == Moved && tally == Succeeded && snap == log
    {
      MigratedKeeps(svc, given, View(), request);
      assert given + [] == given;
      tally := Nothing;
      if request != timer.id {
        return;
      }
      timer := UNARMED;
      phase, tally := Moved, Succeeded;
    }

    /** The packet, as the chain leaves it, goes out unless the flow has left. */
    method OnPacket(svc: Service, p: int, ghost given: seq<Kind>) returns (output: seq<int>)
      requires Valid(svc, given) && phase != Moved
      modifies this, fs
      ensures Valid(svc, given) && View() == FlowActor.OnPacket(svc, old(View()), p)
      ensures output == if old(phase) == Routed then [] else [Run(svc, old(fs[..]), p).pkt]
    {
      output := [];
      FoldOneMore(svc, svc.init, log, p);
      if phase != Routed {
        var pkt, keep := Process(svc, fs, p);
        output := [pkt];
        log := log + [p];
      }
    }
  }

  /** An actor at the target. */
  class TargetActor {
    var mode: Mode
    const fs: array<int>
    var buffer: seq<int>
    const request: nat
    var via: nat
    ghost var base: seq<int>
    ghost var accepted: seq<int>

    ghost function View(): Target
      reads this, fs
    {
      Target(mode, fs[..], buffer, request, via, base, accepted)
    }

    constructor (svc: Service, id: nat)
      ensures fresh(fs) && View() == Target(Waiting, svc.init, [], id, INVALID_ID, [], [])
    {
      mode, buffer, request, via := Waiting, [], id, INVALID_ID;
      fs := new int[|svc.init|](i requires 0 <= i < |svc.init| => svc.init[i]);
      base, accepted := [], [];
      new;
      assert fs[..] == svc.init;
    }

    /** Kept for later while there is room, then processed and sent out as the chain leaves it. */
    method OnPacket(svc: Service, p: int, room: bool) returns (output: seq<int>)
      modifies this, fs
      ensures View() == AtTargetPacket(svc, old(View()), p, room)
      ensures mode == old(mode) && (mode != Running ==> fs[..] == old(fs[..]) && output == [])
      ensures mode == Waiting ==> buffer == if room then old(buffer) + [p] else old(buffer)
      ensures mode == Running ==> fs[..] == Fold(svc, old(fs[..]), [p]) && output == [Run(svc, old(fs[..]), p).pkt]
    {
      output := [];
      FoldOneMore(svc, fs[..], [], p);
      assert [] + [p] == [p];
      match mode
      case Waiting =>
        if room {
          buffer, accepted := buffer + [p], accepted + [p];
        }
      case Running =>
        var pkt, keep := Process(svc, fs, p);
        output := [pkt];
        accepted := accepted + [p];
      case Removed =>
    }

    /** migrate_flow_state: copy the state in, then process what was buffered and send on what the
        chain keeps. */
    method OnMigrate(svc: Service, m: ToTarget) returns (sent: seq<int>)
      requires m.Migrate? && |m.fs| == fs.Length && mode != Removed
      modifies this, fs
      ensures View() == old(View()).(mode := Running, fs := Fold(svc, m.fs, old(buffer)), buffer := [], via := m.id, base := m.log)
      ensures sent == Kept(svc, m.fs, old(buffer))
    {
      for i := 0 to fs.Length
        modifies fs
        invariant fs[..i] == m.fs[..i]
      {
        fs[i] := m.fs[i];
      }
      assert fs[..] == m.fs;
      mode, via, base := Running, m.id, m.log;
      sent := Drain(svc, fs, buffer);
      buffer := [];
    }
  }
}
