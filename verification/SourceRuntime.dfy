/** A runtime that migrates flows away: the quota loop of runtime/module/coordinator_mp.cc, the
    statistics kept by the handlers of runtime/actor/flow_actor.cc and the migrate_to command of
    runtime/module/handle_command.cc. */
module SourceRuntime {
  import opened ServiceChain
  import opened FlowActor

  const MAX_OUTGOING := 256
  const BURST := 32

  /** Actors in a migrating state. */
  function Busy(actors: map<nat, Actor>): set<nat> {
    set i | i in actors && Migrating(actors[i].phase)
  }

  /** An actor is migrating exactly while its timer is armed. */
  predicate Timed(a: Actor) {
    Migrating(a.phase) <==> a.timer.Armed()
  }

  predicate AllTimed(actors: map<nat, Actor>) {
    forall i | i in actors :: Timed(actors[i]) && actors[i].phase != Moved
  }

  predicate Distinct(active: seq<nat>) {
    forall j, k | 0 <= j < k < |active| :: active[j] != active[k]
  }

  /** The active list holds every actor that is not migrating, once. */
  predicate Listed(actors: map<nat, Actor>, active: seq<nat>) {
    && Distinct(active)
    && (forall i | i in active :: i in actors && actors[i].phase == Normal)
    && (forall i | i in actors && actors[i].phase == Normal :: i in active)
  }

  /** What a handler does to a migrating actor fits what it tells the statistics. */
  predicate Fits(a: Actor, o: Out) {
    match o.tally
    case Nothing => o == Quiet(a) || (Migrating(o.actor.phase) && o.actor.timer.Armed())
    case Failed => o.actor.phase == Normal && !o.actor.timer.Armed()
    case Succeeded => o.actor.phase == Moved && !o.actor.timer.Armed()
  }

  /** Every answer, whatever it says, and every timeout fits. */
  lemma HandlersFit(a: Actor, request: nat, target: nat, ok: bool, connected: bool, id: nat, sent: bool, accepted: bool)
    requires Timed(a) && id >= FIRST_ID
    ensures Migrating(a.phase) ==> Fits(a, OnStarted(a, request, target, id, accepted))
    ensures Migrating(a.phase) ==> Fits(a, OnRouteSet(a, request, ok, id, sent, accepted))
    ensures Migrating(a.phase) ==> Fits(a, OnMigrated(a, request))
    ensures Fits(a, StartTimeout(a)) && Fits(a, RouteTimeout(a, connected, id, accepted)) && Fits(a, StateTimeout(a, id, accepted))
  {
  }

  lemma BusySame(actors: map<nat, Actor>, i: nat, a: Actor)
    requires i in actors && Migrating(actors[i].phase) && Migrating(a.phase)
    ensures Busy(actors[i := a]) == Busy(actors)
  {
  }

  lemma BusyLess(actors: map<nat, Actor>, actors': map<nat, Actor>, i: nat)
    requires i in Busy(actors) && i !in Busy(actors')
    requires forall j | j != i :: (j in actors <==> j in actors') && (j in actors ==> actors[j] == actors'[j])
    ensures |Busy(actors')| == |Busy(actors)| - 1
  {
    assert Busy(actors) == Busy(actors') + {i};
  }

  lemma BusyMore(actors: map<nat, Actor>, i: nat, a: Actor)
    requires i !in Busy(actors) && Migrating(a.phase)
    ensures |Busy(actors[i := a])| == |Busy(actors)| + 1
  {
    assert Busy(actors[i := a]) == Busy(actors) + {i};
  }

  predicate Started(actors: map<nat, Actor>, actors': map<nat, Actor>, i: nat, id: nat, accepted: bool) {
    i in actors && actors' == actors[i := Begin(actors[i], id, false, accepted).actor]
  }

  class SourceRuntime {
    var actors: map<nat, Actor>
    var replicated: set<nat>
    var active: seq<nat>
    var nextId: nat
    var quota: nat
    var outgoing: nat
    var total: nat
    var successful: nat
    var failed: nat
    var empty: nat

    ghost predicate Valid()
      reads this
    {
      && nextId >= FIRST_ID
      && AllTimed(actors)
      && Listed(actors, active)
      && outgoing == |Busy(actors)|
      && outgoing <= MAX_OUTGOING + 1
      && Conserved()
    }

    /** Every flow that was asked for is still to do, on its way, or accounted for. */
    ghost predicate Conserved()
      reads this
    {
      quota + outgoing + successful + failed + empty == total
    }

    constructor ()
      ensures Valid() && actors == map[] && active == [] && quota == 0 && total == 0
    {
      actors, replicated, active, nextId := map[], {}, [], FIRST_ID;
      quota, outgoing, total, successful, failed, empty := 0, 0, 0, 0, 0, 0;
    }

    // ---------------------------------------------------------- the iteration

    /** migrate_to: a new iteration, if the quota of the last is used up. The count of outgoing
        migrations starts again at zero, which is right exactly when nothing is in flight. */
    method MigrateTo(n: nat) returns (started: bool)
      requires Valid()
      modifies this`quota, this`outgoing, this`total, this`successful, this`failed, this`empty
      ensures started == (old(quota) == 0)
      ensures !started ==> unchanged(this)
      ensures started ==> quota == total == n && outgoing == successful == failed == empty == 0
      ensures Valid() <==> !started || old(outgoing) == 0
    {
      started := quota == 0;
      if started {
        quota, total := n, n;
        outgoing, successful, failed, empty := 0, 0, 0, 0;
      }
    }

    /** The test by which the iteration is reported complete: nothing to do, nothing in flight. */
    method Completed() returns (done: bool)
      requires Valid()
      ensures done <==> quota == 0 && forall i | i in actors :: !Migrating(actors[i].phase)
    {
      done := successful + failed + empty == total;
      if exists i :: i in actors && Migrating(actors[i].phase) {
        ghost var i :| i in actors && Migrating(actors[i].phase);
        assert i in Busy(actors);
      } else {
        assert Busy(actors) == {};
      }
    }

    /** Takes the head of the active list and has it start migrating. */
    method StartOne(accepted: bool)
      requires Valid() && quota > 0 && outgoing <= MAX_OUTGOING && active != []
      modifies this
      ensures Valid() && quota == old(quota) - 1 && outgoing >= old(outgoing) && outgoing <= old(outgoing) + 1
      ensures unchanged(`total) && unchanged(`replicated) && unchanged(`empty) && unchanged(`successful)
      ensures old(active[0] in replicated) ==>
        unchanged(`actors) && active == old(active)[1..] + [old(active[0])] && failed == old(failed) + 1
      ensures !old(active[0] in replicated) ==>
        unchanged(`failed) && active == old(active)[1..] && Started(old(actors), actors, old(active[0]), old(nextId), accepted)
    {
      var i := active[0];
      assert i in active;
      if i in replicated {
        StartRefused();
      } else {
        StartAccepted(accepted);
      }
    }

    method StartRefused()
      requires Valid() && quota > 0 && active != []
      modifies this`active, this`quota, this`failed
      ensures Valid() && quota == old(quota) - 1
      ensures active == old(active)[1..] + [old(active[0])] && failed == old(failed) + 1
    {
      var i := active[0];
      assert i in active && active == [i] + active[1..];
      active, quota := active[1..], quota - 1;
      ReturnHead(i);
    }

    method StartAccepted(accepted: bool)
      requires Valid() && quota > 0 && outgoing <= MAX_OUTGOING && active != [] && active[0] !in replicated
      modifies this`actors, this`active, this`quota, this`outgoing, this`nextId
      ensures Valid() && quota == old(quota) - 1 && outgoing == old(outgoing) + 1
      ensures active == old(active)[1..] && Started(old(actors), actors, old(active[0]), old(nextId), accepted)
    {
      var i := active[0];
      assert i in active && active == [i] + active[1..];
      var o := Begin(actors[i], nextId, false, accepted);
      active, quota := active[1..], quota - 1;
      LeaveHead(i, o.actor);
      nextId := nextId + 1;
    }

    /** The actor has a replica: back to the tail, counted as failed. */
    method ReturnHead(i: nat)
      requires Listed(actors, [i] + active) && i in actors
      modifies this`active, this`failed
      ensures failed == old(failed) + 1 && active == old(active) + [i] && Listed(actors, active)
    {
      assert forall k | 0 <= k < |active| :: ([i] + active)[k + 1] == active[k] && ([i] + active)[0] == i;
      assert i in [i] + active;
      active := active + [i];
      failed := failed + 1;
    }

    method LeaveHead(i: nat, a: Actor)
      requires AllTimed(actors) && Listed(actors, [i] + active) && i in actors && !Migrating(actors[i].phase)
      requires a.phase == Source && a.timer.Armed() && outgoing == |Busy(actors)|
      modifies this`actors, this`outgoing
      ensures actors == old(actors)[i := a] && AllTimed(actors) && Listed(actors, active)
      ensures outgoing == old(outgoing) + 1 == |Busy(actors)|
    {
      assert forall k | 0 <= k < |active| :: ([i] + active)[k + 1] == active[k] && ([i] + active)[0] == i;
      BusyMore(actors, i, a);
      actors, outgoing := actors[i := a], outgoing + 1;
    }

    /** One run of the module: up to 32 starts, fewer only when the quota is used up or too many
        are in flight. An empty active list uses up quota too. */
    method RunTask(accepted: seq<bool>)
      requires Valid() && |accepted| == BURST
      modifies this
      ensures Valid() && unchanged(`total) && unchanged(`replicated)
      ensures old(quota) - BURST <= quota <= old(quota)
      ensures quota == old(quota) - BURST || quota == 0 || outgoing > MAX_OUTGOING
    {
      var k := 0;
      while k < BURST
        invariant 0 <= k <= BURST && Valid() && quota == old(quota) - k
        invariant total == old(total) && replicated == old(replicated)
      {
        if quota == 0 || outgoing > MAX_OUTGOING {
          break;
        }
        if active == [] {
          quota, empty := quota - 1, empty + 1;
        } else {
          StartOne(accepted[k]);
        }
        k := k + 1;
      }
    }

    // ---------------------------------------------------------- handlers

    /** The effect of a handler of migrating actor `i` on the runtime. */
    method Settle(i: nat, o: Out)
      requires Valid() && i in actors && Migrating(actors[i].phase) && Fits(actors[i], o)
      modifies this
      ensures Valid() && unchanged(`quota) && unchanged(`total) && unchanged(`empty)
      ensures o.tally == Nothing ==> actors == old(actors)[i := o.actor] && unchanged(`active) && unchanged(`outgoing)
      ensures o.tally == Failed ==> actors == old(actors)[i := o.actor] && active == old(active) + [i] && failed == old(failed) + 1
      ensures o.tally == Succeeded ==> actors == old(actors) - {i} && unchanged(`active) && successful == old(successful) + 1
      ensures o.tally != Failed ==> unchanged(`failed)
      ensures o.tally != Succeeded ==> unchanged(`successful)
      ensures nextId == old(nextId) + |o.ids|
    {
      nextId := nextId + |o.ids|;
      match o.tally
      case Nothing =>
        BusySame(actors, i, o.actor);
        actors := actors[i := o.actor];
      case Failed => Return(i, o.actor);
      case Succeeded => Remove(i);
    }

    method Return(i: nat, a: Actor)
      requires Valid() && i in actors && Migrating(actors[i].phase) && a.phase == Normal && !a.timer.Armed()
      modifies this`actors, this`active, this`outgoing, this`failed
      ensures Valid() && actors == old(actors)[i := a] && active == old(active) + [i] && failed == old(failed) + 1
    {
      assert i !in active;
      BusyLess(actors, actors[i := a], i);
      actors, active := actors[i := a], active + [i];
      outgoing, failed := outgoing - 1, failed + 1;
    }

    method Remove(i: nat)
      requires Valid() && i in actors && Migrating(actors[i].phase)
      modifies this`actors, this`outgoing, this`successful
      ensures Valid() && actors == old(actors) - {i} && successful == old(successful) + 1
    {
      BusyLess(actors, actors - {i}, i);
      assert i in Busy(actors);
      actors := actors - {i};
      outgoing, successful := outgoing - 1, successful + 1;
    }

    /** A timer of actor `i` has run out. */
    method OnTimeout(i: nat, connected: bool, accepted: bool)
      requires Valid() && i in actors && actors[i].timer.Armed() && actors[i].timer.kind != Other
      modifies this
      ensures Valid() && unchanged(`quota) && unchanged(`total) && i in actors
      ensures (actors[i].phase == Normal <==> failed == old(failed) + 1) && (actors[i].phase != Normal ==> actors[i].phase == Failure)
    {
      var a := actors[i];
      HandlersFit(a, 0, 0, false, connected, nextId, false, accepted);
      match a.timer.kind
      case Start => Settle(i, StartTimeout(a));
      case Route => Settle(i, RouteTimeout(a, connected, nextId, accepted));
      case Install => Settle(i, StateTimeout(a, nextId, accepted));
    }

    /** Answers, for any actor, of any content. */
    method OnStarted(i: nat, request: nat, target: nat, accepted: bool)
      requires Valid() && request != INVALID_ID
      modifies this
      ensures Valid() && unchanged(`quota) && unchanged(`total)
      ensures i !in old(actors) || request != old(actors[i].timer.id) ==> unchanged(this)
    {
      if i in actors && request == actors[i].timer.id {
        HandlersFit(actors[i], request, target, false, false, nextId, false, accepted);
        Settle(i, FlowActor.OnStarted(actors[i], request, target, nextId, accepted));
      }
    }

    method OnRouteSet(i: nat, request: nat, ok: bool, sent: bool, accepted: bool)
      requires Valid() && request != INVALID_ID
      modifies this
      ensures Valid() && unchanged(`quota) && unchanged(`total)
      ensures i !in old(actors) || request != old(actors[i].timer.id) ==> unchanged(this)
    {
      if i in actors && request == actors[i].timer.id {
        HandlersFit(actors[i], request, 0, ok, false, nextId, sent, accepted);
        Settle(i, FlowActor.OnRouteSet(actors[i], request, ok, nextId, sent, accepted));
      }
    }

    method OnMigrated(i: nat, request: nat)
      requires Valid() && request != INVALID_ID
      modifies this
      ensures Valid() && unchanged(`quota) && unchanged(`total)
      ensures if i in old(actors) && request == old(actors[i].timer.id)
              then i !in actors && successful == old(successful) + 1 else unchanged(this)
    {
      if i in actors && request == actors[i].timer.id {
        HandlersFit(actors[i], request, 0, false, false, nextId, false, false);
        Settle(i, FlowActor.OnMigrated(actors[i], request));
      }
    }

    // ---------------------------------------------------------- flows come and go

    /** A packet of an unknown flow creates an actor. */
    method NewFlow(i: nat, a: Actor, replica: bool)
      requires Valid() && i !in actors && a.phase == Normal && !a.timer.Armed()
      modifies this`actors, this`active, this`replicated
      ensures Valid() && actors == old(actors)[i := a] && active == old(active) + [i]
      ensures replicated == if replica then old(replicated) + {i} else old(replicated) - {i}
    {
      assert Busy(actors[i := a]) == Busy(actors);
      actors, active := actors[i := a], active + [i];
      replicated := if replica then replicated + {i} else replicated - {i};
    }

    /** check_idle: only an actor that is not migrating is removed. */
    method CheckIdle(i: nat, idle: bool) returns (removed: bool)
      requires Valid() && i in actors
      modifies this`actors, this`active
      ensures Valid() && removed == (idle && !Migrating(old(actors[i].phase)))
      ensures actors == if removed then old(actors) - {i} else old(actors)
    {
      removed := idle && MayIdleOut(actors[i]);
      if removed {
        assert i in active;
        var k := 0;
        while active[k] != i
          invariant 0 <= k < |active| && i !in active[..k]
          decreases |active| - k
        {
          assert i in active[k + 1..] by { assert active == active[..k] + [active[k]] + active[k + 1..]; }
          k := k + 1;
        }
        Unlist(k);
      }
    }

    method Unlist(k: nat)
      requires Valid() && k < |active|
      modifies this`actors, this`active
      ensures Valid() && actors == old(actors) - {old(active[k])} && active == old(active)[..k] + old(active)[k + 1..]
    {
      var i := active[k];
      assert i in active;
      var rest := active[..k] + active[k + 1..];
      assert forall j | 0 <= j < |rest| :: rest[j] == if j < k then active[j] else active[j + 1];
      assert Busy(actors - {i}) == Busy(actors);
      forall j | j in active && j != i ensures j in rest {
        var n :| 0 <= n < |active| && active[n] == j;
        assert rest[if n < k then n else n - 1] == j;
      }
      actors, active := actors - {i}, rest;
    }
  }

  /** The condition of `MigrateTo` is needed: one flow is on its way when the next iteration starts,
      and the runtime counts none. */
  method MigrateToInFlight(i: nat, a: Actor, accepted: bool) returns (r: SourceRuntime)
    requires a.phase == Normal && !a.timer.Armed()
    ensures fresh(r) && i in Busy(r.actors) && r.outgoing == 0 && !r.Valid()
  {
    r := new SourceRuntime();
    r.NewFlow(i, a, false);
    var first := r.MigrateTo(1);
    assert r.active == [i];
    r.StartOne(accepted);
    assert i in Busy(r.actors);
    var second := r.MigrateTo(1);
  }
}
