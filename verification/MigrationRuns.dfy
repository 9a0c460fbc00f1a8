/** A migration can succeed: from every state in which nothing is on its way, the seven messages of
    a hand-over, none refused, move the flow. */
module MigrationRuns {
  import opened ServiceChain
  import opened FlowActor
  import opened Migration

  ghost predicate Leads(svc: Service, s0: State, es: seq<Event>, s: State) {
    Legal(svc, s0, es) && Exec(svc, s0, es) == s
  }

  lemma {:induction false} OneMore(svc: Service, s0: State, es: seq<Event>, e: Event)
    requires Legal(svc, s0, es) && Enabled(Exec(svc, s0, es), e)
    ensures Leads(svc, s0, es + [e], Step(svc, Exec(svc, s0, es), e))
    decreases |es|
  {
    if es == [] {
      assert es + [e] == [e] && [e][1..] == [];
      assert Exec(svc, Step(svc, s0, e), []) == Step(svc, s0, e);
    } else {
      assert (es + [e])[1..] == es[1..] + [e];
      OneMore(svc, Step(svc, s0, es[0]), es[1..], e);
    }
  }

  lemma Go(svc: Service, s0: State, es: seq<Event>, s: State, e: Event) returns (es': seq<Event>, s': State)
    requires Leads(svc, s0, es, s) && Enabled(s, e)
    ensures es' == es + [e] && s' == Step(svc, s, e) && Leads(svc, s0, es', s')
  {
    OneMore(svc, s0, es, e);
    es', s' := es + [e], Step(svc, s, e);
  }

  /** No message is on its way. */
  predicate Still(s: State) {
    s.toTarget == [] && s.fromTarget == [] && s.toSwitch == [] && s.fromSwitch == []
  }

  /** The flow's history at the source, and the other targets, are as they were. */
  predicate SameFlow(s: State, r: State) {
    r.actor.fs == s.actor.fs && r.actor.log == s.actor.log && s.targets <= r.targets
  }

  /** The target has created an actor and answered. */
  lemma {:induction false} AskTarget(svc: Service, s: State) returns (es: seq<Event>, r: State)
    requires s.actor.phase == Normal && Still(s)
    ensures Leads(svc, s, es, r) && SameFlow(s, r) && r.switch == s.switch
    ensures r.targets == s.targets + [Target(Waiting, svc.init, [], NextId(s), INVALID_ID, [], [])]
    ensures Still(r.(fromTarget := [])) && r.fromTarget == [Started(NextId(s), |s.targets|)]
    ensures r.actor.phase == Source && r.actor.timer == Timer(NextId(s), Start)
  {
    es, r := Go(svc, s, [], s, StartMigration(false, true));
    es, r := Go(svc, s, es, r, TargetHears(true, true));
  }

  /** The switch has changed the route and answered. */
  lemma {:induction false} AskSwitch(svc: Service, s0: State, es0: seq<Event>, s: State, target: nat) returns (es: seq<Event>, r: State)
    requires Leads(svc, s0, es0, s) && s.actor.phase == Source && s.switch.has && Still(s.(fromTarget := []))
    requires s.fromTarget == [Started(s.actor.timer.id, target)]
    ensures Leads(svc, s0, es, r) && SameFlow(s, r) && r.targets == s.targets && Still(r.(fromSwitch := []))
    ensures |r.fromSwitch| == 1 && r.fromSwitch[0].ok && r.fromSwitch[0].request == r.actor.timer.id
    ensures r.actor.phase == Source && r.actor.target == target && r.switch.has && r.switch.route == AtTarget
  {
    es, r := Go(svc, s0, es0, s, SourceHearsTarget(true));
    es, r := Go(svc, s0, es, r, SwitchHears(true));
  }

  /** The target has installed the state and answered, and the source is done. */
  lemma {:induction false} SendState(svc: Service, s0: State, es0: seq<Event>, s: State) returns (es: seq<Event>, r: State)
    requires Leads(svc, s0, es0, s) && s.actor.phase == Source && Still(s.(fromSwitch := []))
    requires |s.fromSwitch| == 1 && s.fromSwitch[0].ok && s.fromSwitch[0].request == s.actor.timer.id
    requires s.actor.target < |s.targets| && s.targets[s.actor.target].mode == Waiting
    ensures Leads(svc, s0, es, r) && Still(r) && r.switch == s.switch
    ensures r.actor.phase == Moved && !r.actor.timer.Armed() && r.actor.log == s.actor.log && |r.targets| == |s.targets|
    ensures var t := r.targets[s.actor.target];
      t.mode == Running && t.fs == Fold(svc, s.actor.fs, s.targets[s.actor.target].buffer) && t.base == s.actor.log
  {
    es, r := Go(svc, s0, es0, s, SourceHearsSwitch(true, true));
    es, r := Go(svc, s0, es, r, TargetHears(true, true));
    es, r := Go(svc, s0, es, r, SourceHearsTarget(true));
  }

  /** From every state, reachable or not, in which the flow is at the source, the switch has it and no
      message is on its way, some run moves the flow: the switch routes it to a new actor at the
      target, which has the source's state, and the source is done. */
  lemma {:induction false} EveryFlowCanMove(svc: Service, s: State) returns (es: seq<Event>, r: State)
    requires s.actor.phase == Normal && s.switch.has && Still(s)
    ensures Leads(svc, s, es, r) && Still(r)
    ensures r.actor.phase == Moved && r.switch.has && r.switch.route == AtTarget
    ensures |r.targets| == |s.targets| + 1
    ensures var t := r.targets[|s.targets|]; t.mode == Running && t.fs == s.actor.fs && t.base == s.actor.log
  {
    es, r := AskTarget(svc, s);
    es, r := AskSwitch(svc, s, es, r, |s.targets|);
    es, r := SendState(svc, s, es, r);
  }
}
