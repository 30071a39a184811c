/** Two concrete runs over a three-state machine `idle --start--> running --finish--> done`. */
module Scenarios {
  import opened Optional
  import opened DataBag
  import opened MachineStep
  import opened Requests
  import opened Registry
  import opened Gate
  import opened Orchestration

  function DemoStep(route: Route, event: Option<Event>, condition: Option<Value>): MachineState {
    if route == "idle" && event == Some("start") then MachineState("running", ["onRun"])
    else if route == "running" && event == Some("finish") then MachineState("done", [])
    else MachineState(route, [])
  }

  const Demo: MachineInstance := MachineInstance(MachineState("idle", []), DemoStep)

  function Go(event: Event, off: Option<Off>, setState: Option<Data>): Request {
    Request(Some(event), off, setState, None, None)
  }

  /** Leaving `idle` with `off: "idle"` and `setState: {count: 1}` keeps only `running` active. */
  lemma StartEvictingIdle()
    ensures Apply(Demo, Init(Demo, map[]), Go("start", Some(Single("idle")), Some(map["count" := Num(1)])))
         == Snapshot("running", {"running"}, map["count" := Num(1)], None)
  {
  }

  /** Two steps without `off` keep every route entered so far active. */
  lemma StartThenFinishKeepsAll()
    ensures Run(Demo, Init(Demo, map[]), [Go("start", None, None), Go("finish", None, None)]).flow
         == {"idle", "running", "done"}
  {
  }

  /** The gates of the scenarios: a class child under each of `idle` and
      `running`, each implementing `onRun`. */
  function DemoGates(): seq<GateDecl> {
    [GateDecl("idle", {"onRun"}, true), GateDecl("running", {"onRun"}, true)]
  }

  /** A freshly mounted orchestrator over `Demo`: only the `idle` gate is visible,
      so only its child is registered, and the empty initial action list fires nothing. */
  method MountDemo() returns (o: Orchestrator)
    ensures fresh(o) && o.machine == Demo
    ensures o.route == "idle" && o.flow == {"idle"} && o.data == map[]
    ensures o.children == map["idle" := {"onRun"}] && o.trace == []
  {
    o := new Orchestrator(Demo, map[]);
    var gates := DemoGates();
    o.Mount(gates);
    assert gates[..1] == [gates[0]] && [gates[0]][..0] == [];
  }

  /** The step out of `idle`, and the calls its actions make on a child implementing them. */
  lemma DemoStart()
    ensures Demo.transition("idle", Some("start"), None) == MachineState("running", ["onRun"])
    ensures Fired("idle", {"onRun"}, ["onRun"]) == [Call("idle", "onRun")]
    ensures Fired("running", {"onRun"}, ["onRun"]) == [Call("running", "onRun")]
    ensures Dispatch(map["idle" := {"onRun"}], {"idle"}, "idle", "idle", ["onRun"]) == [Call("idle", "onRun")]
  {
  }

  /** The first scenario on the orchestrator itself. Before the step, `onRun`
      goes to the child of `idle` (the step's own action list is used); the
      `running` gate registers during the commit, so its child gets `onRun` after the step. */
  method StartDispatchesBeforeAndAfter()
  {
    var o := MountDemo();
    DemoStart();
    o.Transition(Go("start", None, Some(map["count" := Num(1)])), DemoGates());
    assert o.route == "running" && o.data == map["count" := Num(1)];
    assert o.flow == {"idle", "running"};
    assert Dispatch(o.children, o.flow, "running", "running", ["onRun"]) == [Call("running", "onRun")] by {
      RegisteredLastWins(map["idle" := {"onRun"}], DemoGates(), o.flow, 1);
    }
    assert o.trace == [Call("idle", "onRun"), Call("running", "onRun")];
  }

  /** Evicting the new route through `off`: the child of `idle` still gets the
      step's actions before the step, but nothing is dispatched after it. */
  method EvictedTargetGetsNothing()
  {
    var o := MountDemo();
    DemoStart();
    o.Transition(Go("start", Some(Many(["running"])), None), DemoGates());
    assert o.route == "running" && !Visible(o.flow, "running");
    assert o.trace == [Call("idle", "onRun")];
  }
}
