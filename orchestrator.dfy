/** The orchestrator (`Machine`): holds the current route, the active-route
    set, the data bag and the draft, delegates every step to the machine, and
    dispatches the step's actions to registered children before and after it. */
module Orchestration {
  import opened Optional
  import opened DataBag
  import opened MachineStep
  import opened Requests
  import opened Flow
  import opened Registry
  import opened Gate

  /** The published part of the orchestrator's state. */
  datatype Snapshot = Snapshot(route: Route, flow: set<Route>, data: Data, draft: Option<Data>)

  /** The state the constructor sets up from the machine and the caller's `initialState`. */
  function Init(m: MachineInstance, initialState: Data): Snapshot {
    Snapshot(m.initialState.value, {m.initialState.value}, initialState, None)
  }

  /** The state after one `transition(req)`. */
  function Apply(m: MachineInstance, s: Snapshot, req: Request): Snapshot {
    var next := m.transition(s.route, req.to, req.condition);
    Snapshot(next.value, NextFlow(s.flow, next.value, EffectiveOff(req.off)),
             MergeOpt(s.data, req.setState), req.draftState)
  }

  /** The state after `publish()`: the draft is merged into the data and cleared. */
  function Published(s: Snapshot): Snapshot {
    s.(data := MergeOpt(s.data, s.draft), draft := None)
  }

  /** The state after the requests, applied in order. */
  function Run(m: MachineInstance, s: Snapshot, reqs: seq<Request>): Snapshot
    decreases |reqs|
  {
    if reqs == [] then s else Run(m, Apply(m, s, reqs[0]), reqs[1..])
  }

  /** The machine's own route after the requests' events, from `route`. */
  function Drive(m: MachineInstance, route: Route, reqs: seq<Request>): Route
    decreases |reqs|
  {
    if reqs == [] then route
    else Drive(m, m.transition(route, reqs[0].to, reqs[0].condition).value, reqs[1..])
  }

  /** The routes the machine enters, one per request. */
  function Visits(m: MachineInstance, route: Route, reqs: seq<Request>): seq<Route>
    decreases |reqs|
  {
    if reqs == [] then []
    else
      var next := m.transition(route, reqs[0].to, reqs[0].condition).value;
      [next] + Visits(m, next, reqs[1..])
  }

  /** The current route is always the machine's: the orchestrator never computes a route itself. */
  lemma {:induction false} RunFollowsMachine(m: MachineInstance, s: Snapshot, reqs: seq<Request>)
    ensures Run(m, s, reqs).route == Drive(m, s.route, reqs)
    decreases |reqs|
  {
    if reqs != [] {
      RunFollowsMachine(m, Apply(m, s, reqs[0]), reqs[1..]);
    }
  }

  /** An active route that no request's `off` names stays active, so its gate keeps rendering. */
  lemma {:induction false} RunKeepsUnremoved(m: MachineInstance, s: Snapshot, reqs: seq<Request>, x: Route)
    requires x in s.flow
    requires forall i :: 0 <= i < |reqs| ==> x !in OffNames(EffectiveOff(reqs[i].off))
    ensures Visible(Run(m, s, reqs).flow, x)
    decreases |reqs|
  {
    if reqs != [] {
      RunKeepsUnremoved(m, Apply(m, s, reqs[0]), reqs[1..], x);
    }
  }

  /** A route that was not active and that the machine never entered is never active,
      so its gate renders nothing. */
  lemma {:induction false} RunOnlyEnteredRoutes(m: MachineInstance, s: Snapshot, reqs: seq<Request>, x: Route)
    requires x !in s.flow
    requires x !in Visits(m, s.route, reqs)
    ensures !Visible(Run(m, s, reqs).flow, x)
    decreases |reqs|
  {
    if reqs != [] {
      var next := m.transition(s.route, reqs[0].to, reqs[0].condition).value;
      assert x != next;
      RunOnlyEnteredRoutes(m, Apply(m, s, reqs[0]), reqs[1..], x);
    }
  }

  /** The data after the requests is the initial data merged with every `setState`, in order. */
  lemma {:induction false} RunMergesData(m: MachineInstance, s: Snapshot, reqs: seq<Request>)
    ensures Run(m, s, reqs).data == MergeAll(s.data, Patches(reqs))
    decreases |reqs|
  {
    if reqs != [] {
      RunMergesData(m, Apply(m, s, reqs[0]), reqs[1..]);
      if reqs[0].setState.None? {
        MergeEmpty(s.data);
      }
    }
  }

  /** The `setState` patches of the requests; an absent one counts as `{}`. */
  function Patches(reqs: seq<Request>): seq<Data>
    decreases |reqs|
  {
    if reqs == [] then [] else [reqs[0].setState.GetOr(map[])] + Patches(reqs[1..])
  }

  /** The route set after one step, name by name: the new route and the old
      routes enter, and exactly the names of `off` leave (the new route too, if listed). */
  lemma ApplyFlowMembership(m: MachineInstance, s: Snapshot, req: Request, x: Route)
    ensures var next := m.transition(s.route, req.to, req.condition).value;
      x in Apply(m, s, req).flow <==> (x in s.flow || x == next) && x !in OffNames(EffectiveOff(req.off))
  {
  }

  /** Without `off`, only the empty name can leave the route set. */
  lemma DefaultOffRemovesOnlyEmpty(m: MachineInstance, s: Snapshot, req: Request, x: Route)
    requires req.off.None?
    requires x != ""
    requires x in s.flow
    ensures x in Apply(m, s, req).flow
    ensures "" !in Apply(m, s, req).flow
  {
  }

  /** A step the machine ignores (it stays put and no `off`, `setState` is given)
      leaves route, active set and data unchanged when the route was active. */
  lemma IgnoredEventChangesNothing(m: MachineInstance, s: Snapshot, req: Request)
    requires m.transition(s.route, req.to, req.condition).value == s.route
    requires s.route in s.flow && "" !in s.flow
    requires req.off.None? && req.setState.None?
    ensures Apply(m, s, req).route == s.route
    ensures Apply(m, s, req).flow == s.flow
    ensures Apply(m, s, req).data == s.data
  {
  }

  /** Publishing twice is publishing once. */
  lemma PublishIdempotent(s: Snapshot)
    ensures Published(Published(s)) == Published(s)
  {
  }

  /** The child's shorthand ignores its third argument: the guard condition
      the machine sees comes only from `options.condition`. */
  lemma ShorthandDropsCond(m: MachineInstance, s: Snapshot, to: Option<Event>, options: Option<Options>,
                           c1: Option<Value>, c2: Option<Value>)
    ensures Apply(m, s, Shorthand(to, options, c1)) == Apply(m, s, Shorthand(to, options, c2))
    ensures options.None? ==> Apply(m, s, Shorthand(to, options, c1)).route == m.transition(s.route, to, None).value
  {
  }

  /** One orchestrator; the registry and the machine it shares through the
      module-level context are its own fields here. */
  class Orchestrator {
    const machine: MachineInstance
    var route: Route
    var flow: set<Route>
    var data: Data
    var draft: Option<Data>
    var children: map<Route, Child>
    /** Every action method invoked so far, in order. */
    ghost var trace: seq<Call>

    ghost function View(): Snapshot
      reads this`route, this`flow, this`data, this`draft
    {
      Snapshot(route, flow, data, draft)
    }

    /** The constructor's state setup: the initial route, a route set holding
        only it, the caller's initial data, and no draft. */
    constructor (machine: MachineInstance, initialState: Data)
      ensures this.machine == machine
      ensures route == machine.initialState.value && flow == {route}
      ensures data == initialState && draft == None
      ensures View() == Init(machine, initialState)
      ensures children == map[] && trace == []
    {
      this.machine := machine;
      route := machine.initialState.value;
      flow := {machine.initialState.value};
      data := initialState;
      draft := None;
      children := map[];
      trace := [];
    }

    /** `context.setChild(child, name)`. */
    method SetChild(child: Option<Child>, name: Route)
      modifies this`children
      ensures children == Register(old(children), child, name)
    {
      if child.Some? {
        children := children[name := child.value];
      }
    }

    /** A commit of the rendered tree: each gate's ref callback runs in order. */
    method Commit(gates: seq<GateDecl>)
      modifies this`children
      ensures children == Registered(old(children), gates, flow)
    {
      for i := 0 to |gates|
        invariant children == Registered(old(children), gates[..i], flow)
      {
        assert gates[..i + 1][..i] == gates[..i];
        if gates[i].canHoldRef && gates[i].on in flow {
          SetChild(Some(gates[i].child), gates[i].on);
        }
      }
      assert gates[..|gates|] == gates;
    }

    /** Calls each of `actions` that `child` implements, in order. */
    method Fire(target: Route, child: Child, actions: seq<Action>)
      modifies this`trace
      ensures trace == old(trace) + Fired(target, child, actions)
    {
      for i := 0 to |actions|
        invariant trace == old(trace) + Fired(target, child, actions[..i])
      {
        assert actions[..i + 1][..i] == actions[..i];
        if actions[i] in child {
          trace := trace + [Call(target, actions[i])];
        }
      }
      assert actions[..|actions|] == actions;
    }

    /** `doAction({route: target})`: the step's actions go to the child registered
        under `target`, only while the current route is active. */
    method DoAction(target: Route, actions: seq<Action>)
      modifies this`trace
      ensures trace == old(trace) + Dispatch(children, flow, route, target, actions)
    {
      if target in children && route in flow {
        Fire(target, children[target], actions);
      }
    }

    /** `componentDidMount`: the initial state's actions go to the child
        registered under the current route, with no active-set check. */
    method ComponentDidMount()
      modifies this`trace
      ensures trace == old(trace) +
        (if route in children then Fired(route, children[route], machine.initialState.actions) else [])
    {
      if route in children {
        Fire(route, children[route], machine.initialState.actions);
      }
    }

    /** The first mount: the gates' refs register, then `componentDidMount` runs. */
    method Mount(gates: seq<GateDecl>)
      modifies this`children, this`trace
      ensures children == Registered(old(children), gates, flow)
      ensures trace == old(trace) +
        (if route in children then Fired(route, children[route], machine.initialState.actions) else [])
    {
      Commit(gates);
      ComponentDidMount();
    }

    /** `flow.add(next)`, then `delete` of the single name or of each element of `off`. */
    method UpdateFlow(next: Route, off: Off)
      modifies this`flow
      ensures flow == NextFlow(old(flow), next, off)
    {
      flow := flow + {next};
      match off {
        case Single(name) =>
          flow := flow - {name};
        case Many(names) =>
          ghost var added := flow;
          for i := 0 to |names|
            invariant flow == added - OffNames(Many(names[..i]))
          {
            assert names[..i + 1] == names[..i] + [names[i]];
            OffNamesSnoc(names[..i], names[i]);
            flow := flow - {names[i]};
          }
          assert names[..|names|] == names;
      }
    }

    /** `transition(req)`. The machine computes the step; its actions go to the
        child of the old route (if active); the new route is added to `flow` and
        each name of `off` removed; route, flow, data and draft are updated; the
        tree re-renders and its gates register (`gates`, in commit order); then
        the same actions go to the child of the new route, if still active. */
    method Transition(req: Request, gates: seq<GateDecl>)
      modifies this
      ensures View() == Apply(machine, old(View()), req)
      ensures route == machine.transition(old(route), req.to, req.condition).value
      ensures flow == NextFlow(old(flow), route, EffectiveOff(req.off))
      ensures data == MergeOpt(old(data), req.setState) && draft == req.draftState
      ensures children == Registered(old(children), gates, flow)
      ensures var actions := machine.transition(old(route), req.to, req.condition).actions;
        trace == old(trace)
          + Dispatch(old(children), old(flow), old(route), old(route), actions)
          + Dispatch(children, flow, route, route, actions)
      ensures route !in flow ==>
        trace == old(trace) + Dispatch(old(children), old(flow), old(route), old(route),
                                       machine.transition(old(route), req.to, req.condition).actions)
    {
      var next := machine.transition(route, req.to, req.condition);
      DoAction(route, next.actions);
      UpdateFlow(next.value, EffectiveOff(req.off));
      route := next.value;
      data := MergeOpt(data, req.setState);
      draft := req.draftState;

      Commit(gates);
      DoAction(next.value, next.actions);
    }

    /** `publish()`: the awaited value is a function, so the wait is immediate;
        the draft is merged into the data and cleared. */
    method Publish()
      modifies this`data, this`draft
      ensures View() == Published(old(View()))
      ensures data == MergeOpt(old(data), old(draft)) && draft == None
    {
      data := MergeOpt(data, draft);
      draft := None;
    }
  }
}
