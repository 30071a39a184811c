/** The gate component (`State`): shows its child only while its route is in
    the active-route set, injects the orchestrator's functions and data into
    the child's props, and registers a ref-capable child in the registry. */
module Gate {
  import opened Optional
  import opened DataBag
  import opened MachineStep
  import opened Requests
  import opened Registry

  /** A gate in the rendered tree: `<State on={on}>` around a child instance
      that implements the actions in `child`; `canHoldRef` is the class-component
      check that decides whether the gate attaches a ref. */
  datatype GateDecl = GateDecl(on: Route, child: Child, canHoldRef: bool)

  /** `flow.has(this.props.on)`: the gate renders its child, or nothing. */
  predicate Visible(flow: set<Route>, on: Route) {
    on in flow
  }

  /** A gate whose child is mounted with a ref callback, which calls `setChild`. */
  predicate Registers(g: GateDecl, flow: set<Route>) {
    Visible(flow, g.on) && g.canHoldRef
  }

  function RegisteringNames(gates: seq<GateDecl>, flow: set<Route>): set<Route> {
    set i | 0 <= i < |gates| && Registers(gates[i], flow) :: gates[i].on
  }

  /** Gate `i` is the last registering gate bound to its route. */
  predicate LastRegistration(gates: seq<GateDecl>, flow: set<Route>, i: int)
    requires 0 <= i < |gates|
  {
    Registers(gates[i], flow) &&
    forall j :: i < j < |gates| && Registers(gates[j], flow) ==> gates[j].on != gates[i].on
  }

  lemma RegisteringNamesSnoc(gates: seq<GateDecl>, flow: set<Route>)
    requires gates != []
    ensures var g := gates[|gates| - 1];
      RegisteringNames(gates, flow) ==
        RegisteringNames(gates[..|gates| - 1], flow) + (if Registers(g, flow) then {g.on} else {})
  {
  }

  /** The registry after a commit in which React calls, in tree order, the ref
      callback of every mounted gate (the callback is a fresh arrow on every
      render, so it runs on every commit, not just the first). */
  function Registered(children: map<Route, Child>, gates: seq<GateDecl>, flow: set<Route>): (r: map<Route, Child>)
    ensures r.Keys == children.Keys + RegisteringNames(gates, flow)
    ensures forall n :: n in children && n !in RegisteringNames(gates, flow) ==> r[n] == children[n]
    decreases |gates|
  {
    if gates == [] then children
    else
      var g := gates[|gates| - 1];
      var prev := Registered(children, gates[..|gates| - 1], flow);
      RegisteringNamesSnoc(gates, flow);
      if Registers(g, flow) then Register(prev, Some(g.child), g.on) else prev
  }

  /** A route registered during a commit holds the child of the last gate bound
      to it that registered. */
  lemma {:induction false} RegisteredLastWins(children: map<Route, Child>, gates: seq<GateDecl>,
                                              flow: set<Route>, i: int)
    requires 0 <= i < |gates| && LastRegistration(gates, flow, i)
    ensures gates[i].on in Registered(children, gates, flow)
    ensures Registered(children, gates, flow)[gates[i].on] == gates[i].child
    decreases |gates|
  {
    var init, g := gates[..|gates| - 1], gates[|gates| - 1];
    if i < |gates| - 1 {
      assert gates[i] == init[i];
      assert LastRegistration(init, flow, i) by {
        forall j | i < j < |init| && Registers(init[j], flow) ensures init[j].on != init[i].on {
          assert init[j] == gates[j];
        }
      }
      assert Registers(g, flow) ==> g.on != gates[i].on;
      RegisteredLastWins(children, init, flow, i);
    }
  }

  /** A prop injected into the gated child. */
  datatype Prop = TransitionProp | PublishProp | RefProp | DataProp(value: Value)

  /** `{ ref, ...{ transition, publish, ...state } }`: later spreads win, so a
      data key named `transition`, `publish` or `ref` hides the injected one. */
  function InjectedProps(data: Data, canHoldRef: bool): map<string, Prop> {
    var own := map["transition" := TransitionProp, "publish" := PublishProp];
    var fromData := map k | k in data :: DataProp(data[k]);
    (if canHoldRef then map["ref" := RefProp] else map[]) + (own + fromData)
  }

  /** What a gate renders: nothing when its route is inactive, otherwise its
      child with the injected props. */
  function Render(g: GateDecl, flow: set<Route>, data: Data): (r: Option<map<string, Prop>>)
    ensures r.Some? <==> g.on in flow
    ensures r.Some? ==> r.value.Keys == data.Keys + {"transition", "publish"} + (if g.canHoldRef then {"ref"} else {})
    ensures r.Some? ==> forall k :: k in data ==> r.value[k] == DataProp(data[k])
    ensures r.Some? && "transition" !in data ==> r.value["transition"] == TransitionProp
    ensures r.Some? && "publish" !in data ==> r.value["publish"] == PublishProp
    ensures r.Some? && g.canHoldRef && "ref" !in data ==> r.value["ref"] == RefProp
  {
    if Visible(flow, g.on) then Some(InjectedProps(data, g.canHoldRef)) else None
  }

  /** The `options` object a child passes to its shorthand. Its `to` records
      whether the object has an own `to` key (`Some`), and that key's value,
      which may itself be `undefined` (`Some(None)`). For the other fields an own
      `undefined` key and an absent one behave alike in `Machine.transition`. */
  datatype Options = Options(
    to: Option<Option<Event>>,
    off: Option<Off>,
    setState: Option<Data>,
    draftState: Option<Data>,
    condition: Option<Value>)

  /** The child's `transition(to, options, cond)`: it forwards `{ to, ...options }`.
      An own `to` key of `options` wins over the positional one, even when it is
      `undefined`, and `cond` is passed as a second argument that
      `Machine.transition` never reads. */
  function Shorthand(to: Option<Event>, options: Option<Options>, cond: Option<Value>): (r: Request)
    ensures options.None? ==> r == Request(to, None, None, None, None)
    ensures options.Some? ==> r.to == (if options.value.to.Some? then options.value.to.value else to)
    ensures options.Some? ==> r.off == options.value.off && r.setState == options.value.setState
    ensures options.Some? ==> r.draftState == options.value.draftState && r.condition == options.value.condition
  {
    match options
    case None => Request(to, None, None, None, None)
    case Some(o) => Request(o.to.GetOr(to), o.off, o.setState, o.draftState, o.condition)
  }
}
