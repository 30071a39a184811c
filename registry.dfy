/** The child registry of the shared context (`children`, `setChild`) and the
    dispatch of a machine step's actions to a registered child. */
module Registry {
  import opened Optional
  import opened MachineStep

  /** A mounted child component instance, seen through the action names it implements. */
  type Child = set<Action>

  /** One invocation of a child's action method, keyed by the route it was registered under. */
  datatype Call = Call(route: Route, action: Action)

  /** `child && children.set(name, child)`: a present child overwrites the entry
      for `name`; an absent one (React passes `null` on unmount) changes nothing. */
  function Register(children: map<Route, Child>, child: Option<Child>, name: Route): (r: map<Route, Child>)
    ensures r.Keys == if child.Some? then children.Keys + {name} else children.Keys
    ensures child.Some? ==> r[name] == child.value
    ensures forall n :: n in children && n != name ==> r[n] == children[n]
    ensures child.None? ==> r == children
  {
    match child
    case None => children
    case Some(c) => children[name := c]
  }

  /** The calls `for (const action of actions) child[action] && child[action]()`
      makes, in order: each listed action the child implements, skipping the rest. */
  function Fired(route: Route, child: Child, actions: seq<Action>): (r: seq<Call>)
    ensures |r| <= |actions|
    ensures forall i :: 0 <= i < |r| ==> r[i].route == route && r[i].action in child && r[i].action in actions
    ensures forall a :: a in actions && a in child ==> Call(route, a) in r
    ensures (forall a :: a in actions ==> a in child) ==> |r| == |actions|
    decreases |actions|
  {
    if actions == [] then []
    else
      var last := actions[|actions| - 1];
      var init := actions[..|actions| - 1];
      assert forall a :: a in actions ==> a in init || a == last;
      Fired(route, child, init) + (if last in child then [Call(route, last)] else [])
  }

  /** A single action is called once if the child implements it, else skipped. */
  lemma FiredSingle(route: Route, child: Child, a: Action)
    ensures Fired(route, child, [a]) == if a in child then [Call(route, a)] else []
  {
    assert [a][..0] == [];
  }

  /** Dispatch over a concatenated list is the dispatch over the first part followed
      by the dispatch over the second: with `FiredSingle`, this fixes the calls, their
      order, and one call per occurrence of an implemented action. */
  lemma {:induction false} FiredAppend(route: Route, child: Child, a1: seq<Action>, a2: seq<Action>)
    ensures Fired(route, child, a1 + a2) == Fired(route, child, a1) + Fired(route, child, a2)
    decreases |a2|
  {
    if a2 == [] {
      assert a1 + a2 == a1;
    } else {
      var init := a2[..|a2| - 1];
      assert (a1 + a2)[..|a1 + a2| - 1] == a1 + init;
      assert (a1 + a2)[|a1 + a2| - 1] == a2[|a2| - 1];
      FiredAppend(route, child, a1, init);
    }
  }

  /** `doAction({route})`: the actions go to the child registered under `route`,
      and only while `current` (the orchestrator's route at that moment) is in `flow`. */
  function Dispatch(children: map<Route, Child>, flow: set<Route>, current: Route,
                    route: Route, actions: seq<Action>): seq<Call>
  {
    if route in children && current in flow then Fired(route, children[route], actions) else []
  }
}
