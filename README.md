# react-gizmo orchestration core, modelled in Dafny

react-gizmo binds a React component tree to an xstate machine. The `Machine`
component (the orchestrator) owns the machine and publishes a state object
through a React context. Each `State` component (a gate) renders its child only
while the route it is bound to is in the orchestrator's active-route set
(`flow`). This project models the bookkeeping the orchestrator runs around each
step it delegates to xstate:

- the current `route`;
- the active-route set `flow`, which grows by the new route on every
  `transition` and shrinks only by the names in the request's `off`;
- the data bag `state`, shallow-merged with `setState` on every transition;
- the `draftState`, replaced on every transition and merged into the data by
  `publish`;
- the registry of children (`setChild`);
- the dispatch of a step's actions to the registered child before and after
  the step.

It also models the gate's visibility rule, the props the gate injects and the
two-argument `transition` shorthand the gate hands to its child.

xstate is a parameter. A `MachineInstance` is its `initialState` (a value and an
action list) plus an uninterpreted `transition(route, event, condition)`
function. The orchestrator is the class `Orchestration.Orchestrator`. Its methods
update its fields in place, and a ghost `trace` records every action method that
dispatch invokes, as `Call(route, action)`. Each method is proved against a pure
function over `Snapshot` values (`Init`, `Apply`, `Published`, `Register`,
`Registered`, `Fired`, `Dispatch`). The lemmas about whole runs (`Run`, `Drive`,
`Visits`) are stated over those functions.

The React commit that separates `this.setState(...)` from its callback matters
here. During the commit every mounted gate re-runs its inline ref callback, so
`setChild` registers the children of the gates that just became visible before
the post-step `doAction` looks them up. `Transition` therefore takes the
rendered gates (`seq<GateDecl>`, in commit order) as a parameter. It registers
the visible, ref-capable ones between the state update and the second dispatch.
`Mount` does the same for the first commit, before `componentDidMount`.

Modules: `Optional`, `DataBag` (values, the object-spread merge), `MachineStep`
(the library interface), `Requests` (the request object, the `off = ""`
default), `Flow` (the route-set update), `Registry` (`setChild`, the calls a
dispatch makes), `Gate` (visibility, injected props, ref registration,
shorthand), `Orchestration` (the specification functions, the lemmas about runs
and the `Orchestrator` class), `Scenarios` (concrete runs).

## Model

| member | source | states |
|---|---|---|
| DataBag.Merge | src/index.js:100 | `{...base, ...patch}`: the keys are the union of both; every key of the patch takes the patch's value; every other key keeps its old value |
| DataBag.MergeAssociative | src/index.js:100 | merging patch p1 and then p2 gives the same bag as merging, once, p1 overridden by p2 |
| DataBag.MergeAllFlattens | src/index.js:100 | merging any sequence of patches one by one, left to right, equals one merge of their left-to-right combination |
| Flow.NextFlow | src/index.js:90-94 | after `add(next)` and the deletions: `next` is active iff `off` does not name it; every name in `off` is inactive; every old route `off` does not name stays; nothing else enters |
| Registry.Register | src/index.js:19-21 | a present child overwrites the entry for its name, and every other entry is unchanged; an absent (null) child changes nothing |
| Registry.Fired | src/index.js:81-84 | each call goes to the dispatched route with an action that is both listed and implemented; every listed action that the child implements is called; the number of calls is at most the number of listed actions, and equals it when the child implements them all |
| Registry.FiredSingle | src/index.js:82-83 | one listed action gives one call if the child implements it, and none otherwise |
| Registry.FiredAppend | src/index.js:81-84 | the calls for a concatenated action list are the calls for the first part followed by those for the second; with `FiredSingle`, this fixes the order of the calls and gives one call per listed occurrence |
| Gate.Registered | src/index.js:156-163 | after a commit, the registry holds the old names plus those of the visible, ref-capable gates; every name that no such gate bears keeps its child |
| Gate.RegisteredLastWins | src/index.js:161 | a route registered during a commit holds the child of the last visible, ref-capable gate bound to it |
| Gate.Render | src/index.js:188-196 | the gate renders iff its route is in `flow`; the rendered props are the data keys plus `transition`, `publish` and (for a class child) `ref`; a data key always wins over an injected prop of the same name |
| Gate.Shorthand | src/index.js:151-152 | `transition(to, options, cond)` builds `{to, ...options}`: an own `to` key of `options` wins over the positional one, even when its value is `undefined`; the other fields come from `options`; without options only `to` is set |
| Orchestration.RunFollowsMachine | src/index.js:70-98 | after any sequence of transitions, the route equals the machine's transition function applied left to right from the starting route |
| Orchestration.RunKeepsUnremoved | src/index.js:90-94 | an active route that no request's `off` names is still active after any run, so its gate keeps rendering |
| Orchestration.RunOnlyEnteredRoutes | src/index.js:90-94 | a route that was inactive and that the machine never entered is still inactive after any run, so its gate renders nothing |
| Orchestration.RunMergesData | src/index.js:100 | the data after a run is the starting data merged with each request's `setState` in order; an absent `setState` adds nothing |
| Orchestration.ApplyFlowMembership | src/index.js:90-94 | after one step a name is active iff it was active or is the new route, and it is not named by `off`; this evicts the new route when `off` lists it |
| Orchestration.DefaultOffRemovesOnlyEmpty | src/index.js:54 | when `off` is omitted, no active non-empty name leaves the route set, and the empty name is never active afterwards |
| Orchestration.IgnoredEventChangesNothing | src/index.js:70-101 | a step the machine answers with the same route, with no `off` and no `setState`, leaves route, route set and data unchanged, provided the route was already active and the empty name was not (otherwise `add` re-inserts an evicted route, or the default `off = ""` removes the empty name) |
| Orchestration.PublishIdempotent | src/index.js:111-117 | a second `publish` changes nothing |
| Orchestration.ShorthandDropsCond | src/index.js:151-152 | the shorthand's third argument never affects the step; without options the machine sees the positional event and no condition |
| Orchestration.Orchestrator.constructor | src/index.js:27-43 | route is the machine's initial value; `flow` is exactly that route; the data is the caller's `initialState`; there is no draft |
| Orchestration.Orchestrator.SetChild | src/index.js:19-21 | the registry becomes `Register(old registry, child, name)` |
| Orchestration.Orchestrator.Commit | src/index.js:161 | the registry becomes `Registered(old registry, gates, flow)` |
| Orchestration.Orchestrator.Fire | src/index.js:81-84 | the trace grows by exactly `Fired(route, child, actions)` |
| Orchestration.Orchestrator.DoAction | src/index.js:76-86 | the trace grows by the step's actions that the child under `target` implements, and only if that child is registered and the current route is active |
| Orchestration.Orchestrator.ComponentDidMount | src/index.js:45-52 | the initial state's actions go to the child registered under the current route, with no active-set check |
| Orchestration.Orchestrator.Mount | src/index.js:45-52 | the first commit registers the visible ref-capable gates, then `componentDidMount` dispatches |
| Orchestration.Orchestrator.UpdateFlow | src/index.js:90-94 | `flow` becomes `NextFlow(old flow, next, off)`, deleting the elements of an `off` collection one by one |
| Orchestration.Orchestrator.Transition | src/index.js:54-109 | the new state is `Apply(old state, req)`: the route is the machine's; the route set follows `NextFlow`; the data follows `Merge`; the draft is the request's. The trace grows by the pre-step dispatch (old route, old registry, old set) and then the post-step dispatch (new route, registry after the commit, new set). Both use the step's own action list, and nothing fires after the step when the new route was evicted |
| Orchestration.Orchestrator.Publish | src/index.js:111-117 | the data becomes the old data merged with the old draft, and the draft is cleared |
| Scenarios.StartEvictingIdle | src/index.js:90-101 | from `idle`, going to `running` with `off: "idle"` and `setState: {count: 1}` gives route `running`, route set `{running}` and data `{count: 1}` |
| Scenarios.StartThenFinishKeepsAll | src/index.js:90-94 | `idle`→`running`→`done` with no `off` gives the route set `{idle, running, done}` |

## Left out

- Rendering is not modelled: `Machine.render`, `React.cloneElement` and the merge with the child's own props, the Provider and Consumer, and the `route` and data props the orchestrator passes to its own child (src/index.js:119-145). `Gate.Render` returns only the props the gate injects.
- React treats a `ref` key given to `cloneElement` specially. The model treats the props as a plain object spread, so a data key named `ref` simply replaces the injected ref.
- The class-component check (`prototype.isReactComponent`) is a boolean field of `GateDecl`, `canHoldRef`. `console.warn` is dropped.
- The xstate library is a parameter: how `Xstate(flow)` is built, its errors on a malformed definition, and its transition, guard and action computation are not modelled.
- Routes are strings. xstate's object-valued states (nested or parallel machines) are not modelled.
- `off: null` throws in the source. It is not a value of `Requests.Off`. Any other non-string, non-object `off` is not modelled either.
- `setState` and `draftState` are objects or absent. Spreading a string or another primitive is not modelled.
- The `graph` bookkeeping (src/index.js:38-41, 64-68, 102-105), the `Graph` component and its stylesheet are not modelled. Neither is the `log` output (src/index.js:55-62).
- React's `setState` is modelled as sequential assignment, with no batching and no asynchronous scheduling. The re-render that `setState({graph})` at line 64 would cause before the step is not modelled; it could only re-register children that are already registered.
- Orchestration.Orchestrator.Publish: `publish` is asynchronous in the source. Awaiting the function `this.transition` resolves at once, so the model treats the wait as a no-op and does not model the deferral to a later microtask.
- In the source, the registry and the machine sit in a module-level context shared by every `Machine` instance. The model gives each orchestrator its own, and so does not model several orchestrators interfering.
- `flow` is a JavaScript `Set`, which is insertion-ordered. The model uses a mathematical set, because the core only ever asks whether a name is a member.
- The gate computes its props even when it renders nothing. That has no effect apart from the warning, so it is not modelled.
- What a child's action methods do is not modelled: each invocation is recorded in the ghost `trace`. An exception thrown by one of them, which would stop the remaining dispatch, is not modelled either.
- The constructor reads the initial route from React's private `context.data._defaultValue`, which holds the value passed to `createContext`, here `initialState.value`. The model takes `initialState.value` directly, so it assumes a React version whose context object keeps `_defaultValue`.
- The commented-out render-prop code (src/index.js:180-187) is not modelled.
