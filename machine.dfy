/** The interface of the external state-machine library. The library's own
    transition, guard and action computation is not modelled: a machine is
    just its initial state and its transition function. */
module MachineStep {
  import opened Optional
  import opened DataBag

  /** The name of a state of the machine. */
  type Route = string
  /** The name of an event sent to the machine. */
  type Event = string
  /** The name of an action (a lifecycle callback) a state declares. */
  type Action = string

  /** What the library returns from a step: the state's `value` and its `actions`. */
  datatype MachineState = MachineState(value: Route, actions: seq<Action>)

  /** A constructed machine: `initialState` and `transition(route, event, condition)`.
      The event and the condition may be `undefined`. */
  datatype MachineInstance = MachineInstance(
    initialState: MachineState,
    transition: (Route, Option<Event>, Option<Value>) -> MachineState)
}
