/** The single object `Machine.transition` accepts:
    `{ to, off = "", setState, draftState, condition }`. */
module Requests {
  import opened Optional
  import opened DataBag
  import opened MachineStep

  /** The `off` field: a string names one route to remove; an object (an array
      or a Set) is iterated and each element is removed. `null`, which makes
      the source throw, is not a value of this type. */
  datatype Off = Single(name: Route) | Many(names: seq<Route>)

  /** The fields of a transition request; `None` is an absent (`undefined`) field. */
  datatype Request = Request(
    to: Option<Event>,
    off: Option<Off>,
    setState: Option<Data>,
    draftState: Option<Data>,
    condition: Option<Value>)

  /** The destructuring default `off = ""`. */
  function EffectiveOff(off: Option<Off>): Off {
    off.GetOr(Single(""))
  }
}
