/** The active-route set (`flow`): routes that have been entered and not
    since been removed by a request's `off`. */
module Flow {
  import opened MachineStep
  import opened Requests

  /** The routes a request's `off` removes. */
  function OffNames(off: Off): set<Route> {
    match off
    case Single(name) => {name}
    case Many(names) => set n | n in names
  }

  lemma OffNamesSnoc(names: seq<Route>, n: Route)
    ensures OffNames(Many(names + [n])) == OffNames(Many(names)) + {n}
  {
  }

  /** The route set after `flow.add(next)` followed by the deletions of `off`. */
  function NextFlow(flow: set<Route>, next: Route, off: Off): (r: set<Route>)
    ensures next in r <==> next !in OffNames(off)
    ensures forall x :: x in OffNames(off) ==> x !in r
    ensures forall x :: x in flow && x !in OffNames(off) ==> x in r
    ensures forall x :: x in r ==> x in flow || x == next
  {
    (flow + {next}) - OffNames(off)
  }
}
