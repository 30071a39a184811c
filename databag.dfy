/** The application data bag and its shallow merge: the object spread
    `{ ...base, ...patch }` used for `state` on every transition and on publish. */
module DataBag {
  import opened Optional

  /** A JavaScript value held in the data bag; the core never looks inside it. */
  datatype Value = Undefined | Null | Bool(b: bool) | Num(n: int) | Str(s: string)

  /** A plain object with string keys. */
  type Data = map<string, Value>

  /** `{ ...base, ...patch }`: a key of `patch` wins, a key only in `base` keeps its value. */
  function Merge(base: Data, patch: Data): (r: Data)
    ensures r.Keys == base.Keys + patch.Keys
    ensures forall k :: k in patch ==> r[k] == patch[k]
    ensures forall k :: k in base && k !in patch ==> r[k] == base[k]
  {
    base + patch
  }

  /** Spreading an empty patch changes nothing. */
  lemma MergeEmpty(d: Data)
    ensures Merge(d, map[]) == d
  {
  }

  /** Spreading an absent patch (`...undefined` or `...null`) adds no key. */
  function MergeOpt(base: Data, patch: Option<Data>): Data {
    match patch
    case None => base
    case Some(p) => Merge(base, p)
  }

  /** The bag after merging the patches one after another, left to right. */
  function MergeAll(base: Data, patches: seq<Data>): Data
    decreases |patches|
  {
    if patches == [] then base else MergeAll(Merge(base, patches[0]), patches[1..])
  }

  /** Merging is associative: patch p1 then p2 equals merging the combined patch once. */
  lemma MergeAssociative(base: Data, p1: Data, p2: Data)
    ensures Merge(Merge(base, p1), p2) == Merge(base, Merge(p1, p2))
  {
  }

  /** Merging any sequence of patches one by one gives the same bag as merging,
      once, the patch obtained by merging them among themselves, left to right. */
  lemma {:induction false} MergeAllFlattens(base: Data, patches: seq<Data>)
    ensures MergeAll(base, patches) == Merge(base, MergeAll(map[], patches))
    decreases |patches|
  {
    if patches != [] {
      var p, rest := patches[0], patches[1..];
      MergeAllFlattens(Merge(base, p), rest);
      MergeAllFlattens(Merge(map[], p), rest);
      MergeAssociative(base, p, MergeAll(map[], rest));
      assert Merge(map[], p) == p;
      MergeAssociative(map[], p, MergeAll(map[], rest));
    }
  }
}
