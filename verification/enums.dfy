/** What every Java enum offers implicitly: its constants in declaration order and `valueOf(String)`. */
module Enums {
  import opened Wrappers

  /** The first constant in `values` whose name is `n`, as `valueOf` finds it; None where
      `valueOf` throws IllegalArgumentException (no constant has that name). */
  function ValueNamed<T>(values: seq<T>, name: T -> string, n: string): (r: Option<T>)
    ensures r.Some? ==> r.value in values && name(r.value) == n
    ensures r.None? <==> forall v :: v in values ==> name(v) != n
  {
    if values == [] then None
    else if name(values[0]) == n then Some(values[0])
    else ValueNamed(values[1..], name, n)
  }

  /** When the names of the constants are pairwise distinct, `valueOf(name())` is the identity. */
  lemma ValueNamedOfName<T>(values: seq<T>, name: T -> string, x: T)
    requires x in values
    requires forall a, b :: a in values && b in values && name(a) == name(b) ==> a == b
    ensures ValueNamed(values, name, name(x)) == Some(x)
  {
  }
}
