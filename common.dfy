/** Shared vocabulary: optional values and Python truthiness of the fields that can be absent. */
module Common {

  /** A field that may be missing from a record (Python's None). */
  datatype Option<+T> = None | Some(value: T)

  /** Python truthiness of an optional string: present and not "". */
  predicate Present(s: Option<string>) {
    s.Some? && s.value != ""
  }

  /** Python truthiness of an optional count or decimal: present and not zero. */
  predicate NonZero(n: Option<int>) {
    n.Some? && n.value != 0
  }

  function Abs(x: int): (r: nat)
    ensures r == x || r == -x
  {
    if x < 0 then -x else x
  }
}
