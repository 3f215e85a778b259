/** SQL's three-valued logic: NULL in a comparison gives unknown, and a CHECK constraint rejects
    a row only when it is false. */
module ThreeValuedLogic {
  import opened Results

  datatype Truth = True | False | Unknown

  function Known(b: bool): Truth { if b then True else False }

  function And(a: Truth, b: Truth): Truth {
    if a.False? || b.False? then False else if a.True? && b.True? then True else Unknown
  }

  function Or(a: Truth, b: Truth): Truth {
    if a.True? || b.True? then True else if a.False? && b.False? then False else Unknown
  }

  function Plus(a: Option<int>, b: Option<int>): Option<int> {
    if a.Some? && b.Some? then Some(a.value + b.value) else None
  }

  function Leq(a: Option<int>, b: Option<int>): Truth {
    if a.Some? && b.Some? then Known(a.value <= b.value) else Unknown
  }

  function Equal<A(==)>(a: Option<A>, b: Option<A>): Truth {
    if a.Some? && b.Some? then Known(a.value == b.value) else Unknown
  }

  function IsNull<A>(a: Option<A>): Truth { Known(a.None?) }

  function IsNotNull<A>(a: Option<A>): Truth { Known(a.Some?) }

  function Is(s: string, t: string): Truth { Known(s == t) }

  /** A CHECK rejects a row only when it is false. */
  predicate Admits(check: Truth) { !check.False? }
}
