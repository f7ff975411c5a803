/** Small value types shared by the modules of the math-game model. */
module Common {

  /** An optional value: a query parameter, form field or JSON key that may be absent. */
  datatype Option<+T> = None | Some(value: T) {

    /** The value if present, otherwise the given default (Python's `dict.get(key, default)`). */
    function GetOr(default: T): T
    {
      match this
      case Some(v) => v
      case None => default
    }
  }

  /** An inclusive range of integers, the argument pair of Python's `random.randint(lo, hi)`. */
  datatype Range = Range(lo: int, hi: int) {

    predicate Contains(x: int)
    {
      lo <= x <= hi
    }
  }

  /** A boolean stored in a DOM attribute (`setAttribute`, `dataset`) becomes "true" or "false". */
  function BoolAttribute(b: bool): string
  {
    if b then "true" else "false"
  }
}
