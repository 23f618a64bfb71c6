/**
 * What the parallax engine receives from its host: displayables, whose only
 * property that matters here is the size a host render reports for them, and
 * the dynamically typed argument values the constructors validate.
 */
module Host {

  /** A displayable, seen through the size its render reports (`get_size()`). */
  datatype Image = Image(width: nat, height: nat)

  /** An argument value, classified by the runtime types the validation tests for. */
  datatype Value =
    | Int(i: int)
    | Float(f: real)
    | Str(s: string)
    | Displayable(image: Image)
    | Tuple(items: seq<Value>)
    | Other
  {
    /** `isinstance(v, float) or isinstance(v, int)` */
    predicate IsNumber() {
      Int? || Float?
    }

    /** The numeric value of an int or float argument. */
    function Number(): (r: real)
      requires IsNumber()
    {
      if Int? then i as real else f
    }
  }

  datatype Result<+T, +E> = Success(value: T) | Failure(error: E)

  datatype Outcome<+E> = Pass | Fail(error: E)
}
