/** The Python values a report transaction is built from. */
module Values {
  import opened Wrappers
  import opened Bytes
  import opened Timestamps

  /**
   * A value inside a transaction dict. A `Map` lists the dict's items in its iteration order;
   * `shown` is the text `str()` gives for a dict or for any other object, taken as it is.
   */
  datatype Value =
    | Int(n: int)
    | Time(t: TimeStruct)
    | Map(entries: seq<(Str, Value)>, shown: Str)
    | Scalar(shown: Str)

  /** `str(v)` */
  function Show(v: Value): Str {
    match v
    case Int(n) => Decimal(n)
    case Time(t) => ShowTime(t)
    case Map(_, shown) => shown
    case Scalar(shown) => shown
  }

  /** `str(o)` for an attribute that holds a string or None. */
  function ShowOption(o: Option<Str>): Str {
    match o
    case Some(s) => s
    case None => "None"
  }
}
