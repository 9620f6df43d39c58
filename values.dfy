/** Values that flow between the data-access functions and the database:
    optional arguments, dates, and the values bound to `%s` placeholders. */
module Values {

  /** Python's `None` or a value; for a nullable column, SQL NULL or a value. */
  datatype Option<+T> = None | Some(value: T)

  /** A PostgreSQL DATE. */
  datatype Date = Date(year: int, month: int, day: int)

  /** Chronological order of dates. */
  predicate DateBefore(a: Date, b: Date)
  {
    || a.year < b.year
    || (a.year == b.year && a.month < b.month)
    || (a.year == b.year && a.month == b.month && a.day < b.day)
  }

  /** A parameter bound to one `%s` placeholder of a statement. Money, stock
      and ratings are integers in this model. */
  datatype Value = Text(s: string) | Int(n: int) | Day(d: Date)

  /** Python truthiness of a bound value: the empty string and zero are
      false; a date object is always true. */
  predicate Truthy(v: Value)
  {
    match v
    case Text(s) => s != ""
    case Int(n) => n != 0
    case Day(_) => true
  }

  /** The two tests the update functions put in front of an optional
      argument: `if arg:` and `if arg is not None:`. */
  datatype Guard = IfTruthy | IfNotNone

  predicate Passes(g: Guard, arg: Option<Value>)
  {
    arg.Some? && (g == IfNotNone || Truthy(arg.value))
  }

  /** `if s:` for an optional string argument. */
  predicate NonEmpty(s: Option<string>)
  {
    s.Some? && s.value != ""
  }

  /** An optional argument as the value it would bind. */
  function TextArg(s: Option<string>): Option<Value>
  {
    if s.Some? then Some(Text(s.value)) else None
  }

  function IntArg(n: Option<int>): Option<Value>
  {
    if n.Some? then Some(Int(n.value)) else None
  }

  function DayArg(d: Option<Date>): Option<Value>
  {
    if d.Some? then Some(Day(d.value)) else None
  }

  /** A text argument passes `if arg:` exactly when it is a non-empty string. */
  lemma TruthyText(s: Option<string>)
    ensures Passes(IfTruthy, TextArg(s)) <==> NonEmpty(s)
  {
  }

  /** `is not None` lets the empty string and zero through. */
  lemma NotNoneAdmitsFalsy()
    ensures Passes(IfNotNone, Some(Text(""))) && Passes(IfNotNone, Some(Int(0)))
    ensures !Passes(IfTruthy, Some(Text(""))) && !Passes(IfTruthy, Some(Int(0)))
  {
  }
}
