/**
 * The vocabulary shared by the metadata preparer, the two ingestion drivers and the
 * transformer: a schema's variable definitions, the typed values a payload holds,
 * and Python's number conversions, which the model leaves uninterpreted.
 */
module Values {
  import opened Wrappers

  /** An IEEE-754 double as its 64-bit pattern; the model never computes with it. */
  datatype Float = Float(bits: bv64)

  /** How one of Python's numeric conversions of a string ends. */
  datatype ParseOutcome<T> = Parsed(value: T) | Invalid | Overflows

  /**
   * Python's number parsing and formatting, passed in rather than defined:
   * `toIntViaFloat(s)` is `int(float(s))` (an invalid string or NaN raises ValueError,
   * an infinity raises OverflowError), `toFloat(s)` is `float(s)` (None for ValueError;
   * it never overflows) and `floatStr(f)` is `str(f)`.
   */
  datatype NumberSyntax = NumberSyntax(
    toIntViaFloat: string -> ParseOutcome<int>,
    toFloat: string -> Option<Float>,
    floatStr: Float -> string)

  /** What Python guarantees of `str(f)` for every float: it is never the empty string. */
  ghost predicate WellFormed(num: NumberSyntax) {
    forall f :: num.floatStr(f) != []
  }

  /** The Python exceptions of the core that no handler inside the transformer catches. */
  datatype Exception = OverflowError | AttributeError | ValueError

  /** A coerced cell as it ends up in the JSON payload: `None`, an int, a float or a str. */
  datatype Value = Null | Int(i: int) | Num(f: Float) | Str(s: string)

  /**
   * One entry of a level's `variable_schema`. `typeName` is a string because the
   * transformer compares it with "INTEGER" and "NUMERIC" and treats anything else as text.
   */
  datatype VariableDef = VariableDef(
    name: string,
    description: string,
    length: int,
    startPosition: Option<int>,
    endPosition: Option<int>,
    typeName: string,
    isCommonId: bool)
}
