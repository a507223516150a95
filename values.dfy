/** The Python values that command-line options and the YAML config map carry. */
module Values {

  datatype Value = NoneValue | Bool(b: bool) | Int(i: int) | Str(s: string)

  /** Python truthiness: None, False, 0 and "" are false, everything else is true. */
  predicate Truthy(v: Value) {
    match v
    case NoneValue => false
    case Bool(b) => b
    case Int(i) => i != 0
    case Str(s) => s != ""
  }
}
