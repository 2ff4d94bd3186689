/** A value assumed for a question, so that the question is skipped
    entirely. */
module AssumedAnswers {
  import opened RustNum

  /** Exactly four variants, one per answer payload type. */
  datatype AssumedAnswer =
    | String(str: string)
    | Int(i: I64)
    | Float(float: F64)
    | Bool(b: bool)

  /** `impl From<String> for AssumedAnswer`. */
  function FromString(v: string): (a: AssumedAnswer)
    ensures a.String? && a.str == v
  {
    AssumedAnswer.String(v)
  }

  /** `impl From<i64> for AssumedAnswer`. */
  function FromI64(v: I64): (a: AssumedAnswer)
    ensures a.Int? && a.i == v
  {
    AssumedAnswer.Int(v)
  }

  /** `impl From<f64> for AssumedAnswer`: the payload is carried unchanged. */
  function FromF64(v: F64): (a: AssumedAnswer)
    ensures a.Float? && a.float == v
  {
    AssumedAnswer.Float(v)
  }

  /** `impl From<bool> for AssumedAnswer`. */
  function FromBool(v: bool): (a: AssumedAnswer)
    ensures a.Bool? && a.b == v
  {
    AssumedAnswer.Bool(v)
  }
}
