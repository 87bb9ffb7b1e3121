/**
 * The scalar JSON values that the verdicts look at. Python compares them by value and by type, so
 * the string "200" and the number 200 are different values, and only the boolean `true` is
 * `True` (an `is True` test rejects `1`).
 */
module Values {

  datatype Scalar = Null | Bool(b: bool) | Num(n: int) | Str(s: string)
}
