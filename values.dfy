/**
 * The values of the language: what a literal token carries, what a Literal
 * node holds and what the evaluator produces. Python's `None`, `bool`, `float`
 * and `str`; numbers are exact reals here.
 */
module Values {

  datatype Value =
    | NilVal
    | BoolVal(b: bool)
    | NumVal(n: real)
    | StrVal(s: string)
}
