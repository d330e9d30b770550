/** The two statement forms of src/pylox/stmt.py. */
module Statements {
  import opened Expressions

  datatype Stmt =
    | PrintStmt(expression: Expr)       // `Print`
    | ExpressionStmt(expression: Expr)  // `Expression`
}
