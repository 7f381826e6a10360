/**
  The statement trees the parser builds. The shapes follow how the parser
  constructs them (statement.rs itself is not part of this model).
*/
module Ast {

  datatype Option<T> = None | Some(value: T)

  datatype BinaryOperator =
    | Plus | Minus | Mul | Div
    | Eq | Neq | Gt | GtEq | Lt | LtEq
    | And | Or

  datatype Value = Number(digits: string) | String(text: string)

  /** Grouping parentheses leave no node behind: the tree shape is the grouping. */
  datatype Expression =
    | Identifier(name: string)
    | Wildcard
    | Value(value: Value)
    | BinaryOperation(left: Expression, operator: BinaryOperator, right: Expression)

  datatype DataType = Int | Varchar(length: nat)

  datatype Constraint = PrimaryKey | Unique

  datatype Column = Column(name: string, dataType: DataType, constraint: Option<Constraint>)

  datatype Create =
    | Database(name: string)
    | Table(name: string, columns: seq<Column>)

  datatype Drop = Database(name: string) | Table(name: string)

  datatype Statement =
    | Select(columns: seq<Expression>, from: string, where: Option<Expression>)
    | Create(create: Create)
    | Update(table: string, columns: seq<Expression>, where: Option<Expression>)
    | Insert(into: string, columnNames: seq<string>, values: seq<Expression>)
    | Delete(from: string, where: Option<Expression>)
    | Drop(drop: Drop)
}
