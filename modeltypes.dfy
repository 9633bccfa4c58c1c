/**
 * The records the code generator passes between its parser and its
 * templates: a model struct's fields and the (keyword, column) pairs of a
 * generated query's conditions. Errors of the generator are error chains,
 * given here by their messages, oldest first.
 */
module ModelTypes {
  /** A field of a model struct and the column it maps to. */
  datatype ModelField = ModelField(
    name: string,
    columnName: string,
    typ: string,
    isPrimaryKey: bool,
    isAutoIncrement: bool)

  /** A pair: in a condition, the keyword (`AND`, `OR`, or empty) and the column. */
  datatype Pair = Pair(key: string, val: string)

  /** The messages of an error chain, oldest first. */
  type Errs = seq<string>
}
