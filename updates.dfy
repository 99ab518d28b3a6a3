/**
 The data an update-versioning call works on: the update payload a query
 carries (a map of top-level keys, each an update operator such as `$set`
 holding a sub-map of path -> value, or a bare field assignment), the
 schema's path -> is-array table, and the query options.
 */
module Updates {

  /** A field value. Values are opaque to versioning: they are only compared. */
  datatype Value =
    | Num(n: int)
    | Str(s: string)
    | Arr(items: seq<Value>)
    | Doc(fields: map<string, Value>)

  /** What a top-level key of an update holds: an operator's sub-map of
      path -> value, or a plain value assigned to the field of that name. */
  datatype Entry =
    | Op(paths: map<string, Value>)
    | Bare(value: Value)

  /** An update payload, keyed by operator name or by field name. */
  type Update = map<string, Entry>

  /** The schema, reduced to what versioning asks of it: is this path an array? */
  type Schema = map<string, bool>

  /** Query options. An absent `version` option is `true`, an absent
      `overwrite` option is `false`; `versionKey` names the version field. */
  datatype Options = Options(version: bool, overwrite: bool, versionKey: string)

  const DefaultVersionKey: string := "__v"
  const SetOp: string := "$set"
  const IncOp: string := "$inc"

  /** Operators that only make sense against array-typed fields. */
  const ArrayOperators: set<string> := {"$push", "$pull", "$addToSet", "$pop", "$pullAll"}

  /** A top-level key is an operator exactly when it starts with `$`. */
  predicate IsOperator(key: string)
  {
    |key| > 0 && key[0] == '$'
  }

  /** Every JSON payload has exactly one encoding: an object held by an
      operator key is that operator's sub-map (`Op`), never a `Bare` document. */
  predicate Canonical(u: Update)
  {
    forall key :: key in u && IsOperator(key) ==> !(u[key].Bare? && u[key].value.Doc?)
  }

  /** The schema marks `path` as an array (of values or of sub-documents). */
  predicate IsArrayPath(schema: Schema, path: string)
  {
    path in schema && schema[path]
  }
}
