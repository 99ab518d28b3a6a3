/**
 Does an update touch an array-typed path? An array operator naming at least
 one path always does; `$set` and bare field assignments do when the schema
 marks one of the paths they assign as an array; other operators never do.
 */
module Classifier {
  import opened Updates

  /** Some path of `paths` is array-typed in `schema`. */
  predicate NamesArrayPath(paths: map<string, Value>, schema: Schema)
  {
    exists p :: p in paths && IsArrayPath(schema, p)
  }

  /** The top-level entry `key` -> `e` touches an array. */
  predicate EntryTouchesArray(key: string, e: Entry, schema: Schema)
  {
    if key in ArrayOperators then e.Op? && |e.paths| > 0
    else if key == SetOp then e.Op? && NamesArrayPath(e.paths, schema)
    else if IsOperator(key) then false
    else IsArrayPath(schema, key)
  }

  /** Some top-level entry of `u` touches an array. */
  predicate TouchesArray(u: Update, schema: Schema)
  {
    exists key :: key in u && EntryTouchesArray(key, u[key], schema)
  }

  /** Looks up the paths of an operator's sub-map one at a time. */
  method ScanPaths(paths: map<string, Value>, schema: Schema) returns (hit: bool)
    ensures hit <==> NamesArrayPath(paths, schema)
  {
    hit := false;
    var todo := paths.Keys;
    while todo != {} && !hit
      invariant todo <= paths.Keys
      invariant hit ==> NamesArrayPath(paths, schema)
      invariant !hit ==> forall p :: p in paths && p !in todo ==> !IsArrayPath(schema, p)
      decreases todo
    {
      var p :| p in todo;
      hit := IsArrayPath(schema, p);
      todo := todo - {p};
    }
  }

  /** Classifies one top-level entry. */
  method ScanEntry(key: string, e: Entry, schema: Schema) returns (hit: bool)
    ensures hit <==> EntryTouchesArray(key, e, schema)
  {
    if key in ArrayOperators {
      hit := e.Op? && |e.paths| > 0;
    } else if key == SetOp {
      if e.Op? {
        hit := ScanPaths(e.paths, schema);
      } else {
        hit := false;
      }
    } else if IsOperator(key) {
      hit := false;
    } else {
      hit := IsArrayPath(schema, key);
    }
  }

  /** Visits the top-level keys of `u` until one touches an array. */
  method ScanUpdate(u: Update, schema: Schema) returns (hit: bool)
    ensures hit <==> TouchesArray(u, schema)
  {
    hit := false;
    var todo := u.Keys;
    while todo != {} && !hit
      invariant todo <= u.Keys
      invariant hit ==> TouchesArray(u, schema)
      invariant !hit ==> forall k :: k in u && k !in todo ==> !EntryTouchesArray(k, u[k], schema)
      decreases todo
    {
      var key :| key in todo;
      hit := ScanEntry(key, u[key], schema);
      todo := todo - {key};
    }
  }
}
