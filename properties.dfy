/**
 What the versioning rewrite promises, for every update: when it reports a
 change, what it adds, what it strips and what it leaves alone.
 */
module VersioningProperties {
  import opened Updates
  import opened Classifier
  import opened VersionRewriter

  /** Every operator the rewrite names starts with `$`, so no field name is one of them. */
  lemma ArrayOperatorsAreOperators(key: string)
    requires !IsOperator(key)
    ensures key !in ArrayOperators && key != SetOp && key != IncOp
  {
  }

  /** An array operator is neither `$set`, `$inc` nor a field name. */
  lemma ArrayOperatorIsNoOtherKey(op: string, vk: string)
    requires op in ArrayOperators && !IsOperator(vk)
    ensures op != vk && op != SetOp && op != IncOp
  {
  }

  /** The branch of the rewrite taken when the stripped update touches an array. */
  lemma IncrementBranch(u: Update, opts: Options, schema: Schema)
    requires opts.version && !opts.overwrite
    requires TouchesArray(StripVersionKey(u, opts.versionKey), schema)
    ensures Versioning(u, opts, schema) ==
              Outcome(WithIncrement(StripVersionKey(u, opts.versionKey), opts.versionKey), true)
  {
  }

  /** Stripping only removes paths, so it never makes an update touch an array. */
  lemma StripOnlyRemovesTouch(u: Update, vk: string, schema: Schema)
    ensures TouchesArray(StripVersionKey(u, vk), schema) ==> TouchesArray(u, schema)
  {
  }

  /** A `$set` naming an array path other than the version field still does so after stripping. */
  lemma StripKeepsSetTouch(u: Update, vk: string, schema: Schema, p: string)
    requires !IsOperator(vk) && !IsArrayPath(schema, vk)
    requires SetOp in u && u[SetOp].Op? && p in u[SetOp].paths && IsArrayPath(schema, p)
    ensures var s := StripVersionKey(u, vk);
            SetOp in s && EntryTouchesArray(SetOp, s[SetOp], schema)
  {
    ArrayOperatorsAreOperators(vk);
    var s := StripVersionKey(u, vk);
    assert SetOp in s && s[SetOp].Op? && p in s[SetOp].paths;
  }

  /** When the version field is a plain, non-array field, stripping it does not
      change whether the update touches an array. */
  lemma StripKeepsTouch(u: Update, vk: string, schema: Schema)
    requires !IsOperator(vk) && !IsArrayPath(schema, vk)
    ensures TouchesArray(StripVersionKey(u, vk), schema) <==> TouchesArray(u, schema)
  {
    StripOnlyRemovesTouch(u, vk, schema);
    if TouchesArray(u, schema) {
      var k :| k in u && EntryTouchesArray(k, u[k], schema);
      if k == SetOp {
        var p :| p in u[SetOp].paths && IsArrayPath(schema, p);
        StripKeepsSetTouch(u, vk, schema, p);
      } else {
        ArrayOperatorsAreOperators(vk);
        var s := StripVersionKey(u, vk);
        assert k != vk && s[k] == u[k];
      }
    }
  }

  /** The `$inc` operator is ignored by the classifier. */
  lemma IncrementKeepsTouch(u: Update, vk: string, schema: Schema)
    ensures TouchesArray(WithIncrement(u, vk), schema) <==> TouchesArray(u, schema)
  {
  }

  /** The call reports a change exactly when versioning is on and the update
      either replaces the whole document or touches an array-typed path. */
  lemma ChangedIff(u: Update, opts: Options, schema: Schema)
    requires !IsOperator(opts.versionKey) && !IsArrayPath(schema, opts.versionKey)
    ensures Versioning(u, opts, schema).changed <==>
              opts.version && (opts.overwrite || TouchesArray(u, schema))
  {
    if opts.version && !opts.overwrite {
      StripKeepsTouch(u, opts.versionKey, schema);
    }
  }

  /** With versioning on, no direct write of the version field survives except
      the reset to 0 that a whole-document replacement puts there. */
  lemma NoForgedVersion(u: Update, opts: Options, schema: Schema)
    requires opts.version && !IsOperator(opts.versionKey) && Canonical(u)
    ensures var r := Versioning(u, opts, schema);
            var vk := opts.versionKey;
            && Canonical(r.update)
            && (SetOp in r.update && r.update[SetOp].Op? ==> vk !in r.update[SetOp].paths)
            && (vk in r.update ==> opts.overwrite && r.update[vk] == Bare(Num(0)))
  {
  }

  /** Whole-document replacement always resets the version to exactly 0 and adds no increment. */
  lemma OverwriteResetsVersion(u: Update, opts: Options, schema: Schema)
    requires opts.version && opts.overwrite && !IsOperator(opts.versionKey)
    ensures var r := Versioning(u, opts, schema);
            && r.changed
            && opts.versionKey in r.update && r.update[opts.versionKey] == Bare(Num(0))
            && (IncOp in r.update <==> IncOp in u)
            && (IncOp in u ==> r.update[IncOp] == u[IncOp])
  {
  }

  /** Without overwrite, a reported change adds exactly the counter
      `$inc.<versionKey> = 1` to the caller's counters; no change leaves `$inc` as it was. */
  lemma ChangeIsIncrement(u: Update, opts: Options, schema: Schema)
    requires opts.version && !opts.overwrite && !IsOperator(opts.versionKey) && Canonical(u)
    ensures var r := Versioning(u, opts, schema);
            var vk := opts.versionKey;
            && (r.changed ==> IncOp in r.update && r.update[IncOp].Op? &&
                              r.update[IncOp].paths.Keys == Counters(u).Keys + {vk} &&
                              r.update[IncOp].paths[vk] == Num(1) &&
                              forall p :: p in Counters(u) && p != vk ==>
                                r.update[IncOp].paths[p] == Counters(u)[p])
            && (!r.changed ==> (IncOp in r.update <==> IncOp in u) &&
                               (IncOp in u ==> r.update[IncOp] == u[IncOp]))
  {
  }

  /** An array operator naming at least one path forces the increment and is kept as it was.
      Only `$push` and `$pull` are pinned by the unit cases; `$addToSet`, `$pop` and
      `$pullAll` follow from this model's choice of `ArrayOperators`. */
  lemma ArrayOperatorIncrements(u: Update, opts: Options, schema: Schema, op: string)
    requires opts.version && !opts.overwrite && !IsOperator(opts.versionKey)
    requires op in ArrayOperators && op in u && u[op].Op? && |u[op].paths| > 0
    ensures var r := Versioning(u, opts, schema);
            && r.changed
            && IncOp in r.update && r.update[IncOp].Op? && r.update[IncOp].paths[opts.versionKey] == Num(1)
            && op in r.update && r.update[op] == u[op]
  {
    var vk := opts.versionKey;
    var s := StripVersionKey(u, vk);
    ArrayOperatorIsNoOtherKey(op, vk);
    assert s[op] == u[op];
    assert TouchesArray(s, schema) by {
      assert EntryTouchesArray(op, s[op], schema);
    }
    IncrementBranch(u, opts, schema);
  }

  /** Assigning an array-typed path through `$set` forces the increment and keeps the assignment. */
  lemma SetArrayPathIncrements(u: Update, opts: Options, schema: Schema, path: string)
    requires opts.version && !opts.overwrite && !IsOperator(opts.versionKey)
    requires SetOp in u && u[SetOp].Op? && path in u[SetOp].paths
    requires path != opts.versionKey && IsArrayPath(schema, path)
    ensures var r := Versioning(u, opts, schema);
            && r.changed
            && IncOp in r.update && r.update[IncOp].Op? && r.update[IncOp].paths[opts.versionKey] == Num(1)
            && SetOp in r.update && r.update[SetOp].Op? && path in r.update[SetOp].paths
            && r.update[SetOp].paths[path] == u[SetOp].paths[path]
  {
  }

  /** A bare assignment to an array-typed field (an implicit `$set`) forces the
      increment and keeps the assignment. */
  lemma BareArrayFieldIncrements(u: Update, opts: Options, schema: Schema, field: string)
    requires opts.version && !opts.overwrite && !IsOperator(opts.versionKey)
    requires !IsOperator(field) && field != opts.versionKey && field in u && IsArrayPath(schema, field)
    ensures var r := Versioning(u, opts, schema);
            && r.changed
            && IncOp in r.update && r.update[IncOp].Op? && r.update[IncOp].paths[opts.versionKey] == Num(1)
            && field in r.update && r.update[field] == u[field]
  {
  }

  /** After the rewrite, `$set` is whatever stripping left of it. */
  lemma SetEntryAfterVersioning(u: Update, opts: Options, schema: Schema)
    requires opts.version && !IsOperator(opts.versionKey)
    ensures var r := Versioning(u, opts, schema);
            var s := StripVersionKey(u, opts.versionKey);
            && (SetOp in r.update <==> SetOp in s)
            && (SetOp in s ==> r.update[SetOp] == s[SetOp])
  {
    var vk := opts.versionKey;
    ArrayOperatorsAreOperators(vk);
    var s := StripVersionKey(u, vk);
    if !opts.overwrite && TouchesArray(s, schema) {
      IncrementBranch(u, opts, schema);
    }
  }

  /** Removing the version key from `$set` keeps every other `$set` entry. */
  lemma StripKeepsOtherSetPaths(u: Update, opts: Options, schema: Schema)
    requires opts.version && !IsOperator(opts.versionKey)
    requires SetOp in u && u[SetOp].Op?
    ensures var r := Versioning(u, opts, schema);
            forall p :: p in u[SetOp].paths && p != opts.versionKey ==>
              SetOp in r.update && r.update[SetOp].Op? && p in r.update[SetOp].paths &&
              r.update[SetOp].paths[p] == u[SetOp].paths[p]
  {
    var vk := opts.versionKey;
    ArrayOperatorsAreOperators(vk);
    var s := StripVersionKey(u, vk);
    var r := Versioning(u, opts, schema);
    SetEntryAfterVersioning(u, opts, schema);
    forall p | p in u[SetOp].paths && p != vk
      ensures SetOp in r.update && r.update[SetOp].Op? && p in r.update[SetOp].paths &&
              r.update[SetOp].paths[p] == u[SetOp].paths[p]
    {
      assert SetOp in s && s[SetOp].Op? && p in s[SetOp].paths;
    }
  }

  /** An update that touches no array path reports no change: it only loses its
      version-field writes, and is untouched when it had none. */
  lemma NonArrayUpdateOnlyStripped(u: Update, opts: Options, schema: Schema)
    requires opts.version && !opts.overwrite && !TouchesArray(u, schema)
    ensures var r := Versioning(u, opts, schema);
            && !r.changed
            && r.update == StripVersionKey(u, opts.versionKey)
            && (!WritesVersionKey(u, opts.versionKey) ==> r.update == u)
  {
  }

  /** The rewrite keeps the one-encoding-per-payload invariant. */
  lemma VersioningKeepsCanonical(u: Update, opts: Options, schema: Schema)
    requires Canonical(u)
    ensures Canonical(Versioning(u, opts, schema).update)
  {
  }

  /** Re-stripping a reset update gives back the stripped update. */
  lemma StripAfterReset(s: Update, vk: string)
    requires !IsOperator(vk) && !WritesVersionKey(s, vk)
    ensures StripVersionKey(s[vk := Bare(Num(0))], vk) == s
  {
  }

  /** An incremented update writes no version field and is its own increment. */
  lemma IncrementIsStable(s: Update, vk: string)
    requires !IsOperator(vk) && !WritesVersionKey(s, vk)
    ensures !WritesVersionKey(WithIncrement(s, vk), vk)
    ensures WithIncrement(WithIncrement(s, vk), vk) == WithIncrement(s, vk)
  {
    ArrayOperatorsAreOperators(vk);
    var out := WithIncrement(s, vk);
    assert SetOp in out ==> out[SetOp] == s[SetOp];
    var counters := out[IncOp].paths;
    assert counters[vk := Num(1)] == counters;
  }

  /** Versioning an already versioned update changes nothing more. */
  lemma VersioningIdempotent(u: Update, opts: Options, schema: Schema)
    requires !IsOperator(opts.versionKey)
    ensures var r := Versioning(u, opts, schema);
            Versioning(r.update, opts, schema) == r
  {
    if opts.version {
      var vk := opts.versionKey;
      var s := StripVersionKey(u, vk);
      if opts.overwrite {
        StripAfterReset(s, vk);
      } else if TouchesArray(s, schema) {
        IncrementBranch(u, opts, schema);
        var out := WithIncrement(s, vk);
        IncrementIsStable(s, vk);
        IncrementKeepsTouch(s, vk, schema);
        assert StripVersionKey(out, vk) == out;
        IncrementBranch(out, opts, schema);
      }
    }
  }
}
