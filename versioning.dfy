/**
 The update-versioning rewrite. Unless versioning is switched off for the
 query, it strips every direct write of the version field from the update,
 then either resets the version to 0 (whole-document replacement) or, when
 the update touches an array-typed path, adds `$inc: { <versionKey>: 1 }`.
 The update is changed in place and the call answers whether it applied a
 version change.
 */
module VersionRewriter {
  import opened Updates
  import opened Classifier

  /** The result of a versioning call: the rewritten update and the flag. */
  datatype Outcome = Outcome(update: Update, changed: bool)

  /** `u` writes the version field `vk` directly: as a bare key or inside `$set`. */
  predicate WritesVersionKey(u: Update, vk: string)
  {
    vk in u || (SetOp in u && u[SetOp].Op? && vk in u[SetOp].paths)
  }

  /** Removes the direct writes of `vk`; a `$set` left empty by that removal goes too. */
  function StripVersionKey(u: Update, vk: string): (r: Update)
    ensures !WritesVersionKey(r, vk)
    ensures !WritesVersionKey(u, vk) ==> r == u
    ensures Canonical(u) ==> Canonical(r)
    ensures r.Keys <= u.Keys
    ensures forall k :: k in u && k != vk && k != SetOp ==> k in r && r[k] == u[k]
    ensures SetOp in r ==> r[SetOp].Op? == u[SetOp].Op?
    ensures SetOp in r && r[SetOp].Op? ==> r[SetOp].paths.Keys <= u[SetOp].paths.Keys
    ensures SetOp in r && r[SetOp].Op? ==>
              forall p :: p in r[SetOp].paths ==> r[SetOp].paths[p] == u[SetOp].paths[p]
    ensures vk != SetOp && SetOp in u && u[SetOp].Op? ==>
              forall p :: p in u[SetOp].paths && p != vk ==>
                SetOp in r && r[SetOp].Op? && p in r[SetOp].paths
  {
    var top := u - {vk};
    if SetOp in top && top[SetOp].Op? && vk in top[SetOp].paths then
      var rest := top[SetOp].paths - {vk};
      if |rest| == 0 then top - {SetOp} else top[SetOp := Op(rest)]
    else
      top
  }

  /** The counters the caller's `$inc` already holds (none when there is no `$inc` map). */
  function Counters(u: Update): map<string, Value>
  {
    if IncOp in u && u[IncOp].Op? then u[IncOp].paths else map[]
  }

  /** Sets `$inc.<vk>` to 1, creating the `$inc` operator when there is none. */
  function WithIncrement(u: Update, vk: string): (r: Update)
    ensures IncOp in r && r[IncOp].Op? && vk in r[IncOp].paths && r[IncOp].paths[vk] == Num(1)
    // the version counter is the only one added; the caller's others keep their values
    ensures r[IncOp].paths.Keys == Counters(u).Keys + {vk}
    ensures forall p :: p in Counters(u) && p != vk ==> r[IncOp].paths[p] == Counters(u)[p]
    ensures r.Keys == u.Keys + {IncOp}
    ensures forall k :: k in u && k != IncOp ==> r[k] == u[k]
    ensures Canonical(u) ==> Canonical(r)
  {
    u[IncOp := Op(Counters(u)[vk := Num(1)])]
  }

  /** The rewrite `applyVersioning` performs, as a function of its inputs. */
  function Versioning(u: Update, opts: Options, schema: Schema): (r: Outcome)
    // versioning switched off: a full pass-through
    ensures !opts.version ==> r == Outcome(u, false)
    // no other key is added, and every key other than the three it manages is kept as it was
    ensures forall k :: k in r.update ==> k in u || k == opts.versionKey || k == IncOp
    ensures forall k :: k in u && k != opts.versionKey && k != SetOp && k != IncOp ==>
              k in r.update && r.update[k] == u[k]
  {
    if !opts.version then
      Outcome(u, false)
    else
      var vk := opts.versionKey;
      var stripped := StripVersionKey(u, vk);
      if opts.overwrite then
        Outcome(stripped[vk := Bare(Num(0))], true)
      else if TouchesArray(stripped, schema) then
        Outcome(WithIncrement(stripped, vk), true)
      else
        Outcome(stripped, false)
  }

  /** The update payload of a query, which the hook rewrites in place. */
  class UpdateDoc {
    var entries: Update

    constructor (entries: Update)
      ensures this.entries == entries
    {
      this.entries := entries;
    }
  }

  /** The in-place rewrite: strip, then reset or increment the version. */
  method ApplyVersioning(u: UpdateDoc, opts: Options, schema: Schema) returns (changed: bool)
    modifies u
    ensures u.entries == Versioning(old(u.entries), opts, schema).update
    ensures changed == Versioning(old(u.entries), opts, schema).changed
  {
    if !opts.version {
      return false;
    }
    var vk := opts.versionKey;
    // strip phase: a bare version key, then one inside `$set`
    u.entries := u.entries - {vk};
    if SetOp in u.entries && u.entries[SetOp].Op? && vk in u.entries[SetOp].paths {
      var rest := u.entries[SetOp].paths - {vk};
      if |rest| == 0 {
        u.entries := u.entries - {SetOp};
      } else {
        u.entries := u.entries[SetOp := Op(rest)];
      }
    }
    ghost var stripped := u.entries;
    assert stripped == StripVersionKey(old(u.entries), vk);
    if opts.overwrite {
      u.entries := u.entries[vk := Bare(Num(0))];
      return true;
    }
    changed := ScanUpdate(u.entries, schema);
    if changed {
      var counters := Counters(u.entries);
      u.entries := u.entries[IncOp := Op(counters[vk := Num(1)])];
    }
  }
}
