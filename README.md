# Update versioning, modelled in Dafny

A model of the update-versioning rewrite of `mongoose-update-versioning`.
The plugin hooks Mongoose's update-style queries (`findOneAndUpdate`, `update`,
`updateOne`, `updateMany` and `replaceOne`) and rewrites each query's update
payload before it is sent, through `applyVersioning(update, options, schema)`:

1. When the `version` option is `false`, it returns `false` and leaves the update alone.
2. Otherwise it strips every direct write of the version field (`__v` by default):
   a bare top-level `__v`, and `__v` inside `$set`.
3. With `overwrite` (a whole-document replacement; `replaceOne` forces it) it sets
   top-level `__v` to `0` and returns `true`.
4. Otherwise, when the update touches an array-typed path, it adds
   `$inc: { __v: 1 }` and returns `true`; if not, it returns `false`.
   The stripping of step 2 stays in effect either way.

The implementation file `lib/applyVersioning.js` is not part of this model. Its behaviour is
fixed here by the before/after cases of `test/unit.test.js` and, beyond them,
by these assumptions of the model:
- An array operator (`$push`, `$pull`, `$addToSet`, `$pop`, `$pullAll`) that names a path always counts as touching an array.
- `$set` paths and bare top-level fields (an implicit `$set`) are looked up in the schema.
- Every other operator is ignored.

Files:

- `updates.dfy` (module `Updates`): values, update entries (`Op(paths)` for an
  operator's sub-map, `Bare(value)` for a field assignment), the update payload as a
  `map`, the schema as a path -> is-array `map`, the options and the operator names.
  A top-level key is an operator when it starts with `$`, as in MongoDB.
- `classifier.dfy` (module `Classifier`): the predicate `TouchesArray` and the
  loops that compute it key by key and path by path.
- `versioning.dfy` (module `VersionRewriter`): the rewrite as a function
  (`Versioning`, built from `StripVersionKey` and `WithIncrement`), and the in-place
  method `ApplyVersioning` on a mutable `UpdateDoc`, proved equal to it.
- `properties.dfy` (module `VersioningProperties`): what the rewrite promises for every update.
- `unit_cases.dfy` (module `UnitCases`): the nine unit cases, each run through the in-place method.

## Model

| member | source | states |
|---|---|---|
| `Classifier.ScanPaths` | test/unit.test.js:32-44 | the path-by-path lookup answers true exactly when some path of the operator's sub-map is array-typed in the schema |
| `Classifier.ScanUpdate` | test/unit.test.js:25-58 | the key-by-key scan answers true exactly when some top-level entry of the update touches an array |
| `VersionRewriter.StripVersionKey` | test/unit.test.js:39-65 | afterwards no bare version key and no version key inside `$set` remain; an update without such writes is returned as it was; every other key and every other `$set` path is kept with its value; a canonically encoded update stays canonical |
| `VersionRewriter.WithIncrement` | test/unit.test.js:25-30 | `$inc.__v` is 1 afterwards and is the only counter added: the counters are exactly the caller's plus `__v`, each other one keeping its value; `$inc` is the only top-level key that may be added, every other key keeps its entry, and a canonically encoded update stays canonical |
| `VersionRewriter.Versioning` | test/unit.test.js:18-82 | with `version` false the update passes through unchanged with `false`; in every case no key other than `__v` and `$inc` is added, and every key other than `__v`, `$set` and `$inc` is kept with its entry |
| `VersionRewriter.ApplyVersioning` | test/unit.test.js:18-82 | the in-place rewrite leaves the payload equal to `Versioning`'s update and returns its flag |
| `VersioningProperties.StripOnlyRemovesTouch` | test/unit.test.js:39-65 | stripping the version key never makes an update touch an array |
| `VersioningProperties.StripKeepsTouch` | test/unit.test.js:39-44 | when the version field is a non-array field, stripping it does not change whether the update touches an array |
| `VersioningProperties.IncrementKeepsTouch` | test/unit.test.js:25-30 | adding `$inc.__v` does not change whether the update touches an array |
| `VersioningProperties.ChangedIff` | test/unit.test.js:18-82 | the call reports a change if and only if `version` is on and the update either is a replacement or touches an array-typed path |
| `VersioningProperties.NoForgedVersion` | test/unit.test.js:39-65 | with `version` on and a canonically encoded update, the result is canonical, `$set` holds no version key afterwards, and a top-level version key survives only as the reset to 0 under `overwrite` |
| `VersioningProperties.OverwriteResetsVersion` | test/unit.test.js:77-82 | with `overwrite` the call reports a change, top-level `__v` is exactly 0 and `$inc` is as it was (no increment is added) |
| `VersioningProperties.ChangeIsIncrement` | test/unit.test.js:25-58 | without `overwrite`, a reported change means `$inc` holds exactly the caller's counters plus `__v`, with `__v` equal to 1 and every other counter unchanged; no change means `$inc` is as it was |
| `VersioningProperties.ArrayOperatorIncrements` | test/unit.test.js:25-30 | an array operator naming a path forces a change with `$inc.__v` equal to 1, and the operator's entry is kept unchanged |
| `VersioningProperties.SetArrayPathIncrements` | test/unit.test.js:32-44 | a `$set` of an array-typed path forces a change with `$inc.__v` equal to 1, and that `$set` assignment survives |
| `VersioningProperties.BareArrayFieldIncrements` | test/unit.test.js:46-51 | a bare assignment to an array-typed field forces a change with `$inc.__v` equal to 1, and the assignment is kept |
| `VersioningProperties.StripKeepsOtherSetPaths` | test/unit.test.js:39-44 | every `$set` path other than the version key survives with its value |
| `VersioningProperties.VersioningKeepsCanonical` | test/unit.test.js:18-82 | the rewrite never turns a canonically encoded update into one with a `Bare` document under an operator key |
| `VersioningProperties.NonArrayUpdateOnlyStripped` | test/unit.test.js:53-65 | an update that touches no array path reports no change, only loses its version-field writes, and is left exactly as it was when it had none |
| `VersioningProperties.VersioningIdempotent` | test/unit.test.js:18-82 | running the rewrite on its own output gives the same update and the same flag |
| `UnitCases.NoOpIfVersionFalse` | test/unit.test.js:18-23 | `{ $push: { tags: 'foo' } }` with `version: false`: returns false, update unchanged |
| `UnitCases.IncsOnPush` | test/unit.test.js:25-30 | `$push` on `tags`: returns true, update becomes `{ $push: { tags: 'foo' }, $inc: { __v: 1 } }` |
| `UnitCases.IncsOnSet` | test/unit.test.js:32-37 | `$set` of `tags`: returns true, `$inc: { __v: 1 }` added |
| `UnitCases.RemovesSetOnVersionKey` | test/unit.test.js:39-44 | `$set` of `tags` and `__v`: returns true, `__v` removed from `$set`, `tags` kept, `$inc: { __v: 1 }` added |
| `UnitCases.IncsOnImplicitSet` | test/unit.test.js:46-51 | bare `tags`: returns true, `$inc: { __v: 1 }` added |
| `UnitCases.NoOpIfNoArrayUpdated` | test/unit.test.js:53-58 | bare `name`: returns false, update unchanged |
| `UnitCases.DeletesTopLevelVersionKey` | test/unit.test.js:60-65 | bare `name` and `__v`: returns false, `__v` deleted, `name` kept |
| `UnitCases.AddsIfPullOnDocArray` | test/unit.test.js:67-75 | `$pull` on the sub-document array `colors`: returns true, `$inc: { __v: 1 }` added |
| `UnitCases.SetsToZeroIfOverwrite` | test/unit.test.js:77-82 | bare `name` with `overwrite: true`: returns true, update becomes `{ name: 'foo', __v: 0 }` |

## Left out

- `lib/index.js` registers the hook on five query kinds and forces `overwrite` for `replaceOne`. This is glue over Mongoose's middleware API. Here `overwrite` is simply an input flag.
- `test/examples.test.js` runs against a live MongoDB. It observes stored documents, not the rewrite, so it is not modelled.
- Mongoose schema introspection is replaced by an explicit path -> is-array map (`Fixture` holds the unit tests' schema). Nested paths such as `colors.0.hex` are looked up by exact key only.
- Absent options are modelled by their defaults: `version` true, `overwrite` false, `versionKey` `"__v"`. JavaScript truthiness of other option values is not modelled.
- Field values are opaque. They are only compared for equality, and their inner structure is never examined.
- The JSON object is modelled as a value map held in one mutable field. Whether the nested `$set` object is changed in place or replaced is not observable in the unit cases. The model assumes a fresh value and does not capture aliasing. Key order is not modelled either.
- The tests pin only `$push`, `$pull`, `$set` and bare fields. The treatment of `$addToSet`, `$pop` and `$pullAll` as array operators is an assumption of this model, not pinned by a test.
- StripVersionKey: when removing the version key empties `$set`, the model drops `$set` entirely. No test shows this case.
- WithIncrement: if the caller's `$inc` holds a scalar rather than an object (a malformed update), the model replaces it by `{ __v: 1 }`. What JavaScript does with such an update is not pinned down by any test.
- A JSON object under an operator key has two encodings in `Entry`: `Op(paths)` and `Bare(Doc(paths))`. The predicate `Updates.Canonical` rules out the second, and NoForgedVersion and ChangeIsIncrement require it. On a non-canonical update, a `Bare` document under `$set` is neither stripped nor counted as a `$set`. `VersioningKeepsCanonical` shows that the rewrite itself never produces one.
- A caller-supplied `$inc.__v` is set to 1 when the increment is added. On the no-change and overwrite paths it is kept as written, so an overwrite can carry both `__v: 0` and the caller's `$inc.__v`. No test pins this case.
- ChangedIff, NoForgedVersion, OverwriteResetsVersion, ChangeIsIncrement and the other general lemmas assume that the version key is a field name, not a `$` operator. `ChangedIff` and `StripKeepsTouch` also assume that the schema does not mark the version key as an array.
