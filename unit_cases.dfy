/**
 The unit cases of `applyVersioning`: each builds an update payload, runs the
 in-place rewrite on it and states the flag and the payload afterwards.
 */
module UnitCases {
  import opened Updates
  import opened Classifier
  import opened VersionRewriter

  /** The test schema: `name` is a string, `tags` an array of strings and
      `colors` an array of `{ hex }` sub-documents. */
  const Fixture: Schema := map["name" := false, "tags" := true, "colors" := true]

  function Versioned(): Options { Options(true, false, DefaultVersionKey) }
  function Unversioned(): Options { Options(false, false, DefaultVersionKey) }
  function Replacing(): Options { Options(true, true, DefaultVersionKey) }

  /** `{ $inc: { __v: 1 } }`'s entry. */
  function IncrementEntry(): Entry { Op(map[DefaultVersionKey := Num(1)]) }

  function FooTags(): Value { Arr([Str("foo")]) }

  method NoOpIfVersionFalse() returns (changed: bool, after: Update)
    ensures !changed
    ensures after == map["$push" := Op(map["tags" := Str("foo")])]
  {
    var u := new UpdateDoc(map["$push" := Op(map["tags" := Str("foo")])]);
    changed := ApplyVersioning(u, Unversioned(), Fixture);
    after := u.entries;
  }

  method IncsOnPush() returns (changed: bool, after: Update)
    ensures changed
    ensures after == map["$push" := Op(map["tags" := Str("foo")]), IncOp := IncrementEntry()]
  {
    var before := map["$push" := Op(map["tags" := Str("foo")])];
    var u := new UpdateDoc(before);
    assert EntryTouchesArray("$push", before["$push"], Fixture);
    changed := ApplyVersioning(u, Versioned(), Fixture);
    after := u.entries;
  }

  method IncsOnSet() returns (changed: bool, after: Update)
    ensures changed
    ensures after == map[SetOp := Op(map["tags" := FooTags()]), IncOp := IncrementEntry()]
  {
    var before := map[SetOp := Op(map["tags" := FooTags()])];
    var u := new UpdateDoc(before);
    changed := ApplyVersioning(u, Versioned(), Fixture);
    after := u.entries;
  }

  method RemovesSetOnVersionKey() returns (changed: bool, after: Update)
    ensures changed
    ensures after == map[SetOp := Op(map["tags" := FooTags()]), IncOp := IncrementEntry()]
  {
    var before := map[SetOp := Op(map["tags" := FooTags(), DefaultVersionKey := Num(42)])];
    var stripped := map[SetOp := Op(map["tags" := FooTags()])];
    var u := new UpdateDoc(before);
    assert StripVersionKey(before, DefaultVersionKey) == stripped by {
      assert before - {DefaultVersionKey} == before;
      assert map["tags" := FooTags(), DefaultVersionKey := Num(42)] - {DefaultVersionKey} == map["tags" := FooTags()];
    }
    assert EntryTouchesArray(SetOp, stripped[SetOp], Fixture) by {
      assert IsArrayPath(Fixture, "tags");
    }
    changed := ApplyVersioning(u, Versioned(), Fixture);
    after := u.entries;
  }

  method IncsOnImplicitSet() returns (changed: bool, after: Update)
    ensures changed
    ensures after == map["tags" := Bare(FooTags()), IncOp := IncrementEntry()]
  {
    var before := map["tags" := Bare(FooTags())];
    var u := new UpdateDoc(before);
    assert EntryTouchesArray("tags", before["tags"], Fixture);
    changed := ApplyVersioning(u, Versioned(), Fixture);
    after := u.entries;
  }

  method NoOpIfNoArrayUpdated() returns (changed: bool, after: Update)
    ensures !changed
    ensures after == map["name" := Bare(Str("foo"))]
  {
    var before := map["name" := Bare(Str("foo"))];
    var u := new UpdateDoc(before);
    changed := ApplyVersioning(u, Versioned(), Fixture);
    after := u.entries;
  }

  method DeletesTopLevelVersionKey() returns (changed: bool, after: Update)
    ensures !changed
    ensures after == map["name" := Bare(Str("foo"))]
  {
    var before := map["name" := Bare(Str("foo")), DefaultVersionKey := Bare(Num(42))];
    var stripped := map["name" := Bare(Str("foo"))];
    var u := new UpdateDoc(before);
    assert StripVersionKey(before, DefaultVersionKey) == stripped by {
      assert before - {DefaultVersionKey} == stripped;
    }
    changed := ApplyVersioning(u, Versioned(), Fixture);
    after := u.entries;
  }

  method AddsIfPullOnDocArray() returns (changed: bool, after: Update)
    ensures changed
    ensures after == map["$pull" := Op(map["colors" := Doc(map["hex" := Str("ffd700")])]),
                         IncOp := IncrementEntry()]
  {
    var before := map["$pull" := Op(map["colors" := Doc(map["hex" := Str("ffd700")])])];
    var u := new UpdateDoc(before);
    assert EntryTouchesArray("$pull", before["$pull"], Fixture);
    changed := ApplyVersioning(u, Versioned(), Fixture);
    after := u.entries;
  }

  method SetsToZeroIfOverwrite() returns (changed: bool, after: Update)
    ensures changed
    ensures after == map["name" := Bare(Str("foo")), DefaultVersionKey := Bare(Num(0))]
  {
    var u := new UpdateDoc(map["name" := Bare(Str("foo"))]);
    changed := ApplyVersioning(u, Replacing(), Fixture);
    after := u.entries;
  }
}
