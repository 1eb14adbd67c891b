/** The difference of two JSON values as it is stored in the audit log. */
module AuditChanges {
  import opened Wrappers

  datatype Json =
    | Null
    | Bool(b: bool)
    | Number(digits: string)
    | Text(text: string)
    | List(items: seq<Json>)
    | Object(fields: map<string, Json>)

  /* What stands for a field that does not exist. */
  const MISSING: Json := Object(map["_missing" := Bool(true)])

  /* The changed parts, before and after. */
  datatype Changes = Changes(before: Json, after: Json)

  function FieldOf(v: map<string, Json>, k: string): Json { if k in v then v[k] else MISSING }

  /* The changes of one field that at least one side has. */
  function FieldDiff(a: Json, b: Json, k: string): Option<Changes>
    requires a.Object? && b.Object? && (k in a.fields || k in b.fields)
    decreases a, 0
  {
    if k in a.fields && k in b.fields then Diff(a.fields[k], b.fields[k])
    else Some(Changes(FieldOf(a.fields, k), FieldOf(b.fields, k)))
  }

  function ChangedKeys(a: Json, b: Json): set<string>
    requires a.Object? && b.Object?
    decreases a, 1
  {
    set k | k in a.fields.Keys + b.fields.Keys && FieldDiff(a, b, k).Some?
  }

  function Diff(a: Json, b: Json): Option<Changes>
    decreases a, 2
  {
    if a.Object? && b.Object? then
      var changed := ChangedKeys(a, b);
      if changed == {} then None
      else Some(Changes(Object(map k | k in changed :: FieldDiff(a, b, k).value.before),
                        Object(map k | k in changed :: FieldDiff(a, b, k).value.after)))
    else if a == b then None
    else Some(Changes(a, b))
  }

  lemma ChangedKeyIff(a: Json, b: Json, k: string)
    requires a.Object? && b.Object?
    ensures k in ChangedKeys(a, b) <==> (k in a.fields || k in b.fields) && FieldDiff(a, b, k).Some?
  {
  }

  /* The sides of the changes after some of the fields. */
  ghost predicate Collected(a: Json, b: Json, keys: set<string>, before: map<string, Json>, after: map<string, Json>)
    requires a.Object? && b.Object?
  {
    && before.Keys == after.Keys == ChangedKeys(a, b) * keys
    && forall k | k in before :: k in ChangedKeys(a, b) &&
         before[k] == FieldDiff(a, b, k).value.before && after[k] == FieldDiff(a, b, k).value.after
  }

  lemma CollectNext(a: Json, b: Json, keys: set<string>, k: string, before: map<string, Json>, after: map<string, Json>)
    requires a.Object? && b.Object? && (k in a.fields || k in b.fields) && k !in keys && Collected(a, b, keys, before, after)
    ensures FieldDiff(a, b, k).None? ==> Collected(a, b, keys + {k}, before, after)
    ensures FieldDiff(a, b, k).Some? ==>
              Collected(a, b, keys + {k}, before[k := FieldDiff(a, b, k).value.before], after[k := FieldDiff(a, b, k).value.after])
  {
    ChangedKeyIff(a, b, k);
  }

  lemma CollectedIsDiff(a: Json, b: Json, before: map<string, Json>, after: map<string, Json>)
    requires a.Object? && b.Object? && Collected(a, b, a.fields.Keys + b.fields.Keys, before, after)
    ensures Diff(a, b) == if before.Keys == {} then None else Some(Changes(Object(before), Object(after)))
  {
    assert ChangedKeys(a, b) * (a.fields.Keys + b.fields.Keys) == ChangedKeys(a, b);
    if before.Keys != {} {
      assert Diff(a, b).value.before.fields == before;
      assert Diff(a, b).value.after.fields == after;
    }
  }

  lemma NothingCollected(a: Json, b: Json)
    requires a.Object? && b.Object?
    ensures Collected(a, b, {}, map[], map[])
  {
  }

  lemma DiffOfOthers(a: Json, b: Json)
    requires !a.Object? || !b.Object?
    ensures Diff(a, b) == if a == b then None else Some(Changes(a, b))
  {
  }

  method ChangedField(a: Json, b: Json, k: string) returns (child: Option<Changes>)
    requires a.Object? && b.Object? && (k in a.fields || k in b.fields)
    ensures child == FieldDiff(a, b, k)
    decreases a, 0
  {
    if k in a.fields && k in b.fields {
      child := ChangedValue(a.fields[k], b.fields[k]);
    } else {
      child := Some(Changes(if k in a.fields then a.fields[k] else MISSING, if k in b.fields then b.fields[k] else MISSING));
    }
  }

  /* The loop over the fields of both sides. */
  method ChangedValue(a: Json, b: Json) returns (changes: Option<Changes>)
    ensures changes == Diff(a, b)
    decreases a, 1
  {
    hide Diff, FieldDiff, Collected;
    if !a.Object? || !b.Object? {
      DiffOfOthers(a, b);
      changes := if a == b then None else Some(Changes(a, b));
      return;
    }
    var before: map<string, Json>, after: map<string, Json> := map[], map[];
    var keys := a.fields.Keys + b.fields.Keys;
    var left := keys;
    NothingCollected(a, b);
    assert keys - left == {};
    while left != {}
      invariant left <= keys && Collected(a, b, keys - left, before, after)
      decreases |left|
    {
      var k :| k in left;
      var child := ChangedField(a, b, k);
      CollectNext(a, b, keys - left, k, before, after);
      assert keys - (left - {k}) == (keys - left) + {k};
      left := left - {k};
      if child.Some? { before, after := before[k := child.value.before], after[k := child.value.after]; }
    }
    assert keys - left == keys;
    CollectedIsDiff(a, b, before, after);
    changes := if before.Keys == {} then None else Some(Changes(Object(before), Object(after)));
  }

  /* There is no change exactly when the values are equal. */
  lemma {:induction false} NoChangeIffEqual(a: Json, b: Json)
    ensures Diff(a, b).None? <==> a == b
    decreases a
  {
    if a.Object? && b.Object? {
      forall k: string
        ensures k in ChangedKeys(a, b) <==>
                (k in a.fields || k in b.fields) && !(k in a.fields && k in b.fields && a.fields[k] == b.fields[k])
      {
        ChangedKeyIff(a, b, k);
        if k in a.fields && k in b.fields { NoChangeIffEqual(a.fields[k], b.fields[k]); }
      }
      if Diff(a, b).None? {
        forall k: string ensures (k in a.fields <==> k in b.fields) && (k in a.fields ==> a.fields[k] == b.fields[k]) {
          assert k !in ChangedKeys(a, b);
        }
        assert a.fields == b.fields;
      }
    }
  }

  predicate Swapped(c: Option<Changes>, d: Option<Changes>) {
    (c.Some? <==> d.Some?) && (c.Some? ==> d.value == Changes(c.value.after, c.value.before))
  }

  /* Exchanging the values exchanges the sides of the changes. */
  lemma {:induction false} DiffIsSymmetric(a: Json, b: Json)
    ensures Swapped(Diff(a, b), Diff(b, a))
    decreases a
  {
    if a.Object? && b.Object? {
      forall k | k in a.fields || k in b.fields ensures Swapped(FieldDiff(a, b, k), FieldDiff(b, a, k)) {
        if k in a.fields && k in b.fields { DiffIsSymmetric(a.fields[k], b.fields[k]); }
      }
      FieldsSwapped(a, b);
    }
  }

  lemma FieldsSwapped(a: Json, b: Json)
    requires a.Object? && b.Object?
    requires forall k | k in a.fields || k in b.fields :: Swapped(FieldDiff(a, b, k), FieldDiff(b, a, k))
    ensures Swapped(Diff(a, b), Diff(b, a))
  {
    forall k: string ensures k in ChangedKeys(a, b) <==> k in ChangedKeys(b, a) {
      ChangedKeyIff(a, b, k);
      ChangedKeyIff(b, a, k);
    }
    assert ChangedKeys(a, b) == ChangedKeys(b, a);
    if ChangedKeys(a, b) != {} {
      var c, d := Diff(a, b).value, Diff(b, a).value;
      assert d.before.fields == c.after.fields;
      assert d.after.fields == c.before.fields;
    }
  }

  // ---------- reading changes back ----------

  /* One field after the changes: removed, replaced, or changed inside. */
  function PatchedField(v: Json, changes: Json, k: string): Option<Json>
    requires v.Object? && changes.Object?
    decreases changes, 0
  {
    if k !in changes.fields then (if k in v.fields then Some(v.fields[k]) else None)
    else if changes.fields[k] == MISSING then None
    else if k in v.fields then Some(Patched(v.fields[k], changes.fields[k]))
    else Some(changes.fields[k])
  }

  /* A value with one side of some changes put in: how a reader of the log undoes or redoes them. */
  function Patched(v: Json, changes: Json): Json
    decreases changes, 1
  {
    if v.Object? && changes.Object?
    then Object(map k | k in v.fields.Keys + changes.fields.Keys && PatchedField(v, changes, k).Some? ::
                  PatchedField(v, changes, k).value)
    else changes
  }

  function AfterPut(a: Json, c: Option<Changes>): Json { if c.Some? then Patched(a, c.value.after) else a }

  function BeforePut(b: Json, c: Option<Changes>): Json { if c.Some? then Patched(b, c.value.before) else b }

  /* The later field is the mark of a missing one, or adds just the mark to the object that was there before. */
  predicate LooksMissing(a: Json, b: Json, k: string)
    requires a.Object? && b.Object? && k in b.fields
  {
    if k in a.fields && a.fields[k].Object?
    then a.fields[k] != b.fields[k] && b.fields[k] == Object(a.fields[k].fields["_missing" := Bool(true)])
    else b.fields[k] == MISSING
  }

  /* No field that exists afterwards looks like a missing one, at any depth. */
  predicate Clear(a: Json, b: Json)
    decreases a
  {
    a.Object? && b.Object? ==>
      forall k | k in b.fields :: !LooksMissing(a, b, k) && (k in a.fields ==> Clear(a.fields[k], b.fields[k]))
  }

  /* What the changes say about one field. */
  lemma FieldOfChanges(a: Json, b: Json, k: string)
    requires a.Object? && b.Object? && Diff(a, b).Some?
    ensures var changes := Diff(a, b).value.after;
            && changes.Object?
            && (k in changes.fields <==> k in ChangedKeys(a, b))
            && (k in changes.fields ==> changes.fields[k] == FieldDiff(a, b, k).value.after)
  {
  }

  /* The later side of a difference is true exactly when it replaces something else by true. */
  lemma AfterIsTrueIff(a: Json, b: Json)
    ensures Diff(a, b).Some? && Diff(a, b).value.after == Bool(true) <==> a != b && b == Bool(true)
  {
    NoChangeIffEqual(a, b);
  }

  lemma OnlyMarkAdded(a: Json, b: Json)
    requires a.Object? && b.Object? && Diff(a, b).Some? && Diff(a, b).value.after == MISSING
    ensures b == Object(a.fields["_missing" := Bool(true)])
  {
    var marked := a.fields["_missing" := Bool(true)];
    FieldOfChanges(a, b, "_missing");
    assert "_missing" in MISSING.fields;
    if "_missing" in a.fields && "_missing" in b.fields { AfterIsTrueIff(a.fields["_missing"], b.fields["_missing"]); }
    forall k: string | k != "_missing" ensures (k in b.fields <==> k in marked) && (k in b.fields ==> b.fields[k] == marked[k]) {
      FieldOfChanges(a, b, k);
      ChangedKeyIff(a, b, k);
      if k in a.fields && k in b.fields { NoChangeIffEqual(a.fields[k], b.fields[k]); }
    }
    assert b.fields == marked;
  }

  lemma MarkAddedLooksMissing(a: Json, b: Json)
    requires a.Object? && b == Object(a.fields["_missing" := Bool(true)]) && a != b
    ensures Diff(a, b).Some? && Diff(a, b).value.after == MISSING
  {
    NoChangeIffEqual(a, b);
    var after := Diff(a, b).value.after;
    forall k: string ensures (k in after.fields <==> k == "_missing") && (k in after.fields ==> after.fields[k] == Bool(true)) {
      FieldOfChanges(a, b, k);
      ChangedKeyIff(a, b, k);
      if k in a.fields { NoChangeIffEqual(a.fields[k], b.fields[k]); }
      if "_missing" in a.fields {
        assert a.fields == b.fields || a.fields["_missing"] != Bool(true);
        AfterIsTrueIff(a.fields["_missing"], Bool(true));
      }
    }
    assert after.fields == map["_missing" := Bool(true)];
  }

  /* The change of a field is the mark of a missing one exactly when the field looks like one. */
  lemma {:induction false} LooksMissingIff(a: Json, b: Json, k: string)
    requires a.Object? && b.Object? && k in b.fields
    ensures LooksMissing(a, b, k) <==> FieldDiff(a, b, k).Some? && FieldDiff(a, b, k).value.after == MISSING
  {
    if k in a.fields && a.fields[k].Object? {
      var x, y := a.fields[k], b.fields[k];
      if y.Object? && Diff(x, y).Some? && Diff(x, y).value.after == MISSING {
        OnlyMarkAdded(x, y);
        NoChangeIffEqual(x, y);
      }
      if LooksMissing(a, b, k) { MarkAddedLooksMissing(x, y); }
    }
  }

  lemma PatchedAt(v: Json, changes: Json, k: string)
    requires v.Object? && changes.Object?
    ensures var r := Patched(v, changes);
            r.Object? && (k in r.fields <==> PatchedField(v, changes, k).Some?)
            && (k in r.fields ==> r.fields[k] == PatchedField(v, changes, k).value)
  {
  }

  function Wanted(b: Json, k: string): Option<Json>
    requires b.Object?
  {
    if k in b.fields then Some(b.fields[k]) else None
  }

  /* Putting the changes in gives the right field exactly if the field's change is no false mark and its inside is right. */
  lemma PatchedFieldIff(a: Json, b: Json, k: string)
    requires a.Object? && b.Object? && Diff(a, b).Some?
    requires k in a.fields && k in b.fields ==> (a.fields[k] == b.fields[k] <==> Diff(a.fields[k], b.fields[k]).None?)
    ensures PatchedField(a, Diff(a, b).value.after, k) == Wanted(b, k) <==>
            (k in b.fields ==>
              && !LooksMissing(a, b, k)
              && (k in a.fields ==> AfterPut(a.fields[k], Diff(a.fields[k], b.fields[k])) == b.fields[k]))
  {
    hide LooksMissing;
    if k in b.fields { LooksMissingIff(a, b, k); }
    FieldOfChanges(a, b, k);
    ChangedKeyIff(a, b, k);
  }

  lemma AllFieldsIff(a: Json, b: Json)
    requires a.Object? && b.Object? && Diff(a, b).Some?
    ensures AfterPut(a, Diff(a, b)) == b <==> forall k: string :: PatchedField(a, Diff(a, b).value.after, k) == Wanted(b, k)
  {
    var changes := Diff(a, b).value.after;
    var r := Patched(a, changes);
    forall k: string ensures (k in r.fields <==> PatchedField(a, changes, k).Some?)
                             && (k in r.fields ==> r.fields[k] == PatchedField(a, changes, k).value) {
      PatchedAt(a, changes, k);
    }
    if forall k: string :: PatchedField(a, changes, k) == Wanted(b, k) {
      forall k: string ensures (k in r.fields <==> k in b.fields) && (k in r.fields ==> r.fields[k] == b.fields[k]) {
        assert PatchedField(a, changes, k) == Wanted(b, k);
      }
      assert r.fields == b.fields;
    }
  }

  /* Main result: putting the changes' later side into the earlier value gives the later value if and only if nothing in
     the later value looks like the mark of a missing field, at any depth. */
  lemma {:induction false} RedoIff(a: Json, b: Json)
    ensures AfterPut(a, Diff(a, b)) == b <==> Clear(a, b)
    decreases a
  {
    NoChangeIffEqual(a, b);
    if a.Object? && b.Object? {
      forall k | k in a.fields && k in b.fields
        ensures AfterPut(a.fields[k], Diff(a.fields[k], b.fields[k])) == b.fields[k] <==> Clear(a.fields[k], b.fields[k])
        ensures a.fields[k] == b.fields[k] <==> Diff(a.fields[k], b.fields[k]).None?
      {
        RedoIff(a.fields[k], b.fields[k]);
        NoChangeIffEqual(a.fields[k], b.fields[k]);
      }
      if Diff(a, b).Some? {
        AllFieldsIff(a, b);
        forall k: string { PatchedFieldIff(a, b, k); }
      } else {
        EqualIsClear(a);
      }
    }
  }

  lemma {:induction false} EqualIsClear(a: Json)
    ensures Clear(a, a)
    decreases a
  {
    NoChangeIffEqual(a, a);
    if a.Object? {
      forall k | k in a.fields ensures !LooksMissing(a, a, k) && Clear(a.fields[k], a.fields[k]) {
        NoChangeIffEqual(a.fields[k], a.fields[k]);
        LooksMissingIff(a, a, k);
        EqualIsClear(a.fields[k]);
      }
    }
  }

  /* Main result: the changes' earlier side undoes them, under the same condition with the values exchanged. */
  lemma {:induction false} UndoIff(a: Json, b: Json)
    ensures BeforePut(b, Diff(a, b)) == a <==> Clear(b, a)
  {
    DiffIsSymmetric(a, b);
    RedoIff(b, a);
  }

  /* A new field that is the mark itself is lost, and so is one to which just the mark is added. */
  lemma MarkIsLost()
    ensures var a, b := Object(map[]), Object(map["x" := MISSING]); !Clear(a, b) && AfterPut(a, Diff(a, b)) != b
    ensures var a, b := Object(map["x" := Object(map[])]), Object(map["x" := MISSING]); !Clear(a, b) && AfterPut(a, Diff(a, b)) != b
  {
    var none, empty, mark := Object(map[]), Object(map["x" := Object(map[])]), Object(map["x" := MISSING]);
    assert "x" in mark.fields && LooksMissing(none, mark, "x");
    assert map[]["_missing" := Bool(true)] == map["_missing" := Bool(true)];
    assert "_missing" in MISSING.fields;
    assert LooksMissing(empty, mark, "x");
    RedoIff(none, mark);
    RedoIff(empty, mark);
  }

  /* Nowhere in the value is there a field of the reserved name. */
  predicate NoMark(v: Json)
    decreases v
  {
    v.Object? ==> "_missing" !in v.fields && forall k | k in v.fields :: NoMark(v.fields[k])
  }

  /* The sides of a difference of such values do not have it either. */
  lemma {:induction false} SidesHaveNoMark(a: Json, b: Json)
    requires NoMark(a) && NoMark(b)
    ensures Diff(a, b).Some? ==> Diff(a, b).value.after != MISSING
    decreases a
  {
    if a.Object? && b.Object? && Diff(a, b).Some? {
      FieldOfChanges(a, b, "_missing");
      assert "_missing" in MISSING.fields;
    }
  }

  lemma {:induction false} NoMarkIsClear(a: Json, b: Json)
    requires NoMark(a) && NoMark(b)
    ensures Clear(a, b)
    decreases a
  {
    if a.Object? && b.Object? {
      forall k | k in b.fields
        ensures !LooksMissing(a, b, k) && (k in a.fields ==> Clear(a.fields[k], b.fields[k]))
      {
        LooksMissingIff(a, b, k);
        assert NoMark(b.fields[k]) && "_missing" in MISSING.fields;
        if k in a.fields {
          SidesHaveNoMark(a.fields[k], b.fields[k]);
          NoMarkIsClear(a.fields[k], b.fields[k]);
        }
      }
    }
  }

  /* Main result: without the reserved name, the stored changes redo and undo each other, at any depth. */
  lemma {:induction false} ChangesRoundTrip(a: Json, b: Json)
    requires NoMark(a) && NoMark(b)
    ensures AfterPut(a, Diff(a, b)) == b && BeforePut(b, Diff(a, b)) == a
  {
    NoMarkIsClear(a, b);
    NoMarkIsClear(b, a);
    RedoIff(a, b);
    UndoIff(a, b);
  }
}
