/** Which schemas still hold a textual `$ref` after expansion. */
module SchemaLeftovers {
  import opened Common
  import opened SchemaRefs

  // ---- dictionaries -----------------------------------------------------------------------

  predicate DistinctKeys(fields: seq<Field>) {
    forall i, j | 0 <= i < j < |fields| :: fields[i].key != fields[j].key
  }

  /** A dictionary holds a key once, at every depth. */
  predicate KeysOnce(schema: Schema) {
    match schema
    case Object(fields) => DistinctKeys(fields) && forall f | f in fields :: KeysOnce(f.value)
    case List(items) => forall x | x in items :: KeysOnce(x)
    case _ => true
  }

  ghost predicate DefinitionsOnce(defs: Definitions) {
    forall n :: n in defs ==> KeysOnce(defs[n])
  }

  predicate HasKey(fields: seq<Field>, key: string) {
    exists f | f in fields :: f.key == key
  }

  lemma {:induction false} RestDistinct(fields: seq<Field>)
    requires fields != []
    ensures DistinctKeys(fields) ==> DistinctKeys(fields[1..]) && !HasKey(fields[1..], fields[0].key)
    ensures forall f :: f in fields <==> f == fields[0] || f in fields[1..]
  {
    var rest := fields[1..];
    assert fields == [fields[0]] + rest;
    if DistinctKeys(fields) {
      forall f | f in rest ensures f.key != fields[0].key {
        var k :| 0 <= k < |rest| && rest[k] == f;
        assert fields[k + 1] == f;
      }
    }
  }

  lemma {:induction false} FirstDistinct(first: Field, rest: seq<Field>)
    requires DistinctKeys(rest) && !HasKey(rest, first.key)
    ensures DistinctKeys([first] + rest)
  {
    var all := [first] + rest;
    forall k | 0 < k < |all| ensures all[k].key != first.key {
      assert all[k] == rest[k - 1] && rest[k - 1] in rest;
    }
  }

  /** `dict.update` with one key: the other keys are kept. */
  lemma {:induction false} SetFieldIs(fields: seq<Field>, f: Field)
    requires DistinctKeys(fields)
    ensures DistinctKeys(SetField(fields, f))
    ensures forall x :: x in SetField(fields, f) <==> x == f || (x in fields && x.key != f.key)
  {
    hide DistinctKeys;
    if fields == [] {
      OneDistinct(f);
    } else {
      var first, rest := fields[0], fields[1..];
      RestDistinct(fields);
      if first.key == f.key {
        FirstDistinct(f, rest);
        assert forall x :: x in rest ==> x.key != f.key;
      } else {
        SetFieldIs(rest, f);
        FirstDistinct(first, SetField(rest, f));
      }
    }
  }

  lemma {:induction false} OneDistinct(f: Field)
    ensures DistinctKeys([]) && DistinctKeys([f])
  {
  }

  lemma {:induction false} FrontDistinct(fields: seq<Field>)
    requires fields != [] && DistinctKeys(fields)
    ensures var front, last := fields[..|fields| - 1], fields[|fields| - 1];
            && DistinctKeys(front) && !HasKey(front, last.key)
            && (forall f :: f in fields <==> f == last || f in front)
            && (forall key :: HasKey(fields, key) <==> HasKey(front, key) || key == last.key)
  {
    var front, last := fields[..|fields| - 1], fields[|fields| - 1];
    assert fields == front + [last];
  }

  /** `dict.update`: the new fields, and the old ones under other keys. */
  lemma {:induction false} UpdateIs(fields: seq<Field>, more: seq<Field>)
    requires DistinctKeys(fields) && DistinctKeys(more)
    ensures DistinctKeys(Update(fields, more))
    ensures forall x :: x in Update(fields, more) <==> x in more || (x in fields && !HasKey(more, x.key))
  {
    hide DistinctKeys, SetField;
    if more == [] {
      NoKeys(more);
    } else {
      var front, last := more[..|more| - 1], more[|more| - 1];
      FrontDistinct(more);
      UpdateIs(fields, front);
      SetFieldIs(Update(fields, front), last);
      assert forall x :: x in front ==> x.key != last.key;
    }
  }

  lemma {:induction false} NoKeys(fields: seq<Field>)
    requires fields == []
    ensures forall key :: !HasKey(fields, key)
  {
  }

  // ---- expanded fields ----------------------------------------------------------------------------

  function Without(fields: seq<Field>, skip: string): seq<Field> {
    if fields == [] then []
    else if fields[0].key == skip then Without(fields[1..], skip)
    else [fields[0]] + Without(fields[1..], skip)
  }

  lemma {:induction false} WithoutIs(fields: seq<Field>, skip: string)
    ensures forall f :: f in Without(fields, skip) <==> f in fields && f.key != skip
    ensures DistinctKeys(fields) ==> DistinctKeys(Without(fields, skip))
  {
    hide DistinctKeys;
    if fields != [] {
      WithoutIs(fields[1..], skip);
      RestDistinct(fields);
      if DistinctKeys(fields) && fields[0].key != skip {
        FirstDistinct(fields[0], Without(fields[1..], skip));
      }
    }
  }

  /** The expanded fields are the fields, each with its value expanded. */
  ghost predicate Expanded(r: seq<Field>, fields: seq<Field>, defs: Definitions, stack: set<string>) {
    |r| == |fields| && forall k :: 0 <= k < |r| ==> r[k].key == fields[k].key && Expand(fields[k].value, defs, stack) == Ok(r[k].value)
  }

  lemma {:induction false} FieldsExpand(fields: seq<Field>, skip: string, defs: Definitions, stack: set<string>)
    requires ExpandFields(fields, skip, defs, stack).Ok?
    ensures Expanded(ExpandFields(fields, skip, defs, stack).value, Without(fields, skip), defs, stack)
    decreases |fields|
  {
    hide Expand;
    if fields != [] {
      FieldsExpand(fields[1..], skip, defs, stack);
    }
  }

  lemma {:induction false} ItemsExpand(items: seq<Schema>, defs: Definitions, stack: set<string>)
    requires ExpandItems(items, defs, stack).Ok?
    ensures var r := ExpandItems(items, defs, stack).value;
            |r| == |items| && forall k :: 0 <= k < |r| ==> Expand(items[k], defs, stack) == Ok(r[k])
    decreases |items|
  {
    hide Expand;
    if items != [] {
      ItemsExpand(items[1..], defs, stack);
    }
  }

  lemma {:induction false} ExpandedDistinct(r: seq<Field>, fields: seq<Field>, defs: Definitions, stack: set<string>)
    requires Expanded(r, fields, defs, stack) && DistinctKeys(fields)
    ensures DistinctKeys(r)
    ensures forall key :: HasKey(r, key) <==> HasKey(fields, key)
  {
    forall key ensures HasKey(r, key) <==> HasKey(fields, key) {
      if HasKey(r, key) {
        var f :| f in r && f.key == key;
        var k :| 0 <= k < |r| && r[k] == f;
        assert fields[k] in fields;
      }
      if HasKey(fields, key) {
        var f :| f in fields && f.key == key;
        var k :| 0 <= k < |fields| && fields[k] == f;
        assert r[k] in r;
      }
    }
  }

  /** An expanded object holds a key once. */
  lemma {:induction false} ExpandedOnce(schema: Schema, defs: Definitions, stack: set<string>)
    requires KeysOnce(schema) && DefinitionsOnce(defs) && Expand(schema, defs, stack).Ok?
    ensures var r := Expand(schema, defs, stack).value; r.Object? ==> DistinctKeys(r.fields)
    decreases defs.Keys - stack
  {
    hide ExpandFields, Update, DistinctKeys, Expanded;
    if schema.Object? {
      var ref := RefOf(schema.fields);
      if ref.None? {
        WithoutIs(schema.fields, DEFS);
        FieldsExpand(schema.fields, DEFS, defs, stack);
        ExpandedDistinct(Expand(schema, defs, stack).value.fields, Without(schema.fields, DEFS), defs, stack);
      } else {
        var name := Lookup(ref.value, defs, stack).value;
        assert name in defs.Keys - stack && name !in defs.Keys - (stack + {name});
        ExpandedOnce(defs[name], defs, stack + {name});
        WithoutIs(schema.fields, REF);
        FieldsExpand(schema.fields, REF, defs, stack);
        var target := Expand(defs[name], defs, stack + {name}).value;
        var extra := ExpandFields(schema.fields, REF, defs, stack).value;
        ExpandedDistinct(extra, Without(schema.fields, REF), defs, stack);
        if extra != [] {
          UpdateIs(target.fields, extra);
        }
      }
    }
  }

  // ---- places of the result --------------------------------------------------------------------------

  /** A place of the expansion, and the keys that siblings of the references around it
      override. */
  datatype Place = Place(schema: Schema, stack: set<string>, hidden: set<string>)

  function KeysOf(fields: seq<Field>): (r: set<string>)
    ensures forall key :: key in r <==> HasKey(fields, key)
  {
    set f | f in fields :: f.key
  }

  /** A `$ref` that is not a text, but leads to a bare text by references of its own. */
  predicate Leftover(p: Place, defs: Definitions) {
    && p.schema.Object? && RefOf(p.schema.fields).None? && REF !in p.hidden
    && exists f | f in p.schema.fields :: f.key == REF && (var t := Target(f.value, defs, p.stack); t.Some? && t.value.Text?)
  }

  /** Where the result takes its parts from: a part under an overridden key is not in it. */
  predicate Keeps(p: Place, q: Place, defs: Definitions) {
    match p.schema
    case Object(fields) =>
      var ref := RefOf(fields);
      var skip := if ref.None? then DEFS else REF;
      || (q.stack == p.stack && q.hidden == {} && exists f | f in fields :: f.key != skip && f.key !in p.hidden && f.value == q.schema)
      || (ref.Some? && var name := Lookup(ref.value, defs, p.stack);
          name.Ok? && q == Place(defs[name.value], p.stack + {name.value}, p.hidden + KeysOf(Without(fields, REF))))
    case List(items) => q.stack == p.stack && q.hidden == {} && q.schema in items
    case _ => false
  }

  predicate IsPath(path: seq<Place>, defs: Definitions) {
    path != [] && forall k | 0 < k < |path| :: Keeps(path[k - 1], path[k], defs)
  }

  /** The result takes over a leftover. */
  ghost predicate KeepsLeftover(p: Place, defs: Definitions) {
    exists path :: IsPath(path, defs) && path[0] == p && Leftover(path[|path| - 1], defs)
  }

  predicate BadField(f: Field) {
    (f.key == REF && f.value.Text?) || !NoRefs(f.value)
  }

  /** The expansion of the place holds a textual `$ref`, the overridden keys apart. */
  predicate Dirty(p: Place, defs: Definitions) {
    var r := Expand(p.schema, defs, p.stack);
    r.Ok? && if r.value.Object? then exists f | f in r.value.fields :: f.key !in p.hidden && BadField(f) else !NoRefs(r.value)
  }

  lemma {:induction false} DirtyIs(schema: Schema, stack: set<string>, defs: Definitions)
    requires Expand(schema, defs, stack).Ok?
    ensures Dirty(Place(schema, stack, {}), defs) <==> !NoRefs(Expand(schema, defs, stack).value)
  {
    hide Expand;
    var r := Expand(schema, defs, stack).value;
    if r.Object? {
      assert NoRefs(r) <==> forall f :: f in r.fields ==> !BadField(f);
    }
  }

  /** A sound chain of references ends in a text exactly if its expansion is one. */
  lemma {:induction false} TargetIsText(schema: Schema, defs: Definitions, stack: set<string>)
    requires Expand(schema, defs, stack).Ok?
    ensures var t := Target(schema, defs, stack); t.Some? && (t.value.Text? <==> Expand(schema, defs, stack).value.Text?)
    decreases defs.Keys - stack
  {
    hide ExpandFields, Update;
    TargetIsExpansion(schema, defs, stack);
    if schema.Object? && RefOf(schema.fields).Some? {
      var name := Lookup(RefOf(schema.fields).value, defs, stack).value;
      assert name in defs.Keys - stack && name !in defs.Keys - (stack + {name});
      TargetIsText(defs[name], defs, stack + {name});
    }
  }

  /** What is bad among expanded fields, in terms of the fields. */
  lemma {:induction false} BadFields(r: seq<Field>, fields: seq<Field>, hidden: set<string>, defs: Definitions, stack: set<string>)
    requires Expanded(r, fields, defs, stack)
    ensures (exists x :: x in r && x.key !in hidden && BadField(x)) <==>
            exists f :: f in fields && f.key !in hidden && FieldLeaves(f, defs, stack)
  {
    hide Expand, Dirty, Target;
    forall k | 0 <= k < |r| ensures BadField(r[k]) <==> FieldLeaves(fields[k], defs, stack) {
      DirtyIs(fields[k].value, stack, defs);
      TargetIsText(fields[k].value, defs, stack);
    }
    if x :| x in r && x.key !in hidden && BadField(x) {
      var k :| 0 <= k < |r| && r[k] == x;
      assert fields[k] in fields && FieldLeaves(fields[k], defs, stack);
    }
    if f :| f in fields && f.key !in hidden && FieldLeaves(f, defs, stack) {
      var k :| 0 <= k < |fields| && fields[k] == f;
      assert r[k] in r && BadField(r[k]);
    }
  }

  predicate FieldLeaves(f: Field, defs: Definitions, stack: set<string>) {
    || (f.key == REF && (var t := Target(f.value, defs, stack); t.Some? && t.value.Text?))
    || Dirty(Place(f.value, stack, {}), defs)
  }

  lemma {:induction false} ListDirty(p: Place, defs: Definitions)
    requires p.schema.List? && Expand(p.schema, defs, p.stack).Ok?
    ensures Dirty(p, defs) <==> exists q :: Keeps(p, q, defs) && Dirty(q, defs)
  {
    hide Dirty;
    var items, r := p.schema.items, Expand(p.schema, defs, p.stack).value.items;
    ItemsExpand(items, defs, p.stack);
    DirtyList(p, defs);
    forall k | 0 <= k < |items| ensures Dirty(Place(items[k], p.stack, {}), defs) <==> !NoRefs(r[k]) {
      DirtyIs(items[k], p.stack, defs);
    }
    if y :| y in r && !NoRefs(y) {
      var k :| 0 <= k < |r| && r[k] == y;
      assert Keeps(p, Place(items[k], p.stack, {}), defs);
    }
    if q :| Keeps(p, q, defs) && Dirty(q, defs) {
      var k :| 0 <= k < |items| && items[k] == q.schema;
      assert r[k] in r;
    }
  }

  lemma {:induction false} DirtyList(p: Place, defs: Definitions)
    requires p.schema.List? && Expand(p.schema, defs, p.stack).Ok?
    ensures Expand(p.schema, defs, p.stack).value.List? && ExpandItems(p.schema.items, defs, p.stack) == Ok(Expand(p.schema, defs, p.stack).value.items)
    ensures Dirty(p, defs) <==> exists y :: y in Expand(p.schema, defs, p.stack).value.items && !NoRefs(y)
  {
    hide ExpandItems;
  }

  lemma {:induction false} PlainDirty(p: Place, defs: Definitions)
    requires p.schema.Object? && RefOf(p.schema.fields).None? && Expand(p.schema, defs, p.stack).Ok?
    ensures Dirty(p, defs) <==> Leftover(p, defs) || exists q :: Keeps(p, q, defs) && Dirty(q, defs)
  {
    hide ExpandFields, Dirty, Target, Expanded;
    var fields := p.schema.fields;
    FieldsExpand(fields, DEFS, defs, p.stack);
    WithoutIs(fields, DEFS);
    DirtyObject(p, defs);
    BadFields(Expand(p.schema, defs, p.stack).value.fields, Without(fields, DEFS), p.hidden, defs, p.stack);
    PartsLeave(p, DEFS, defs);
  }

  lemma {:induction false} DirtyObject(p: Place, defs: Definitions)
    requires p.schema.Object? && RefOf(p.schema.fields).None? && Expand(p.schema, defs, p.stack).Ok?
    ensures var r := Expand(p.schema, defs, p.stack).value;
            && r.Object? && ExpandFields(p.schema.fields, DEFS, defs, p.stack) == Ok(r.fields)
            && (Dirty(p, defs) <==> exists x :: x in r.fields && x.key !in p.hidden && BadField(x))
  {
    hide ExpandFields;
  }

  /** The parts of an object that are its own, not those of a reference. */
  ghost predicate OwnPartLeaves(p: Place, skip: string, defs: Definitions)
    requires p.schema.Object?
  {
    exists f :: f in Without(p.schema.fields, skip) && f.key !in p.hidden && FieldLeaves(f, defs, p.stack)
  }

  lemma {:induction false} PartsLeave(p: Place, skip: string, defs: Definitions)
    requires p.schema.Object? && skip == DEFS && RefOf(p.schema.fields).None?
    ensures OwnPartLeaves(p, skip, defs) <==> Leftover(p, defs) || exists q :: Keeps(p, q, defs) && Dirty(q, defs)
  {
    hide Dirty, Target;
    var fields := p.schema.fields;
    WithoutIs(fields, skip);
    if OwnPartLeaves(p, skip, defs) {
      var f :| f in Without(fields, skip) && f.key !in p.hidden && FieldLeaves(f, defs, p.stack);
      if Dirty(Place(f.value, p.stack, {}), defs) {
        assert Keeps(p, Place(f.value, p.stack, {}), defs);
      }
    }
    if Leftover(p, defs) {
      var f :| f in fields && f.key == REF && (var t := Target(f.value, defs, p.stack); t.Some? && t.value.Text?);
      assert f in Without(fields, skip) && FieldLeaves(f, defs, p.stack);
    }
    if q :| Keeps(p, q, defs) && Dirty(q, defs) {
      var f :| f in fields && f.key != skip && f.key !in p.hidden && f.value == q.schema;
      assert q == Place(f.value, p.stack, {}) && FieldLeaves(f, defs, p.stack);
    }
  }

  // ---- references ----------------------------------------------------------------------------------------

  /** The definition a reference leads to, as a place. */
  function TargetPlace(p: Place, defs: Definitions): Place
    requires p.schema.Object? && RefOf(p.schema.fields).Some? && Lookup(RefOf(p.schema.fields).value, defs, p.stack).Ok?
  {
    var name := Lookup(RefOf(p.schema.fields).value, defs, p.stack).value;
    Place(defs[name], p.stack + {name}, p.hidden + KeysOf(Without(p.schema.fields, REF)))
  }

  lemma {:induction false} RefExpands(p: Place, defs: Definitions)
    requires p.schema.Object? && RefOf(p.schema.fields).Some? && Expand(p.schema, defs, p.stack).Ok?
    ensures Lookup(RefOf(p.schema.fields).value, defs, p.stack).Ok? && ExpandFields(p.schema.fields, REF, defs, p.stack).Ok?
    ensures var q, extra := TargetPlace(p, defs), ExpandFields(p.schema.fields, REF, defs, p.stack).value;
            var target := Expand(q.schema, defs, q.stack);
            && target.Ok? && (extra != [] ==> target.value.Object?)
            && Expand(p.schema, defs, p.stack).value == if extra == [] then target.value else Object(Update(target.value.fields, extra))
  {
    hide ExpandFields, Update;
    assert Expand(p.schema, defs, p.stack) == ExpandRef(p.schema, RefOf(p.schema.fields).value, defs, p.stack);
  }

  lemma {:induction false} RefDirty(p: Place, defs: Definitions)
    requires p.schema.Object? && RefOf(p.schema.fields).Some? && Expand(p.schema, defs, p.stack).Ok?
    requires KeysOnce(p.schema) && DefinitionsOnce(defs)
    ensures Dirty(p, defs) <==> exists q :: Keeps(p, q, defs) && Dirty(q, defs)
  {
    hide ExpandFields, Expand, Dirty, Target, Expanded, Update, DistinctKeys;
    RefExpands(p, defs);
    var own, q := Without(p.schema.fields, REF), TargetPlace(p, defs);
    var extra := ExpandFields(p.schema.fields, REF, defs, p.stack).value;
    WithoutIs(p.schema.fields, REF);
    FieldsExpand(p.schema.fields, REF, defs, p.stack);
    ExpandedDistinct(extra, own, defs, p.stack);
    BadFields(extra, own, p.hidden, defs, p.stack);
    SameLength(extra, own, defs, p.stack);
    DefinitionOnce(p, defs);
    ExpandedOnce(q.schema, defs, q.stack);
    RefParts(p, defs);
    var target := Expand(q.schema, defs, q.stack).value;
    if extra == [] {
      NoKeys(own);
      assert q.hidden == p.hidden;
      DirtyAlike(p, q, defs);
    } else {
      UpdateIs(target.fields, extra);
      DirtyUpdate(p, q, target.fields, extra, defs);
    }
  }

  lemma {:induction false} SameLength(r: seq<Field>, fields: seq<Field>, defs: Definitions, stack: set<string>)
    requires Expanded(r, fields, defs, stack)
    ensures r == [] <==> fields == []
  {
  }

  lemma {:induction false} DefinitionOnce(p: Place, defs: Definitions)
    requires p.schema.Object? && RefOf(p.schema.fields).Some? && Lookup(RefOf(p.schema.fields).value, defs, p.stack).Ok?
    requires DefinitionsOnce(defs)
    ensures KeysOnce(TargetPlace(p, defs).schema)
  {
  }

  lemma {:induction false} DirtyAlike(p: Place, q: Place, defs: Definitions)
    requires Expand(p.schema, defs, p.stack) == Expand(q.schema, defs, q.stack) && p.hidden == q.hidden
    ensures Dirty(p, defs) <==> Dirty(q, defs)
  {
  }

  lemma {:induction false} DirtyUpdate(p: Place, q: Place, target: seq<Field>, extra: seq<Field>, defs: Definitions)
    requires Expand(q.schema, defs, q.stack) == Ok(Object(target)) && Expand(p.schema, defs, p.stack) == Ok(Object(Update(target, extra)))
    requires forall x :: x in Update(target, extra) <==> x in extra || (x in target && !HasKey(extra, x.key))
    requires forall key :: key in q.hidden <==> key in p.hidden || HasKey(extra, key)
    ensures Dirty(p, defs) <==> Dirty(q, defs) || exists x :: x in extra && x.key !in p.hidden && BadField(x)
  {
    hide Update, BadField;
    if Dirty(p, defs) {
      var x :| x in Update(target, extra) && x.key !in p.hidden && BadField(x);
      if x !in extra {
        assert x in target && x.key !in q.hidden;
      }
    }
    if Dirty(q, defs) {
      var x :| x in target && x.key !in q.hidden && BadField(x);
      assert x in Update(target, extra);
    }
    if x :| x in extra && x.key !in p.hidden && BadField(x) {
      assert x in Update(target, extra);
    }
  }

  /** What a reference keeps: its siblings' values and the definition. */
  lemma {:induction false} RefParts(p: Place, defs: Definitions)
    requires p.schema.Object? && RefOf(p.schema.fields).Some? && Lookup(RefOf(p.schema.fields).value, defs, p.stack).Ok?
    ensures (exists q :: Keeps(p, q, defs) && Dirty(q, defs)) <==> OwnPartLeaves(p, REF, defs) || Dirty(TargetPlace(p, defs), defs)
  {
    hide Dirty, Target;
    var fields := p.schema.fields;
    WithoutIs(fields, REF);
    if OwnPartLeaves(p, REF, defs) {
      var f :| f in Without(fields, REF) && f.key !in p.hidden && FieldLeaves(f, defs, p.stack);
      assert Keeps(p, Place(f.value, p.stack, {}), defs);
    }
    if Dirty(TargetPlace(p, defs), defs) {
      assert Keeps(p, TargetPlace(p, defs), defs);
    }
    if q :| Keeps(p, q, defs) && Dirty(q, defs) {
      if q != TargetPlace(p, defs) {
        var f :| f in fields && f.key != REF && f.key !in p.hidden && f.value == q.schema;
        assert q == Place(f.value, p.stack, {}) && FieldLeaves(f, defs, p.stack);
      }
    }
  }

  /** A place is dirty exactly if it holds a leftover or keeps a dirty part. */
  lemma {:induction false} DirtyHere(p: Place, defs: Definitions)
    requires KeysOnce(p.schema) && DefinitionsOnce(defs) && Expand(p.schema, defs, p.stack).Ok?
    ensures Dirty(p, defs) <==> Leftover(p, defs) || exists q :: Keeps(p, q, defs) && Dirty(q, defs)
  {
    match p.schema {
      case Object(fields) =>
        if RefOf(fields).None? {
          PlainDirty(p, defs);
        } else {
          RefDirty(p, defs);
        }
      case List(items) => ListDirty(p, defs);
      case _ =>
    }
  }

  // ---- the exact condition for one schema ------------------------------------------------------------------

  /** A part of a sound place is sound. */
  lemma {:induction false} PartsSound(p: Place, q: Place, defs: Definitions)
    requires KeysOnce(p.schema) && DefinitionsOnce(defs) && Expand(p.schema, defs, p.stack).Ok? && Keeps(p, q, defs)
    ensures KeysOnce(q.schema) && Expand(q.schema, defs, q.stack).Ok?
    ensures defs.Keys - q.stack <= defs.Keys - p.stack
    ensures q.stack == p.stack || (defs.Keys - q.stack < defs.Keys - p.stack)
  {
    hide Expand;
    FailsHere(Visit(p.schema, p.stack), defs);
    assert Leads(Visit(p.schema, p.stack), Visit(q.schema, q.stack), defs);
    assert !Fails(Visit(q.schema, q.stack), defs);
  }

  lemma {:induction false} PathMakesDirty(path: seq<Place>, defs: Definitions)
    requires IsPath(path, defs) && Leftover(path[|path| - 1], defs)
    requires KeysOnce(path[0].schema) && DefinitionsOnce(defs) && Expand(path[0].schema, defs, path[0].stack).Ok?
    ensures Dirty(path[0], defs)
    decreases |path|
  {
    hide Expand, Dirty, Leftover, Keeps, KeysOnce;
    DirtyHere(path[0], defs);
    if |path| > 1 {
      var rest := path[1..];
      assert forall k :: 0 < k < |rest| ==> rest[k - 1] == path[k] && rest[k] == path[k + 1];
      assert Keeps(path[0], path[1], defs);
      PartsSound(path[0], path[1], defs);
      PathMakesDirty(rest, defs);
    }
  }

  lemma {:induction false} DirtHasPath(p: Place, defs: Definitions)
    requires KeysOnce(p.schema) && DefinitionsOnce(defs) && Expand(p.schema, defs, p.stack).Ok? && Dirty(p, defs)
    ensures KeepsLeftover(p, defs)
    decreases defs.Keys - p.stack, p.schema
  {
    DirtyHere(p, defs);
    if Leftover(p, defs) {
      assert IsPath([p], defs) && [p][0] == p;
    } else {
      var q :| Keeps(p, q, defs) && Dirty(q, defs);
      PartsSound(p, q, defs);
      DirtHasPath(q, defs);
      var rest :| IsPath(rest, defs) && rest[0] == q && Leftover(rest[|rest| - 1], defs);
      PathGrows(p, rest, defs);
    }
  }

  lemma {:induction false} PathGrows(p: Place, rest: seq<Place>, defs: Definitions)
    requires IsPath(rest, defs) && Keeps(p, rest[0], defs) && Leftover(rest[|rest| - 1], defs)
    ensures KeepsLeftover(p, defs)
  {
    hide Keeps, Leftover;
    var path := [p] + rest;
    forall k | 0 < k < |path| ensures Keeps(path[k - 1], path[k], defs) {
      if k > 1 {
        assert path[k - 1] == rest[k - 2] && path[k] == rest[k - 1];
      }
    }
    assert IsPath(path, defs) && path[|path| - 1] == rest[|rest| - 1];
  }

  /** One schema of dictionaries that expands: the result holds a textual `$ref` exactly if
      it takes over, past every key a sibling overrides, a `$ref` whose value is no text
      but leads to a definition that is one. */
  lemma {:induction false} RefsLeftIff(schema: Schema, defs: Definitions)
    requires KeysOnce(schema) && DefinitionsOnce(defs) && Expand(schema, defs, {}).Ok?
    ensures !NoRefs(Expand(schema, defs, {}).value) <==> KeepsLeftover(Place(schema, {}, {}), defs)
  {
    hide Expand, NoRefs, Dirty, Leftover, KeysOnce;
    var p := Place(schema, {}, {});
    DirtyIs(schema, {}, defs);
    if Dirty(p, defs) {
      DirtHasPath(p, defs);
    }
    if KeepsLeftover(p, defs) {
      var path :| IsPath(path, defs) && path[0] == p && Leftover(path[|path| - 1], defs);
      PathMakesDirty(path, defs);
    }
  }
}
