/** What an expanded schema means: a reference stands for its definition, all else for
    itself. */
module SchemaMeaning {
  import opened Common
  import opened SchemaRefs
  import opened SchemaLeftovers

  // ---- schemas without references -----------------------------------------------------------

  /** No textual reference and no definitions, at any depth. */
  predicate Plain(schema: Schema) {
    match schema
    case Object(fields) =>
      forall f | f in fields :: f.key != "$defs" && (f.key == "$ref" ==> !f.value.Text?) && Plain(f.value)
    case List(items) => forall x | x in items :: Plain(x)
    case _ => true
  }

  /** Such a schema expands to itself, whatever the definitions are. */
  lemma {:induction false} PlainIsItself(schema: Schema, defs: Definitions, stack: set<string>)
    requires Plain(schema)
    ensures Expand(schema, defs, stack) == Ok(schema)
  {
    match schema {
      case Object(fields) =>
        assert forall f :: f in fields ==> f.key != DEFS && (f.key == REF ==> !f.value.Text?);
        PlainHasNoRef(fields);
        PlainFieldsStay(fields, defs, stack);
      case List(items) => PlainItemsStay(items, defs, stack);
      case _ =>
    }
  }

  lemma {:induction false} PlainHasNoRef(fields: seq<Field>)
    requires forall f :: f in fields ==> f.key == REF ==> !f.value.Text?
    ensures RefOf(fields).None?
  {
    if fields != [] {
      assert fields[0] in fields;
      PlainHasNoRef(fields[1..]);
    }
  }

  lemma {:induction false} PlainFieldsStay(fields: seq<Field>, defs: Definitions, stack: set<string>)
    requires forall f :: f in fields ==> f.key != DEFS && Plain(f.value)
    ensures ExpandFields(fields, DEFS, defs, stack) == Ok(fields)
  {
    hide Plain, Expand;
    if fields != [] {
      assert fields[0] in fields && fields == [fields[0]] + fields[1..];
      PlainIsItself(fields[0].value, defs, stack);
      PlainFieldsStay(fields[1..], defs, stack);
    }
  }

  lemma {:induction false} PlainItemsStay(items: seq<Schema>, defs: Definitions, stack: set<string>)
    requires forall x :: x in items ==> Plain(x)
    ensures ExpandItems(items, defs, stack) == Ok(items)
  {
    hide Plain, Expand;
    if items != [] {
      assert items[0] in items && items == [items[0]] + items[1..];
      PlainIsItself(items[0], defs, stack);
      PlainItemsStay(items[1..], defs, stack);
    }
  }

  // ---- the stack only guards -----------------------------------------------------------------

  /** A sound expansion does not depend on the definitions it is nested in. */
  lemma {:induction false} StackOnlyGuards(schema: Schema, defs: Definitions, small: set<string>, big: set<string>)
    requires small <= big && Expand(schema, defs, big).Ok?
    ensures Expand(schema, defs, small) == Expand(schema, defs, big)
    decreases defs.Keys - big, schema, 1
  {
    hide Update;
    match schema {
      case Object(fields) =>
        var ref := RefOf(fields);
        if ref.Some? {
          var name := Lookup(ref.value, defs, big).value;
          assert name in defs.Keys - big && name !in defs.Keys - (big + {name});
          StackOnlyGuards(defs[name], defs, small + {name}, big + {name});
          FieldsGuarded(fields, REF, defs, small, big);
        } else {
          FieldsGuarded(fields, DEFS, defs, small, big);
        }
      case List(items) => ItemsGuarded(items, defs, small, big);
      case _ =>
    }
  }

  lemma {:induction false} FieldsGuarded(fields: seq<Field>, skip: string, defs: Definitions, small: set<string>, big: set<string>)
    requires small <= big && ExpandFields(fields, skip, defs, big).Ok?
    ensures ExpandFields(fields, skip, defs, small) == ExpandFields(fields, skip, defs, big)
    decreases defs.Keys - big, fields, 0
  {
    hide Expand;
    if fields != [] {
      FieldsGuarded(fields[1..], skip, defs, small, big);
      if fields[0].key != skip {
        StackOnlyGuards(fields[0].value, defs, small, big);
      }
    }
  }

  lemma {:induction false} ItemsGuarded(items: seq<Schema>, defs: Definitions, small: set<string>, big: set<string>)
    requires small <= big && ExpandItems(items, defs, big).Ok?
    ensures ExpandItems(items, defs, small) == ExpandItems(items, defs, big)
    decreases defs.Keys - big, items, 0
  {
    hide Expand;
    if items != [] {
      StackOnlyGuards(items[0], defs, small, big);
      ItemsGuarded(items[1..], defs, small, big);
    }
  }

  // ---- objects -------------------------------------------------------------------------------------

  /** The value of the field is that field's value, expanded. */
  predicate Means(f: Field, g: Field, defs: Definitions) {
    f.key == g.key && Expand(g.value, defs, {}) == Ok(f.value)
  }

  ghost predicate FieldsMean(r: seq<Field>, fields: seq<Field>, defs: Definitions) {
    |r| == |fields| && forall k :: 0 <= k < |r| ==> Means(r[k], fields[k], defs)
  }

  lemma {:induction false} WithoutIsFilter(fields: seq<Field>, skip: string)
    ensures Without(fields, skip) == Filter((f: Field) => f.key != skip, fields)
  {
    if fields != [] {
      FilterFirst((f: Field) => f.key != skip, fields);
      WithoutIsFilter(fields[1..], skip);
    }
  }

  /** An object without a textual reference keeps its fields in order, each expanded, but
      for its definitions. */
  lemma {:induction false} PlainObjectMeans(fields: seq<Field>, defs: Definitions)
    requires Expand(Object(fields), defs, {}).Ok? && forall f :: f in fields && f.key == "$ref" ==> !f.value.Text?
    ensures var r := Expand(Object(fields), defs, {}).value;
            r.Object? && FieldsMean(r.fields, Filter((f: Field) => f.key != "$defs", fields), defs)
  {
    hide ExpandFields, Without, Filter;
    PlainHasNoRef(fields);
    FieldsExpand(fields, DEFS, defs, {});
    WithoutIsFilter(fields, DEFS);
  }

  lemma {:induction false} RefFound(fields: seq<Field>, ref: string)
    requires DistinctKeys(fields) && Field(REF, Text(ref)) in fields
    ensures RefOf(fields) == Some(ref)
  {
    hide DistinctKeys;
    if fields != [] {
      RestDistinct(fields);
      if fields[0] != Field(REF, Text(ref)) {
        RefFound(fields[1..], ref);
        assert fields[0].key != REF;
      }
    }
  }

  lemma {:induction false} LocalNameOf(name: string)
    ensures LocalName("#/$defs/" + name) == Some(name)
  {
    assert (LOCAL + name)[..|LOCAL|] == LOCAL && (LOCAL + name)[|LOCAL|..] == name;
  }

  /** Known keys keep their place. */
  lemma {:induction false} SetFieldPlaces(fields: seq<Field>, f: Field)
    ensures |SetField(fields, f)| >= |fields|
    ensures forall k :: 0 <= k < |fields| ==> SetField(fields, f)[k].key == fields[k].key
  {
    if fields != [] && fields[0].key != f.key {
      SetFieldPlaces(fields[1..], f);
    }
  }

  lemma {:induction false} UpdatePlaces(fields: seq<Field>, more: seq<Field>)
    ensures |Update(fields, more)| >= |fields|
    ensures forall k :: 0 <= k < |fields| ==> Update(fields, more)[k].key == fields[k].key
  {
    hide SetField;
    if more != [] {
      UpdatePlaces(fields, more[..|more| - 1]);
      SetFieldPlaces(Update(fields, more[..|more| - 1]), more[|more| - 1]);
    }
  }

  /** A reference alone means what its definition means. With siblings the definition must
      be an object: each sibling counts, expanded, and of the definition each field under
      another key, with its keys in their places. */
  lemma {:induction false} RefMeansDefinition(fields: seq<Field>, name: string, defs: Definitions)
    requires KeysOnce(Object(fields)) && DefinitionsOnce(defs)
    requires Field("$ref", Text("#/$defs/" + name)) in fields && Expand(Object(fields), defs, {}).Ok?
    ensures name in defs && Expand(defs[name], defs, {}).Ok?
    ensures var r, t := Expand(Object(fields), defs, {}).value, Expand(defs[name], defs, {}).value;
            var siblings := Filter((f: Field) => f.key != "$ref", fields);
            if siblings == [] then r == t
            else
              && r.Object? && t.Object?
              && (forall x :: x in r.fields <==>
                    (exists g :: g in siblings && Means(x, g, defs)) || (x in t.fields && forall g :: g in siblings ==> g.key != x.key))
              && |r.fields| >= |t.fields| && forall k :: 0 <= k < |t.fields| ==> r.fields[k].key == t.fields[k].key
  {
    hide ExpandFields, Update, DistinctKeys, Without, Filter, Expand, Expanded;
    RefFound(fields, LOCAL + name);
    LocalNameOf(name);
    var p := Place(Object(fields), {}, {});
    RefExpands(p, defs);
    StackOnlyGuards(defs[name], defs, {}, {} + {name});
    WithoutIsFilter(fields, REF);
    WithoutIs(fields, REF);
    FieldsExpand(fields, REF, defs, {});
    var siblings, extra := Without(fields, REF), ExpandFields(fields, REF, defs, {}).value;
    ExpandedDistinct(extra, siblings, defs, {});
    SiblingsMean(extra, siblings, defs);
    if extra != [] {
      var t := Expand(defs[name], defs, {}).value;
      ExpandedOnce(defs[name], defs, {});
      UpdateIs(t.fields, extra);
      UpdatePlaces(t.fields, extra);
    }
  }

  lemma {:induction false} SiblingsMean(extra: seq<Field>, siblings: seq<Field>, defs: Definitions)
    requires Expanded(extra, siblings, defs, {})
    ensures extra == [] <==> siblings == []
    ensures forall x :: x in extra <==> exists g :: g in siblings && Means(x, g, defs)
    ensures forall key :: HasKey(extra, key) <==> exists g :: g in siblings && g.key == key
  {
    forall x ensures x in extra <==> exists g :: g in siblings && Means(x, g, defs) {
      if x in extra {
        var k :| 0 <= k < |extra| && extra[k] == x;
        assert siblings[k] in siblings && Means(x, siblings[k], defs);
      }
      if g :| g in siblings && Means(x, g, defs) {
        var k :| 0 <= k < |siblings| && siblings[k] == g;
        assert extra[k] == x;
      }
    }
    forall key ensures HasKey(extra, key) <==> exists g :: g in siblings && g.key == key {
      if HasKey(extra, key) {
        var x :| x in extra && x.key == key;
        var g :| g in siblings && Means(x, g, defs);
      }
      if g :| g in siblings && g.key == key {
        var k :| 0 <= k < |siblings| && siblings[k] == g;
        assert extra[k] in extra;
      }
    }
  }
}
