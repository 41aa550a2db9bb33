/** Expanding the local references of a JSON schema, per section 8.2.3.1 of JSON Schema
    Core 2020-12. */
module SchemaRefs {
  import opened Common

  /** A schema as parsed JSON; `Scalar` is any value but a string, a list or an object. */
  datatype Schema = Text(s: string) | Scalar(token: string) | List(items: seq<Schema>) | Object(fields: seq<Field>)

  datatype Field = Field(key: string, value: Schema)

  type Definitions = map<string, Schema>

  const REF := "$ref"
  const DEFS := "$defs"
  const LOCAL := "#/$defs/"

  /** The `$ref` of an object, if it is a text. (A dictionary holds a key once.) */
  function RefOf(fields: seq<Field>): Option<string> {
    if fields == [] then None
    else if fields[0].key == REF && fields[0].value.Text? then Some(fields[0].value.s)
    else RefOf(fields[1..])
  }

  /** `_parse_local_ref_name`. */
  function LocalName(ref: string): Option<string> {
    if LOCAL <= ref then Some(ref[|LOCAL|..]) else None
  }

  /** `dict.update`: known keys are overwritten in place, others added behind. */
  function SetField(fields: seq<Field>, f: Field): seq<Field> {
    if fields == [] then [f]
    else if fields[0].key == f.key then [f] + fields[1..]
    else [fields[0]] + SetField(fields[1..], f)
  }

  function Update(fields: seq<Field>, more: seq<Field>): seq<Field> {
    if more == [] then fields else SetField(Update(fields, more[..|more| - 1]), more[|more| - 1])
  }

  /** The definition a reference leads to, unless the reference is bad. */
  function Lookup(ref: string, defs: Definitions, stack: set<string>): Result<string> {
    var name := LocalName(ref);
    if name.None? then Err("not local")
    else if name.value in stack then Err("cyclic")
    else if name.value !in defs then Err("dangling")
    else Ok(name.value)
  }

  /** `_expand_schema_references`: it ends because every reference followed leaves one
      definition fewer to follow, and everything else descends. */
  function Expand(schema: Schema, defs: Definitions, stack: set<string>): Result<Schema>
    decreases defs.Keys - stack, schema, 1
  {
    match schema
    case Object(fields) =>
      var ref := RefOf(fields);
      if ref.Some? then ExpandRef(schema, ref.value, defs, stack)
      else
        var r := ExpandFields(fields, DEFS, defs, stack);
        if r.Err? then Err(r.error) else Ok(Object(r.value))
    case List(items) =>
      var r := ExpandItems(items, defs, stack);
      if r.Err? then Err(r.error) else Ok(List(r.value))
    case Text(_) => Ok(schema)
    case Scalar(_) => Ok(schema)
  }

  function ExpandRef(schema: Schema, ref: string, defs: Definitions, stack: set<string>): Result<Schema>
    requires schema.Object?
    decreases defs.Keys - stack, schema, 0
  {
    var name := Lookup(ref, defs, stack);
    if name.Err? then Err(name.error)
    else
      assert name.value in defs.Keys - stack && name.value !in defs.Keys - (stack + {name.value});
      var target := Expand(defs[name.value], defs, stack + {name.value});
      if target.Err? then target
      else
        var extra := ExpandFields(schema.fields, REF, defs, stack);
        if extra.Err? then Err(extra.error)
        else if extra.value == [] then target
        else if !target.value.Object? then Err("siblings of a non-object")
        else Ok(Object(Update(target.value.fields, extra.value)))
  }

  /** Every field but those named `skip`. */
  function ExpandFields(fields: seq<Field>, skip: string, defs: Definitions, stack: set<string>): Result<seq<Field>>
    decreases defs.Keys - stack, fields, 0
  {
    if fields == [] then Ok([])
    else if fields[0].key == skip then ExpandFields(fields[1..], skip, defs, stack)
    else
      var v := Expand(fields[0].value, defs, stack);
      if v.Err? then Err(v.error)
      else
        var rest := ExpandFields(fields[1..], skip, defs, stack);
        if rest.Err? then rest else Ok([Field(fields[0].key, v.value)] + rest.value)
  }

  function ExpandItems(items: seq<Schema>, defs: Definitions, stack: set<string>): Result<seq<Schema>>
    decreases defs.Keys - stack, items, 0
  {
    if items == [] then Ok([])
    else
      var v := Expand(items[0], defs, stack);
      if v.Err? then Err(v.error)
      else
        var rest := ExpandItems(items[1..], defs, stack);
        if rest.Err? then rest else Ok([v.value] + rest.value)
  }

  // ---- no reference is left ---------------------------------------------------------------

  /** No object anywhere holds a textual `$ref`. */
  predicate NoRefs(schema: Schema) {
    match schema
    case Object(fields) => (forall f | f in fields :: f.key == REF ==> !f.value.Text?) && forall f | f in fields :: NoRefs(f.value)
    case List(items) => forall x | x in items :: NoRefs(x)
    case _ => true
  }

  predicate FieldsClean(fields: seq<Field>) {
    forall f | f in fields :: (f.key == REF ==> !f.value.Text?) && NoRefs(f.value)
  }

  lemma {:induction false} SetFieldMembers(fields: seq<Field>, f: Field)
    ensures forall x :: x in SetField(fields, f) ==> x in fields || x == f
  {
    if fields != [] && fields[0].key != f.key {
      SetFieldMembers(fields[1..], f);
    }
  }

  lemma {:induction false} UpdateMembers(fields: seq<Field>, more: seq<Field>)
    ensures forall x :: x in Update(fields, more) ==> x in fields || x in more
  {
    if more != [] {
      UpdateMembers(fields, more[..|more| - 1]);
      SetFieldMembers(Update(fields, more[..|more| - 1]), more[|more| - 1]);
    }
  }

  ghost predicate NoTextDefinition(defs: Definitions) {
    forall n :: n in defs ==> !defs[n].Text?
  }

  /** Expanded schemas hold no reference, and only a text expands to a text. */
  lemma {:induction false} ExpandedIsClean(schema: Schema, defs: Definitions, stack: set<string>)
    requires NoTextDefinition(defs) && Expand(schema, defs, stack).Ok?
    ensures NoRefs(Expand(schema, defs, stack).value)
    ensures Expand(schema, defs, stack).value.Text? ==> schema.Text?
    decreases defs.Keys - stack, schema, 1
  {
    match schema {
      case Object(fields) =>
        var ref := RefOf(fields);
        if ref.Some? {
          RefIsClean(schema, ref.value, defs, stack);
        } else {
          FieldsAreClean(fields, DEFS, defs, stack);
          PlainFields(fields, defs, stack);
        }
      case List(items) => ItemsAreClean(items, defs, stack);
      case _ =>
    }
  }

  lemma {:induction false} RefIsClean(schema: Schema, ref: string, defs: Definitions, stack: set<string>)
    requires NoTextDefinition(defs) && schema.Object? && ExpandRef(schema, ref, defs, stack).Ok?
    ensures NoRefs(ExpandRef(schema, ref, defs, stack).value) && !ExpandRef(schema, ref, defs, stack).value.Text?
    decreases defs.Keys - stack, schema, 0
  {
    hide Update;
    var name := Lookup(ref, defs, stack).value;
    assert name in defs.Keys - stack && name !in defs.Keys - (stack + {name});
    ExpandedIsClean(defs[name], defs, stack + {name});
    FieldsAreClean(schema.fields, REF, defs, stack);
    var target := Expand(defs[name], defs, stack + {name}).value;
    var extra := ExpandFields(schema.fields, REF, defs, stack).value;
    if extra != [] {
      UpdateMembers(target.fields, extra);
      SkippedIsGone(schema.fields, REF, defs, stack);
      assert FieldsClean(Update(target.fields, extra));
    }
  }

  lemma {:induction false} SkippedIsGone(fields: seq<Field>, skip: string, defs: Definitions, stack: set<string>)
    requires ExpandFields(fields, skip, defs, stack).Ok?
    ensures forall f :: f in ExpandFields(fields, skip, defs, stack).value ==> f.key != skip
    decreases |fields|
  {
    hide Expand;
    if fields != [] {
      SkippedIsGone(fields[1..], skip, defs, stack);
    }
  }

  lemma {:induction false} FieldsAreClean(fields: seq<Field>, skip: string, defs: Definitions, stack: set<string>)
    requires NoTextDefinition(defs) && ExpandFields(fields, skip, defs, stack).Ok?
    ensures forall f :: f in ExpandFields(fields, skip, defs, stack).value ==> NoRefs(f.value)
    decreases defs.Keys - stack, fields, 0
  {
    hide Expand, NoRefs;
    if fields != [] {
      FieldsAreClean(fields[1..], skip, defs, stack);
      if fields[0].key != skip {
        ExpandedIsClean(fields[0].value, defs, stack);
      }
    }
  }

  /** Without a textual `$ref` before, there is none behind. */
  lemma {:induction false} PlainFields(fields: seq<Field>, defs: Definitions, stack: set<string>)
    requires NoTextDefinition(defs) && ExpandFields(fields, DEFS, defs, stack).Ok? && RefOf(fields).None?
    ensures forall f :: f in ExpandFields(fields, DEFS, defs, stack).value && f.key == REF ==> !f.value.Text?
    decreases defs.Keys - stack, fields, 1
  {
    hide Expand;
    if fields != [] {
      if fields[0].key == REF {
        ExpandedIsClean(fields[0].value, defs, stack);
        PlainFields(fields[1..], defs, stack);
      } else {
        PlainFields(fields[1..], defs, stack);
      }
    }
  }

  lemma {:induction false} ItemsAreClean(items: seq<Schema>, defs: Definitions, stack: set<string>)
    requires NoTextDefinition(defs) && ExpandItems(items, defs, stack).Ok?
    ensures forall x :: x in ExpandItems(items, defs, stack).value ==> NoRefs(x)
    decreases defs.Keys - stack, items, 0
  {
    hide Expand, NoRefs;
    if items != [] {
      ItemsAreClean(items[1..], defs, stack);
      ExpandedIsClean(items[0], defs, stack);
    }
  }

  /** The schema that shows what a text among the definitions does: the reference to it
      stands where a `$ref` is expected. */
  function NestedRef(name: string): Schema {
    Object([Field(REF, Object([Field(REF, Text(LOCAL + name))]))])
  }

  lemma {:induction false} NestedRefLeavesRef(name: string, defs: Definitions)
    requires name in defs && defs[name].Text?
    ensures Expand(NestedRef(name), defs, {}) == Ok(Object([Field(REF, defs[name])]))
  {
    var inner := Object([Field(REF, Text(LOCAL + name))]);
    assert (LOCAL + name)[..|LOCAL|] == LOCAL && (LOCAL + name)[|LOCAL|..] == name;
    assert Lookup(LOCAL + name, defs, {}) == Ok(name);
    assert inner.fields[1..] == [];
    assert ExpandFields(inner.fields, REF, defs, {}) == Ok([]);
    assert Expand(defs[name], defs, {} + {name}) == Ok(defs[name]);
    assert ExpandRef(inner, LOCAL + name, defs, {}) == Ok(defs[name]);
    assert Expand(inner, defs, {}) == Ok(defs[name]);
    var outer := NestedRef(name).fields;
    assert outer[1..] == [] && RefOf(outer) == None;
    assert [Field(REF, defs[name])] + [] == [Field(REF, defs[name])];
    assert ExpandFields(outer, DEFS, defs, {}) == Ok([Field(REF, defs[name])]);
  }

  /** No expanded schema ever holds a textual `$ref`, exactly if no definition is a bare
      text. */
  lemma {:induction false} NoRefsLeft(defs: Definitions)
    ensures NoTextDefinition(defs) <==>
            forall schema :: Expand(schema, defs, {}).Ok? ==> NoRefs(Expand(schema, defs, {}).value)
  {
    if NoTextDefinition(defs) {
      forall schema | Expand(schema, defs, {}).Ok? ensures NoRefs(Expand(schema, defs, {}).value) {
        ExpandedIsClean(schema, defs, {});
      }
    } else {
      var name :| name in defs && defs[name].Text?;
      NestedRefLeavesRef(name, defs);
      var left := Expand(NestedRef(name), defs, {}).value;
      assert left.fields[0] in left.fields;
    }
  }

  // ---- when it fails --------------------------------------------------------------------------

  /** A place of the expansion: a schema, and the definitions being expanded around it. */
  datatype Visit = Visit(schema: Schema, stack: set<string>)

  function RefAt(v: Visit): Option<string> {
    if v.schema.Object? then RefOf(v.schema.fields) else None
  }

  /** The schema at the end of a chain of references, if the chain is sound. */
  function Target(schema: Schema, defs: Definitions, stack: set<string>): Option<Schema>
    decreases defs.Keys - stack
  {
    if !schema.Object? || RefOf(schema.fields).None? then Some(schema)
    else
      var name := Lookup(RefOf(schema.fields).value, defs, stack);
      if name.Err? then None
      else
        assert name.value in defs.Keys - stack && name.value !in defs.Keys - (stack + {name.value});
        Target(defs[name.value], defs, stack + {name.value})
  }

  predicate HasSiblings(fields: seq<Field>) {
    exists f | f in fields :: f.key != REF
  }

  /** A reference that cannot be expanded: not local, cyclic, dangling, or with siblings
      while it leads to something that is not an object. */
  predicate Bad(v: Visit, defs: Definitions) {
    && RefAt(v).Some?
    && var name := Lookup(RefAt(v).value, defs, v.stack);
       || name.Err?
       || (HasSiblings(v.schema.fields)
           && var t := Target(defs[name.value], defs, v.stack + {name.value}); t.Some? && !t.value.Object?)
  }

  /** Where the expansion goes from a place. */
  predicate Leads(v: Visit, w: Visit, defs: Definitions) {
    match v.schema
    case Object(fields) =>
      if RefAt(v).None? then w.stack == v.stack && exists f | f in fields :: f.key != DEFS && f.value == w.schema
      else
        || (w.stack == v.stack && exists f | f in fields :: f.key != REF && f.value == w.schema)
        || (var name := Lookup(RefAt(v).value, defs, v.stack);
            name.Ok? && w == Visit(defs[name.value], v.stack + {name.value}))
    case List(items) => w.stack == v.stack && w.schema in items
    case _ => false
  }

  predicate IsRoute(route: seq<Visit>, defs: Definitions) {
    route != [] && forall k | 0 < k < |route| :: Leads(route[k - 1], route[k], defs)
  }

  /** The expansion of the schema reaches a bad reference. */
  ghost predicate MeetsBad(schema: Schema, defs: Definitions, stack: set<string>) {
    exists route :: IsRoute(route, defs) && route[0] == Visit(schema, stack) && Bad(route[|route| - 1], defs)
  }

  function Fails(v: Visit, defs: Definitions): bool {
    Expand(v.schema, defs, v.stack).Err?
  }

  lemma {:induction false} FieldsFail(fields: seq<Field>, skip: string, defs: Definitions, stack: set<string>)
    ensures ExpandFields(fields, skip, defs, stack).Err? <==>
            exists f :: f in fields && f.key != skip && Expand(f.value, defs, stack).Err?
    ensures ExpandFields(fields, skip, defs, stack).Ok? ==>
              (ExpandFields(fields, skip, defs, stack).value == [] <==> forall f :: f in fields ==> f.key == skip)
    decreases |fields|
  {
    hide Expand;
    if fields != [] {
      FieldsFail(fields[1..], skip, defs, stack);
      assert forall f :: f in fields <==> f == fields[0] || f in fields[1..] by {
        assert fields == [fields[0]] + fields[1..];
      }
    }
  }

  lemma {:induction false} ItemsFail(items: seq<Schema>, defs: Definitions, stack: set<string>)
    ensures ExpandItems(items, defs, stack).Err? <==> exists x :: x in items && Expand(x, defs, stack).Err?
    decreases |items|
  {
    hide Expand;
    if items != [] {
      ItemsFail(items[1..], defs, stack);
      assert forall x :: x in items <==> x == items[0] || x in items[1..] by {
        assert items == [items[0]] + items[1..];
      }
      var rest := items[1..];
      assert ExpandItems(items, defs, stack).Err? <==> Expand(items[0], defs, stack).Err? || ExpandItems(rest, defs, stack).Err?;
      if Expand(items[0], defs, stack).Err? {
        assert items[0] in items;
      } else if ExpandItems(rest, defs, stack).Err? {
        var x :| x in rest && Expand(x, defs, stack).Err?;
        assert x in items;
      }
    }
  }

  /** A sound chain of references ends in an object exactly if its expansion is one. */
  lemma {:induction false} TargetIsExpansion(schema: Schema, defs: Definitions, stack: set<string>)
    requires Expand(schema, defs, stack).Ok?
    ensures var t := Target(schema, defs, stack);
            t.Some? && (t.value.Object? <==> Expand(schema, defs, stack).value.Object?)
    decreases defs.Keys - stack
  {
    if schema.Object? && RefOf(schema.fields).Some? {
      var name := Lookup(RefOf(schema.fields).value, defs, stack).value;
      assert name in defs.Keys - stack && name !in defs.Keys - (stack + {name});
      TargetIsExpansion(defs[name], defs, stack + {name});
    }
  }

  /** A place fails exactly if its reference is bad or the expansion leads to a place that
      fails. */
  lemma {:induction false} FailsHere(v: Visit, defs: Definitions)
    ensures Fails(v, defs) <==> Bad(v, defs) || exists w :: Leads(v, w, defs) && Fails(w, defs)
  {
    match v.schema {
      case Object(fields) =>
        if RefAt(v).None? {
          PlainFails(v, defs);
        } else {
          RefFails(v, defs);
        }
      case List(items) =>
        ItemsFail(items, defs, v.stack);
        if Fails(v, defs) {
          var x :| x in items && Expand(x, defs, v.stack).Err?;
          assert Leads(v, Visit(x, v.stack), defs);
        }
      case _ =>
    }
  }

  lemma {:induction false} PlainFails(v: Visit, defs: Definitions)
    requires v.schema.Object? && RefAt(v).None?
    ensures Fails(v, defs) <==> exists w :: Leads(v, w, defs) && Fails(w, defs)
  {
    FieldsFail(v.schema.fields, DEFS, defs, v.stack);
    if Fails(v, defs) {
      var f :| f in v.schema.fields && f.key != DEFS && Expand(f.value, defs, v.stack).Err?;
      assert Leads(v, Visit(f.value, v.stack), defs) && Fails(Visit(f.value, v.stack), defs);
    }
  }

  lemma {:induction false} RefFails(v: Visit, defs: Definitions)
    requires v.schema.Object? && RefAt(v).Some?
    ensures Fails(v, defs) <==> Bad(v, defs) || exists w :: Leads(v, w, defs) && Fails(w, defs)
  {
    hide ExpandFields, Update, Target, Expand;
    var name := Lookup(RefAt(v).value, defs, v.stack);
    RefUnfolds(v, defs);
    if name.Ok? {
      var w := Visit(defs[name.value], v.stack + {name.value});
      assert Leads(v, w, defs);
      FieldsFail(v.schema.fields, REF, defs, v.stack);
      if !Fails(w, defs) {
        TargetIsExpansion(w.schema, defs, w.stack);
        if ExpandFields(v.schema.fields, REF, defs, v.stack).Err? {
          var f :| f in v.schema.fields && f.key != REF && Expand(f.value, defs, v.stack).Err?;
          assert Leads(v, Visit(f.value, v.stack), defs) && Fails(Visit(f.value, v.stack), defs);
        }
      }
    }
  }

  lemma {:induction false} RefUnfolds(v: Visit, defs: Definitions)
    requires v.schema.Object? && RefAt(v).Some?
    ensures var name := Lookup(RefAt(v).value, defs, v.stack);
            var extra := ExpandFields(v.schema.fields, REF, defs, v.stack);
            Fails(v, defs) <==>
              || name.Err? || Expand(defs[name.value], defs, v.stack + {name.value}).Err? || extra.Err?
              || (extra.value != [] && !Expand(defs[name.value], defs, v.stack + {name.value}).value.Object?)
  {
    hide ExpandFields, Update;
    assert Expand(v.schema, defs, v.stack) == ExpandRef(v.schema, RefAt(v).value, defs, v.stack);
  }

  lemma {:induction false} BadRouteFails(route: seq<Visit>, defs: Definitions)
    requires IsRoute(route, defs) && Bad(route[|route| - 1], defs)
    ensures Fails(route[0], defs)
    decreases |route|
  {
    hide Fails, Bad, Leads;
    FailsHere(route[0], defs);
    if |route| > 1 {
      var rest := route[1..];
      assert forall k :: 0 < k < |rest| ==> rest[k - 1] == route[k] && rest[k] == route[k + 1];
      BadRouteFails(rest, defs);
      assert Leads(route[0], route[1], defs);
    }
  }

  lemma {:induction false} FailureHasCause(v: Visit, defs: Definitions)
    requires Fails(v, defs)
    ensures MeetsBad(v.schema, defs, v.stack)
    decreases defs.Keys - v.stack, v.schema
  {
    FailsHere(v, defs);
    if Bad(v, defs) {
      assert IsRoute([v], defs) && [v][0] == v;
    } else {
      var w :| Leads(v, w, defs) && Fails(w, defs);
      FailureHasCause(w, defs);
      var rest :| IsRoute(rest, defs) && rest[0] == Visit(w.schema, w.stack) && Bad(rest[|rest| - 1], defs);
      RouteGrows(v, rest, defs);
    }
  }

  lemma {:induction false} RouteGrows(v: Visit, rest: seq<Visit>, defs: Definitions)
    requires IsRoute(rest, defs) && Leads(v, rest[0], defs) && Bad(rest[|rest| - 1], defs)
    ensures MeetsBad(v.schema, defs, v.stack)
  {
    hide Leads, Bad;
    var route := [v] + rest;
    forall k | 0 < k < |route| ensures Leads(route[k - 1], route[k], defs) {
      if k > 1 {
        assert route[k - 1] == rest[k - 2] && route[k] == rest[k - 1];
      }
    }
    assert IsRoute(route, defs) && route[|route| - 1] == rest[|rest| - 1];
  }

  /** The expansion fails exactly if it reaches a reference that is cyclic, dangling or not
      local, or has siblings without leading to an object. */
  lemma {:induction false} FailsIffBadRef(schema: Schema, defs: Definitions)
    ensures Expand(schema, defs, {}).Err? <==> MeetsBad(schema, defs, {})
  {
    hide Expand, Bad;
    var v := Visit(schema, {});
    if Fails(v, defs) {
      FailureHasCause(v, defs);
    }
    if MeetsBad(schema, defs, {}) {
      var route :| IsRoute(route, defs) && route[0] == v && Bad(route[|route| - 1], defs);
      BadRouteFails(route, defs);
    }
  }
}
