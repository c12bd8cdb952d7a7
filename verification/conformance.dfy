/**
 * A declarative statement of when a payload is valid, independent of how
 * the report is assembled, and the proof that the validator returns an
 * empty report exactly on valid payloads.
 */
module Conformance {
  import opened Values
  import opened Schemas
  import opened Reports
  import opened Validator
  import ReportOrder
  import TypeChecks

  /** The value of a required field is neither `undefined` nor `null`. */
  predicate Present(payload: Value, name: string) {
    !Nullish(payload) && !Nullish(Get(payload, name))
  }

  /** A plain string field accepts a non-empty string or any falsy non-string. */
  predicate AcceptableString(v: Value) {
    match v
    case Str(s) => s != ""
    case _ => !Truthy(v)
  }

  /** Every required field is present and every declared property conforms. */
  predicate Conforms(s: ObjectSchema, payload: Value, parses: Value -> bool)
    decreases s, 1
  {
    && (forall name | name in s.required :: Present(payload, name))
    && (forall p | p in s.properties :: PropertyConforms(p, payload, parses))
  }

  /** What each declared type accepts. A property named "" is never reported
      itself, but an object value under it is still validated. */
  predicate PropertyConforms(p: Property, payload: Value, parses: Value -> bool)
    decreases p
  {
    !Nullish(payload) &&
    var v := Get(payload, p.name);
    match p.schema
    case StringType(format) =>
      p.name == "" || (if format == DateTime then !Truthy(v) || parses(v) else AcceptableString(v))
    case NumberType => p.name == "" || !Truthy(v) || v.Num?
    case IntegerType => p.name == "" || !Truthy(v) || v.Num?
    case BooleanType => p.name == "" || Nullish(v) || v.Bool?
    case ObjectType(sub) => (p.name == "" || !Truthy(v) || IsObjectType(v)) && Conforms(sub, v, parses)
    case ArrayType(items) =>
      match v
      case Arr(elems) => forall x | x in elems :: Conforms(items, x, parses)
      case _ => !Truthy(v)
  }

  /** An empty report means the payload is valid, and only then. */
  lemma {:induction false} ValidIffConforms(s: ObjectSchema, payload: Value, parses: Value -> bool)
    requires Safe(s, payload)
    ensures Validate(s, payload, parses) == [] <==> Conforms(s, payload, parses)
    decreases s, 2
  {
    var required := RequiredErrors(s.required, payload, |s.required|);
    var types := DataTypeErrors(s, payload, |s.properties|, parses);
    assert Validate(s, payload, parses) == required + types;
    RequiredEmptyIff(s.required, payload);
    TypesEmptyIff(s, payload, parses);
  }

  lemma TypesEmptyIff(s: ObjectSchema, payload: Value, parses: Value -> bool)
    requires Safe(s, payload)
    ensures DataTypeErrors(s, payload, |s.properties|, parses) == [] <==>
      forall p | p in s.properties :: PropertyConforms(p, payload, parses)
    decreases s, 1, |s.properties| + 1
  {
    DataTypesEmptyIff(s, payload, |s.properties|, parses);
    if DataTypeErrors(s, payload, |s.properties|, parses) == [] {
      forall p | p in s.properties
        ensures PropertyConforms(p, payload, parses)
      {
        var k :| 0 <= k < |s.properties| && s.properties[k] == p;
      }
    }
  }

  lemma RequiredEmptyIff(required: seq<string>, payload: Value)
    requires required == [] || !Nullish(payload)
    ensures RequiredErrors(required, payload, |required|) == [] <==>
      forall name | name in required :: Present(payload, name)
  {
    var r := RequiredErrors(required, payload, |required|);
    if r != [] {
      assert !Present(payload, r[0].name);
    } else {
      forall name | name in required
        ensures Present(payload, name)
      {
        var k :| 0 <= k < |required| && required[k] == name;
        ReportOrder.RequiredReported(required, payload, k);
      }
    }
  }

  lemma {:induction false} DataTypesEmptyIff(s: ObjectSchema, payload: Value, n: nat, parses: Value -> bool)
    requires n <= |s.properties| && Safe(s, payload)
    ensures DataTypeErrors(s, payload, n, parses) == [] <==>
      forall k :: 0 <= k < n ==> PropertyConforms(s.properties[k], payload, parses)
    decreases s, 1, n
  {
    if n > 0 {
      var p := s.properties[n - 1];
      assert p in s.properties;
      DataTypesEmptyIff(s, payload, n - 1, parses);
      PropertyEntryEmptyIff(p, payload, parses);
    }
  }

  lemma {:induction false} PropertyEntryEmptyIff(p: Property, payload: Value, parses: Value -> bool)
    requires !Nullish(payload) && PropertySafe(p, payload)
    ensures PropertyEntry(p, payload, parses) == [] <==> PropertyConforms(p, payload, parses)
    decreases p, 1
  {
    match p.schema
    case ObjectType(sub) => ObjectEntryEmptyIff(p, payload, parses);
    case ArrayType(items) => ArrayEntryEmptyIff(p, payload, parses);
    case _ =>
  }

  lemma {:induction false} ObjectEntryEmptyIff(p: Property, payload: Value, parses: Value -> bool)
    requires !Nullish(payload) && p.schema.ObjectType? && PropertySafe(p, payload)
    ensures PropertyEntry(p, payload, parses) == [] <==> PropertyConforms(p, payload, parses)
    decreases p, 0
  {
    var v := Get(payload, p.name);
    TypeChecks.ObjectEntry(p, payload, parses);
    if !(Truthy(v) && !IsObjectType(v) && p.name != "") {
      ValidIffConforms(p.schema.sub, v, parses);
    }
  }

  lemma {:induction false} ArrayEntryEmptyIff(p: Property, payload: Value, parses: Value -> bool)
    requires !Nullish(payload) && p.schema.ArrayType? && PropertySafe(p, payload)
    ensures PropertyEntry(p, payload, parses) == [] <==> PropertyConforms(p, payload, parses)
    decreases p, 0
  {
    var v := Get(payload, p.name);
    TypeChecks.ArrayEntry(p, payload, parses);
    if v.Arr? {
      var items := p.schema.items;
      ItemsEmptyIff(items, v.elems, |v.elems|, parses);
      forall x | x in v.elems
        ensures Validate(items, x, parses) == [] <==> Conforms(items, x, parses)
      {
        ValidIffConforms(items, x, parses);
      }
    }
  }

  /** The failing items' list is empty iff every visited item's own report
      is empty. */
  lemma {:induction false} ItemsEmptyIff(items: ObjectSchema, elems: seq<Value>, n: nat, parses: Value -> bool)
    requires n <= |elems| && forall x | x in elems :: Safe(items, x)
    ensures ItemReports(items, elems, n, parses) == [] <==>
      forall k :: 0 <= k < n ==> Validate(items, elems[k], parses) == []
  {
    if n > 0 {
      ItemsEmptyStep(items, elems, n, parses);
      ItemsEmptyIff(items, elems, n - 1, parses);
    }
  }

  /** One more item leaves the item reports empty iff they were empty and
      the new item's report is empty. */
  lemma ItemsEmptyStep(items: ObjectSchema, elems: seq<Value>, n: nat, parses: Value -> bool)
    requires 0 < n <= |elems| && forall x | x in elems :: Safe(items, x)
    ensures elems[n - 1] in elems
    ensures ItemReports(items, elems, n, parses) == [] <==>
      ItemReports(items, elems, n - 1, parses) == [] && Validate(items, elems[n - 1], parses) == []
  {
    assert elems[n - 1] in elems;
  }

  /** A schema with no required and no declared properties accepts every
      payload, `undefined` included. */
  lemma EmptySchemaAcceptsAll(payload: Value, parses: Value -> bool)
    ensures Safe(ObjectSchema([], []), payload)
    ensures Validate(ObjectSchema([], []), payload, parses) == []
  {
  }
}
