/**
 * The recursive validator: required-field check, per-property type
 * dispatch, nested object and array-item validation.
 *
 * The JavaScript code throws when it indexes `undefined` or `null`, or calls
 * `forEach` on something that is not an array; `Safe` is the precondition
 * that rules those inputs out. Date parsing is host-dependent and is passed
 * in as `parses`.
 */
module Validator {
  import opened Values
  import opened Schemas
  import opened Reports

  /** The inputs on which `Validate(s, payload)` does not throw by indexing
      `undefined`/`null` or by calling `forEach` on a non-array. A throwing
      `Date.parse` is not represented (see `parses`). */
  predicate Safe(s: ObjectSchema, payload: Value)
    decreases s, 1
  {
    if Nullish(payload) then s.required == [] && s.properties == []
    else forall p | p in s.properties :: PropertySafe(p, payload)
  }

  /** The type validator of `p` does not throw on `payload`. */
  predicate PropertySafe(p: Property, payload: Value)
    requires !Nullish(payload)
    decreases p
  {
    var v := Get(payload, p.name);
    match p.schema
    case ObjectType(sub) =>
      // a non-empty name is returned without recursing; otherwise the
      // value itself becomes the payload of the nested call
      (Truthy(v) && !IsObjectType(v) && p.name != "") || Safe(sub, v)
    case ArrayType(items) =>
      if !Truthy(v) then true
      else if !v.Arr? then p.name != ""
      else forall x | x in v.elems :: Safe(items, x)
    case _ => true
  }

  /** A required name is missing when its value is `undefined` or `null`. */
  predicate Missing(payload: Value, name: string)
    requires !Nullish(payload)
  {
    Nullish(Get(payload, name))
  }

  /** The required-field errors collected after visiting `required[..n]`. */
  function RequiredErrors(required: seq<string>, payload: Value, n: nat): (r: Report)
    requires n <= |required|
    requires n == 0 || !Nullish(payload)
    ensures |r| <= n
    ensures forall j :: 0 <= j < |r| ==> r[j].Name? && r[j].name in required && Missing(payload, r[j].name)
  {
    if n == 0 then []
    else
      var prior := RequiredErrors(required, payload, n - 1);
      var name := required[n - 1];
      if Missing(payload, name) then prior + [Name(name)] else prior
  }

  function ValidateDateTimeType(payload: Value, property: string, parses: Value -> bool): (r: Returned)
    requires !Nullish(payload)
    ensures r == NoReturn || r == PropertyName(property)
    ensures r.PropertyName? <==> Truthy(Get(payload, property)) && !parses(Get(payload, property))
  {
    var v := Get(payload, property);
    if Truthy(v) && !parses(v) then PropertyName(property) else NoReturn
  }

  function ValidateStringType(payload: Value, property: string, format: Format, parses: Value -> bool): (r: Returned)
    requires !Nullish(payload)
    ensures r == NoReturn || r == PropertyName(property)
    ensures format == DateTime ==> r == ValidateDateTimeType(payload, property, parses)
    ensures format != DateTime ==>
      (r.PropertyName? <==> (match Get(payload, property) case Str(s) => s == "" case v => Truthy(v)))
  {
    if format == DateTime then ValidateDateTimeType(payload, property, parses)
    else
      var v := Get(payload, property);
      if (v.Str? && |v.s| == 0) || (!v.Str? && Truthy(v)) then PropertyName(property) else NoReturn
  }

  /** Shared by `number` and `integer`. */
  function ValidateNumberType(payload: Value, property: string): (r: Returned)
    requires !Nullish(payload)
    ensures r == NoReturn || r == PropertyName(property)
    ensures r.PropertyName? <==> Truthy(Get(payload, property)) && !Get(payload, property).Num?
  {
    var v := Get(payload, property);
    if Truthy(v) && !v.Num? then PropertyName(property) else NoReturn
  }

  function ValidateObjectType(payload: Value, property: string): (r: Returned)
    requires !Nullish(payload)
    ensures r == NoReturn || r == PropertyName(property)
    ensures r.PropertyName? <==> Truthy(Get(payload, property)) && !IsObjectType(Get(payload, property))
  {
    var v := Get(payload, property);
    if Truthy(v) && !IsObjectType(v) then PropertyName(property) else NoReturn
  }

  function ValidateBooleanType(payload: Value, property: string): (r: Returned)
    requires !Nullish(payload)
    ensures r == NoReturn || r == PropertyName(property)
    ensures r.PropertyName? <==> !Nullish(Get(payload, property)) && !Get(payload, property).Bool?
  {
    var v := Get(payload, property);
    if !Nullish(v) && !v.Bool? then PropertyName(property) else NoReturn
  }

  function ValidateArrayType(payload: Value, property: string): (r: Returned)
    requires !Nullish(payload)
    ensures r == NoReturn || r == PropertyName(property)
    ensures r.PropertyName? <==> Truthy(Get(payload, property)) && !Get(payload, property).Arr?
  {
    var v := Get(payload, property);
    if Truthy(v) && !v.Arr? then PropertyName(property) else NoReturn
  }

  /** An `object` property: its type check, and otherwise the nested report. */
  function ValidateObject(sub: ObjectSchema, payload: Value, property: string, parses: Value -> bool): (r: Returned)
    requires !Nullish(payload) && PropertySafe(Property(property, ObjectType(sub)), payload)
    ensures r.PropertyName? ==> r.name == property && property != ""
    ensures r.PropertyName? <==>
      property != "" && Truthy(Get(payload, property)) && !IsObjectType(Get(payload, property))
    ensures r.ErrorList? ==> WellFormed(r.errors)
    ensures !r.NoReturn?
    ensures !(property != "" && Truthy(Get(payload, property)) && !IsObjectType(Get(payload, property))) ==>
              Safe(sub, Get(payload, property)) && r == ErrorList(Validate(sub, Get(payload, property), parses))
    decreases sub, 3
  {
    var propertyError := ValidateObjectType(payload, property);
    if propertyError.PropertyName? && propertyError.name != "" then propertyError
    else ErrorList(Validate(sub, Get(payload, property), parses))
  }

  /** An `array` property: a one-element list holding the name when the value
      is truthy but not an array, and otherwise the failing items' reports. */
  function ValidateArray(items: ObjectSchema, payload: Value, property: string, parses: Value -> bool): (r: Returned)
    requires !Nullish(payload) && PropertySafe(Property(property, ArrayType(items)), payload)
    ensures !r.PropertyName?
    ensures r.NoReturn? <==> !Truthy(Get(payload, property))
    ensures Truthy(Get(payload, property)) && !Get(payload, property).Arr? ==>
      r == ErrorList([Name(property)])
    ensures r.ErrorList? ==> WellFormed(r.errors)
    ensures r.ErrorList? && Get(payload, property).Arr? ==> |r.errors| <= |Get(payload, property).elems|
    decreases items, 6
  {
    var propertyError := ValidateArrayType(payload, property);
    if propertyError.PropertyName? && propertyError.name != "" then ErrorList([Name(propertyError.name)])
    else ValidateArrayItems(items, payload, property, parses)
  }

  function ValidateArrayItems(items: ObjectSchema, payload: Value, property: string, parses: Value -> bool): (r: Returned)
    requires !Nullish(payload)
    requires var v := Get(payload, property); Truthy(v) ==> v.Arr? && forall x | x in v.elems :: Safe(items, x)
    ensures !r.PropertyName?
    ensures r.NoReturn? <==> !Truthy(Get(payload, property))
    ensures r.ErrorList? ==> WellFormed(r.errors) && |r.errors| <= |Get(payload, property).elems|
    decreases items, 5
  {
    var v := Get(payload, property);
    if Truthy(v) then ErrorList(ItemReports(items, v.elems, |v.elems|, parses)) else NoReturn
  }

  /** The reports of the failing items among `elems[..n]`, each nested once. */
  function ItemReports(items: ObjectSchema, elems: seq<Value>, n: nat, parses: Value -> bool): (r: Report)
    requires n <= |elems| && forall x | x in elems :: Safe(items, x)
    ensures |r| <= n
    ensures WellFormed(r)
    ensures forall e | e in r :: e.Nested?
    decreases items, 4, n
  {
    if n == 0 then []
    else
      var prior := ItemReports(items, elems, n - 1, parses);
      var error := Validate(items, elems[n - 1], parses);
      if |error| > 0 then prior + [Nested(error)] else prior
  }

  /** The `validators` table: dispatch on the declared type. */
  function Dispatch(p: Property, payload: Value, parses: Value -> bool): (r: Returned)
    requires !Nullish(payload) && PropertySafe(p, payload)
    ensures r.PropertyName? ==> r.name == p.name
    ensures r.ErrorList? ==> WellFormed(r.errors)
    ensures r.ErrorList? ==> p.schema.ObjectType? || p.schema.ArrayType?
    ensures p.schema.ArrayType? ==> !r.PropertyName?
    decreases p, 0
  {
    match p.schema
    case StringType(format) => ValidateStringType(payload, p.name, format, parses)
    case NumberType => ValidateNumberType(payload, p.name)
    case IntegerType => ValidateNumberType(payload, p.name)
    case ObjectType(sub) => ValidateObject(sub, payload, p.name, parses)
    case ArrayType(items) => ValidateArray(items, payload, p.name, parses)
    case BooleanType => ValidateBooleanType(payload, p.name)
  }

  /** The entries property `p` contributes to the type errors. */
  function PropertyEntry(p: Property, payload: Value, parses: Value -> bool): (r: Report)
    requires !Nullish(payload) && PropertySafe(p, payload)
    ensures |r| <= 1 && WellFormed(r)
    ensures forall e | e in r && e.Name? :: e.name == p.name && e.name != ""
    decreases p, 1
  {
    Push(Dispatch(p, payload, parses))
  }

  /** The type errors collected after visiting `s.properties[..n]`. */
  function DataTypeErrors(s: ObjectSchema, payload: Value, n: nat, parses: Value -> bool): (r: Report)
    requires n <= |s.properties| && Safe(s, payload)
    ensures |r| <= n
    ensures WellFormed(r)
    ensures forall j :: 0 <= j < |r| && r[j].Name? ==> r[j].name != "" && r[j].name in Names(s.properties)
    decreases s, 1, n
  {
    if n == 0 then []
    else
      var p := s.properties[n - 1];
      assert p in s.properties;
      DataTypeErrors(s, payload, n - 1, parses) + PropertyEntry(p, payload, parses)
  }

  /** `validate(schema, payload)`: required-field errors, then type errors. */
  function Validate(s: ObjectSchema, payload: Value, parses: Value -> bool): (r: Report)
    requires Safe(s, payload)
    ensures WellFormed(r)
    ensures |r| <= |s.required| + |s.properties|
    ensures forall e | e in r && e.Name? :: e.name in s.required || (e.name != "" && e.name in Names(s.properties))
    decreases s, 2
  {
    RequiredErrors(s.required, payload, |s.required|) + DataTypeErrors(s, payload, |s.properties|, parses)
  }
}
