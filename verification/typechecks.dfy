/**
 * What each declared type contributes to the type errors, stated in terms
 * of the property's value.
 */
module TypeChecks {
  import opened Values
  import opened Schemas
  import opened Reports
  import opened Validator

  /** A plain string field is reported when it holds "" or a truthy
      non-string; "" is reported even when the field is not required. */
  lemma PlainStringEntry(p: Property, payload: Value, parses: Value -> bool)
    requires !Nullish(payload) && p.schema.StringType? && p.schema.format != DateTime
    ensures PropertySafe(p, payload)
    ensures var v := Get(payload, p.name);
      PropertyEntry(p, payload, parses) ==
        if p.name != "" && (v == Str("") || (Truthy(v) && !v.Str?)) then [Name(p.name)] else []
    ensures var v := Get(payload, p.name);
      v in {Undefined, Null, Bool(false), Num(0)} ==> PropertyEntry(p, payload, parses) == []
  {
  }

  /** A date-time field is reported when it is truthy and does not parse;
      an absent, null or empty value never is. */
  lemma DateTimeEntry(p: Property, payload: Value, parses: Value -> bool)
    requires !Nullish(payload) && p.schema == StringType(DateTime)
    ensures PropertySafe(p, payload)
    ensures var v := Get(payload, p.name);
      PropertyEntry(p, payload, parses) ==
        if p.name != "" && Truthy(v) && !parses(v) then [Name(p.name)] else []
    ensures var v := Get(payload, p.name);
      v in {Undefined, Null, Str("")} ==> PropertyEntry(p, payload, parses) == []
  {
  }

  /** `number` and `integer` are reported when truthy and not a number, so
      zero is never reported. */
  lemma NumberEntry(p: Property, payload: Value, parses: Value -> bool)
    requires !Nullish(payload) && (p.schema == NumberType || p.schema == IntegerType)
    ensures PropertySafe(p, payload)
    ensures var v := Get(payload, p.name);
      PropertyEntry(p, payload, parses) ==
        if p.name != "" && Truthy(v) && !v.Num? then [Name(p.name)] else []
    ensures Get(payload, p.name) in {Num(0), Bool(false), Str("")} ==> PropertyEntry(p, payload, parses) == []
  {
  }

  /** The `integer` declaration is checked exactly like `number`. */
  lemma IntegerIsNumber(name: string, payload: Value, parses: Value -> bool)
    requires !Nullish(payload)
    ensures PropertySafe(Property(name, NumberType), payload) && PropertySafe(Property(name, IntegerType), payload)
    ensures PropertyEntry(Property(name, IntegerType), payload, parses) == PropertyEntry(Property(name, NumberType), payload, parses)
  {
  }

  /** A boolean field is reported when it is defined, non-null and not a
      boolean: `false` passes and the string "true" does not. */
  lemma BooleanEntry(p: Property, payload: Value, parses: Value -> bool)
    requires !Nullish(payload) && p.schema == BooleanType
    ensures PropertySafe(p, payload)
    ensures var v := Get(payload, p.name);
      PropertyEntry(p, payload, parses) ==
        if p.name != "" && !Nullish(v) && !v.Bool? then [Name(p.name)] else []
    ensures Get(payload, p.name) == Bool(false) ==> PropertyEntry(p, payload, parses) == []
    ensures p.name != "" && Get(payload, p.name) == Str("true") ==> PropertyEntry(p, payload, parses) == [Name(p.name)]
  {
  }

  /** An object field holding a truthy non-object is reported by name;
      otherwise its nested report is added as one entry, and only when it is
      non-empty. */
  lemma ObjectEntry(p: Property, payload: Value, parses: Value -> bool)
    requires !Nullish(payload) && p.schema.ObjectType? && PropertySafe(p, payload)
    ensures var v := Get(payload, p.name);
      p.name != "" && Truthy(v) && !IsObjectType(v) ==> PropertyEntry(p, payload, parses) == [Name(p.name)]
    ensures var v := Get(payload, p.name);
      !(p.name != "" && Truthy(v) && !IsObjectType(v)) ==>
        && Safe(p.schema.sub, v)
        && PropertyEntry(p, payload, parses) == Nest(Validate(p.schema.sub, v, parses))
  {
    var v := Get(payload, p.name);
    if !(p.name != "" && Truthy(v) && !IsObjectType(v)) {
      assert Dispatch(p, payload, parses) == ValidateObject(p.schema.sub, payload, p.name, parses);
      assert ValidateObject(p.schema.sub, payload, p.name, parses) == ErrorList(Validate(p.schema.sub, v, parses));
    }
  }

  /** An array field holding a truthy non-array yields exactly
      `Nested([Name(p)])`; a falsy value yields nothing; an array yields one
      entry collecting the failing items' reports, if there are any. */
  lemma ArrayEntry(p: Property, payload: Value, parses: Value -> bool)
    requires !Nullish(payload) && p.schema.ArrayType? && PropertySafe(p, payload)
    ensures var v := Get(payload, p.name);
      Truthy(v) && !v.Arr? ==> PropertyEntry(p, payload, parses) == [Nested([Name(p.name)])]
    ensures !Truthy(Get(payload, p.name)) ==> PropertyEntry(p, payload, parses) == []
    ensures var v := Get(payload, p.name);
      v.Arr? ==>
        PropertyEntry(p, payload, parses) == Nest(ItemReports(p.schema.items, v.elems, |v.elems|, parses))
  {
    var v := Get(payload, p.name);
    if v.Arr? {
      assert ValidateArrayType(payload, p.name) == NoReturn;
      assert Dispatch(p, payload, parses) == ValidateArrayItems(p.schema.items, payload, p.name, parses);
    }
  }
}
