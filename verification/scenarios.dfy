/**
 * Concrete schemas and payloads from the repository's test suite, with the
 * exact reports the model produces for them.
 */
module Scenarios {
  import opened Values
  import opened Schemas
  import opened Reports
  import opened Validator
  import TypeChecks

  /** The nested `size` schema of test/index.js:329-342. */
  const Size := ObjectSchema(
    ["length", "width", "height"],
    [ Property("length", NumberType),
      Property("width", NumberType),
      Property("height", NumberType),
      Property("weight", NumberType) ])

  /** The schema of test/index.js:325-347. */
  const SizeSchema := ObjectSchema(
    ["name"],
    [ Property("id", StringType(Unformatted)),
      Property("name", StringType(Unformatted)),
      Property("size", ObjectType(Size)) ])

  /** `width` missing, `height` and `weight` given as strings (test/index.js:350-354). */
  const BadSize := Obj(map["length" := Num(30), "height" := Str("45"), "weight" := Str("45 kg")])

  lemma BadSizeRequired()
    ensures RequiredErrors(Size.required, BadSize, 3) == [Name("width")]
  {
    assert Missing(BadSize, "width") && !Missing(BadSize, "length") && !Missing(BadSize, "height");
  }

  /** Every payload that is not `undefined` or `null` is safe for a schema
      of numbers only. */
  lemma SizeSafe(payload: Value)
    requires !Nullish(payload)
    ensures Safe(Size, payload)
  {
  }

  lemma BadSizeTypesPrefix(parses: Value -> bool)
    ensures Safe(Size, BadSize)
    ensures DataTypeErrors(Size, BadSize, 2, parses) == []
  {
    SizeSafe(BadSize);
    assert DataTypeErrors(Size, BadSize, 1, parses) == [];
    assert Get(BadSize, "width") == Undefined;
  }

  lemma BadSizeTypes(parses: Value -> bool)
    ensures Safe(Size, BadSize)
    ensures DataTypeErrors(Size, BadSize, 4, parses) == [Name("height"), Name("weight")]
  {
    BadSizeTypesPrefix(parses);
    assert Get(BadSize, "height") == Str("45") && Get(BadSize, "weight") == Str("45 kg");
    assert DataTypeErrors(Size, BadSize, 3, parses) == [Name("height")];
  }

  lemma BadSizeReport(parses: Value -> bool)
    ensures Safe(Size, BadSize)
    ensures Validate(Size, BadSize, parses) == [Name("width"), Name("height"), Name("weight")]
  {
    BadSizeRequired();
    BadSizeTypes(parses);
  }

  const GoodSize := Obj(map["length" := Num(30), "width" := Num(50), "height" := Num(45)])

  lemma GoodSizeTypes(parses: Value -> bool)
    ensures Safe(Size, GoodSize)
    ensures DataTypeErrors(Size, GoodSize, 4, parses) == []
  {
    SizeSafe(GoodSize);
    assert Get(GoodSize, "length") == Num(30) && Get(GoodSize, "width") == Num(50);
    assert DataTypeErrors(Size, GoodSize, 2, parses) == [];
    assert Get(GoodSize, "height") == Num(45) && Get(GoodSize, "weight") == Undefined;
    assert DataTypeErrors(Size, GoodSize, 3, parses) == [];
  }

  /** All three required measures present and numeric (test/index.js:386-389). */
  lemma GoodSizeReport(parses: Value -> bool)
    ensures Safe(Size, GoodSize)
    ensures Validate(Size, GoodSize, parses) == []
  {
    GoodSizeTypes(parses);
    assert !Missing(GoodSize, "length") && !Missing(GoodSize, "width") && !Missing(GoodSize, "height");
    assert RequiredErrors(Size.required, GoodSize, 3) == [];
  }

  /** With `name` present and `id` absent, only `size` can contribute. */
  lemma SizeSchemaPrefix(size: Value, parses: Value -> bool)
    requires !Nullish(size)
    ensures var payload := Obj(map["name" := Str("test"), "size" := size]);
      && Safe(SizeSchema, payload)
      && RequiredErrors(SizeSchema.required, payload, 1) == []
      && DataTypeErrors(SizeSchema, payload, 2, parses) == []
      && Get(payload, "size") == size
  {
    var payload := Obj(map["name" := Str("test"), "size" := size]);
    SizeSafe(size);
    assert Get(payload, "size") == size && Get(payload, "name") == Str("test");
    assert Get(payload, "id") == Undefined;
    assert DataTypeErrors(SizeSchema, payload, 1, parses) == [];
  }

  /** For an object under `size`, the report is the nested report of `size`
      as one entry, or nothing when that report is empty. */
  lemma SizeSchemaReport(size: Value, parses: Value -> bool)
    requires size.Obj?
    ensures var payload := Obj(map["name" := Str("test"), "size" := size]);
      && Safe(SizeSchema, payload)
      && Safe(Size, size)
      && Validate(SizeSchema, payload, parses) == Nest(Validate(Size, size, parses))
  {
    var payload := Obj(map["name" := Str("test"), "size" := size]);
    SizeSchemaPrefix(size, parses);
    var p := SizeSchema.properties[2];
    assert ValidateObject(Size, payload, "size", parses) == ErrorList(Validate(Size, size, parses));
    assert DataTypeErrors(SizeSchema, payload, 3, parses)
        == DataTypeErrors(SizeSchema, payload, 2, parses) + PropertyEntry(p, payload, parses);
  }

  /** The failures inside `size` form one nested entry (test/index.js:324-358). */
  lemma InvalidSize(parses: Value -> bool)
    ensures var payload := Obj(map["name" := Str("test"), "size" := BadSize]);
      && Safe(SizeSchema, payload)
      && Validate(SizeSchema, payload, parses) == [Nested([Name("width"), Name("height"), Name("weight")])]
  {
    SizeSchemaReport(BadSize, parses);
    BadSizeReport(parses);
  }

  /** A valid nested object leaves the report empty (test/index.js:359-393). */
  lemma ValidSize(parses: Value -> bool)
    ensures var payload := Obj(map["name" := Str("test"), "size" := GoodSize]);
      && Safe(SizeSchema, payload)
      && Validate(SizeSchema, payload, parses) == []
  {
    SizeSchemaReport(GoodSize, parses);
    GoodSizeReport(parses);
  }

  /** Leaving `size` out makes the nested call index `undefined`, so the
      JavaScript code throws instead of reporting. */
  lemma AbsentSizeThrows()
    ensures !Safe(SizeSchema, Obj(map["name" := Str("test")]))
  {
    var payload := Obj(map["name" := Str("test")]);
    assert Get(payload, "size") == Undefined;
    assert SizeSchema.properties[2] in SizeSchema.properties;
  }

  /** A missing required name is reported whatever it is: the required
      check has no length test, so the empty name `""` is reported too. */
  lemma EmptyRequiredNameReported(parses: Value -> bool)
    ensures Safe(ObjectSchema([""], []), Obj(map[]))
    ensures Validate(ObjectSchema([""], []), Obj(map[]), parses) == [Name("")]
  {
    assert Missing(Obj(map[]), "");
  }

  /** An `undefined` or `null` payload is accepted only by a schema with no
      required names and no properties; any other schema indexes it. */
  lemma NullishPayloadSafe(s: ObjectSchema, payload: Value)
    requires Nullish(payload)
    ensures Safe(s, payload) <==> s.required == [] && s.properties == []
  {
  }

  /** A `null` array item sent to an item schema with a required name makes
      the nested call index `null`. */
  lemma NullItemThrows()
    ensures !Safe(ObjectSchema([], [Property("a", ArrayType(ObjectSchema(["x"], [])))]),
                  Obj(map["a" := Arr([Null])]))
  {
    var payload := Obj(map["a" := Arr([Null])]);
    var p := Property("a", ArrayType(ObjectSchema(["x"], [])));
    assert Get(payload, "a") == Arr([Null]);
    assert !PropertySafe(p, payload) by {
      assert Null in Arr([Null]).elems;
    }
    assert p in [p];
  }

  /** The item schema of `sampleUrls` (test/index.js:180-191). */
  const Urls := ObjectSchema(
    ["id", "limit", "url"],
    [ Property("id", StringType(Unformatted)),
      Property("limit", NumberType),
      Property("url", StringType(Unformatted)) ])

  /** The schema of test/index.js:175-198, over its item schema. */
  function OuterSchema(items: ObjectSchema): ObjectSchema {
    ObjectSchema(
      ["name"],
      [ Property("id", StringType(Unformatted)),
        Property("sampleUrls", ArrayType(items)),
        Property("name", StringType(Unformatted)) ])
  }

  const UrlsSchema := OuterSchema(Urls)

  /** The two items of test/index.js:200-207. */
  const FirstUrl := Obj(map["id" := Num(-1), "limit" := Str("fail fail fail")])
  const SecondUrl := Obj(map["id" := Str("1234"), "limit" := Num(10), "url" := Num(10203)])

  lemma UrlsSafe(item: Value)
    requires !Nullish(item)
    ensures Safe(Urls, item)
  {
  }

  lemma FirstUrlRequired()
    ensures RequiredErrors(Urls.required, FirstUrl, 3) == [Name("url")]
  {
    assert !Missing(FirstUrl, "id") && !Missing(FirstUrl, "limit") && Missing(FirstUrl, "url");
  }

  lemma FirstUrlTypes(parses: Value -> bool)
    ensures Safe(Urls, FirstUrl)
    ensures DataTypeErrors(Urls, FirstUrl, 3, parses) == [Name("id"), Name("limit")]
  {
    UrlsSafe(FirstUrl);
    assert Get(FirstUrl, "id") == Num(-1);
    assert DataTypeErrors(Urls, FirstUrl, 1, parses) == [Name("id")];
    assert Get(FirstUrl, "limit") == Str("fail fail fail") && Get(FirstUrl, "url") == Undefined;
    assert DataTypeErrors(Urls, FirstUrl, 2, parses) == [Name("id"), Name("limit")];
  }

  /** `url` missing, a numeric `id` and a textual `limit`. */
  lemma FirstUrlReport(parses: Value -> bool)
    ensures Safe(Urls, FirstUrl)
    ensures Validate(Urls, FirstUrl, parses) == [Name("url"), Name("id"), Name("limit")]
  {
    FirstUrlRequired();
    FirstUrlTypes(parses);
  }

  lemma SecondUrlTypes(parses: Value -> bool)
    ensures Safe(Urls, SecondUrl)
    ensures DataTypeErrors(Urls, SecondUrl, 3, parses) == [Name("url")]
  {
    UrlsSafe(SecondUrl);
    assert Get(SecondUrl, "id") == Str("1234") && Get(SecondUrl, "limit") == Num(10);
    assert DataTypeErrors(Urls, SecondUrl, 2, parses) == [];
    assert Get(SecondUrl, "url") == Num(10203);
  }

  /** Every field present, but a numeric `url`. */
  lemma SecondUrlReport(parses: Value -> bool)
    ensures Safe(Urls, SecondUrl)
    ensures Validate(Urls, SecondUrl, parses) == [Name("url")]
  {
    SecondUrlTypes(parses);
    assert !Missing(SecondUrl, "id") && !Missing(SecondUrl, "limit") && !Missing(SecondUrl, "url");
    assert RequiredErrors(Urls.required, SecondUrl, 3) == [];
  }

  const BadUrls := [FirstUrl, SecondUrl]

  lemma BadUrlsSafe()
    ensures forall x | x in BadUrls :: Safe(Urls, x)
  {
    UrlsSafe(FirstUrl);
    UrlsSafe(SecondUrl);
  }

  lemma TwoItems(items: ObjectSchema, a: Value, b: Value, parses: Value -> bool)
    requires Safe(items, a) && Safe(items, b)
    ensures ItemReports(items, [a, b], 2, parses) ==
      Nest(Validate(items, a, parses)) + Nest(Validate(items, b, parses))
  {
    assert ItemReports(items, [a, b], 1, parses) == Nest(Validate(items, a, parses));
  }

  lemma TwoFailures(items: ObjectSchema, a: Value, b: Value, ra: Report, rb: Report, parses: Value -> bool)
    requires Safe(items, a) && Safe(items, b)
    requires Validate(items, a, parses) == ra != [] && Validate(items, b, parses) == rb != []
    ensures ItemReports(items, [a, b], 2, parses) == [Nested(ra), Nested(rb)]
  {
    TwoItems(items, a, b, parses);
  }

  /** Both items fail, so both reports appear, in item order. */
  lemma BadUrlsItems(parses: Value -> bool)
    ensures forall x | x in BadUrls :: Safe(Urls, x)
    ensures ItemReports(Urls, BadUrls, 2, parses) ==
      [Nested([Name("url"), Name("id"), Name("limit")]), Nested([Name("url")])]
  {
    BadUrlsSafe();
    FirstUrlReport(parses);
    SecondUrlReport(parses);
    TwoFailures(Urls, FirstUrl, SecondUrl, [Name("url"), Name("id"), Name("limit")], [Name("url")], parses);
  }

  /** The payload of test/index.js:199-207 without the fields the schema
      does not declare: `name` is null and both items are wrong. */
  const UrlsPayload := UrlsOuter(BadUrls)

  /** The outer payload of the array scenario, over any items. */
  function UrlsOuter(xs: seq<Value>): Value {
    Obj(map["name" := Null, "sampleUrls" := Arr(xs)])
  }

  lemma UrlsOuterSafe(items: ObjectSchema, xs: seq<Value>)
    requires forall x | x in xs :: Safe(items, x)
    ensures Safe(OuterSchema(items), UrlsOuter(xs))
  {
    var payload := UrlsOuter(xs);
    assert Get(payload, "sampleUrls") == Arr(xs);
    assert OuterSchema(items).properties[1] in OuterSchema(items).properties;
  }

  lemma UrlsOuterPrefix(items: ObjectSchema, xs: seq<Value>, parses: Value -> bool)
    requires forall x | x in xs :: Safe(items, x)
    requires Safe(OuterSchema(items), UrlsOuter(xs))
    ensures DataTypeErrors(OuterSchema(items), UrlsOuter(xs), 2, parses) ==
      Nest(ItemReports(items, xs, |xs|, parses))
  {
    UrlsOuterFirst(items, xs, parses);
    assert Get(UrlsOuter(xs), "sampleUrls") == Arr(xs);
    TypeChecks.ArrayEntry(OuterSchema(items).properties[1], UrlsOuter(xs), parses);
  }

  lemma UrlsOuterFirst(items: ObjectSchema, xs: seq<Value>, parses: Value -> bool)
    requires Safe(OuterSchema(items), UrlsOuter(xs))
    ensures DataTypeErrors(OuterSchema(items), UrlsOuter(xs), 1, parses) == []
  {
    assert Get(UrlsOuter(xs), "id") == Undefined;
    TypeChecks.PlainStringEntry(OuterSchema(items).properties[0], UrlsOuter(xs), parses);
  }

  lemma UrlsOuterLast(items: ObjectSchema, xs: seq<Value>, parses: Value -> bool)
    requires Safe(OuterSchema(items), UrlsOuter(xs))
    ensures DataTypeErrors(OuterSchema(items), UrlsOuter(xs), 3, parses) ==
      DataTypeErrors(OuterSchema(items), UrlsOuter(xs), 2, parses)
  {
    assert Get(UrlsOuter(xs), "name") == Null;
    TypeChecks.PlainStringEntry(OuterSchema(items).properties[2], UrlsOuter(xs), parses);
  }

  /** With `name` null and `sampleUrls` holding the given items, only the
      array property reports. */
  lemma UrlsShape(items: ObjectSchema, xs: seq<Value>, parses: Value -> bool)
    requires forall x | x in xs :: Safe(items, x)
    ensures Safe(OuterSchema(items), UrlsOuter(xs))
    ensures DataTypeErrors(OuterSchema(items), UrlsOuter(xs), 3, parses) ==
      Nest(ItemReports(items, xs, |xs|, parses))
  {
    UrlsOuterSafe(items, xs);
    UrlsOuterPrefix(items, xs, parses);
    UrlsOuterLast(items, xs, parses);
  }

  /** The null `name` is reported first, then the items' failures. */
  lemma UrlsOuterReport(items: ObjectSchema, xs: seq<Value>, parses: Value -> bool)
    requires forall x | x in xs :: Safe(items, x)
    ensures Safe(OuterSchema(items), UrlsOuter(xs))
    ensures Validate(OuterSchema(items), UrlsOuter(xs), parses) ==
      [Name("name")] + Nest(ItemReports(items, xs, |xs|, parses))
  {
    UrlsShape(items, xs, parses);
    assert Missing(UrlsOuter(xs), "name");
    assert RequiredErrors(OuterSchema(items).required, UrlsOuter(xs), 1) == [Name("name")];
  }

  /** The missing `name` comes first, then one entry for `sampleUrls` holding
      one entry per failing item. */
  lemma WrongArrayItems(parses: Value -> bool)
    ensures Safe(UrlsSchema, UrlsPayload)
    ensures Validate(UrlsSchema, UrlsPayload, parses) ==
      [Name("name"), Nested([Nested([Name("url"), Name("id"), Name("limit")]), Nested([Name("url")])])]
  {
    BadUrlsItems(parses);
    FailingItemsReport(Urls, BadUrls,
      [Nested([Name("url"), Name("id"), Name("limit")]), Nested([Name("url")])], parses);
  }

  lemma FailingItemsReport(items: ObjectSchema, xs: seq<Value>, failed: Report, parses: Value -> bool)
    requires forall x | x in xs :: Safe(items, x)
    requires ItemReports(items, xs, |xs|, parses) == failed != []
    ensures Safe(OuterSchema(items), UrlsOuter(xs))
    ensures Validate(OuterSchema(items), UrlsOuter(xs), parses) == [Name("name"), Nested(failed)]
  {
    UrlsOuterReport(items, xs, parses);
  }
}
