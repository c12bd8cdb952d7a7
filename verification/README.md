# json-schema-validator in Dafny

This project models `validate(schema, payload)` from `index.js` of the
json-schema-validator package. The function checks a JSON payload against a
small subset of JSON Schema:

- a `required` list;
- typed property declarations (`string`, `number`, `integer`, `boolean`,
  `object`, `array`);
- the `date-time` string format;
- nested object sub-schemas and array item sub-schemas.

It returns a report. The report lists the missing required names first, then
one entry per property whose value has the wrong type. Failures inside an
object or an array are nested.

## Layout

- `values.dfy` (`Values`): payload values. It defines `Undefined`, `null`,
  booleans, numbers, strings, arrays and objects, with JavaScript truthiness,
  `typeof … === 'object'` and property lookup.
- `schemas.dfy` (`Schemas`): object-level schemas. A schema is a `required`
  list and an *ordered* list of property declarations. Key order decides the
  order of the type errors.
- `reports.dfy` (`Reports`): report entries (`Name`, `Nested`) and what a
  type validator hands back (`Returned`). It also has `Push`, the
  `error && error.length` filter, and `Nest`, which adds a report to an
  enclosing one as a single nested entry, and only when it is non-empty.
- `validator.dfy` (`Validator`): the validators table, the nine validators,
  `validateRequiredProperties`, `validateDataTypes` and `validate`.
  `Safe` is the precondition that excludes the inputs on which the
  JavaScript throws by indexing `undefined`/`null` or by calling `forEach`
  on a non-array.
- `order.dfy` (`ReportOrder`): the order of a report. Each accumulation is
  described by an *image*: what position `k` of the input contributes. The
  report is the non-empty contributions, taken left to right.
- `conformance.dfy` (`Conformance`): a declarative definition of a valid
  payload. It includes the proof that `validate` returns `[]` exactly on
  valid payloads.
- `typechecks.dfy` (`TypeChecks`): what each declared type contributes,
  stated on the property's value.
- `scenarios.dfy` (`Scenarios`): schemas and payloads taken from the
  repository's test suite, with the exact reports the model gives for them,
  plus a few edge cases of index.js.

### How the JavaScript is represented

- **Missing keys.** A missing key and an explicit `undefined` are both
  `Undefined`.
- **Lookup on non-objects.** Looking up a key on a value other than an
  object gives `Undefined`. Looking up a key on `undefined` or `null`
  throws in JavaScript, so `Get` requires a value that is not `Undefined`
  or `Null`.
- **Crashing inputs.** The inputs on which `validate` throws by indexing
  `undefined`/`null` or by calling `forEach` on a non-array are ruled out
  by `Safe(schema, payload)`. There are two kinds:
  - Any call of `validate` whose payload is `undefined` or `null`, against
    a schema whose `required` or `properties` is non-empty. The call indexes
    `undefined`/`null` in the required check (index.js:91) or in the type
    validator of the first property (index.js:16, 26, 35, 41, 58 or 82).
    This covers the
    top-level call, the nested call for an `object` property whose value
    is absent or `null`, and the call for an `undefined` or `null` array
    item (index.js:74).
  - An `array` property named `""` that holds a truthy value which is not
    an array. The type error `""` is falsy, so `forEach` is called on a
    non-array at index.js:73.
- **Date parsing.** `Date.parse` depends on the host. It is the parameter
  `parses: Value -> bool`, which is true when the value parses to a date.
  A `Date.parse` that throws is not represented (see "## Left out").
- **Accumulation order.** Each `forEach` + `push` accumulation becomes a
  function of the number `n` of elements visited. Its value for `n` is the
  value for `n - 1` plus what element `n - 1` pushes.
- **Empty property name.** A validator may return the property name `""`
  or an empty error list. `Push` drops both, as `error && error.length`
  does at index.js:102. So no type error is ever `Name("")`, and no report
  holds `Nested([])` at any depth. The required check at index.js:91 has no
  such test: a missing required `""` is reported as `Name("")`.
- **Object property named `""`.** Such a property holding a truthy
  primitive is not reported: its type error is `""`, which is falsy. The
  primitive then becomes the payload of the nested `validate` call, as at
  index.js:49-53.

## Model

| member | source | states |
|---|---|---|
| Validator.Validate | index.js:113-116 | the report is well formed (no empty nested list at any depth); it has no more entries than there are required names and declared properties together; every top-level name is a required entry or a non-empty declared key |
| Validator.RequiredErrors | index.js:88-94 | at most one entry per visited required name; every entry is the name of a required field whose value is `undefined` or `null` |
| Validator.DataTypeErrors | index.js:96-105 | at most one entry per visited property; the result is well formed; every name in it is a non-empty declared key |
| Validator.PropertyEntry | index.js:98-102 | one property adds at most one entry; a bare name it adds is its own name and is non-empty |
| Reports.Push | index.js:102 | a return value adds at most one entry; it adds nothing iff it is `undefined`, the name `""` or an empty error list; a non-empty name or error list is added as `Name` or `Nested` |
| Validator.Dispatch | index.js:6-13 | a validator returns only its own property's name; only `object` and `array` return error lists; `array` never returns a bare name |
| Validator.ValidateDateTimeType | index.js:15-19 | the name is returned iff the value is truthy and does not parse |
| Validator.ValidateStringType | index.js:21-32 | a `date-time` format defers to the date check; otherwise the name is returned iff the value is `""` or a truthy non-string |
| Validator.ValidateNumberType | index.js:34-38 | the name is returned iff the value is truthy and not a number |
| Validator.ValidateObjectType | index.js:40-44 | the name is returned iff the value is truthy and its `typeof` is not `'object'` (`null` and arrays count as objects) |
| Validator.ValidateObject | index.js:46-55 | a non-empty name is returned iff the value is a truthy non-object; otherwise the value is a safe payload for the sub-schema and the result is exactly its nested `validate` report, well formed; it never returns nothing |
| Validator.ValidateArrayType | index.js:57-61 | the name is returned iff the value is truthy and not an array |
| Validator.ValidateArray | index.js:63-67 | a truthy non-array gives exactly the one-element list holding the name; a falsy value gives nothing; a bare name is never returned; an array gives a well-formed list no longer than the array |
| Validator.ValidateArrayItems | index.js:69-79 | nothing for a falsy value; otherwise a well-formed list no longer than the array |
| Validator.ItemReports | index.js:72-77 | at most one entry per visited item; every entry is a nested, well-formed report |
| Validator.ValidateBooleanType | index.js:81-85 | the name is returned iff the value is defined, non-null and not a boolean |
| ReportOrder.RequiredErrorsInOrder | index.js:88-94 | the required-field errors are exactly the names of the missing required fields, in `required` order |
| ReportOrder.DataTypeErrorsInOrder | index.js:96-105 | the type errors are exactly the non-empty entries of the properties, in declaration order |
| ReportOrder.ItemReportsInOrder | index.js:69-79 | an array's list holds the report of exactly the failing items, each nested once, in item order |
| ReportOrder.ReportLayout | index.js:113-116 | the report is the required-field errors in `required` order, followed by the type errors in declaration order |
| ReportOrder.RequiredReported | index.js:90-92 | a required name is among the required-field errors iff its value is `undefined` or `null`; `false`, `0` and `""` count as present |
| ReportOrder.MissingRequiredReported | index.js:113-116 | a missing required name always appears in the full report |
| ReportOrder.UndeclaredRequiredReported | index.js:113-116 | a required name that no property declares appears in the report iff it is missing |
| Conformance.ValidIffConforms | index.js:113-116 | the report is empty iff every required field is present and every declared property holds an acceptable value, recursively through objects and array items |
| Conformance.RequiredEmptyIff | index.js:88-94 | no required-field error iff every required field is neither `undefined` nor `null` |
| Conformance.TypesEmptyIff | index.js:96-105 | no type error iff every declared property conforms |
| Conformance.DataTypesEmptyIff | index.js:96-105 | after any number of properties, no type error so far iff each property visited so far conforms |
| Conformance.PropertyEntryEmptyIff | index.js:98-102 | a property adds nothing iff its value conforms to its declaration |
| Conformance.ObjectEntryEmptyIff | index.js:46-55 | an `object` property adds nothing iff its value is not a truthy non-object (or the name is `""`) and the value conforms to the sub-schema |
| Conformance.ArrayEntryEmptyIff | index.js:63-79 | an `array` property adds nothing iff its value is falsy or an array whose items all conform |
| Conformance.ItemsEmptyIff | index.js:72-77 | the failing items' list is empty iff the report of every visited item is empty |
| Conformance.EmptySchemaAcceptsAll | index.js:113-116 | a schema with no required names and no properties accepts every payload, `undefined` included, without throwing |
| TypeChecks.PlainStringEntry | index.js:26-31 | a plain string property is reported iff it holds `""` or a truthy non-string; `undefined`, `null`, `false` and `0` pass |
| TypeChecks.DateTimeEntry | index.js:15-24 | a `date-time` property is reported iff it is truthy and does not parse; `undefined`, `null` and `""` pass |
| TypeChecks.NumberEntry | index.js:34-38 | `number` and `integer` properties are reported iff truthy and not a number; `0`, `false` and `""` pass |
| TypeChecks.IntegerIsNumber | index.js:8-9 | `integer` is checked exactly like `number` |
| TypeChecks.BooleanEntry | index.js:81-85 | a boolean property is reported iff it is defined, non-null and not a boolean; `false` passes and `"true"` is reported |
| TypeChecks.ObjectEntry | index.js:40-55 | a truthy non-object under an `object` property gives its name; otherwise the nested report is one entry, present only when non-empty |
| TypeChecks.ArrayEntry | index.js:57-79 | a truthy non-array gives exactly `Nested([Name(p)])`; a falsy value gives nothing; an array gives one entry of its failing items' reports, present only when some item fails |
| Scenarios.BadSizeReport | test/index.js:348-354 | the invalid `size` object reports `width` missing, then `height` and `weight` as non-numbers |
| Scenarios.InvalidSize | test/index.js:324-358 | the invalid `size` is reported as one nested entry: `[Nested([width, height, weight])]` |
| Scenarios.GoodSizeReport | test/index.js:383-390 | the valid `size` object has an empty report |
| Scenarios.ValidSize | test/index.js:359-393 | a payload with a valid nested object has an empty report |
| Scenarios.SizeSchemaReport | test/index.js:325-347 | for any object under `size`, the report is its nested report as one entry, or empty |
| Scenarios.EmptyRequiredNameReported | index.js:88-94 | a missing required name `""` is reported as `Name("")`: the required check has no length test |
| Scenarios.NullItemThrows | index.js:72-74 | a `null` item under an item schema with a required name sends `null` into `validate`, so the input is outside `Safe` |
| Scenarios.AbsentSizeThrows | index.js:88-91 | leaving out the optional `size` object makes the nested call index `undefined`, so the input is outside `Safe` |
| Scenarios.FirstUrlReport | test/index.js:200-203 | the first item reports `url` missing, then `id` and `limit` as mistyped |
| Scenarios.SecondUrlReport | test/index.js:204-207 | the second item reports only the numeric `url` |
| Scenarios.BadUrlsItems | test/index.js:200-207 | both items fail, so both reports appear nested, in item order |
| Scenarios.UrlsOuterReport | test/index.js:175-199 | with `name` null and any items under `sampleUrls`, the report is `name` followed by the items' failures |
| Scenarios.WrongArrayItems | test/index.js:174-210 | the full report is `[name, Nested([Nested([url, id, limit]), Nested([url])])]` |

## Left out

- `Date.parse` is not modelled. Whether a value parses as a date is the
  parameter `parses`, so every statement about dates holds for any parser.
  A `Date.parse` that throws is not represented either. `Date.parse` first
  converts its argument to a string, and that conversion throws for a
  JSON object whose own `toString` key is not a function: for example
  `{"t": {"toString": 1}}` under a `date-time` property `t`, or an array
  holding such an object. `Safe` admits these inputs, and the model
  returns `[]` or `[Name("t")]` on them where JavaScript throws.
- A `Date` object, as in test/index.js:120, has no `Value` of its own: it
  is an object with no own keys, the same `Value` as `{}`. So `parses`
  cannot tell a `Date` from `{}`, and the model gives both the same
  report.
- Numbers are integers. Only `0` is falsy, and NaN, infinities and
  fractions do not occur. So the absence of an integrality check for
  `integer` (index.js:9) cannot be observed in the model.
- Looking up a key on a string, number, boolean or array gives `undefined`.
  Looking up a key that an object does not own also gives `undefined`.
  JavaScript's primitive and inherited properties are not modelled, and
  neither are the own index keys and `length` of arrays and strings
  (`[5]['0']` is `5`, `'ab'['1']` is `'b'`, `[]['length']` is `0`). So an
  `object` property holding an array, under a sub-schema with
  `required: ['0']`, is reported by the model but not by JavaScript when
  the array is non-empty. The unmodelled properties also
  include `'abc'['length']` and `[]['map']`, and the keys every object
  inherits from `Object.prototype` (`constructor`, `toString`,
  `hasOwnProperty`). So for `required: ['constructor']` and the payload `{}`,
  JavaScript reports nothing while the model reports `constructor`.
  Likewise a `toString` property declared as `string` is reported by
  JavaScript on `{}` but not by the model.
- Property order is the order of the schema's key sequence. JavaScript's
  rule that integer-like keys come first in `Object.keys` is not modelled.
- A schema is assumed to carry `required` and `properties`, and an `items`
  schema is assumed to be an object-level schema. A schema without these
  keys throws in JavaScript. The datatype cannot express one, so that crash
  is not represented.
- The `type` of a property is one of the six names of the validators
  table. `PropSchema` is closed, so it represents no other name. An
  unknown `type` throws in JavaScript, with one exception: `validators`
  (index.js:6-13) is a plain object, so `validators[type]` at index.js:101
  also finds the functions every object inherits from `Object.prototype`.
  With `type: 'toString'` the call returns `"[object Object]"`, which is
  pushed as a type error. With `valueOf`, `constructor`, `hasOwnProperty`
  or `isPrototypeOf` the call returns a value that index.js:102 drops, so
  nothing is pushed and nothing throws. Neither the throwing nor these
  inherited cases are represented.
- Schema keys the validator never reads are not represented. These include
  the `type` of an object-level or `items` schema, `minItems` and
  `description`.
- The inputs on which `validate` throws by indexing `undefined`/`null` or
  by calling `forEach` on a non-array are excluded by the precondition
  `Safe`, not modelled as an error result. The exception itself is not
  modelled.
- `gulpfile.js` is build and lint tooling and is not part of this model.
- `test/index.js` is used only as a source of concrete scenarios. Its
  mocha, chai and proxyquire set-up is not modelled.
- Scenarios.WrongArrayItems: the payload omits the fields `siteId`,
  `sampleTypeId`, `frequency`, `startTime` and `decisionSetId` that the test
  inherits from its set-up. The schema of that test does not declare them,
  so they cannot affect the report.
- The test schemas at test/index.js:75-87 have `items` without `required`
  or `properties`. They throw as soon as such an array is non-empty, and
  they are not used in any scenario.
