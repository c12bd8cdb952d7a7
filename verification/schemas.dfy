/**
 * The schema subset the validator reads: an object-level schema is a
 * `required` list and an ordered list of typed property declarations.
 */
module Schemas {

  /** The `format` of a string property; only "date-time" changes behaviour. */
  datatype Format = Unformatted | Formatted(name: string)

  const DateTime: Format := Formatted("date-time")

  /** An object-level schema. `properties` keeps the key order of the schema
      object, which decides the order of the type errors. The `type` of an
      object-level schema is never read, so it is not represented.
      A JavaScript `properties` object cannot hold a key twice, but this
      sequence can. The JavaScript looks each declaration up again by its
      key (index.js:48, 70, 99-100), while here each declaration travels with
      its key; the two agree when the keys are distinct, which is the only
      case a JavaScript schema can express. */
  datatype ObjectSchema = ObjectSchema(required: seq<string>, properties: seq<Property>)

  /** One entry of `properties`: the key and its declaration. */
  datatype Property = Property(name: string, schema: PropSchema)

  /** A property declaration, tagged by its `type`. `integer` is kept apart
      from `number` even though both are checked alike. */
  datatype PropSchema =
    | StringType(format: Format)
    | NumberType
    | IntegerType
    | BooleanType
    | ObjectType(sub: ObjectSchema)
    | ArrayType(items: ObjectSchema)

  /** The declared keys, in order. */
  function Names(props: seq<Property>): (r: seq<string>)
    ensures |r| == |props|
    ensures forall i :: 0 <= i < |props| ==> r[i] == props[i].name
  {
    seq(|props|, i requires 0 <= i < |props| => props[i].name)
  }
}
