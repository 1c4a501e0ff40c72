/** The part of the Avro library that the field synthesiser produces and mutates:
    schema values and the record builder's field assembler. */
module Avro {

  /** An Avro schema. Only the shapes the synthesiser builds or inspects are distinguished;
      a record is known by its full name (its own fields are never looked at here). */
  datatype Schema =
    | Null
    | Boolean
    | Int
    | Long
    | Float
    | Double
    /** `javaString` is the `avro.java.string` property that asks readers for a native Java string. */
    | String(javaString: bool)
    | Bytes
    | Array(items: Schema)
    | Map(values: Schema)
    | Union(types: seq<Schema>)
    | Record(fullName: string)
    | Enum(fullName: string, symbols: seq<string>)
    | Fixed(fullName: string, size: nat)

  /** `unionOf().nullType().and().type(s).endUnion()`: the optional form of `s`. */
  function OrNull(s: Schema): Schema
  {
    Union([Null, s])
  }

  /** A field of the record under construction. Default values are not modelled. */
  datatype Field = Field(name: string, schema: Schema)

  /** `SchemaBuilder.FieldAssembler`: the ordered list of fields of the record being built. */
  class FieldAssembler {
    var fields: seq<Field>

    constructor ()
      ensures fields == []
    {
      fields := [];
    }

    /** `name(n).type(s).noDefault()` and the `requiredX`/`optionalX` shorthands: completes one field. */
    method Add(name: string, schema: Schema)
      modifies this
      ensures fields == old(fields) + [Field(name, schema)]
    {
      fields := fields + [Field(name, schema)];
    }
  }
}
