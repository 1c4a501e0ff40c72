# Avro field synthesis for Esper event properties

This project models, in Dafny, the part of Esper's Avro support that turns one event
property into one Avro record field (`AvroSchemaUtil` in the `esper-avro` module). Given
a property name, its type (nothing, an event type name, an `EventType`, an `EventType[]`,
a Java class, or anything else), the property's annotations, the engine's two Avro
settings (prefer non-null, native strings) and the engine's registry of event types,
`assembleField` appends exactly one field to the caller's `SchemaBuilder.FieldAssembler`
or throws. The model also covers `findUnionRecordSchemaSingle`, which picks the single
record member of a union.

Layout:

- `wrappers.dfy` (module `Wrappers`): `Option`, `Result`, `Outcome`. A Java `null` becomes
  `None`, an exception becomes `Failure`/`Fail`.
- `avro.dfy` (module `Avro`): the Avro side. `Schema` is the datatype of schemas. A string
  carries the `avro.java.string` flag, and a record is known by its name. `FieldAssembler` is
  a class whose `fields` sequence `Add` extends in place.
- `esper_types.dfy` (module `EsperTypes`): the engine side. It holds Java classes (a
  primitive kind with a boxed flag, `String`, `CharSequence`, arrays, other classes with a
  flag for implementing `java.util.Map`), event types, annotations, settings and the
  property-type descriptor. `Collaborators` bundles the code this model does not include:
  the schema parser, the two array-marker helpers of `EventTypeUtility`, and the
  name-to-event-type registry.
- `avro_schema_util.dfy` (module `AvroSchemaUtil`): the core. It has the constant tables
  (`ScalarTable` for `REQ_*`/`OPT_*`, `ArrayTable` for `ARRAY_OF_*`) and the
  required/optional decisions (`PrimitiveChoice`, `ArrayChoice`). `FieldSchema` is the
  whole first-match-wins dispatch as a pure function. It is used as the specification of
  the imperative methods `AssembleField`, `AssembleClassField`, `AssemblePrimitive` and
  `AssembleArray`, which append to the assembler the way the Java code does. The loops of
  `getAnnotationSchema` and `findUnionRecordSchemaSingle` are methods with invariants.
  Each error `assembleField` raises is a constructor of `Error`; `NoAvroMapping` stands for
  the exception built by `makeEPException`.
- `avro_schema_util_properties.dfy` (module `AvroSchemaUtilProperties`): the properties,
  proved for all inputs.

Notes on what the code does:

- Only `double`/`Double` map to an Avro double. A decimal-like class such as `BigDecimal`
  has no mapping and fails with `NoAvroMapping`.
- There are six scalar tables (boolean, int, long, float, double, string).
  `char`/`Character` and `short`/`Short` have no mapping.
- An event type name that is unknown or is not an Avro type fails with
  `UnknownAvroTypeName`. An `EventType` or `EventType[]` element that is not Avro fails
  with `NotAvroEventType`.

## Model

| member | source | states |
|---|---|---|
| AvroSchemaUtil.AssembleField | esper-avro/src/main/java/com/espertech/esper/avro/core/AvroSchemaUtil.java:61-213 | On success the assembler gains exactly one field, named after the property, holding the dispatched schema. On every failure the error is returned and the assembler's fields are unchanged. |
| AvroSchemaUtil.AssembleClassField | esper-avro/src/main/java/com/espertech/esper/avro/core/AvroSchemaUtil.java:106-209 | The Java-class branch appends the class's field, or fails with no field appended. |
| AvroSchemaUtil.AssemblePrimitive | esper-avro/src/main/java/com/espertech/esper/avro/core/AvroSchemaUtil.java:242-254 | Appends one field with the optional form when the value is nullable and non-null is not preferred, and the required form otherwise. |
| AvroSchemaUtil.AssembleArray | esper-avro/src/main/java/com/espertech/esper/avro/core/AvroSchemaUtil.java:256-276 | Appends one field. Element nullability picks the array of optional or of required elements. Unless non-null is preferred, that array is wrapped in a null union. |
| AvroSchemaUtil.GetAnnotationSchema | esper-avro/src/main/java/com/espertech/esper/avro/core/AvroSchemaUtil.java:215-234 | The annotation scan returns what `AnnotationSchema` specifies: the first `@AvroField` for the property, parsed, a parse failure, or none. |
| AvroSchemaUtil.FindUnionRecordSchemaSingle | esper-avro/src/main/java/com/espertech/esper/avro/core/AvroSchemaUtil.java:43-59 | Gives none for a non-union. For a union it gives a result exactly when one member is a RECORD, and that result is a RECORD member of the union. |
| AvroSchemaUtil.CheckAvroType | esper-avro/src/main/java/com/espertech/esper/avro/core/AvroSchemaUtil.java:236-240 | Passes exactly for Avro event types. Otherwise it fails, naming the underlying representation. |
| AvroSchemaUtil.ScalarTable | esper-avro/src/main/java/com/espertech/esper/avro/core/AvroSchemaUtil.java:282-293 | Each optional entry is the null union of its required entry. Only the string entry is a string, and it is untagged. |
| AvroSchemaUtil.ArrayTable | esper-avro/src/main/java/com/espertech/esper/avro/core/AvroSchemaUtil.java:295-304 | Each `ARRAY_OF_*` entry is the array of the matching required or optional scalar entry. |
| AvroSchemaUtilProperties.DotAlwaysFails | esper-avro/src/main/java/com/espertech/esper/avro/core/AvroSchemaUtil.java:62-64 | A name containing '.' fails with `InvalidPropertyName`, whatever the type, annotations and settings. |
| AvroSchemaUtilProperties.AnnotationNoOverride | esper-avro/src/main/java/com/espertech/esper/avro/core/AvroSchemaUtil.java:215-234 | With no `@AvroField` naming the property, the scan yields no schema and no error. |
| AvroSchemaUtilProperties.AnnotationFirstOverride | esper-avro/src/main/java/com/espertech/esper/avro/core/AvroSchemaUtil.java:219-230 | Only the first `@AvroField` naming the property is consulted. Its parsed text is the result, or the parse failure is the error. |
| AvroSchemaUtilProperties.OverrideWins | esper-avro/src/main/java/com/espertech/esper/avro/core/AvroSchemaUtil.java:65-67 | For any property type, even an unmappable one, the first matching `@AvroField` decides the field: exactly the parsed schema, or `SchemaParseFailure` with no fall-through. |
| AvroSchemaUtilProperties.NullTypeField | esper-avro/src/main/java/com/espertech/esper/avro/core/AvroSchemaUtil.java:69-70 | A null property type yields a field of type "null". |
| AvroSchemaUtilProperties.ScalarPrimitiveField | esper-avro/src/main/java/com/espertech/esper/avro/core/AvroSchemaUtil.java:106-125 | boolean, byte, int, long, float and double fields are required when non-null is preferred. Otherwise they are `[null, T]` exactly when the class is boxed. |
| AvroSchemaUtilProperties.PrimitiveArrayField | esper-avro/src/main/java/com/espertech/esper/avro/core/AvroSchemaUtil.java:147-169 | For arrays of these kinds, only component boxing picks `array<T>` or `array<[null, T]>`. Without the non-null preference, that array is wrapped as `[null, array]`. |
| AvroSchemaUtilProperties.PrimitiveByteArrayField | esper-avro/src/main/java/com/espertech/esper/avro/core/AvroSchemaUtil.java:139-146 | Primitive `byte[]` is `bytes` when non-null is preferred and `[null, bytes]` otherwise. |
| AvroSchemaUtilProperties.ByteAsInt | esper-avro/src/main/java/com/espertech/esper/avro/core/AvroSchemaUtil.java:114-166 | `byte`/`Byte` give the same field as `int`/`Integer`, and `Byte[]` the same as `Integer[]`. |
| AvroSchemaUtilProperties.StringField | esper-avro/src/main/java/com/espertech/esper/avro/core/AvroSchemaUtil.java:126-137 | `String` and `CharSequence` give a string, tagged exactly when native strings are on. It is optional exactly when non-null is not preferred. |
| AvroSchemaUtilProperties.StringArrayField | esper-avro/src/main/java/com/espertech/esper/avro/core/AvroSchemaUtil.java:170-184 | `String[]` and `CharSequence[]` give an array of such strings, wrapped as `[null, array]` exactly when non-null is not preferred. |
| AvroSchemaUtilProperties.MapField | esper-avro/src/main/java/com/espertech/esper/avro/core/AvroSchemaUtil.java:190-204 | A `Map` class gives a map of such strings, wrapped as `[null, map]` exactly when non-null is not preferred. |
| AvroSchemaUtilProperties.ClassMapping | esper-avro/src/main/java/com/espertech/esper/avro/core/AvroSchemaUtil.java:106-209 | A class gets a field exactly when it is a mapped primitive or box, a string class, an array of those (other than nested arrays), or a `Map`. Every other class fails with `NoAvroMapping`. |
| AvroSchemaUtilProperties.ClassFieldUnionShape | esper-avro/src/main/java/com/espertech/esper/avro/core/AvroSchemaUtil.java:106-209 | Every union the class dispatch builds, at any depth, is `[null, T]` with `T` not a union. When non-null is preferred the field schema itself is not a union, though array elements of boxed components still are `[null, T]`. |
| AvroSchemaUtilProperties.TypeNameField | esper-avro/src/main/java/com/espertech/esper/avro/core/AvroSchemaUtil.java:72-93 | A type name, stripped of its array marker, must name an Avro event type, otherwise it is `UnknownAvroTypeName`. The field is that type's schema, in an array exactly when the marker was present. |
| AvroSchemaUtilProperties.EventTypeField | esper-avro/src/main/java/com/espertech/esper/avro/core/AvroSchemaUtil.java:94-99 | An `EventType` succeeds exactly when it is Avro, with its schema as the field. Otherwise it fails with `NotAvroEventType`. |
| AvroSchemaUtilProperties.EventTypeArrayField | esper-avro/src/main/java/com/espertech/esper/avro/core/AvroSchemaUtil.java:100-105 | An `EventType[]` succeeds exactly when element 0 exists and is Avro, with an array of its schema as the field. |
| AvroSchemaUtilProperties.ClassSchemaIgnoresNative | esper-avro/src/main/java/com/espertech/esper/avro/core/AvroSchemaUtil.java:106-169 | Classes other than the string classes, their arrays and maps get the same outcome whatever the native-string setting. |
| AvroSchemaUtilProperties.ClassSchemaNativeString | esper-avro/src/main/java/com/espertech/esper/avro/core/AvroSchemaUtil.java:126-204 | For every class, native strings on or off give the same success or error. The schemas differ only in the tag on string leaves. |
| AvroSchemaUtilProperties.NativeStringOnlyTagsLeaves | esper-avro/src/main/java/com/espertech/esper/avro/core/AvroSchemaUtil.java:61-213 | For every property, the native-string setting changes nothing but the tag on string leaves. The surrounding union, array or map structure is the same. |
| AvroSchemaUtilProperties.NoRecordMember | esper-avro/src/main/java/com/espertech/esper/avro/core/AvroSchemaUtil.java:47-58 | The RECORD count is zero exactly when no member is a RECORD. |
| AvroSchemaUtilProperties.SingleRecordMember | esper-avro/src/main/java/com/espertech/esper/avro/core/AvroSchemaUtil.java:47-58 | Given a RECORD at index i, the count is one exactly when no other index holds a RECORD. |
| AvroSchemaUtilProperties.FindUnionRecordSchemaSingleResult | esper-avro/src/main/java/com/espertech/esper/avro/core/AvroSchemaUtil.java:43-59 | The scan's "exactly one RECORD" condition holds exactly when the RECORD member is unique by position, and then the found member is that one. Zero or two or more RECORDs give none. |

## Left out

- `toSchemaStringSafe` only renders a schema with Avro's `Schema.toString()` behind a catch-all, so there is nothing to model.
- Avro's schema parser is the `parse` collaborator, a function from text to an optional schema (`None` where the parser throws). The JSON schema grammar is not modelled.
- `JavaClassHelper.getBoxedType` and `isImplementsInterface` are replaced by the `boxed` flag of `Primitive` and the `implementsMap` flag of `ReferenceClass`.
- `EventTypeUtility.isPropertyArray` and `getPropertyRemoveArray` are the `isPropertyArray` and `propertyRemoveArray` collaborators. The array-marker syntax is not fixed by this model.
- The event adapter service's `getExistsTypeByName` is the `typesByName` map. A name absent from the map is the Java `null`, which fails the Avro-type test like a non-Avro type.
- `SchemaBuilder` internals are reduced to appending a `Field(name, schema)`: default values, the null default of `optionalX`, name validation and the duplicate-name check at `endRecord` are not modelled.
- The null-type branch ends its builder chain at `type("null")` without `noDefault()`, unlike every other branch. In Avro's `SchemaBuilder` that call returns a `GenericDefault`, which completes the field only on `noDefault()` or `withDefault()`, so as written this branch most likely returns normally without adding a field. That library code is not part of this model, so the model assumes the evidently intended behaviour: a field of type "null" is added, as in the other branches.
- Exception messages are not modelled. Each exception is an `Error` constructor that carries the property name, type name or underlying name the message mentions. The `cause` wrapped by the parse failure is not kept.
- An `EventType[]` with no element makes the Java code throw `ArrayIndexOutOfBoundsException` when it reads element 0. The model returns the `EmptyEventTypeArray` error instead of requiring a non-empty array.
- A `null` annotations array is modelled as the empty sequence, which gives the same result.
- `null` elements inside an `EventType[]` are not modelled.
- Concurrency is not modelled: the tables are immutable and the assembler is single-writer.
