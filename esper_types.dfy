/** The engine-side inputs of the field synthesiser: Java class descriptors, event types,
    annotations, settings, and the collaborators whose code is not part of this model. */
module EsperTypes {
  import opened Wrappers
  import opened Avro

  /** The eight Java primitive types that have a boxed counterpart. */
  datatype PrimitiveKind = BooleanKind | ByteKind | ShortKind | CharKind | IntKind | LongKind | FloatKind | DoubleKind

  /** A `java.lang.Class`. */
  datatype JavaClass =
    /** `int` when `boxed` is false, `Integer` when it is true (likewise for the other kinds). */
    | Primitive(kind: PrimitiveKind, boxed: bool)
    /** `java.lang.String` */
    | StringClass
    /** `java.lang.CharSequence` */
    | CharSequenceClass
    /** `C[]` for the component class `C` */
    | ArrayClass(component: JavaClass)
    /** Any other class; `implementsMap` is whether it is or implements `java.util.Map`. */
    | ReferenceClass(name: string, implementsMap: bool)

  /** `JavaClassHelper.getBoxedType`: a primitive becomes its box, every other class is itself. */
  function BoxedType(c: JavaClass): (b: JavaClass)
    ensures b.Primitive? <==> c.Primitive?
    ensures b.Primitive? ==> b.boxed && b.kind == c.kind
  {
    if c.Primitive? then Primitive(c.kind, true) else c
  }

  /** An event type known to the engine; only Avro event types carry an Avro schema. */
  datatype EventType =
    | AvroEventType(name: string, schema: Schema)
    | OtherEventType(name: string, underlyingName: string)

  /** A property annotation; only `@AvroField(name, schema)` is looked at. */
  datatype Annotation =
    | AvroField(name: string, schema: string)
    | OtherAnnotation(annotationType: string)

  /** `ConfigurationEngineDefaults.EventMeta.AvroSettings`, the two flags read here. */
  datatype AvroSettings = AvroSettings(enableSchemaDefaultNonNull: bool, enableNativeString: bool)

  /** The `Object propertyType` of a property, by its runtime class. */
  datatype PropertyType =
    /** `null` */
    | NoType
    /** a `String`: the name of an event type, possibly with the array marker */
    | TypeName(typeName: string)
    /** an `EventType` */
    | EventTypeRef(eventType: EventType)
    /** an `EventType[]` */
    | EventTypeArray(eventTypes: seq<EventType>)
    /** a `Class` */
    | ClassType(javaClass: JavaClass)
    /** any other object */
    | OtherObject(description: string)

  /** Code the synthesiser calls but that is not part of this model:
      Avro's `Schema.Parser().parse` (`None` where it throws),
      `EventTypeUtility.isPropertyArray` and `getPropertyRemoveArray`,
      and the event adapter service's `getExistsTypeByName` (a name absent from the map is `null`). */
  datatype Collaborators = Collaborators(
    parse: string -> Option<Schema>,
    isPropertyArray: string -> bool,
    propertyRemoveArray: string -> string,
    typesByName: map<string, EventType>)
}
