/** `AvroSchemaUtil`: synthesises the Avro field for one event property and appends it
    to the caller's field assembler, or fails without touching the assembler. */
module AvroSchemaUtil {
  import opened Wrappers
  import opened Avro
  import opened EsperTypes

  /** The failures `assembleField` raises as `EPException` (and the one index error it can hit). */
  datatype Error =
    /** the property name contains '.' */
    | InvalidPropertyName(propertyName: string)
    /** the schema text of the property's `@AvroField` annotation does not parse */
    | SchemaParseFailure(propertyName: string)
    /** a type name that does not name a previously declared Avro event type */
    | UnknownAvroTypeName(propertyName: string, typeName: string)
    /** an event type whose underlying representation is not Avro */
    | NotAvroEventType(underlyingName: string)
    /** an `EventType[]` with no element: element 0 is read unconditionally */
    | EmptyEventTypeArray
    /** a type without a mapping to an Avro type (`makeEPException`) */
    | NoAvroMapping(propertyName: string)

  // ---------------------------------------------------------------------------------
  // The constant tables REQ_*/OPT_* (what `requiredX`/`optionalX` add) and ARRAY_OF_*.
  // ---------------------------------------------------------------------------------

  /** The primitive leaves the tables are built for. */
  datatype Leaf = BooleanLeaf | IntLeaf | LongLeaf | FloatLeaf | DoubleLeaf | StringLeaf

  /** A pair of pre-built schemas: the required form and the optional form. */
  datatype Table = Table(req: Schema, opt: Schema)

  /** REQ_X and OPT_X: the schema `requiredX` gives a field and the schema `optionalX` gives it. */
  function ScalarTable(leaf: Leaf): (t: Table)
    ensures t.opt == OrNull(t.req)
    ensures t.req.String? <==> leaf == StringLeaf
    ensures t.req.String? ==> !t.req.javaString
  {
    match leaf
    case BooleanLeaf => Table(Boolean, Union([Null, Boolean]))
    case IntLeaf => Table(Int, Union([Null, Int]))
    case LongLeaf => Table(Long, Union([Null, Long]))
    case FloatLeaf => Table(Float, Union([Null, Float]))
    case DoubleLeaf => Table(Double, Union([Null, Double]))
    case StringLeaf => Table(String(false), Union([Null, String(false)]))
  }

  /** ARRAY_OF_REQ_X and ARRAY_OF_OPT_X: arrays of the required and of the optional scalar form. */
  function ArrayTable(leaf: Leaf): (t: Table)
    requires leaf != StringLeaf
    ensures t.req == Array(ScalarTable(leaf).req)
    ensures t.opt == Array(ScalarTable(leaf).opt)
  {
    match leaf
    case BooleanLeaf => Table(Array(Boolean), Array(Union([Null, Boolean])))
    case IntLeaf => Table(Array(Int), Array(Union([Null, Int])))
    case LongLeaf => Table(Array(Long), Array(Union([Null, Long])))
    case FloatLeaf => Table(Array(Float), Array(Union([Null, Float])))
    case DoubleLeaf => Table(Array(Double), Array(Union([Null, Double])))
  }

  // ---------------------------------------------------------------------------------
  // The required/optional decisions.
  // ---------------------------------------------------------------------------------

  /** The decision of `assemblePrimitive`: optional only for a nullable value when non-null is not preferred. */
  function PrimitiveChoice(nullable: bool, table: Table, preferNonNull: bool): Schema
  {
    if preferNonNull then table.req
    else if nullable then table.opt
    else table.req
  }

  /** The decision of `assembleArray`: element nullability picks the array; the preference picks the union. */
  function ArrayChoice(nullableElements: bool, table: Table, preferNonNull: bool): Schema
  {
    if preferNonNull then
      (if !nullableElements then table.req else table.opt)
    else
      (if !nullableElements then OrNull(table.req) else OrNull(table.opt))
  }

  /** The required form of `s` when non-null is preferred, its optional form otherwise. */
  function Wrap(preferNonNull: bool, s: Schema): Schema
  {
    if preferNonNull then s else OrNull(s)
  }

  /** The string leaf: tagged as a native Java string when that setting is on. */
  function StringSchema(settings: AvroSettings): Schema
  {
    String(settings.enableNativeString)
  }

  // ---------------------------------------------------------------------------------
  // The specification of `assembleField` as a pure function.
  // ---------------------------------------------------------------------------------

  /** An `@AvroField` annotation for this property. */
  predicate IsOverrideFor(a: Annotation, propertyName: string)
  {
    a.AvroField? && a.name == propertyName
  }

  /** `getAnnotationSchema`: the parsed schema of the first `@AvroField` for the property,
      a parse failure, or `None` when there is no such annotation. */
  function AnnotationSchema(propertyName: string, annotations: seq<Annotation>, parse: string -> Option<Schema>)
    : Result<Option<Schema>, Error>
  {
    if annotations == [] then Success(None)
    else if IsOverrideFor(annotations[0], propertyName) then
      match parse(annotations[0].schema)
      case Some(s) => Success(Some(s))
      case None => Failure(SchemaParseFailure(propertyName))
    else AnnotationSchema(propertyName, annotations[1..], parse)
  }

  /** `checkAvroType`: only an Avro event type is accepted. */
  function CheckAvroType(eventType: EventType): (r: Outcome<Error>)
    ensures r.Pass? <==> eventType.AvroEventType?
    ensures r.Fail? ==> r.error == NotAvroEventType(eventType.underlyingName)
  {
    match eventType
    case AvroEventType(_, _) => Pass
    case OtherEventType(_, underlying) => Fail(NotAvroEventType(underlying))
  }

  /** The schema of a property declared by event type name (`AvroSchemaUtil.java` lines 72-93). */
  function TypeNameSchema(propertyName: string, typeName: string, collaborators: Collaborators): Result<Schema, Error>
  {
    var isArray := collaborators.isPropertyArray(typeName);
    var bareName := if isArray then collaborators.propertyRemoveArray(typeName) else typeName;
    if bareName in collaborators.typesByName && collaborators.typesByName[bareName].AvroEventType? then
      var schema := collaborators.typesByName[bareName].schema;
      Success(if isArray then Array(schema) else schema)
    else
      Failure(UnknownAvroTypeName(propertyName, typeName))
  }

  /** The schema of a property of array class (`AvroSchemaUtil.java` lines 147-189). */
  function ArraySchema(propertyName: string, c: JavaClass, settings: AvroSettings): Result<Schema, Error>
    requires c.ArrayClass?
  {
    var componentType := c.component;
    var componentTypeBoxed := BoxedType(componentType);
    var nullableElements := componentType == componentTypeBoxed;
    var preferNonNull := settings.enableSchemaDefaultNonNull;
    if componentTypeBoxed == Primitive(BooleanKind, true) then
      Success(ArrayChoice(nullableElements, ArrayTable(BooleanLeaf), preferNonNull))
    else if componentTypeBoxed == Primitive(IntKind, true) then
      Success(ArrayChoice(nullableElements, ArrayTable(IntLeaf), preferNonNull))
    else if componentTypeBoxed == Primitive(LongKind, true) then
      Success(ArrayChoice(nullableElements, ArrayTable(LongLeaf), preferNonNull))
    else if componentTypeBoxed == Primitive(FloatKind, true) then
      Success(ArrayChoice(nullableElements, ArrayTable(FloatLeaf), preferNonNull))
    else if componentTypeBoxed == Primitive(ByteKind, true) then
      Success(ArrayChoice(nullableElements, ArrayTable(IntLeaf), preferNonNull))
    else if componentTypeBoxed == Primitive(DoubleKind, true) then
      Success(ArrayChoice(nullableElements, ArrayTable(DoubleLeaf), preferNonNull))
    else if c == ArrayClass(StringClass) || c == ArrayClass(CharSequenceClass) then
      Success(Wrap(preferNonNull, Array(StringSchema(settings))))
    else
      Failure(NoAvroMapping(propertyName))
  }

  /** The schema of a property given by its Java class (`AvroSchemaUtil.java` lines 106-209). */
  function ClassSchema(propertyName: string, c: JavaClass, settings: AvroSettings): Result<Schema, Error>
  {
    var propertyClassBoxed := BoxedType(c);
    var nullable := c == propertyClassBoxed;
    var preferNonNull := settings.enableSchemaDefaultNonNull;
    if propertyClassBoxed == Primitive(BooleanKind, true) then
      Success(PrimitiveChoice(nullable, ScalarTable(BooleanLeaf), preferNonNull))
    else if propertyClassBoxed == Primitive(IntKind, true) || propertyClassBoxed == Primitive(ByteKind, true) then
      Success(PrimitiveChoice(nullable, ScalarTable(IntLeaf), preferNonNull))
    else if propertyClassBoxed == Primitive(LongKind, true) then
      Success(PrimitiveChoice(nullable, ScalarTable(LongLeaf), preferNonNull))
    else if propertyClassBoxed == Primitive(FloatKind, true) then
      Success(PrimitiveChoice(nullable, ScalarTable(FloatLeaf), preferNonNull))
    else if propertyClassBoxed == Primitive(DoubleKind, true) then
      Success(PrimitiveChoice(nullable, ScalarTable(DoubleLeaf), preferNonNull))
    else if c == StringClass || c == CharSequenceClass then
      if settings.enableNativeString then Success(Wrap(preferNonNull, String(true)))
      else Success(PrimitiveChoice(nullable, ScalarTable(StringLeaf), preferNonNull))
    else if c == ArrayClass(Primitive(ByteKind, false)) then
      Success(Wrap(preferNonNull, Bytes))
    else if c.ArrayClass? then
      ArraySchema(propertyName, c, settings)
    else if c.ReferenceClass? && c.implementsMap then
      Success(Wrap(preferNonNull, Map(StringSchema(settings))))
    else
      Failure(NoAvroMapping(propertyName))
  }

  /** The schema of the property from its type alone, after the name check and the annotation override. */
  function TypeSchema(propertyName: string, propertyType: PropertyType, settings: AvroSettings, collaborators: Collaborators)
    : Result<Schema, Error>
  {
    match propertyType
    case NoType => Success(Null)
    case TypeName(typeName) => TypeNameSchema(propertyName, typeName, collaborators)
    case EventTypeRef(eventType) =>
      if eventType.AvroEventType? then Success(eventType.schema)
      else Failure(NotAvroEventType(eventType.underlyingName))
    case EventTypeArray(eventTypes) =>
      if |eventTypes| == 0 then Failure(EmptyEventTypeArray)
      else if eventTypes[0].AvroEventType? then Success(Array(eventTypes[0].schema))
      else Failure(NotAvroEventType(eventTypes[0].underlyingName))
    case ClassType(c) => ClassSchema(propertyName, c, settings)
    case OtherObject(_) => Failure(NoAvroMapping(propertyName))
  }

  /** The field schema `assembleField` appends for the property, or the error it raises. */
  function FieldSchema(propertyName: string, propertyType: PropertyType, annotations: seq<Annotation>,
                       settings: AvroSettings, collaborators: Collaborators): Result<Schema, Error>
  {
    if '.' in propertyName then Failure(InvalidPropertyName(propertyName))
    else
      match AnnotationSchema(propertyName, annotations, collaborators.parse)
      case Failure(e) => Failure(e)
      case Success(Some(schema)) => Success(schema)
      case Success(None) => TypeSchema(propertyName, propertyType, settings, collaborators)
  }

  // ---------------------------------------------------------------------------------
  // The imperative operations.
  // ---------------------------------------------------------------------------------

  /** `getAnnotationSchema`: scans the annotations and returns at the first `@AvroField` for the property. */
  method GetAnnotationSchema(propertyName: string, annotations: seq<Annotation>, parse: string -> Option<Schema>)
    returns (r: Result<Option<Schema>, Error>)
    ensures r == AnnotationSchema(propertyName, annotations, parse)
  {
    var i := 0;
    while i < |annotations|
      invariant 0 <= i <= |annotations|
      invariant AnnotationSchema(propertyName, annotations, parse) == AnnotationSchema(propertyName, annotations[i..], parse)
    {
      var annotation := annotations[i];
      if annotation.AvroField? && annotation.name == propertyName {
        match parse(annotation.schema)
        case Some(schema) => return Success(Some(schema));
        case None => return Failure(SchemaParseFailure(propertyName));
      }
      assert annotations[i..][1..] == annotations[i + 1..];
      i := i + 1;
    }
    return Success(None);
  }

  /** Number of RECORD members among `types`. */
  function RecordCount(types: seq<Schema>): nat
  {
    if types == [] then 0
    else RecordCount(types[..|types| - 1]) + (if types[|types| - 1].Record? then 1 else 0)
  }

  /** `findUnionRecordSchemaSingle`: the one RECORD member of a union, if there is exactly one. */
  method FindUnionRecordSchemaSingle(schema: Schema) returns (r: Option<Schema>)
    ensures !schema.Union? ==> r == None
    ensures schema.Union? ==> (r.Some? <==> RecordCount(schema.types) == 1)
    ensures r.Some? ==> r.value in schema.types && r.value.Record?
  {
    if !schema.Union? {
      return None;
    }
    var types := schema.types;
    var found: Option<Schema> := None;
    var i := 0;
    while i < |types|
      invariant 0 <= i <= |types|
      invariant found.None? <==> RecordCount(types[..i]) == 0
      invariant found.Some? ==> RecordCount(types[..i]) == 1 && found.value in types && found.value.Record?
    {
      assert types[..i + 1][..i] == types[..i];
      if types[i].Record? {
        if found.None? {
          found := Some(types[i]);
        } else {
          RecordCountPrefix(types, i + 1);
          return None;
        }
      }
      i := i + 1;
    }
    assert types[..i] == types;
    return found;
  }

  /** A prefix holds no more RECORD members than the whole sequence. */
  lemma {:induction false} RecordCountPrefix(types: seq<Schema>, n: nat)
    requires n <= |types|
    ensures RecordCount(types[..n]) <= RecordCount(types)
    decreases |types|
  {
    if n < |types| {
      var init := types[..|types| - 1];
      assert init[..n] == types[..n];
      RecordCountPrefix(init, n);
    } else {
      assert types[..n] == types;
    }
  }

  /** `assemblePrimitive`: appends the required or the optional form from the table. */
  method AssemblePrimitive(nullable: bool, table: Table, assembler: FieldAssembler, propertyName: string, preferNonNull: bool)
    modifies assembler
    ensures assembler.fields == old(assembler.fields) + [Field(propertyName, PrimitiveChoice(nullable, table, preferNonNull))]
  {
    if preferNonNull {
      assembler.Add(propertyName, table.req);
    } else {
      if nullable {
        assembler.Add(propertyName, table.opt);
      } else {
        assembler.Add(propertyName, table.req);
      }
    }
  }

  /** `assembleArray`: appends the array of required or optional elements, in a null union unless non-null is preferred. */
  method AssembleArray(nullableElements: bool, table: Table, assembler: FieldAssembler, propertyName: string, preferNonNull: bool)
    modifies assembler
    ensures assembler.fields == old(assembler.fields) + [Field(propertyName, ArrayChoice(nullableElements, table, preferNonNull))]
  {
    if preferNonNull {
      if !nullableElements {
        assembler.Add(propertyName, table.req);
      } else {
        assembler.Add(propertyName, table.opt);
      }
    } else {
      if !nullableElements {
        var union := Union([Null, table.req]);
        assembler.Add(propertyName, union);
      } else {
        var union := Union([Null, table.opt]);
        assembler.Add(propertyName, union);
      }
    }
  }

  /** The class branch of `assembleField` (`AvroSchemaUtil.java` lines 106-209). */
  method AssembleClassField(propertyName: string, c: JavaClass, assembler: FieldAssembler, settings: AvroSettings)
    returns (outcome: Outcome<Error>)
    modifies assembler
    ensures ClassSchema(propertyName, c, settings).Success? ==>
      outcome == Pass && assembler.fields == old(assembler.fields) + [Field(propertyName, ClassSchema(propertyName, c, settings).value)]
    ensures ClassSchema(propertyName, c, settings).Failure? ==>
      outcome == Fail(ClassSchema(propertyName, c, settings).error) && assembler.fields == old(assembler.fields)
  {
    var propertyClassBoxed := BoxedType(c);
    var nullable := c == propertyClassBoxed;
    var preferNonNull := settings.enableSchemaDefaultNonNull;
    outcome := Pass;
    if propertyClassBoxed == Primitive(BooleanKind, true) {
      AssemblePrimitive(nullable, ScalarTable(BooleanLeaf), assembler, propertyName, preferNonNull);
    } else if propertyClassBoxed == Primitive(IntKind, true) || propertyClassBoxed == Primitive(ByteKind, true) {
      AssemblePrimitive(nullable, ScalarTable(IntLeaf), assembler, propertyName, preferNonNull);
    } else if propertyClassBoxed == Primitive(LongKind, true) {
      AssemblePrimitive(nullable, ScalarTable(LongLeaf), assembler, propertyName, preferNonNull);
    } else if propertyClassBoxed == Primitive(FloatKind, true) {
      AssemblePrimitive(nullable, ScalarTable(FloatLeaf), assembler, propertyName, preferNonNull);
    } else if propertyClassBoxed == Primitive(DoubleKind, true) {
      AssemblePrimitive(nullable, ScalarTable(DoubleLeaf), assembler, propertyName, preferNonNull);
    } else if c == StringClass || c == CharSequenceClass {
      if settings.enableNativeString {
        if preferNonNull {
          assembler.Add(propertyName, String(true));
        } else {
          assembler.Add(propertyName, Union([Null, String(true)]));
        }
      } else {
        AssemblePrimitive(nullable, ScalarTable(StringLeaf), assembler, propertyName, preferNonNull);
      }
    } else if c == ArrayClass(Primitive(ByteKind, false)) {
      if preferNonNull {
        assembler.Add(propertyName, Bytes);
      } else {
        assembler.Add(propertyName, Union([Null, Bytes]));
      }
    } else if c.ArrayClass? {
      var componentType := c.component;
      var componentTypeBoxed := BoxedType(componentType);
      var nullableElements := componentType == componentTypeBoxed;
      if componentTypeBoxed == Primitive(BooleanKind, true) {
        AssembleArray(nullableElements, ArrayTable(BooleanLeaf), assembler, propertyName, preferNonNull);
      } else if componentTypeBoxed == Primitive(IntKind, true) {
        AssembleArray(nullableElements, ArrayTable(IntLeaf), assembler, propertyName, preferNonNull);
      } else if componentTypeBoxed == Primitive(LongKind, true) {
        AssembleArray(nullableElements, ArrayTable(LongLeaf), assembler, propertyName, preferNonNull);
      } else if componentTypeBoxed == Primitive(FloatKind, true) {
        AssembleArray(nullableElements, ArrayTable(FloatLeaf), assembler, propertyName, preferNonNull);
      } else if componentTypeBoxed == Primitive(ByteKind, true) {
        AssembleArray(nullableElements, ArrayTable(IntLeaf), assembler, propertyName, preferNonNull);
      } else if componentTypeBoxed == Primitive(DoubleKind, true) {
        AssembleArray(nullableElements, ArrayTable(DoubleLeaf), assembler, propertyName, preferNonNull);
      } else if c == ArrayClass(StringClass) || c == ArrayClass(CharSequenceClass) {
        var arraySchema := if settings.enableNativeString then Array(String(true)) else Array(String(false));
        if preferNonNull {
          assembler.Add(propertyName, arraySchema);
        } else {
          assembler.Add(propertyName, Union([Null, arraySchema]));
        }
      } else {
        outcome := Fail(NoAvroMapping(propertyName));
      }
    } else if c.ReferenceClass? && c.implementsMap {
      var value := if settings.enableNativeString then String(true) else String(false);
      if preferNonNull {
        assembler.Add(propertyName, Map(value));
      } else {
        assembler.Add(propertyName, Union([Null, Map(value)]));
      }
    } else {
      outcome := Fail(NoAvroMapping(propertyName));
    }
  }

  /** `assembleField`: appends exactly the field `FieldSchema` describes, or fails leaving the assembler as it was. */
  method AssembleField(propertyName: string, propertyType: PropertyType, assembler: FieldAssembler,
                       annotations: seq<Annotation>, settings: AvroSettings, collaborators: Collaborators)
    returns (outcome: Outcome<Error>)
    modifies assembler
    ensures outcome.Pass? <==> FieldSchema(propertyName, propertyType, annotations, settings, collaborators).Success?
    ensures outcome.Pass? ==>
      assembler.fields == old(assembler.fields) + [Field(propertyName, FieldSchema(propertyName, propertyType, annotations, settings, collaborators).value)]
    ensures outcome.Fail? ==>
      outcome.error == FieldSchema(propertyName, propertyType, annotations, settings, collaborators).error
      && assembler.fields == old(assembler.fields)
  {
    if '.' in propertyName {
      return Fail(InvalidPropertyName(propertyName));
    }
    var annotated := GetAnnotationSchema(propertyName, annotations, collaborators.parse);
    if annotated.Failure? {
      return Fail(annotated.error);
    }
    if annotated.value.Some? {
      assembler.Add(propertyName, annotated.value.value);
      return Pass;
    }
    match propertyType
    case NoType =>
      assembler.Add(propertyName, Null);
      outcome := Pass;
    case TypeName(typeName) =>
      var propertyTypeName := typeName;
      var isArray := collaborators.isPropertyArray(propertyTypeName);
      if isArray {
        propertyTypeName := collaborators.propertyRemoveArray(propertyTypeName);
      }
      if !(propertyTypeName in collaborators.typesByName && collaborators.typesByName[propertyTypeName].AvroEventType?) {
        return Fail(UnknownAvroTypeName(propertyName, typeName));
      }
      var schema := collaborators.typesByName[propertyTypeName].schema;
      if !isArray {
        assembler.Add(propertyName, schema);
      } else {
        assembler.Add(propertyName, Array(schema));
      }
      outcome := Pass;
    case EventTypeRef(eventType) =>
      var check := CheckAvroType(eventType);
      if check.Fail? {
        return check;
      }
      assembler.Add(propertyName, eventType.schema);
      outcome := Pass;
    case EventTypeArray(eventTypes) =>
      if |eventTypes| == 0 {
        return Fail(EmptyEventTypeArray);
      }
      var eventType := eventTypes[0];
      var check := CheckAvroType(eventType);
      if check.Fail? {
        return check;
      }
      assembler.Add(propertyName, Array(eventType.schema));
      outcome := Pass;
    case ClassType(c) =>
      outcome := AssembleClassField(propertyName, c, assembler, settings);
    case OtherObject(_) =>
      outcome := Fail(NoAvroMapping(propertyName));
  }
}
