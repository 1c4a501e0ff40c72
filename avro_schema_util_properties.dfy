/** What `assembleField` and `findUnionRecordSchemaSingle` promise, stated over their
    specification functions and proved for all inputs. */
module AvroSchemaUtilProperties {
  import opened Wrappers
  import opened Avro
  import opened EsperTypes
  import opened AvroSchemaUtil

  // ---------------------------------------------------------------------------------
  // Reference definitions, independent of the dispatch.
  // ---------------------------------------------------------------------------------

  /** No `@AvroField` annotation names the property. */
  predicate NoOverride(propertyName: string, annotations: seq<Annotation>)
  {
    forall i :: 0 <= i < |annotations| ==> !IsOverrideFor(annotations[i], propertyName)
  }

  /** The primitive kinds that have an Avro counterpart (char and short have none). */
  predicate IsMappedKind(k: PrimitiveKind)
  {
    k in {BooleanKind, ByteKind, IntKind, LongKind, FloatKind, DoubleKind}
  }

  /** The Avro primitive of a mapped kind; a byte is widened to an Avro int. */
  function AvroPrimitive(k: PrimitiveKind): Schema
    requires IsMappedKind(k)
  {
    match k
    case BooleanKind => Boolean
    case ByteKind => Int
    case IntKind => Int
    case LongKind => Long
    case FloatKind => Float
    case DoubleKind => Double
  }

  /** The classes the synthesiser maps without an annotation. */
  predicate HasAvroMapping(c: JavaClass)
  {
    match c
    case Primitive(k, _) => IsMappedKind(k)
    case StringClass => true
    case CharSequenceClass => true
    case ArrayClass(component) =>
      (component.Primitive? && IsMappedKind(component.kind))
      || component == StringClass || component == CharSequenceClass
    case ReferenceClass(_, implementsMap) => implementsMap
  }

  /** `s` with the native-string tag removed from every string leaf. */
  function Untagged(s: Schema): Schema
  {
    match s
    case String(_) => String(false)
    case Array(items) => Array(Untagged(items))
    case Map(values) => Map(Untagged(values))
    case Union(types) => Union(seq(|types|, i requires 0 <= i < |types| => Untagged(types[i])))
    case _ => s
  }

  // ---------------------------------------------------------------------------------
  // Name check and annotation override.
  // ---------------------------------------------------------------------------------

  /** A name with a dot fails, whatever the type, annotations and settings. */
  lemma DotAlwaysFails(propertyName: string, propertyType: PropertyType, annotations: seq<Annotation>,
                       settings: AvroSettings, collaborators: Collaborators)
    requires '.' in propertyName
    ensures FieldSchema(propertyName, propertyType, annotations, settings, collaborators) == Failure(InvalidPropertyName(propertyName))
  {
  }

  /** Without an `@AvroField` for the property the annotation scan finds nothing. */
  lemma {:induction false} AnnotationNoOverride(propertyName: string, annotations: seq<Annotation>, parse: string -> Option<Schema>)
    requires NoOverride(propertyName, annotations)
    ensures AnnotationSchema(propertyName, annotations, parse) == Success(None)
    decreases |annotations|
  {
    if annotations != [] {
      assert !IsOverrideFor(annotations[0], propertyName);
      AnnotationNoOverride(propertyName, annotations[1..], parse);
    }
  }

  /** Only the first `@AvroField` for the property is consulted: its text parses to the result or the scan fails. */
  lemma {:induction false} AnnotationFirstOverride(propertyName: string, annotations: seq<Annotation>,
                                                  parse: string -> Option<Schema>, i: nat)
    requires i < |annotations| && IsOverrideFor(annotations[i], propertyName)
    requires forall j :: 0 <= j < i ==> !IsOverrideFor(annotations[j], propertyName)
    ensures AnnotationSchema(propertyName, annotations, parse) ==
      match parse(annotations[i].schema)
      case Some(s) => Success(Some(s))
      case None => Failure(SchemaParseFailure(propertyName))
    decreases i
  {
    if i > 0 {
      assert !IsOverrideFor(annotations[0], propertyName);
      AnnotationFirstOverride(propertyName, annotations[1..], parse, i - 1);
    }
  }

  /** The first matching `@AvroField` decides the field for any type, even an unmappable one;
      a parse failure is an error, never a fall-through to the type dispatch. */
  lemma OverrideWins(propertyName: string, propertyType: PropertyType, annotations: seq<Annotation>,
                     settings: AvroSettings, collaborators: Collaborators, i: nat)
    requires '.' !in propertyName
    requires i < |annotations| && IsOverrideFor(annotations[i], propertyName)
    requires forall j :: 0 <= j < i ==> !IsOverrideFor(annotations[j], propertyName)
    ensures FieldSchema(propertyName, propertyType, annotations, settings, collaborators) ==
      match collaborators.parse(annotations[i].schema)
      case Some(s) => Success(s)
      case None => Failure(SchemaParseFailure(propertyName))
  {
    AnnotationFirstOverride(propertyName, annotations, collaborators.parse, i);
  }

  // ---------------------------------------------------------------------------------
  // The type dispatch, one shape at a time.
  // ---------------------------------------------------------------------------------

  /** A null property type gives a "null" field. */
  lemma NullTypeField(propertyName: string, annotations: seq<Annotation>, settings: AvroSettings, collaborators: Collaborators)
    requires '.' !in propertyName && NoOverride(propertyName, annotations)
    ensures FieldSchema(propertyName, NoType, annotations, settings, collaborators) == Success(Null)
  {
    AnnotationNoOverride(propertyName, annotations, collaborators.parse);
  }

  /** A scalar primitive is required when non-null is preferred, and otherwise optional exactly when boxed. */
  lemma ScalarPrimitiveField(propertyName: string, k: PrimitiveKind, boxed: bool, annotations: seq<Annotation>,
                             settings: AvroSettings, collaborators: Collaborators)
    requires '.' !in propertyName && NoOverride(propertyName, annotations) && IsMappedKind(k)
    ensures FieldSchema(propertyName, ClassType(Primitive(k, boxed)), annotations, settings, collaborators) ==
      Success(if settings.enableSchemaDefaultNonNull || !boxed then AvroPrimitive(k) else Union([Null, AvroPrimitive(k)]))
  {
    AnnotationNoOverride(propertyName, annotations, collaborators.parse);
  }

  /** An array of primitives: element boxing alone picks the element form; without the
      non-null preference the array is wrapped in a null union. */
  lemma PrimitiveArrayField(propertyName: string, k: PrimitiveKind, boxed: bool, annotations: seq<Annotation>,
                            settings: AvroSettings, collaborators: Collaborators)
    requires '.' !in propertyName && NoOverride(propertyName, annotations) && IsMappedKind(k)
    requires !(k == ByteKind && !boxed)
    ensures FieldSchema(propertyName, ClassType(ArrayClass(Primitive(k, boxed))), annotations, settings, collaborators) ==
      var items := if boxed then Union([Null, AvroPrimitive(k)]) else AvroPrimitive(k);
      Success(if settings.enableSchemaDefaultNonNull then Array(items) else Union([Null, Array(items)]))
  {
    AnnotationNoOverride(propertyName, annotations, collaborators.parse);
  }

  /** A primitive `byte[]` is Avro bytes, optional unless non-null is preferred. */
  lemma PrimitiveByteArrayField(propertyName: string, annotations: seq<Annotation>,
                                settings: AvroSettings, collaborators: Collaborators)
    requires '.' !in propertyName && NoOverride(propertyName, annotations)
    ensures FieldSchema(propertyName, ClassType(ArrayClass(Primitive(ByteKind, false))), annotations, settings, collaborators) ==
      Success(if settings.enableSchemaDefaultNonNull then Bytes else Union([Null, Bytes]))
  {
    AnnotationNoOverride(propertyName, annotations, collaborators.parse);
  }

  /** `byte`/`Byte` and `Byte[]` get exactly the fields of `int`/`Integer` and `Integer[]`. */
  lemma ByteAsInt(propertyName: string, boxed: bool, annotations: seq<Annotation>,
                  settings: AvroSettings, collaborators: Collaborators)
    requires '.' !in propertyName && NoOverride(propertyName, annotations)
    ensures FieldSchema(propertyName, ClassType(Primitive(ByteKind, boxed)), annotations, settings, collaborators)
         == FieldSchema(propertyName, ClassType(Primitive(IntKind, boxed)), annotations, settings, collaborators)
    ensures FieldSchema(propertyName, ClassType(ArrayClass(Primitive(ByteKind, true))), annotations, settings, collaborators)
         == FieldSchema(propertyName, ClassType(ArrayClass(Primitive(IntKind, true))), annotations, settings, collaborators)
  {
    ScalarPrimitiveField(propertyName, ByteKind, boxed, annotations, settings, collaborators);
    ScalarPrimitiveField(propertyName, IntKind, boxed, annotations, settings, collaborators);
    PrimitiveArrayField(propertyName, ByteKind, true, annotations, settings, collaborators);
    PrimitiveArrayField(propertyName, IntKind, true, annotations, settings, collaborators);
  }

  /** `String` and `CharSequence`: a string leaf, tagged when native strings are enabled, optional unless non-null is preferred. */
  lemma StringField(propertyName: string, c: JavaClass, annotations: seq<Annotation>,
                    settings: AvroSettings, collaborators: Collaborators)
    requires '.' !in propertyName && NoOverride(propertyName, annotations)
    requires c == StringClass || c == CharSequenceClass
    ensures FieldSchema(propertyName, ClassType(c), annotations, settings, collaborators) ==
      var leaf := String(settings.enableNativeString);
      Success(if settings.enableSchemaDefaultNonNull then leaf else Union([Null, leaf]))
  {
    AnnotationNoOverride(propertyName, annotations, collaborators.parse);
  }

  /** `String[]` and `CharSequence[]`: an array of string leaves, optional unless non-null is preferred. */
  lemma StringArrayField(propertyName: string, c: JavaClass, annotations: seq<Annotation>,
                         settings: AvroSettings, collaborators: Collaborators)
    requires '.' !in propertyName && NoOverride(propertyName, annotations)
    requires c == StringClass || c == CharSequenceClass
    ensures FieldSchema(propertyName, ClassType(ArrayClass(c)), annotations, settings, collaborators) ==
      var items := String(settings.enableNativeString);
      Success(if settings.enableSchemaDefaultNonNull then Array(items) else Union([Null, Array(items)]))
  {
    AnnotationNoOverride(propertyName, annotations, collaborators.parse);
  }

  /** A `Map` class: a map of string values, optional unless non-null is preferred. */
  lemma MapField(propertyName: string, className: string, annotations: seq<Annotation>,
                 settings: AvroSettings, collaborators: Collaborators)
    requires '.' !in propertyName && NoOverride(propertyName, annotations)
    ensures FieldSchema(propertyName, ClassType(ReferenceClass(className, true)), annotations, settings, collaborators) ==
      var values := String(settings.enableNativeString);
      Success(if settings.enableSchemaDefaultNonNull then Map(values) else Union([Null, Map(values)]))
  {
    AnnotationNoOverride(propertyName, annotations, collaborators.parse);
  }

  /** A class is mapped exactly when it has an Avro counterpart; every other class fails with a mapping error. */
  lemma ClassMapping(propertyName: string, c: JavaClass, annotations: seq<Annotation>,
                     settings: AvroSettings, collaborators: Collaborators)
    requires '.' !in propertyName && NoOverride(propertyName, annotations)
    ensures FieldSchema(propertyName, ClassType(c), annotations, settings, collaborators).Success? <==> HasAvroMapping(c)
    ensures FieldSchema(propertyName, ClassType(c), annotations, settings, collaborators).Failure? ==>
      FieldSchema(propertyName, ClassType(c), annotations, settings, collaborators).error == NoAvroMapping(propertyName)
  {
    AnnotationNoOverride(propertyName, annotations, collaborators.parse);
  }

  /** Every union anywhere in `s` is `[null, T]` with `T` not itself a union. */
  predicate NullFirstUnions(s: Schema)
  {
    match s
    case Union(types) => |types| == 2 && types[0] == Null && !types[1].Union? && NullFirstUnions(types[1])
    case Array(items) => NullFirstUnions(items)
    case Map(values) => NullFirstUnions(values)
    case _ => true
  }

  /** The tables hold only null-first unions, and their required forms are not unions. */
  lemma TableUnionShape(leaf: Leaf)
    ensures NullFirstUnions(ScalarTable(leaf).req) && !ScalarTable(leaf).req.Union?
    ensures NullFirstUnions(ScalarTable(leaf).opt)
    ensures leaf != StringLeaf ==> NullFirstUnions(ArrayTable(leaf).req) && NullFirstUnions(ArrayTable(leaf).opt)
    ensures leaf != StringLeaf ==> !ArrayTable(leaf).req.Union? && !ArrayTable(leaf).opt.Union?
  {
  }

  /** The union shape of the array branch. */
  lemma ArraySchemaUnionShape(propertyName: string, c: JavaClass, settings: AvroSettings)
    requires c.ArrayClass? && ArraySchema(propertyName, c, settings).Success?
    ensures var s := ArraySchema(propertyName, c, settings).value;
      NullFirstUnions(s) && (settings.enableSchemaDefaultNonNull ==> !s.Union?)
  {
    TableUnionShape(BooleanLeaf);
    TableUnionShape(IntLeaf);
    TableUnionShape(LongLeaf);
    TableUnionShape(FloatLeaf);
    TableUnionShape(DoubleLeaf);
  }

  /** The null union of a non-union with null-first unions keeps that shape. */
  lemma WrapUnionShape(preferNonNull: bool, s: Schema)
    requires NullFirstUnions(s) && !s.Union?
    ensures NullFirstUnions(Wrap(preferNonNull, s)) && (preferNonNull ==> !Wrap(preferNonNull, s).Union?)
  {
  }

  /** Whichever table entry `assemblePrimitive` picks has null-first unions, and is the required form under the preference. */
  lemma PrimitiveChoiceUnionShape(nullable: bool, leaf: Leaf, preferNonNull: bool)
    ensures NullFirstUnions(PrimitiveChoice(nullable, ScalarTable(leaf), preferNonNull))
    ensures preferNonNull ==> !PrimitiveChoice(nullable, ScalarTable(leaf), preferNonNull).Union?
  {
    TableUnionShape(leaf);
  }

  /** The union shape of the class branch. */
  lemma ClassSchemaUnionShape(propertyName: string, c: JavaClass, settings: AvroSettings)
    requires ClassSchema(propertyName, c, settings).Success?
    ensures var s := ClassSchema(propertyName, c, settings).value;
      NullFirstUnions(s) && (settings.enableSchemaDefaultNonNull ==> !s.Union?)
  {
    var preferNonNull := settings.enableSchemaDefaultNonNull;
    var nullable := c == BoxedType(c);
    match c
    case Primitive(k, _) =>
      PrimitiveChoiceUnionShape(nullable, BooleanLeaf, preferNonNull);
      PrimitiveChoiceUnionShape(nullable, IntLeaf, preferNonNull);
      PrimitiveChoiceUnionShape(nullable, LongLeaf, preferNonNull);
      PrimitiveChoiceUnionShape(nullable, FloatLeaf, preferNonNull);
      PrimitiveChoiceUnionShape(nullable, DoubleLeaf, preferNonNull);
    case StringClass =>
      WrapUnionShape(preferNonNull, String(true));
      PrimitiveChoiceUnionShape(nullable, StringLeaf, preferNonNull);
    case CharSequenceClass =>
      WrapUnionShape(preferNonNull, String(true));
      PrimitiveChoiceUnionShape(nullable, StringLeaf, preferNonNull);
    case ArrayClass(_) =>
      if c == ArrayClass(Primitive(ByteKind, false)) {
        WrapUnionShape(preferNonNull, Bytes);
      } else {
        ArraySchemaUnionShape(propertyName, c, settings);
      }
    case ReferenceClass(_, _) =>
      WrapUnionShape(preferNonNull, Map(StringSchema(settings)));
  }

  /** Every union the class dispatch builds, at any depth, is `[null, T]`; when non-null is
      preferred the field schema itself is not a union (its array elements still may be). */
  lemma ClassFieldUnionShape(propertyName: string, c: JavaClass, annotations: seq<Annotation>,
                             settings: AvroSettings, collaborators: Collaborators)
    requires '.' !in propertyName && NoOverride(propertyName, annotations)
    requires FieldSchema(propertyName, ClassType(c), annotations, settings, collaborators).Success?
    ensures var s := FieldSchema(propertyName, ClassType(c), annotations, settings, collaborators).value;
      NullFirstUnions(s) && (settings.enableSchemaDefaultNonNull ==> !s.Union?)
  {
    AnnotationNoOverride(propertyName, annotations, collaborators.parse);
    ClassSchemaUnionShape(propertyName, c, settings);
  }

  // ---------------------------------------------------------------------------------
  // Event-type references.
  // ---------------------------------------------------------------------------------

  /** A type name, stripped of its array marker, must name an Avro event type; the field is
      that type's schema, in an array exactly when the marker was present. */
  lemma TypeNameField(propertyName: string, typeName: string, annotations: seq<Annotation>,
                      settings: AvroSettings, collaborators: Collaborators)
    requires '.' !in propertyName && NoOverride(propertyName, annotations)
    ensures var isArray := collaborators.isPropertyArray(typeName);
      var bareName := if isArray then collaborators.propertyRemoveArray(typeName) else typeName;
      var r := FieldSchema(propertyName, TypeName(typeName), annotations, settings, collaborators);
      (r.Success? <==> bareName in collaborators.typesByName && collaborators.typesByName[bareName].AvroEventType?)
      && (r.Failure? ==> r.error == UnknownAvroTypeName(propertyName, typeName))
      && (r.Success? ==> r.value == if isArray then Array(collaborators.typesByName[bareName].schema)
                                    else collaborators.typesByName[bareName].schema)
  {
    AnnotationNoOverride(propertyName, annotations, collaborators.parse);
  }

  /** An `EventType` must be an Avro event type; the field is its schema. */
  lemma EventTypeField(propertyName: string, eventType: EventType, annotations: seq<Annotation>,
                       settings: AvroSettings, collaborators: Collaborators)
    requires '.' !in propertyName && NoOverride(propertyName, annotations)
    ensures var r := FieldSchema(propertyName, EventTypeRef(eventType), annotations, settings, collaborators);
      (r.Success? <==> eventType.AvroEventType?)
      && (r.Success? ==> r.value == eventType.schema)
      && (r.Failure? ==> r.error == NotAvroEventType(eventType.underlyingName))
  {
    AnnotationNoOverride(propertyName, annotations, collaborators.parse);
  }

  /** An `EventType[]` uses element 0, which must be an Avro event type; the field is an array of its schema. */
  lemma EventTypeArrayField(propertyName: string, eventTypes: seq<EventType>, annotations: seq<Annotation>,
                            settings: AvroSettings, collaborators: Collaborators)
    requires '.' !in propertyName && NoOverride(propertyName, annotations)
    ensures var r := FieldSchema(propertyName, EventTypeArray(eventTypes), annotations, settings, collaborators);
      (r.Success? <==> |eventTypes| > 0 && eventTypes[0].AvroEventType?)
      && (r.Success? ==> r.value == Array(eventTypes[0].schema))
      && (|eventTypes| == 0 ==> r == Failure(EmptyEventTypeArray))
      && (|eventTypes| > 0 && r.Failure? ==> r.error == NotAvroEventType(eventTypes[0].underlyingName))
  {
    AnnotationNoOverride(propertyName, annotations, collaborators.parse);
  }

  // ---------------------------------------------------------------------------------
  // The native-string setting.
  // ---------------------------------------------------------------------------------

  /** Removing the tag commutes with the null union. */
  lemma UntaggedOrNull(s: Schema)
    ensures Untagged(Union([Null, s])) == Union([Null, Untagged(s)])
  {
    var types := [Null, s];
    assert seq(|types|, i requires 0 <= i < |types| => Untagged(types[i])) == [Null, Untagged(s)];
  }

  /** Only string-valued classes read the native-string setting. */
  lemma {:induction false} ClassSchemaIgnoresNative(propertyName: string, c: JavaClass, settings: AvroSettings)
    requires c != StringClass && c != CharSequenceClass
    requires c != ArrayClass(StringClass) && c != ArrayClass(CharSequenceClass)
    requires !(c.ReferenceClass? && c.implementsMap)
    ensures ClassSchema(propertyName, c, settings.(enableNativeString := true))
         == ClassSchema(propertyName, c, settings.(enableNativeString := false))
  {
    if c.ArrayClass? {
      assert ArraySchema(propertyName, c, settings.(enableNativeString := true))
          == ArraySchema(propertyName, c, settings.(enableNativeString := false));
    }
  }

  /** The class dispatch with and without native strings: the same outcome up to the tag. */
  lemma ClassSchemaNativeString(propertyName: string, c: JavaClass, settings: AvroSettings)
    ensures var on := ClassSchema(propertyName, c, settings.(enableNativeString := true));
      var off := ClassSchema(propertyName, c, settings.(enableNativeString := false));
      (on.Success? <==> off.Success?)
      && (on.Failure? ==> on.error == off.error)
      && (on.Success? ==> Untagged(on.value) == Untagged(off.value))
  {
    var preferNonNull := settings.enableSchemaDefaultNonNull;
    var on := settings.(enableNativeString := true);
    var off := settings.(enableNativeString := false);
    if c == StringClass || c == CharSequenceClass {
      assert ClassSchema(propertyName, c, on) == Success(Wrap(preferNonNull, String(true)));
      assert ClassSchema(propertyName, c, off) == Success(Wrap(preferNonNull, String(false)));
      UntaggedOrNull(String(true));
      UntaggedOrNull(String(false));
    } else if c == ArrayClass(StringClass) || c == ArrayClass(CharSequenceClass) {
      assert ClassSchema(propertyName, c, on) == Success(Wrap(preferNonNull, Array(String(true))));
      assert ClassSchema(propertyName, c, off) == Success(Wrap(preferNonNull, Array(String(false))));
      UntaggedOrNull(Array(String(true)));
      UntaggedOrNull(Array(String(false)));
    } else if c.ReferenceClass? && c.implementsMap {
      assert ClassSchema(propertyName, c, on) == Success(Wrap(preferNonNull, Map(String(true))));
      assert ClassSchema(propertyName, c, off) == Success(Wrap(preferNonNull, Map(String(false))));
      UntaggedOrNull(Map(String(true)));
      UntaggedOrNull(Map(String(false)));
    } else {
      ClassSchemaIgnoresNative(propertyName, c, settings);
    }
  }

  /** The native-string setting changes nothing but the tag on string leaves: the same inputs
      succeed or fail alike, and the schemas agree once the tag is removed. */
  lemma NativeStringOnlyTagsLeaves(propertyName: string, propertyType: PropertyType, annotations: seq<Annotation>,
                                   settings: AvroSettings, collaborators: Collaborators)
    ensures var on := FieldSchema(propertyName, propertyType, annotations, settings.(enableNativeString := true), collaborators);
      var off := FieldSchema(propertyName, propertyType, annotations, settings.(enableNativeString := false), collaborators);
      (on.Success? <==> off.Success?)
      && (on.Failure? ==> on.error == off.error)
      && (on.Success? ==> Untagged(on.value) == Untagged(off.value))
  {
    if propertyType.ClassType? {
      ClassSchemaNativeString(propertyName, propertyType.javaClass, settings);
    }
  }

  // ---------------------------------------------------------------------------------
  // Finding the single record member of a union.
  // ---------------------------------------------------------------------------------

  /** No RECORD is counted exactly when no member is a RECORD. */
  lemma {:induction false} NoRecordMember(types: seq<Schema>)
    ensures RecordCount(types) == 0 <==> forall j :: 0 <= j < |types| ==> !types[j].Record?
    decreases |types|
  {
    if types != [] {
      var init := types[..|types| - 1];
      NoRecordMember(init);
      assert forall j :: 0 <= j < |init| ==> init[j] == types[j];
    }
  }

  /** Given a RECORD member at index i, the count is one exactly when no other index holds a RECORD. */
  lemma {:induction false} SingleRecordMember(types: seq<Schema>, i: nat)
    requires i < |types| && types[i].Record?
    ensures RecordCount(types) == 1 <==> forall j :: 0 <= j < |types| && types[j].Record? ==> j == i
    decreases |types|
  {
    var init := types[..|types| - 1];
    assert forall j :: 0 <= j < |init| ==> init[j] == types[j];
    NoRecordMember(init);
    if i < |types| - 1 {
      SingleRecordMember(init, i);
    }
  }

  /** What `findUnionRecordSchemaSingle` returns, by index: for a union with a RECORD member at i,
      that member exactly when no other member is a RECORD. */
  lemma FindUnionRecordSchemaSingleResult(types: seq<Schema>, i: nat)
    requires i < |types| && types[i].Record?
    ensures (forall j :: 0 <= j < |types| && types[j].Record? ==> j == i) <==> RecordCount(types) == 1
    ensures RecordCount(types) == 1 ==> forall m :: m in types && m.Record? ==> m == types[i]
  {
    SingleRecordMember(types, i);
  }
}
