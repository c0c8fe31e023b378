/** Literal types and their JSON schemas. */
module LiteralTypes {
  import opened Base
  import opened Decimals
  import opened Jsons

  datatype SimpleType = NONE | STRING | INTEGER | FLOAT | BOOLEAN | DATETIME | DURATION | ERROR | BINARY

  /** `tag` is None when the source's Structure is nil. */
  datatype LiteralType = LiteralType(kind: Kind, tag: Option<string>)

  datatype Kind =
    | Simple(simple: SimpleType)
    | Struct(metadata: Option<map<string, Json>>)
    | Blob(format: string, dimensionality: I32)
    | Collection(elem: LiteralType)
    | MapOf(value: LiteralType)
    | Enum(values: seq<string>)
    | StructuredDataset
    | Union(variants: seq<LiteralType>)
    | Schema
    | Unset

  type JsonObject = map<string, Json>

  const SINGLE: I32 := 0
  const MULTIPART: I32 := 1

  function DimensionName(d: I32): string {
    if d == MULTIPART then "MULTIPART" else "SINGLE"
  }

  function TagText(t: LiteralType): string {
    if t.tag.Some? then t.tag.value else ""
  }

  function Text(s: string): Json {
    JStr(s)
  }

  /** extractTitleFromLiteralType */
  function TitleOf(t: LiteralType): string {
    match t.kind
    case Simple(STRING) => "string"
    case Simple(INTEGER) => "integer"
    case Simple(FLOAT) => "number"
    case Simple(BOOLEAN) => "boolean"
    case Simple(DATETIME) => "datetime"
    case Simple(DURATION) => "duration"
    case Simple(BINARY) => "binary"
    case Simple(NONE) => "none"
    case Simple(ERROR) => "unknown"
    case Struct(metadata) =>
      if metadata.Some? && "title" in metadata.value && metadata.value["title"].JStr?
      then metadata.value["title"].s else "object"
    case Collection(_) => "array"
    case MapOf(_) => "object"
    case Blob(_, _) => "blob"
    case Enum(_) => "enum"
    case StructuredDataset => "structured_dataset"
    case Union(_) => "union"
    case Schema => "unknown"
    case Unset => "unknown"
  }

  /** Types the printer accepts: no deprecated schema and no type without a kind, at any depth. */
  predicate Printable(t: LiteralType) {
    match t.kind
    case Schema => false
    case Unset => false
    case Collection(elem) => Printable(elem)
    case MapOf(value) => Printable(value)
    case Union(variants) => forall i :: 0 <= i < |variants| ==> Printable(variants[i])
    case _ => true
  }

  /** The schema of a struct type is its metadata, with the title renamed and additionalProperties dropped. */
  function StructSchema(metadata: JsonObject): JsonObject {
    var rest := metadata - {"title", "additionalProperties"};
    if "title" in metadata && metadata["title"] != JNull then rest["dataclass" := metadata["title"]] else rest
  }

  function BlobProperties(uri: string, format: string, dimension: string): JsonObject {
    map["uri" := JObj(map["type" := Text("string"), "default" := Text(uri)]),
        "format" := JObj(map["type" := Text("string"), "default" := Text(format)]),
        "dimensionality" := JObj(map["type" := Text("string"), "enum" := JArr([Text("SINGLE"), Text("MULTIPART")]),
                                     "default" := Text(dimension)])]
  }

  function BlobSchema(uri: string, format: string, dimension: string): JsonObject {
    map["type" := Text("object"), "format" := Text("blob"),
        "properties" := JObj(BlobProperties(uri, format, dimension))]
  }

  /** literalTypeToJsonSchema */
  function SchemaOf(t: LiteralType): JsonObject
    requires Printable(t)
    decreases t, 0
  {
    match t.kind
    case Simple(NONE) => map["type" := Text("null")]
    case Simple(STRING) => map["type" := Text("string")]
    case Simple(INTEGER) => map["type" := Text("integer")]
    case Simple(FLOAT) => map["type" := Text("number"), "format" := Text("float")]
    case Simple(BOOLEAN) => map["type" := Text("boolean")]
    case Simple(DATETIME) => map["type" := Text("string"), "format" := Text("datetime")]
    case Simple(DURATION) => map["type" := Text("string"), "format" := Text("duration")]
    case Simple(ERROR) => map["type" := Text("string"), "format" := Text("error")]
    case Simple(BINARY) => map["type" := Text("string"), "format" := Text("binary")]
    case Struct(metadata) =>
      if metadata.Some? then StructSchema(metadata.value)
      else map["type" := Text("object"), "additionalProperties" := JBool(true)]
    case Blob(format, d) => BlobSchema("", format, DimensionName(d))
    case Collection(elem) => map["type" := Text("array"), "items" := JObj(SchemaOf(elem))]
    case MapOf(value) => map["type" := Text("object"), "additionalProperties" := JObj(SchemaOf(value))]
    case Enum(values) =>
      map["type" := Text("string"), "enum" := JArr(seq(|values|, i requires 0 <= i < |values| => Text(values[i])))]
    case StructuredDataset =>
      map["type" := Text("object"), "format" := Text("structured-dataset"),
          "properties" := JObj(map["uri" := JObj(map["type" := Text("string")]),
                                   "format" := JObj(map["type" := Text("string")])])]
    case Union(variants) =>
      map["format" := Text("union"),
          "oneOf" := JArr(seq(|variants|, i requires 0 <= i < |variants| => JObj(VariantSchema(variants[i]))))]
  }

  function VariantSchema(t: LiteralType): JsonObject
    requires Printable(t)
    decreases t, 1
  {
    SchemaOf(t)["title" := Text(TitleOf(t))]["structure" := Text(TagText(t))]
  }

  datatype TypeError = MissingType | BadUnion | UnknownEnumValue

  /** The string under a key, where there is one. */
  function StringAt(o: JsonObject, key: string): Option<string> {
    if key in o && o[key].JStr? then Some(o[key].s) else None
  }

  function ObjectAt(o: JsonObject, key: string): Option<JsonObject> {
    if key in o && o[key].JObj? then Some(o[key].fields) else None
  }

  /** strconv.ParseInt(s, 10, 32) */
  function ParseInt32(s: string): Option<I32> {
    var v := ParseSigned(s, -TWO_31, TWO_31);
    if v.Some? then Some(v.value) else None
  }

  /** The blob type a schema describes through the defaults of its properties. */
  function BlobKind(schema: JsonObject): Kind {
    var properties := ObjectAt(schema, "properties");
    if properties.None? then Blob("", SINGLE)
    else
      var formatProp, dimProp := ObjectAt(properties.value, "format"), ObjectAt(properties.value, "dimensionality");
      var format := if formatProp.Some? && StringAt(formatProp.value, "default").Some?
                    then StringAt(formatProp.value, "default").value else "";
      var d := if dimProp.None? || "default" !in dimProp.value then SINGLE
               else match dimProp.value["default"]
                    case JStr(s) =>
                      if s == "SINGLE" then SINGLE else if s == "MULTIPART" then MULTIPART
                      else if ParseInt32(s).Some? then ParseInt32(s).value else SINGLE
                    case JNum(x) => Int32(x)
                    case _ => SINGLE;
      Blob(format, d)
  }

  function EnumValues(items: seq<Json>): Result<seq<string>, TypeError> {
    if forall i :: 0 <= i < |items| ==> items[i].JStr?
    then Ok(seq(|items|, i requires 0 <= i < |items| && items[i].JStr? => items[i].s))
    else Err(UnknownEnumValue)
  }

  /** jsonSchemaToLiteralType. The metadata it copies onto object types is not read by any parser and is dropped. */
  function TypeOf(schema: JsonObject): Result<LiteralType, TypeError>
    decreases JObj(schema), 1
  {
    if "oneOf" in schema then ParseUnion(schema["oneOf"])
    else
      var tag := StringAt(schema, "structure");
      var format := StringAt(schema, "format");
      match StringAt(schema, "type")
      case None => Err(MissingType)
      case Some(ty) =>
        if ty == "string" then
          if "enum" in schema then
            match schema["enum"]
            case JArr(items) =>
              (match EnumValues(items)
               case Ok(values) => Ok(LiteralType(Enum(values), tag))
               case Err(e) => Err(e))
            case _ => Ok(LiteralType(Simple(STRING), tag))
          else if format == Some("datetime") then Ok(LiteralType(Simple(DATETIME), tag))
          else if format == Some("duration") then Ok(LiteralType(Simple(DURATION), tag))
          else Ok(LiteralType(Simple(STRING), tag))
        else if ty == "integer" then
          if format == Some("datetime") then Ok(LiteralType(Simple(DATETIME), tag))
          else if format == Some("duration") then Ok(LiteralType(Simple(DURATION), tag))
          else Ok(LiteralType(Simple(INTEGER), tag))
        else if ty == "number" then Ok(LiteralType(Simple(FLOAT), tag))
        else if ty == "boolean" then Ok(LiteralType(Simple(BOOLEAN), tag))
        else if ty == "null" then Ok(LiteralType(Simple(NONE), tag))
        else if ty == "array" then
          if "items" in schema && schema["items"].JObj? then
            match TypeOf(schema["items"].fields)
            case Ok(elem) => Ok(LiteralType(Collection(elem), tag))
            case Err(e) => Err(e)
          else Ok(LiteralType(Collection(LiteralType(Simple(STRING), None)), tag))
        else if ty == "object" then
          if format == Some("blob") then Ok(LiteralType(BlobKind(schema), tag))
          else if format == Some("structured-dataset") then Ok(LiteralType(StructuredDataset, tag))
          else if format.Some? then Ok(LiteralType(Unset, tag))
          else if "additionalProperties" in schema && schema["additionalProperties"].JObj? then
            match TypeOf(schema["additionalProperties"].fields)
            case Ok(value) => Ok(LiteralType(MapOf(value), tag))
            case Err(e) => Err(e)
          else Ok(LiteralType(Struct(None), tag))
        else Ok(LiteralType(Simple(NONE), tag))
  }

  /** parseUnionSchema. Removing a variant's title first changes nothing that the parser reads. */
  function ParseUnion(oneOf: Json): Result<LiteralType, TypeError>
    decreases oneOf, 2
  {
    match oneOf
    case JArr(items) =>
      if forall i :: 0 <= i < |items| ==> ParseVariant(items[i]).Ok? then
        Ok(LiteralType(Union(seq(|items|, i requires 0 <= i < |items| && ParseVariant(items[i]).Ok? =>
                                            ParseVariant(items[i]).value)), None))
      else Err(BadUnion)
    case _ => Err(BadUnion)
  }

  function ParseVariant(item: Json): Result<LiteralType, TypeError>
    decreases item, 2
  {
    match item
    case JObj(schema) =>
      (match TypeOf(schema)
       case Ok(t) =>
         var tag := StringAt(schema, "structure");
         Ok(if tag.Some? && tag.value != "" && t.tag.None? then t.(tag := tag) else t)
       case Err(_) => Err(BadUnion))
    case _ => Err(BadUnion)
  }

  /** Struct metadata that reads back as a struct: a plain object schema. */
  predicate PlainMetadata(m: JsonObject) {
    StringAt(m, "type") == Some("object") && "oneOf" !in m && StringAt(m, "format").None?
  }

  /** Types whose schema can be parsed back. Metadata is a protobuf Struct, so it is clean. */
  predicate Parseable(t: LiteralType) {
    match t.kind
    case Schema => false
    case Unset => false
    case Struct(metadata) => metadata.Some? ==> PlainMetadata(metadata.value) && Clean(JObj(metadata.value))
    case Collection(elem) => Parseable(elem)
    case MapOf(value) => Parseable(value)
    case Union(variants) => forall i :: 0 <= i < |variants| ==> Parseable(variants[i])
    case _ => true
  }

  lemma {:induction false} ParseableIsPrintable(t: LiteralType)
    requires Parseable(t)
    ensures Printable(t)
  {
    match t.kind
    case Collection(elem) => ParseableIsPrintable(elem);
    case MapOf(value) => ParseableIsPrintable(value);
    case Union(variants) =>
      forall i | 0 <= i < |variants| ensures Printable(variants[i]) {
        ParseableIsPrintable(variants[i]);
      }
    case _ =>
  }

  /** The tag an element type gets when read back: only struct metadata can bring a "structure" entry. */
  function StrayTag(t: LiteralType): Option<string> {
    if t.kind.Struct? && t.kind.metadata.Some? then StringAt(t.kind.metadata.value, "structure") else None
  }

  /** What printing and parsing leaves of a kind: binary and error become strings, struct metadata is dropped,
      a dimensionality without a name becomes SINGLE, and variants carry their tag. */
  function Norm(k: Kind): Kind {
    match k
    case Simple(ERROR) => Simple(STRING)
    case Simple(BINARY) => Simple(STRING)
    case Struct(_) => Struct(None)
    case Blob(format, d) => Blob(format, if d == MULTIPART then MULTIPART else SINGLE)
    case Collection(elem) => Collection(LiteralType(Norm(elem.kind), StrayTag(elem)))
    case MapOf(value) => MapOf(LiteralType(Norm(value.kind), StrayTag(value)))
    case Union(variants) => Union(seq(|variants|, i requires 0 <= i < |variants| => NormVariant(variants[i])))
    case _ => k
  }

  function NormVariant(t: LiteralType): LiteralType
    decreases t, 1
  {
    var tag := TagText(t);
    LiteralType(Norm(t.kind), if t.kind.Union? && tag == "" then None else Some(tag))
  }

  lemma BlobSchemaIsClean(uri: string, format: string, dimension: string)
    ensures Clean(JObj(BlobSchema(uri, format, dimension)))
  {
    var properties := BlobProperties(uri, format, dimension);
    assert forall k | k in properties :: Clean(properties[k]);
    assert Clean(JObj(properties));
  }

  /** A printed schema is unchanged by a protobuf Struct. */
  lemma {:induction false} SchemaIsClean(t: LiteralType)
    requires Parseable(t) && Printable(t)
    ensures Clean(JObj(SchemaOf(t)))
    decreases t
  {
    match t.kind
    case Collection(elem) => SchemaIsClean(elem);
    case MapOf(value) => SchemaIsClean(value);
    case Union(variants) =>
      forall i | 0 <= i < |variants| ensures Clean(JObj(VariantSchema(variants[i]))) {
        SchemaIsClean(variants[i]);
      }
    case Blob(format, d) => BlobSchemaIsClean("", format, DimensionName(d));
    case StructuredDataset =>
      var properties := SchemaOf(t)["properties"].fields;
      assert forall k | k in properties :: Clean(properties[k]);
    case _ =>
  }

  const EXTRAS: set<string> := {"default", "description", "title", "structure"}

  /** Keys the type parser does not read may be added freely; the structure tag is picked up. */
  ghost predicate OnlyExtras(schema: JsonObject, base: JsonObject) {
    forall k | k !in EXTRAS :: Agrees(schema, base, k)
  }

  predicate Agrees(schema: JsonObject, base: JsonObject, k: string) {
    && (k in schema <==> k in base)
    && (k in base ==> schema[k] == base[k])
  }

  predicate ReadsAgree(schema: JsonObject, base: JsonObject) {
    && Agrees(schema, base, "oneOf") && Agrees(schema, base, "type") && Agrees(schema, base, "format")
    && Agrees(schema, base, "enum") && Agrees(schema, base, "items") && Agrees(schema, base, "properties")
    && Agrees(schema, base, "additionalProperties")
  }

  lemma ExtrasAreUnread(schema: JsonObject, base: JsonObject)
    requires OnlyExtras(schema, base)
    ensures ReadsAgree(schema, base)
  {
  }

  function TagRead(t: LiteralType, schema: JsonObject): Option<string> {
    if t.kind.Union? then None else StringAt(schema, "structure")
  }

  lemma SimpleRoundTrip(t: LiteralType, schema: JsonObject)
    requires t.kind.Simple? && ReadsAgree(schema, SchemaOf(t))
    ensures TypeOf(schema) == Ok(LiteralType(Norm(t.kind), TagRead(t, schema)))
  {
  }

  lemma StructRoundTrip(t: LiteralType, schema: JsonObject)
    requires t.kind.Struct? && Parseable(t) && ReadsAgree(schema, SchemaOf(t))
    ensures TypeOf(schema) == Ok(LiteralType(Norm(t.kind), TagRead(t, schema)))
  {
  }

  /** Struct metadata reads back as a struct exactly when it describes a plain object. */
  lemma OnlyPlainObjectsReadBack(metadata: JsonObject)
    ensures
      var r := TypeOf(StructSchema(metadata));
      (r.Ok? && r.value.kind.Struct?) <==> PlainMetadata(metadata)
  {
  }

  lemma EnumRoundTrip(t: LiteralType, schema: JsonObject)
    requires t.kind.Enum? && ReadsAgree(schema, SchemaOf(t))
    ensures TypeOf(schema) == Ok(LiteralType(Norm(t.kind), TagRead(t, schema)))
  {
    var items := SchemaOf(t)["enum"].items;
    assert schema["enum"] == JArr(items);
    assert EnumValues(items).value == t.kind.values;
  }

  lemma BlobRoundTrip(t: LiteralType, schema: JsonObject)
    requires t.kind.Blob? && ReadsAgree(schema, SchemaOf(t))
    ensures TypeOf(schema) == Ok(LiteralType(Norm(t.kind), TagRead(t, schema)))
  {
    assert BlobKind(schema) == Norm(t.kind);
  }

  lemma ParsedVariants(items: seq<Json>, parsed: seq<LiteralType>)
    requires |items| == |parsed| && forall i :: 0 <= i < |items| ==> ParseVariant(items[i]) == Ok(parsed[i])
    ensures ParseUnion(JArr(items)) == Ok(LiteralType(Union(parsed), None))
  {
    assert ParseUnion(JArr(items)).value.kind.variants == parsed;
  }

  lemma UnionRoundTrip(t: LiteralType, schema: JsonObject)
    requires t.kind.Union? && Printable(t) && ReadsAgree(schema, SchemaOf(t))
    requires forall i :: 0 <= i < |t.kind.variants| ==>
      ParseVariant(JObj(VariantSchema(t.kind.variants[i]))) == Ok(NormVariant(t.kind.variants[i]))
    ensures TypeOf(schema) == Ok(LiteralType(Norm(t.kind), None))
  {
    var variants := t.kind.variants;
    var items := SchemaOf(t)["oneOf"].items;
    assert schema["oneOf"] == JArr(items);
    forall i | 0 <= i < |items| ensures ParseVariant(items[i]) == Ok(NormVariant(variants[i])) {
      assert items[i] == JObj(VariantSchema(variants[i]));
    }
    ParsedVariants(items, seq(|variants|, i requires 0 <= i < |variants| => NormVariant(variants[i])));
  }

  lemma CollectionRoundTrip(t: LiteralType, schema: JsonObject)
    requires t.kind.Collection? && Printable(t) && ReadsAgree(schema, SchemaOf(t))
    requires TypeOf(SchemaOf(t.kind.elem)) == Ok(LiteralType(Norm(t.kind.elem.kind), StrayTag(t.kind.elem)))
    ensures TypeOf(schema) == Ok(LiteralType(Norm(t.kind), TagRead(t, schema)))
  {
    assert schema["items"] == JObj(SchemaOf(t.kind.elem));
  }

  lemma MapRoundTrip(t: LiteralType, schema: JsonObject)
    requires t.kind.MapOf? && Printable(t) && ReadsAgree(schema, SchemaOf(t))
    requires TypeOf(SchemaOf(t.kind.value)) == Ok(LiteralType(Norm(t.kind.value.kind), StrayTag(t.kind.value)))
    ensures TypeOf(schema) == Ok(LiteralType(Norm(t.kind), TagRead(t, schema)))
  {
    assert schema["additionalProperties"] == JObj(SchemaOf(t.kind.value));
  }

  lemma DatasetRoundTrip(t: LiteralType, schema: JsonObject)
    requires t.kind.StructuredDataset? && ReadsAgree(schema, SchemaOf(t))
    ensures TypeOf(schema) == Ok(LiteralType(Norm(t.kind), TagRead(t, schema)))
  {
  }

  /** Parsing the printed schema of a type gives the type back, normalised. */
  lemma {:induction false} TypeRoundTrip(t: LiteralType, schema: JsonObject)
    requires Parseable(t) && Printable(t) && OnlyExtras(schema, SchemaOf(t))
    ensures TypeOf(schema) == Ok(LiteralType(Norm(t.kind), TagRead(t, schema)))
    decreases t, 1
  {
    hide ReadsAgree, OnlyExtras, TypeOf, Norm, SchemaOf, StringAt;
    ExtrasAreUnread(schema, SchemaOf(t));
    match t.kind
    case Simple(_) => SimpleRoundTrip(t, schema);
    case Struct(_) => StructRoundTrip(t, schema);
    case Enum(_) => EnumRoundTrip(t, schema);
    case Blob(_, _) => BlobRoundTrip(t, schema);
    case Collection(elem) => InnerRoundTrip(elem); CollectionRoundTrip(t, schema);
    case MapOf(value) => InnerRoundTrip(value); MapRoundTrip(t, schema);
    case Union(variants) =>
      forall i | 0 <= i < |variants|
        ensures ParseVariant(JObj(VariantSchema(variants[i]))) == Ok(NormVariant(variants[i]))
      {
        VariantRoundTrip(variants[i]);
      }
      UnionRoundTrip(t, schema);
    case StructuredDataset => DatasetRoundTrip(t, schema);
  }

  lemma InnerRoundTrip(t: LiteralType)
    requires Parseable(t) && Printable(t)
    ensures TypeOf(SchemaOf(t)) == Ok(LiteralType(Norm(t.kind), StrayTag(t)))
    decreases t, 2
  {
    hide TypeOf, Norm;
    TypeRoundTrip(t, SchemaOf(t));
    PrintedTag(t);
  }

  lemma PrintedTag(t: LiteralType)
    requires Printable(t)
    ensures TagRead(t, SchemaOf(t)) == StrayTag(t)
  {
  }

  lemma VariantRoundTrip(t: LiteralType)
    requires Parseable(t) && Printable(t)
    ensures ParseVariant(JObj(VariantSchema(t))) == Ok(NormVariant(t))
    decreases t, 2
  {
    TypeRoundTrip(t, VariantSchema(t));
  }

  /** Struct metadata is a protobuf Struct, at any depth. */
  predicate CleanMetadata(t: LiteralType) {
    match t.kind
    case Struct(metadata) => metadata.Some? ==> Clean(JObj(metadata.value))
    case Collection(elem) => CleanMetadata(elem)
    case MapOf(value) => CleanMetadata(value)
    case Union(variants) => forall i :: 0 <= i < |variants| ==> CleanMetadata(variants[i])
    case _ => true
  }

  /** A printed type comes back exactly if the struct metadata inside it describes plain objects. */
  lemma ReadsBackExactly(t: LiteralType)
    requires Printable(t) && CleanMetadata(t)
    ensures TypeOf(SchemaOf(t)) == Ok(LiteralType(Norm(t.kind), StrayTag(t))) <==> Parseable(t)
  {
    hide TypeOf, Norm, SchemaOf;
    if Parseable(t) {
      InnerRoundTrip(t);
    } else if TypeOf(SchemaOf(t)) == Ok(LiteralType(Norm(t.kind), StrayTag(t))) {
      ReadBackIsParseable(t, SchemaOf(t));
    }
  }

  lemma {:induction false} ReadBackIsParseable(t: LiteralType, schema: JsonObject)
    requires Printable(t) && CleanMetadata(t) && OnlyExtras(schema, SchemaOf(t))
    requires TypeOf(schema).Ok? && TypeOf(schema).value.kind == Norm(t.kind)
    ensures Parseable(t)
    decreases t
  {
    hide ReadsAgree, OnlyExtras, TypeOf, Norm, SchemaOf, StringAt;
    ExtrasAreUnread(schema, SchemaOf(t));
    match t.kind
    case Struct(_) => ReadStruct(t, schema);
    case Collection(elem) =>
      ReadElement(t, schema);
      SchemaAgrees(elem);
      ReadBackIsParseable(elem, SchemaOf(elem));
    case MapOf(value) =>
      ReadMapped(t, schema);
      SchemaAgrees(value);
      ReadBackIsParseable(value, SchemaOf(value));
    case Union(variants) =>
      forall i | 0 <= i < |variants| ensures Parseable(variants[i]) {
        ReadVariant(t, schema, i);
        VariantAgrees(variants[i]);
        ReadBackIsParseable(variants[i], VariantSchema(variants[i]));
      }
    case _ =>
  }

  lemma SchemaAgrees(t: LiteralType)
    requires Printable(t)
    ensures OnlyExtras(SchemaOf(t), SchemaOf(t))
  {
  }

  lemma VariantAgrees(t: LiteralType)
    requires Printable(t)
    ensures OnlyExtras(VariantSchema(t), SchemaOf(t))
  {
  }

  lemma ReadStruct(t: LiteralType, schema: JsonObject)
    requires t.kind.Struct? && CleanMetadata(t) && ReadsAgree(schema, SchemaOf(t))
    requires TypeOf(schema).Ok? && TypeOf(schema).value.kind == Norm(t.kind)
    ensures Parseable(t)
  {
    if t.kind.metadata.Some? {
      var m := t.kind.metadata.value;
      assert Agrees(StructSchema(m), m, "type") && Agrees(StructSchema(m), m, "format");
      assert Agrees(StructSchema(m), m, "oneOf");
    }
  }

  lemma ReadElement(t: LiteralType, schema: JsonObject)
    requires t.kind.Collection? && Printable(t) && ReadsAgree(schema, SchemaOf(t))
    requires TypeOf(schema).Ok? && TypeOf(schema).value.kind == Norm(t.kind)
    ensures
      var inner := TypeOf(SchemaOf(t.kind.elem));
      inner.Ok? && inner.value.kind == Norm(t.kind.elem.kind)
  {
    assert schema["items"] == JObj(SchemaOf(t.kind.elem));
  }

  lemma ReadMapped(t: LiteralType, schema: JsonObject)
    requires t.kind.MapOf? && Printable(t) && ReadsAgree(schema, SchemaOf(t))
    requires TypeOf(schema).Ok? && TypeOf(schema).value.kind == Norm(t.kind)
    ensures
      var inner := TypeOf(SchemaOf(t.kind.value));
      inner.Ok? && inner.value.kind == Norm(t.kind.value.kind)
  {
    assert schema["additionalProperties"] == JObj(SchemaOf(t.kind.value));
  }

  lemma ReadVariant(t: LiteralType, schema: JsonObject, i: nat)
    requires t.kind.Union? && Printable(t) && ReadsAgree(schema, SchemaOf(t)) && i < |t.kind.variants|
    requires TypeOf(schema).Ok? && TypeOf(schema).value.kind == Norm(t.kind)
    ensures
      var inner := TypeOf(VariantSchema(t.kind.variants[i]));
      inner.Ok? && inner.value.kind == Norm(t.kind.variants[i].kind)
  {
    var variants := t.kind.variants;
    var items := SchemaOf(t)["oneOf"].items;
    assert schema["oneOf"] == JArr(items);
    assert items[i] == JObj(VariantSchema(variants[i]));
    assert ParseVariant(items[i]).Ok?;
    assert Norm(t.kind).variants[i] == NormVariant(variants[i]);
    assert TypeOf(schema).value.kind.variants[i] == ParseVariant(items[i]).value;
  }
}
