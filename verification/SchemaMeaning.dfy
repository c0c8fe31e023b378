/** What a printed schema says about values: the values sent with it conform to it. */
module SchemaMeaning {
  import opened Base
  import opened Jsons
  import opened LiteralTypes
  import opened LiteralValues

  /** A JSON value conforms to a schema, as far as the keywords that the printer uses go. Null is meant as in the forms. */
  predicate Conforms(v: Json, schema: JsonObject)
    decreases JObj(schema), 1
  {
    if "oneOf" in schema then ConformsToOne(v, schema["oneOf"])
    else
      match StringAt(schema, "type")
      case None => false
      case Some(ty) =>
        if ty == "string" then v.JStr? && ("enum" in schema ==> schema["enum"].JArr? && v in schema["enum"].items)
        else if ty == "integer" then v.JInt? || (v.JNum? && v.x == v.x.Floor as real)
        else if ty == "number" then v.JInt? || v.JNum?
        else if ty == "boolean" then v.JBool?
        else if ty == "null" then IsNull(v)
        else if ty == "array" then
          v.JArr? && ("items" in schema && schema["items"].JObj? ==>
                        forall i :: 0 <= i < |v.items| ==> Conforms(v.items[i], schema["items"].fields))
        else ty == "object" && v.JObj? && FieldsConform(v.fields, schema)
  }

  predicate FieldsConform(fields: map<string, Json>, schema: JsonObject)
    decreases JObj(schema), 0
  {
    && ("properties" in schema && schema["properties"].JObj? ==>
          forall k | k in schema["properties"].fields && schema["properties"].fields[k].JObj? ::
            k in fields ==> Conforms(fields[k], schema["properties"].fields[k].fields))
    && ("additionalProperties" in schema && schema["additionalProperties"].JObj? ==>
          forall k | k in fields && !("properties" in schema && schema["properties"].JObj? && k in schema["properties"].fields) ::
            Conforms(fields[k], schema["additionalProperties"].fields))
  }

  predicate ConformsToOne(v: Json, oneOf: Json)
    decreases oneOf, 2
  {
    oneOf.JArr? && exists i :: 0 <= i < |oneOf.items| && oneOf.items[i].JObj? && Conforms(v, oneOf.items[i].fields)
  }

  /** The struct literals inside conform to the schemas that their types carry as metadata. */
  predicate StructsConform(l: Literal, t: LiteralType) {
    match t.kind
    case Struct(metadata) => metadata.Some? && l.LGeneric? ==> Conforms(JObj(l.fields), StructSchema(metadata.value))
    case Collection(elem) => l.LCollection? ==> forall i :: 0 <= i < |l.items| ==> StructsConform(l.items[i], elem)
    case MapOf(value) => l.LMap? ==> forall k | k in l.entries :: StructsConform(l.entries[k], value)
    case Union(variants) => l.LUnion? ==>
      forall i :: 0 <= i < |variants| && l.ty == Tagged(variants[i]) ==> StructsConform(l.value, variants[i])
    case _ => true
  }

  /** A title and a tag say nothing about values. */
  lemma VariantsConformAlike(v: Json, t: LiteralType)
    requires Printable(t)
    ensures Conforms(v, VariantSchema(t)) == Conforms(v, SchemaOf(t))
  {
    var plain, titled := SchemaOf(t), VariantSchema(t);
    assert forall k | k != "title" && k != "structure" ::
        (k in titled <==> k in plain) && (k in plain ==> titled[k] == plain[k]);
    assert StringAt(titled, "type") == StringAt(plain, "type");
    if v.JObj? {
      SameFieldsConform(v.fields, titled, plain);
    }
  }

  lemma SameFieldsConform(fields: map<string, Json>, a: JsonObject, b: JsonObject)
    requires forall k | k in {"properties", "additionalProperties"} :: (k in a <==> k in b) && (k in b ==> a[k] == b[k])
    ensures FieldsConform(fields, a) == FieldsConform(fields, b)
  {
  }

  predicate Names(schema: JsonObject, ty: string) {
    "oneOf" !in schema && StringAt(schema, "type") == Some(ty)
  }

  lemma TextConforms(v: Json, schema: JsonObject)
    requires Names(schema, "string")
    ensures Conforms(v, schema) == (v.JStr? && ("enum" in schema ==> schema["enum"].JArr? && v in schema["enum"].items))
  {
  }

  lemma NumberConforms(v: Json, schema: JsonObject)
    ensures Names(schema, "integer") ==> Conforms(v, schema) == (v.JInt? || (v.JNum? && v.x == v.x.Floor as real))
    ensures Names(schema, "number") ==> Conforms(v, schema) == (v.JInt? || v.JNum?)
    ensures Names(schema, "boolean") ==> Conforms(v, schema) == v.JBool?
    ensures Names(schema, "null") ==> Conforms(v, schema) == IsNull(v)
  {
    assert "integer" != "string" && "number"[0] == 'n' && "boolean"[0] == 'b' && "null"[0] == 'n';
    assert |"number"| != |"null"|;
  }

  lemma ObjectConforms(v: Json, schema: JsonObject)
    requires Names(schema, "object")
    ensures Conforms(v, schema) == (v.JObj? && FieldsConform(v.fields, schema))
  {
    assert "object"[0] == 'o' && "integer"[0] == 'i' && "string"[0] == 's';
  }

  lemma ArrayConforms(v: Json, schema: JsonObject)
    requires Names(schema, "array")
    ensures Conforms(v, schema) ==
      (v.JArr? && ("items" in schema && schema["items"].JObj? ==>
                     forall i :: 0 <= i < |v.items| ==> Conforms(v.items[i], schema["items"].fields)))
  {
    assert "array"[0] == 'a' && "integer"[0] == 'i' && "string"[0] == 's';
  }

  /** The value sent for a literal conforms to the schema sent for its type, if its structs do to theirs. */
  lemma {:induction false} SentConforms(c: Formats, l: Literal, t: LiteralType)
    requires Printable(t) && WellTyped(l, t) && StructsConform(l, t)
    ensures Conforms(Sent(c, l), SchemaOf(t))
    decreases t
  {
    match t.kind
    case Collection(elem) => ListConforms(c, l, t, elem);
    case MapOf(value) => MapConforms(c, l, t, value);
    case Union(variants) => UnionConforms(c, l, t, variants);
    case _ => PlainConforms(c, l, t);
  }

  lemma {:induction false} ListConforms(c: Formats, l: Literal, t: LiteralType, elem: LiteralType)
    requires t.kind == Collection(elem) && Printable(t) && WellTyped(l, t) && StructsConform(l, t)
    ensures Conforms(Sent(c, l), SchemaOf(t))
    decreases t, 0
  {
    forall i | 0 <= i < |l.items| ensures Conforms(Sent(c, l.items[i]), SchemaOf(elem)) {
      SentConforms(c, l.items[i], elem);
    }
    ArrayConforms(Sent(c, l), SchemaOf(t));
    hide Conforms;
  }

  lemma {:induction false} MapConforms(c: Formats, l: Literal, t: LiteralType, value: LiteralType)
    requires t.kind == MapOf(value) && Printable(t) && WellTyped(l, t) && StructsConform(l, t)
    ensures Conforms(Sent(c, l), SchemaOf(t))
    decreases t, 0
  {
    hide Conforms;
    forall k | k in l.entries ensures Conforms(Sent(c, l.entries[k]), SchemaOf(value)) {
      SentConforms(c, l.entries[k], value);
    }
    ObjectConforms(Sent(c, l), SchemaOf(t));
    MapFieldsConform(Sent(c, l).fields, SchemaOf(t), SchemaOf(value));
  }

  lemma MapFieldsConform(fields: map<string, Json>, schema: JsonObject, value: JsonObject)
    requires "properties" !in schema && "additionalProperties" in schema && schema["additionalProperties"] == JObj(value)
    requires forall k | k in fields :: Conforms(fields[k], value)
    ensures FieldsConform(fields, schema)
  {
    hide Conforms;
  }

  lemma {:induction false} UnionConforms(c: Formats, l: Literal, t: LiteralType, variants: seq<LiteralType>)
    requires t.kind == Union(variants) && Printable(t) && WellTyped(l, t) && StructsConform(l, t)
    ensures Conforms(Sent(c, l), SchemaOf(t))
    decreases t, 0
  {
    var i :| 0 <= i < |variants| && l.ty == Tagged(variants[i]) && WellTyped(l.value, variants[i]);
    SentConforms(c, l.value, variants[i]);
    VariantsConformAlike(Sent(c, l.value), variants[i]);
    var oneOf := SchemaOf(t)["oneOf"];
    assert oneOf.items[i] == JObj(VariantSchema(variants[i]));
    assert ConformsToOne(Sent(c, l), oneOf);
  }

  lemma PlainConforms(c: Formats, l: Literal, t: LiteralType)
    requires Printable(t) && WellTyped(l, t) && StructsConform(l, t)
    requires !t.kind.Collection? && !t.kind.MapOf? && !t.kind.Union?
    ensures Conforms(Sent(c, l), SchemaOf(t))
  {
    match t.kind
    case Simple(_) => SimpleConforms(c, l, t);
    case Enum(values) =>
      TextConforms(Sent(c, l), SchemaOf(t));
      hide Conforms;
      var i :| 0 <= i < |values| && values[i] == l.s;
      assert SchemaOf(t)["enum"].items[i] == Sent(c, l);
    case Struct(metadata) =>
      PbIsClean(JObj(l.fields));
      if metadata.None? {
        ObjectConforms(Sent(c, l), SchemaOf(t));
      }
      hide Conforms;
    case Blob(format, d) => BlobConforms(c, l, format, d, t);
    case StructuredDataset => DatasetConforms(c, l, t);
  }

  lemma SimpleConforms(c: Formats, l: Literal, t: LiteralType)
    requires t.kind.Simple? && WellTyped(l, t)
    ensures Conforms(Sent(c, l), SchemaOf(t))
  {
    var v, schema := Sent(c, l), SchemaOf(t);
    NumberConforms(v, schema);
    if Names(schema, "string") {
      TextConforms(v, schema);
    }
    hide Conforms;
  }

  /** Text fits a schema of texts. */
  predicate TextFits(s: string, schema: Json) {
    schema.JObj? && Names(schema.fields, "string")
    && ("enum" in schema.fields ==> schema.fields["enum"].JArr? && Text(s) in schema.fields["enum"].items)
  }

  lemma TextsConform(fields: map<string, Json>, schema: JsonObject, properties: JsonObject)
    requires "properties" in schema && schema["properties"] == JObj(properties) && "additionalProperties" !in schema
    requires forall k | k in properties && k in fields :: fields[k].JStr? && TextFits(fields[k].s, properties[k])
    ensures FieldsConform(fields, schema)
  {
    forall k | k in properties && k in fields ensures properties[k].JObj? && Conforms(fields[k], properties[k].fields) {
      TextConforms(fields[k], properties[k].fields);
    }
    hide Conforms;
  }

  /** An object of texts passes through a protobuf Struct as it is. */
  lemma TextsAreSent(fields: JsonObject)
    requires forall k | k in fields :: fields[k].JStr?
    ensures ToPb(JObj(fields)) == JObj(fields)
  {
    assert ToPb(JObj(fields)).fields == fields;
  }

  lemma BlobConforms(c: Formats, l: Literal, declared: string, d: I32, t: LiteralType)
    requires l.LBlob? && t.kind == Blob(declared, d)
    ensures Conforms(Sent(c, l), SchemaOf(t))
  {
    var schema := BlobSchema("", declared, DimensionName(d));
    var fields, properties := BlobJson(l.uri, l.format, l.dim), BlobProperties("", declared, DimensionName(d));
    TextsAreSent(fields);
    BlobFits(l.uri, l.format, l.dim, declared, d);
    assert Sent(c, l) == JObj(fields) && schema["properties"] == JObj(properties) && SchemaOf(t) == schema;
    ObjectConforms(JObj(fields), schema);
    hide Conforms, TextFits, BlobProperties, Sent, BlobJson, SchemaOf;
    TextsConform(fields, schema, properties);
  }

  lemma BlobFits(uri: string, format: string, dim: I32, declared: string, d: I32)
    ensures
      var fields, properties := BlobJson(uri, format, dim), BlobProperties("", declared, DimensionName(d));
      forall k | k in properties && k in fields :: fields[k].JStr? && TextFits(fields[k].s, properties[k])
  {
    assert [Text("SINGLE"), Text("MULTIPART")][1] == Text("MULTIPART");
    assert [Text("SINGLE"), Text("MULTIPART")][0] == Text("SINGLE");
  }

  lemma DatasetConforms(c: Formats, l: Literal, t: LiteralType)
    requires l.LDataset? && t.kind == StructuredDataset
    ensures Conforms(Sent(c, l), SchemaOf(t))
  {
    hide Conforms;
    var fields: JsonObject := map["uri" := Text(l.uri), "format" := Text(l.format)];
    TextsAreSent(fields);
    assert Sent(c, l) == JObj(fields);
    ObjectConforms(JObj(fields), SchemaOf(t));
    DatasetFits(t, l.uri, l.format);
    hide Sent, SchemaOf, TextFits;
    TextsConform(fields, SchemaOf(t), SchemaOf(t)["properties"].fields);
  }

  lemma DatasetFits(t: LiteralType, uri: string, format: string)
    requires t.kind == StructuredDataset
    ensures
      var schema := SchemaOf(t);
      && "properties" in schema && schema["properties"].JObj? && "additionalProperties" !in schema && Names(schema, "object")
      && var properties := schema["properties"].fields;
         && properties.Keys == {"uri", "format"}
         && TextFits(uri, properties["uri"]) && TextFits(format, properties["format"])
  {
  }

  /** A struct's schema is its metadata without additionalProperties, and with its title, where it has one, as the name of
      the dataclass. */
  lemma StructSchemaExactly(metadata: JsonObject, key: string)
    ensures
      var schema := StructSchema(metadata);
      var titled := "title" in metadata && !metadata["title"].JNull?;
      && (key in schema <==> (key == "dataclass" && titled) || (key in metadata && key != "title" && key != "additionalProperties"))
      && (key in schema ==> schema[key] == metadata[if key == "dataclass" && titled then "title" else key])
  {
    assert "dataclass"[0] != "title"[0] && "dataclass"[0] != "additionalProperties"[0];
  }

  /** The title of a variant is the type or the format of its schema, where one of them tells its kind, and the name of
      its dataclass, where it has one. */
  lemma TitlesTellKinds(t: LiteralType)
    requires Printable(t)
    ensures StringAt(VariantSchema(t), "title") == Some(TitleOf(t))
    ensures StringAt(VariantSchema(t), "structure") == Some(if t.tag.Some? then t.tag.value else "")
    ensures
      var schema, title := SchemaOf(t), TitleOf(t);
      match t.kind
      case Simple(NONE) => title == "none" && StringAt(schema, "type") == Some("null")
      case Simple(ERROR) => title == "unknown" && StringAt(schema, "format") == Some("error")
      case Simple(DATETIME) => Some(title) == StringAt(schema, "format") == Some("datetime")
      case Simple(DURATION) => Some(title) == StringAt(schema, "format") == Some("duration")
      case Simple(BINARY) => Some(title) == StringAt(schema, "format") == Some("binary")
      case Simple(FLOAT) => Some(title) == StringAt(schema, "type") && StringAt(schema, "format") == Some("float")
      case Simple(_) => Some(title) == StringAt(schema, "type")
      case Collection(_) => Some(title) == StringAt(schema, "type")
      case MapOf(_) => Some(title) == StringAt(schema, "type")
      case Blob(_, _) => Some(title) == StringAt(schema, "format")
      case Union(_) => Some(title) == StringAt(schema, "format")
      case StructuredDataset => title == "structured_dataset" && StringAt(schema, "format") == Some("structured-dataset")
      case Enum(_) => title == "enum" && title in schema
      case Struct(metadata) =>
        if metadata.None? then Some(title) == StringAt(schema, "type")
        else if StringAt(metadata.value, "title").Some? then Some(title) == StringAt(schema, "dataclass")
        else title == "object"
  {
    var plain, titled := SchemaOf(t), VariantSchema(t);
    assert titled["title"] == Text(TitleOf(t));
  }

  /** A blob's schema offers the two dimensionalities by name and nothing else. */
  lemma DimensionsOffered(v: Json, uri: string, format: string, d: I32)
    ensures
      var properties := BlobProperties(uri, format, DimensionName(d));
      && properties["dimensionality"].JObj?
      && (Conforms(v, properties["dimensionality"].fields) <==> v == Text("SINGLE") || v == Text("MULTIPART"))
  {
    var property := BlobProperties(uri, format, DimensionName(d))["dimensionality"].fields;
    TextConforms(v, property);
    var names := [Text("SINGLE"), Text("MULTIPART")];
    assert property["enum"] == JArr(names) && names[0] == Text("SINGLE") && names[1] == Text("MULTIPART");
    hide Conforms;
  }

  /** The default that a form's schema gives for a property of a blob. */
  function BlobDefaultAt(schema: JsonObject, property: string): Option<Json> {
    if ObjectAt(schema, "properties").None? then None
    else
      var p := ObjectAt(ObjectAt(schema, "properties").value, property);
      if p.Some? && "default" in p.value then Some(p.value["default"]) else None
  }

  /** A schema of a blob is read by the defaults of its properties: a dimensionality as the one of a value would be, SINGLE
      where there is none to read, and the format as it stands. */
  lemma BlobKindIsRead(schema: JsonObject)
    ensures
      var format, dimension := BlobDefaultAt(schema, "format"), BlobDefaultAt(schema, "dimensionality");
      var kind := BlobKind(schema);
      && kind.Blob?
      && kind.format == (if format.Some? && format.value.JStr? then format.value.s else "")
      && (dimension.None? || ReadDimension(dimension.value).None? ==> kind.dimensionality == SINGLE)
      && (dimension.Some? && !dimension.value.JInt? && ReadDimension(dimension.value).Some? ==>
            kind.dimensionality == ReadDimension(dimension.value).value)
  {
  }

  /** Times and durations are told by their format, under texts and whole numbers alike. */
  lemma FormatsAreRead(schema: JsonObject)
    requires "oneOf" !in schema && "enum" !in schema
    requires StringAt(schema, "type") == Some("string") || StringAt(schema, "type") == Some("integer")
    ensures TypeOf(schema).Ok? && TypeOf(schema).value.tag == StringAt(schema, "structure")
    ensures
      var kind, format := TypeOf(schema).value.kind, StringAt(schema, "format");
      && (kind == Simple(DATETIME) <==> format == Some("datetime"))
      && (kind == Simple(DURATION) <==> format == Some("duration"))
      && (kind == Simple(STRING) || kind == Simple(INTEGER) <==> format != Some("datetime") && format != Some("duration"))
      && (kind == Simple(STRING) ==> StringAt(schema, "type") == Some("string"))
      && (kind == Simple(INTEGER) ==> StringAt(schema, "type") == Some("integer"))
  {
  }
}
