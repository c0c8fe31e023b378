/** What a form's field carries of a value, and what is taken from a field that carries none of its own. */
module FormDefaults {
  import opened Base
  import opened Jsons
  import opened LiteralTypes
  import opened LiteralValues
  import opened LaunchForms

  /** The name is MULTIPART exactly for that name, for the number one, and for a text of it. */
  lemma DimensionTextExactly(v: Json)
    ensures DimensionText(v) == "SINGLE" || DimensionText(v) == "MULTIPART"
    ensures DimensionText(v) == "MULTIPART" <==>
      v == JStr("MULTIPART") || v == JInt(1) || v == JNum(1.0) || (v.JStr? && v.s != "SINGLE" && ParseInt32(v.s) == Some(1))
  {
    assert "SINGLE"[0] == 'S' && "MULTIPART"[0] == 'M';
  }

  /** A field that is no blob's has the schema of its type, the value as its default unless that is null or missing, and
      the description unless that is empty or only the name. */
  lemma FieldSchemaExactly(name: string, variable: Variable, value: Option<Json>, key: string)
    requires Printable(variable.ty) && StringAt(SchemaOf(variable.ty), "format") != Some("blob")
    ensures
      var base, field := SchemaOf(variable.ty), FieldSchema(name, variable, value);
      var given, described := value.Some? && !value.value.JNull?, variable.description != "" && variable.description != name;
      && (key in field <==> key in base || (key == "default" && given) || (key == "description" && described))
      && (key == "default" && given ==> field[key] == value.value)
      && (key == "description" && described ==> field[key] == Text(variable.description))
      && (key in base && !(key == "default" && given) && !(key == "description" && described) ==> field[key] == base[key])
  {
    assert "default" != "description" by {
      assert "default"[2] != "description"[2];
    }
  }

  /** Nested defaults are gathered exactly for object schemas without a format that do not leave their properties open. */
  lemma StructsExactly(schema: JsonObject)
    ensures IsStructSchema(schema) <==>
      && StringAt(schema, "type") == Some("object") && StringAt(schema, "format").None?
      && ("additionalProperties" in schema ==>
            !schema["additionalProperties"].JObj? && schema["additionalProperties"] != JBool(true))
    ensures StructDefault(schema).Some? ==> IsStructSchema(schema) && "properties" in schema && schema["properties"].JObj?
    ensures IsStructSchema(schema) && "properties" in schema && schema["properties"].JObj? ==>
      StructDefault(schema) == DefaultOf(JObj(schema - {"default"}))
  {
    var rest := schema - {"default"};
    assert "default"[0] == 'd' && "type"[0] == 't' && "format"[0] == 'f' && "additionalProperties"[0] == 'a' && "properties"[0] == 'p';
    assert StringAt(rest, "type") == StringAt(schema, "type") && StringAt(rest, "format") == StringAt(schema, "format");
  }

  function PropertyDefault(properties: JsonObject, key: string): Option<Json> {
    if ObjectAt(properties, key).Some? && "default" in ObjectAt(properties, key).value
    then Some(ObjectAt(properties, key).value["default"]) else None
  }

  /** The default of a blob field is put together from the texts its properties default to, and a dimensionality that may
      be a number; it is there as soon as one of them is. */
  lemma BlobDefaultExactly(properties: JsonObject)
    ensures
      var uri, format := PropertyDefault(properties, "uri"), PropertyDefault(properties, "format");
      var dimension := PropertyDefault(properties, "dimensionality");
      var hasUri, hasFormat := uri.Some? && uri.value.JStr?, format.Some? && format.value.JStr?;
      var hasDimension := dimension.Some? && (dimension.value.JStr? || dimension.value.JNum?);
      var found := BlobDefaultOf(properties);
      && (found.Some? <==> hasUri || hasFormat || hasDimension)
      && (found.Some? ==>
            && found.value.JObj?
            && var fields := found.value.fields;
               && fields.Keys <= {"uri", "format", "dimensionality"}
               && ("uri" in fields <==> hasUri) && (hasUri ==> fields["uri"] == uri.value)
               && ("format" in fields <==> hasFormat) && (hasFormat ==> fields["format"] == format.value)
               && ("dimensionality" in fields <==> hasDimension)
               && (hasDimension ==>
                     fields["dimensionality"] ==
                     if dimension.value.JStr? then dimension.value else Text(DimensionText(dimension.value))))
  {
    assert |"uri"| == 3 && |"format"| == 6 && |"dimensionality"| == 14;
    var u, f, d := DefaultText(properties, "uri"), DefaultText(properties, "format"), DimensionDefault(properties);
    EntriesExactly(u, f, d);
  }

  lemma EntriesExactly(u: Option<Json>, f: Option<Json>, d: Option<Json>)
    ensures
      var found := Entry("uri", u) + Entry("format", f) + Entry("dimensionality", d);
      && (found == map[] <==> u.None? && f.None? && d.None?)
      && found.Keys <= {"uri", "format", "dimensionality"}
      && ("uri" in found <==> u.Some?) && (u.Some? ==> found["uri"] == u.value)
      && ("format" in found <==> f.Some?) && (f.Some? ==> found["format"] == f.value)
      && ("dimensionality" in found <==> d.Some?) && (d.Some? ==> found["dimensionality"] == d.value)
  {
    assert |"uri"| == 3 && |"format"| == 6 && |"dimensionality"| == 14;
    var found := Entry("uri", u) + Entry("format", f) + Entry("dimensionality", d);
    assert "uri" in found <==> u.Some?;
    assert "format" in found <==> f.Some?;
    assert "dimensionality" in found <==> d.Some?;
    if u.None? && f.None? && d.None? {
      assert found == map[];
    }
  }

  /** A form is an object schema with its properties, the names of those required, and its title. */
  lemma FormLayout(properties: JsonObject, required: seq<Json>)
    ensures
      var form := Form(properties, required);
      && form.Keys == {"type", "properties", "required", "title"}
      && StringAt(form, "type") == Some("object") && StringAt(form, "title") == Some("Launch Form")
      && ObjectAt(form, "properties") == Some(properties) && form["required"] == JArr(required)
  {
    assert |"type"| == 4 && |"properties"| == 10 && |"required"| == 8 && |"title"| == 5;
  }

  /** A declared variable without a value is none if its type is optional, and missing otherwise; a value must read. */
  lemma MissingValueExactly(c: Formats, values: JsonObject, name: string, t: LiteralType)
    ensures name !in values ==>
      && (ReadValue(c, values, name, t).Ok? <==>
            t.kind.Union? && exists i :: 0 <= i < |t.kind.variants| && t.kind.variants[i].kind == Simple(NONE))
      && (ReadValue(c, values, name, t).Ok? ==> ReadValue(c, values, name, t).value == FromJson(c, JNull, t).value)
      && (ReadValue(c, values, name, t).Err? ==> ReadValue(c, values, name, t).error == MissingValue)
    ensures name in values ==>
      && (ReadValue(c, values, name, t).Ok? <==> FromJson(c, values[name], t).Ok?)
      && (ReadValue(c, values, name, t).Ok? ==> ReadValue(c, values, name, t).value == FromJson(c, values[name], t).value)
  {
    NullsReadAlike(c, t);
  }
}
