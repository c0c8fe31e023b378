/** The launch form: a JSON schema whose defaults carry the literals. */
module LaunchForms {
  import opened Base
  import opened Jsons
  import opened LiteralTypes
  import opened LiteralValues
  import opened LiteralRoundTrips

  datatype Variable = Variable(ty: LiteralType, description: string)

  datatype NamedLiteral = NamedLiteral(name: string, value: Literal)

  datatype FormError = BadForm | BadField | BadType | BadValue(error: ConversionError) | MissingValue

  type Variables = map<string, Variable>

  /** The name a blob's dimensionality gets in the form. */
  function DimensionText(v: Json): string {
    match v
    case JStr(s) =>
      if s == "SINGLE" || s == "MULTIPART" then s
      else if ParseInt32(s) == Some(MULTIPART) then "MULTIPART" else "SINGLE"
    case JInt(n) => if n == 1 then "MULTIPART" else "SINGLE"
    case JNum(x) => if x == 1.0 then "MULTIPART" else "SINGLE"
    case _ => "SINGLE"
  }

  function WithDefault(properties: JsonObject, key: string, v: Option<Json>): JsonObject {
    if v.Some? && key in properties && properties[key].JObj?
    then properties[key := JObj(properties[key].fields["default" := v.value])]
    else properties
  }

  function TextAt(o: JsonObject, key: string): Option<Json> {
    if StringAt(o, key).Some? then Some(Text(StringAt(o, key).value)) else None
  }

  /** The properties of a blob schema, filled in from a value. */
  function WithBlobDefaults(properties: JsonObject, value: JsonObject): JsonObject {
    var p := WithDefault(properties, "uri", TextAt(value, "uri"));
    var q := WithDefault(p, "format", TextAt(value, "format"));
    WithDefault(q, "dimensionality",
                if "dimensionality" in value then Some(Text(DimensionText(value["dimensionality"]))) else None)
  }

  /** buildFieldSchemaFromVariable */
  function FieldSchema(name: string, variable: Variable, value: Option<Json>): JsonObject
    requires Printable(variable.ty)
  {
    var base := SchemaOf(variable.ty);
    var schema :=
      if StringAt(base, "format") == Some("blob") then
        if value.Some? && value.value.JObj? && ObjectAt(base, "properties").Some?
        then base["properties" := JObj(WithBlobDefaults(base["properties"].fields, value.value.fields))]
        else base
      else if value.Some? && value.value != JNull then base["default" := value.value]
      else base;
    if variable.description != "" && variable.description != name
    then schema["description" := Text(variable.description)] else schema
  }

  /** isOptionalUnionType */
  predicate OffersNull(schema: JsonObject) {
    && "oneOf" in schema && schema["oneOf"].JArr?
    && var variants := schema["oneOf"].items;
       exists i :: 0 <= i < |variants| && variants[i].JObj? && StringAt(variants[i].fields, "type") == Some("null")
  }

  predicate IsRequired(variable: Variable, value: Option<Json>)
    requires Printable(variable.ty)
  {
    !(value.Some? && value.value.JObj? && IsNull(value.value)) && !OffersNull(SchemaOf(variable.ty))
  }

  function DimensionDefault(properties: JsonObject): Option<Json> {
    match ObjectAt(properties, "dimensionality")
    case None => None
    case Some(d) =>
      if "default" !in d then None
      else
        match d["default"]
        case JStr(s) => Some(Text(s))
        case JNum(x) => Some(Text(if x == 1.0 then "MULTIPART" else "SINGLE"))
        case _ => None
  }

  /** The value that the nested defaults of a blob schema describe, if any is there. */
  function BlobDefaultOf(properties: JsonObject): Option<Json> {
    var found := Entry("uri", DefaultText(properties, "uri")) + Entry("format", DefaultText(properties, "format"))
                 + Entry("dimensionality", DimensionDefault(properties));
    if found == map[] then None else Some(JObj(found))
  }

  function BlobDefault(schema: JsonObject): Option<Json> {
    if StringAt(schema, "format") != Some("blob") || ObjectAt(schema, "properties").None? then None
    else BlobDefaultOf(ObjectAt(schema, "properties").value)
  }

  function DefaultText(properties: JsonObject, key: string): Option<Json> {
    match ObjectAt(properties, key)
    case None => None
    case Some(p) => TextAt(p, "default")
  }

  function Entry(key: string, v: Option<Json>): JsonObject {
    if v.Some? then map[key := v.value] else map[]
  }

  /** isMapType */
  predicate IsMapSchema(schema: JsonObject) {
    "additionalProperties" in schema
    && (schema["additionalProperties"].JObj? || schema["additionalProperties"] == JBool(true))
  }

  predicate IsStructSchema(schema: JsonObject) {
    StringAt(schema, "type") == Some("object") && StringAt(schema, "format").None? && !IsMapSchema(schema)
  }

  /** collectDefaultsRecursively */
  function CollectDefaults(properties: JsonObject): JsonObject
    decreases JObj(properties), 0
  {
    map k | k in properties && DefaultOf(properties[k]).Some? :: DefaultOf(properties[k]).value
  }

  function DefaultOf(property: Json): Option<Json>
    decreases property, 1
  {
    match property
    case JObj(schema) =>
      if "default" in schema then Some(schema["default"])
      else if IsStructSchema(schema) && ObjectAt(schema, "properties").Some? then
        var nested := CollectDefaults(schema["properties"].fields);
        if nested == map[] then None else Some(JObj(nested))
      else None
    case _ => None
  }

  function StructDefault(schema: JsonObject): Option<Json> {
    if IsStructSchema(schema) && ObjectAt(schema, "properties").Some? then
      var nested := CollectDefaults(schema["properties"].fields);
      if nested == map[] then None else Some(JObj(nested))
    else None
  }

  /** A field of the form, given its schema with the title put back: an error, no literal, or a literal. */
  function ReadSchema(c: Formats, schema: JsonObject): Result<Option<Literal>, FormError> {
    var default :=
      if "default" in schema then Some(schema["default"])
      else if BlobDefault(schema).Some? then BlobDefault(schema)
      else StructDefault(schema);
    match TypeOf(schema)
    case Err(_) => Err(BadType)
    case Ok(t) =>
      if default.Some? then
        match FromJson(c, default.value, t)
        case Ok(l) => Ok(Some(l))
        case Err(e) => Err(BadValue(e))
      else if OffersNull(schema) then
        if t.kind.Union? && FirstNone(t.kind.variants).Some? then Ok(Some(NoneOf(t))) else Err(BadType)
      else Ok(None)
  }

  function ReadField(c: Formats, name: string, field: Json): Result<Option<Literal>, FormError> {
    match field
    case JObj(fields) => ReadSchema(c, fields["title" := Text(name)])
    case _ => Err(BadField)
  }

  function NoneOf(t: LiteralType): Literal
    requires t.kind.Union? && FirstNone(t.kind.variants).Some?
  {
    LUnion(Tagged(t.kind.variants[FirstNone(t.kind.variants).value]), LNone)
  }

  predicate AllPrintable(literals: seq<NamedLiteral>, variables: Variables) {
    forall i :: 0 <= i < |literals| && literals[i].name in variables ==> Printable(variables[literals[i].name].ty)
  }

  /** The properties of the form of some literals; those without a variable are passed over. */
  function FormProperties(c: Formats, literals: seq<NamedLiteral>, variables: Variables): JsonObject
    requires AllPrintable(literals, variables)
  {
    if literals == [] then map[]
    else
      var rest := FormProperties(c, literals[..|literals| - 1], variables);
      var last := literals[|literals| - 1];
      if last.name in variables
      then rest[last.name := JObj(FieldSchema(last.name, variables[last.name], Some(ToJson(c, last.value))))]
      else rest
  }

  function RequiredNames(c: Formats, literals: seq<NamedLiteral>, variables: Variables): seq<Json>
    requires AllPrintable(literals, variables)
  {
    if literals == [] then []
    else
      var rest := RequiredNames(c, literals[..|literals| - 1], variables);
      var last := literals[|literals| - 1];
      if last.name in variables && IsRequired(variables[last.name], Some(ToJson(c, last.value)))
      then rest + [Text(last.name)] else rest
  }

  function Form(properties: JsonObject, required: seq<Json>): JsonObject {
    map["type" := Text("object"), "properties" := JObj(properties), "required" := JArr(required),
        "title" := Text("Launch Form")]
  }

  method LiteralsToLaunchFormJson(c: Formats, literals: seq<NamedLiteral>, variables: Variables)
    returns (r: Result<Json, FormError>)
    ensures AllPrintable(literals, variables) ==>
      r == Ok(ToPb(JObj(Form(FormProperties(c, literals, variables), RequiredNames(c, literals, variables)))))
    ensures !AllPrintable(literals, variables) ==> r == Err(BadType)
  {
    var properties: JsonObject := map[];
    var required: seq<Json> := [];
    var i := 0;
    while i < |literals|
      invariant i <= |literals|
      invariant AllPrintable(literals[..i], variables)
      invariant properties == FormProperties(c, literals[..i], variables)
      invariant required == RequiredNames(c, literals[..i], variables)
    {
      var l := literals[i];
      assert literals[..i + 1][..i] == literals[..i];
      i := i + 1;
      if l.name !in variables {
        continue;
      }
      if !Printable(variables[l.name].ty) {
        return Err(BadType);
      }
      var value := ToJson(c, l.value);
      properties := properties[l.name := JObj(FieldSchema(l.name, variables[l.name], Some(value)))];
      if IsRequired(variables[l.name], Some(value)) {
        required := required + [Text(l.name)];
      }
    }
    assert literals[..i] == literals;
    r := Ok(ToPb(JObj(Form(properties, required))));
  }

  predicate DistinctNames(ls: seq<NamedLiteral>) {
    forall i, j :: 0 <= i < j < |ls| ==> ls[i].name != ls[j].name
  }

  /** ls holds the literals of the fields in `done`, each once. */
  predicate ListsFields(c: Formats, properties: JsonObject, done: set<string>, ls: seq<NamedLiteral>)
    requires done <= properties.Keys
  {
    && DistinctNames(ls)
    && (forall i :: 0 <= i < |ls| ==>
         ls[i].name in done && ReadField(c, ls[i].name, properties[ls[i].name]) == Ok(Some(ls[i].value)))
    && forall name | name in done ::
         var f := ReadField(c, name, properties[name]);
         f.Ok? && (f.value.Some? ==> NamedLiteral(name, f.value.value) in ls)
  }

  /** Map iteration order is arbitrary, so the order of the result is too. */
  method LaunchFormJsonToLiterals(c: Formats, root: JsonObject) returns (r: Result<seq<NamedLiteral>, FormError>)
    ensures ObjectAt(root, "properties").None? ==> r == Err(BadForm)
    ensures
      var p := ObjectAt(root, "properties");
      p.Some? ==>
        && (r.Ok? <==> forall name | name in p.value :: ReadField(c, name, p.value[name]).Ok?)
        && (r.Ok? ==> ListsFields(c, p.value, p.value.Keys, r.value))
  {
    if ObjectAt(root, "properties").None? {
      return Err(BadForm);
    }
    var properties := root["properties"].fields;
    var literals: seq<NamedLiteral> := [];
    var todo := properties.Keys;
    while todo != {}
      invariant todo <= properties.Keys
      invariant ListsFields(c, properties, properties.Keys - todo, literals)
      decreases |todo|
    {
      var name :| name in todo;
      var f := ReadField(c, name, properties[name]);
      if f.Err? {
        return Err(f.error);
      }
      todo := todo - {name};
      if f.value.Some? {
        literals := literals + [NamedLiteral(name, f.value.value)];
      }
    }
    assert properties.Keys - todo == properties.Keys;
    r := Ok(literals);
  }

  /** The literal of one declared variable: a missing optional value is an explicit none. */
  function ReadValue(c: Formats, values: JsonObject, name: string, t: LiteralType): Result<Literal, FormError> {
    if name in values then
      match FromJson(c, values[name], t)
      case Ok(l) => Ok(l)
      case Err(e) => Err(BadValue(e))
    else if t.kind.Union? && FirstNone(t.kind.variants).Some? then Ok(NoneOf(t))
    else Err(MissingValue)
  }

  method JSONValuesToLiterals(c: Formats, variables: Variables, values: JsonObject)
    returns (r: Result<seq<NamedLiteral>, FormError>)
    ensures r.Ok? <==> forall name | name in variables :: ReadValue(c, values, name, variables[name].ty).Ok?
    ensures r.Ok? ==>
      && |r.value| == |variables| && DistinctNames(r.value)
      && (forall name | name in variables ::
           NamedLiteral(name, ReadValue(c, values, name, variables[name].ty).value) in r.value)
      && forall i :: 0 <= i < |r.value| ==>
           r.value[i].name in variables && WellTyped(r.value[i].value, variables[r.value[i].name].ty)
  {
    var literals: seq<NamedLiteral> := [];
    var todo := variables.Keys;
    while todo != {}
      invariant todo <= variables.Keys && |literals| + |todo| == |variables.Keys| && DistinctNames(literals)
      invariant forall i :: 0 <= i < |literals| ==>
        && literals[i].name in variables.Keys - todo
        && WellTyped(literals[i].value, variables[literals[i].name].ty)
      invariant forall name | name in variables.Keys - todo ::
        var l := ReadValue(c, values, name, variables[name].ty);
        l.Ok? && NamedLiteral(name, l.value) in literals
      decreases |todo|
    {
      var name :| name in todo;
      var l := ReadValue(c, values, name, variables[name].ty);
      if l.Err? {
        return Err(l.error);
      }
      ReadValueIsTypeSound(c, values, name, variables[name].ty);
      todo := todo - {name};
      literals := literals + [NamedLiteral(name, l.value)];
    }
    r := Ok(literals);
  }

  lemma ReadValueIsTypeSound(c: Formats, values: JsonObject, name: string, t: LiteralType)
    requires ReadValue(c, values, name, t).Ok?
    ensures WellTyped(ReadValue(c, values, name, t).value, t)
  {
    if name in values {
      ConversionIsTypeSound(c, t, values[name]);
    }
  }

  predicate FieldFrom(literals: seq<NamedLiteral>, variables: Variables, i: nat, name: string)
    requires i < |literals|
  {
    literals[i].name == name && name in variables
  }

  /** The form has exactly one property for every literal with a variable, made from that literal. */
  lemma {:induction false} PropertyOfEachLiteral(c: Formats, literals: seq<NamedLiteral>, variables: Variables, name: string)
    requires DistinctNames(literals) && AllPrintable(literals, variables)
    ensures
      var p := FormProperties(c, literals, variables);
      && (name in p <==> exists i :: 0 <= i < |literals| && FieldFrom(literals, variables, i, name))
      && forall i :: 0 <= i < |literals| && FieldFrom(literals, variables, i, name) ==>
           p[name] == JObj(FieldSchema(name, variables[name], Some(ToJson(c, literals[i].value))))
  {
    if literals != [] {
      var n := |literals| - 1;
      var front := literals[..n];
      PropertyOfEachLiteral(c, front, variables, name);
      assert forall i :: 0 <= i < n ==> (FieldFrom(front, variables, i, name) <==> FieldFrom(literals, variables, i, name));
      if FieldFrom(literals, variables, n, name) {
        assert forall i :: 0 <= i < n ==> !FieldFrom(literals, variables, i, name);
      }
    }
  }

  /** A literal comes back from its own field. */
  predicate FieldSurvives(c: Formats, name: string, variable: Variable, l: Literal)
    requires Printable(variable.ty)
  {
    var r := ReadField(c, name, ToPb(JObj(FieldSchema(name, variable, Some(ToJson(c, l))))));
    r.Ok? && r.value.Some? && Erase(r.value.value) == Erase(l)
  }

  lemma PbOfUpdate(m: JsonObject, k: string, v: Json)
    ensures ToPb(JObj(m[k := v])) == JObj(ToPb(JObj(m)).fields[k := ToPb(v)])
  {
  }

  function Described(schema: JsonObject, name: string, variable: Variable): JsonObject {
    if variable.description != "" && variable.description != name
    then schema["description" := Text(variable.description)] else schema
  }

  lemma PlainField(c: Formats, name: string, variable: Variable, l: Literal)
    requires Parseable(variable.ty) && Printable(variable.ty) && !variable.ty.kind.Blob?
    ensures
      var field := ToPb(JObj(FieldSchema(name, variable, Some(ToJson(c, l)))));
      && field.JObj? && "default" in field.fields && field.fields["default"] == Sent(c, l)
      && OnlyExtras(field.fields["title" := Text(name)], SchemaOf(variable.ty))
  {
    var base := SchemaOf(variable.ty);
    NotBlobFormat(variable.ty);
    NeverNull(c, l);
    SchemaIsClean(variable.ty);
    PbIsClean(JObj(base));
    var schema := base["default" := ToJson(c, l)];
    PbOfUpdate(base, "default", ToJson(c, l));
    PbOfUpdate(schema, "description", Text(variable.description));
    assert FieldSchema(name, variable, Some(ToJson(c, l))) == Described(schema, name, variable);
  }

  lemma NotBlobFormat(t: LiteralType)
    requires Parseable(t) && Printable(t) && !t.kind.Blob?
    ensures StringAt(SchemaOf(t), "format") != Some("blob")
  {
  }

  lemma {:induction false} NeverNull(c: Formats, l: Literal)
    ensures ToJson(c, l) != JNull
  {
    if l.LUnion? {
      NeverNull(c, l.value);
    }
  }

  lemma PlainFieldRoundTrip(c: Formats, name: string, variable: Variable, l: Literal)
    requires Parseable(variable.ty) && Printable(variable.ty) && !variable.ty.kind.Blob?
    ensures FieldSurvives(c, name, variable, l) <==> RoundTrips(c, l, Normal(variable.ty))
  {
    PlainField(c, name, variable, l);
    var schema := ToPb(JObj(FieldSchema(name, variable, Some(ToJson(c, l))))).fields["title" := Text(name)];
    TypeRoundTrip(variable.ty, schema);
    var t := TypeOf(schema).value;
    KindDecides(c, t, Normal(variable.ty));
    ValueRoundTrip(c, l, t);
    hide FieldSchema, OnlyExtras, TypeOf, Norm, FromJson, RoundTrips, Erase;
  }

  lemma DefaultsReplaced(uri: string, format: string, dimension: string, u: string, f: string, d: string)
    ensures WithDefault(BlobProperties(uri, format, dimension), "uri", Some(Text(u))) == BlobProperties(u, format, dimension)
    ensures WithDefault(BlobProperties(u, format, dimension), "format", Some(Text(f))) == BlobProperties(u, f, dimension)
    ensures WithDefault(BlobProperties(u, f, dimension), "dimensionality", Some(Text(d))) == BlobProperties(u, f, d)
  {
    var p := BlobProperties(uri, format, dimension);
    assert p["uri"].fields["default" := Text(u)] == BlobProperties(u, format, dimension)["uri"].fields;
    assert p["format"].fields["default" := Text(f)] == BlobProperties(u, f, dimension)["format"].fields;
    assert p["dimensionality"].fields["default" := Text(d)] == BlobProperties(u, f, d)["dimensionality"].fields;
  }

  /** The nested defaults of a blob field spell out the blob. */
  lemma BlobIsFilledIn(name: string, variable: Variable, l: Literal)
    requires variable.ty.kind.Blob? && l.LBlob?
    ensures FieldSchema(name, variable, Some(JObj(BlobJson(l.uri, l.format, l.dim))))
         == Described(BlobSchema(l.uri, l.format, DimensionName(l.dim)), name, variable)
  {
    var base := SchemaOf(variable.ty);
    var value := BlobJson(l.uri, l.format, l.dim);
    var dimension := DimensionName(l.dim);
    assert TextAt(value, "uri") == Some(Text(l.uri)) && TextAt(value, "format") == Some(Text(l.format));
    assert "dimensionality" in value && DimensionText(value["dimensionality"]) == dimension;
    DefaultsReplaced("", variable.ty.kind.format, DimensionName(variable.ty.kind.dimensionality), l.uri, l.format, dimension);
    hide BlobProperties, WithDefault, DimensionText, BlobJson, TextAt;
    assert base["properties" := JObj(BlobProperties(l.uri, l.format, dimension))] == BlobSchema(l.uri, l.format, dimension);
  }

  lemma DefaultsSpellOut(uri: string, format: string, d: I32)
    ensures BlobDefaultOf(BlobProperties(uri, format, DimensionName(d))) == Some(JObj(BlobJson(uri, format, d)))
  {
    var p := BlobProperties(uri, format, DimensionName(d));
    assert DefaultText(p, "uri") == Some(Text(uri)) && DefaultText(p, "format") == Some(Text(format));
    assert ObjectAt(p, "dimensionality").value["default"] == Text(DimensionName(d));
    var found := Entry("uri", Some(Text(uri))) + Entry("format", Some(Text(format)))
                 + Entry("dimensionality", Some(Text(DimensionName(d))));
    assert found == BlobJson(uri, format, d);
    assert "uri" in found;
  }

  /** The schema spells out this blob in its nested defaults. */
  ghost predicate SpellsOut(schema: JsonObject, uri: string, format: string, d: I32) {
    forall k | k != "title" && k != "description" :: Agrees(schema, BlobSchema(uri, format, DimensionName(d)), k)
  }

  lemma BlobDefaultOfFilled(uri: string, format: string, d: I32, schema: JsonObject)
    requires SpellsOut(schema, uri, format, d)
    ensures BlobDefault(schema) == Some(JObj(BlobJson(uri, format, d))) && "default" !in schema && "oneOf" !in schema
    ensures StringAt(schema, "type") == Some("object") && StringAt(schema, "format") == Some("blob")
  {
    var filled := BlobSchema(uri, format, DimensionName(d));
    assert Agrees(schema, filled, "format") && Agrees(schema, filled, "properties") && Agrees(schema, filled, "default");
    assert Agrees(schema, filled, "type") && Agrees(schema, filled, "oneOf");
    DefaultsSpellOut(uri, format, d);
    hide BlobProperties, BlobJson, BlobDefaultOf;
  }

  /** A schema of type "object" with format "blob" is a blob type, whatever else it says. */
  lemma BlobSchemaIsBlob(schema: JsonObject)
    requires "oneOf" !in schema && StringAt(schema, "type") == Some("object") && StringAt(schema, "format") == Some("blob")
    ensures TypeOf(schema).Ok? && TypeOf(schema).value.kind.Blob?
  {
  }

  lemma FromJsonOfBlob(c: Formats, t: LiteralType, uri: string, format: string, d: I32)
    requires t.kind.Blob?
    ensures FromJson(c, JObj(BlobJson(uri, format, d)), t)
         == Ok(LBlob(uri, format, if d == MULTIPART then MULTIPART else SINGLE))
  {
    BlobReadsBack(uri, format, d);
    hide ReadBlob, BlobJson, IsNull;
  }

  /** And reads as that blob. */
  lemma ReadsSpelledBlob(c: Formats, schema: JsonObject, uri: string, format: string, d: I32)
    requires SpellsOut(schema, uri, format, d)
    ensures ReadSchema(c, schema) == Ok(Some(LBlob(uri, format, if d == MULTIPART then MULTIPART else SINGLE)))
  {
    hide SpellsOut, BlobDefault, StructDefault, OffersNull, TypeOf, FromJson, BlobJson;
    BlobDefaultOfFilled(uri, format, d, schema);
    BlobSchemaIsBlob(schema);
    FromJsonOfBlob(c, TypeOf(schema).value, uri, format, d);
  }

  lemma BlobSchemaReadsBlob(c: Formats, schema: JsonObject)
    requires "oneOf" !in schema && StringAt(schema, "type") == Some("object") && StringAt(schema, "format") == Some("blob")
    ensures
      var r := ReadSchema(c, schema);
      r.Ok? && r.value.Some? ==> r.value.value.LBlob?
  {
    BlobSchemaIsBlob(schema);
    var t := TypeOf(schema).value;
    forall v ensures FromJson(c, v, t).Ok? ==> FromJson(c, v, t).value.LBlob? {
      BlobsReadAsBlobs(c, v, t);
    }
    hide TypeOf, FromJson, BlobDefault, StructDefault;
  }

  /** The schema a field is read with, after its passage through a protobuf Struct. */
  function SentSchema(name: string, variable: Variable, value: Option<Json>): JsonObject
    requires Printable(variable.ty)
  {
    ToPb(JObj(FieldSchema(name, variable, value))).fields["title" := Text(name)]
  }

  lemma ReadsSentSchema(c: Formats, name: string, variable: Variable, value: Option<Json>)
    requires Printable(variable.ty)
    ensures ReadField(c, name, ToPb(JObj(FieldSchema(name, variable, value)))) == ReadSchema(c, SentSchema(name, variable, value))
  {
    hide ReadSchema, FieldSchema;
  }

  lemma BlobFieldKeepsFormat(name: string, variable: Variable, value: Option<Json>)
    requires variable.ty.kind.Blob?
    ensures
      var schema := SentSchema(name, variable, value);
      "oneOf" !in schema && StringAt(schema, "type") == Some("object") && StringAt(schema, "format") == Some("blob")
  {
    var fields := FieldSchema(name, variable, value);
    assert "oneOf" !in fields && fields["type"] == Text("object") && fields["format"] == Text("blob");
    var sent := ToPb(JObj(fields)).fields;
    assert sent["type"] == ToPb(Text("object")) && sent["format"] == ToPb(Text("blob")) && "oneOf" !in sent;
  }

  lemma DescribedSpellsOut(name: string, variable: Variable, value: Option<Json>, uri: string, format: string, d: I32)
    requires Printable(variable.ty)
    requires FieldSchema(name, variable, value) == Described(BlobSchema(uri, format, DimensionName(d)), name, variable)
    ensures SpellsOut(SentSchema(name, variable, value), uri, format, d)
  {
    var filled := BlobSchema(uri, format, DimensionName(d));
    BlobSchemaIsClean(uri, format, DimensionName(d));
    PbIsClean(JObj(filled));
    PbOfUpdate(filled, "description", Text(variable.description));
    hide FieldSchema, BlobSchema, ToPb;
  }

  lemma BlobComesBack(c: Formats, name: string, variable: Variable, l: Literal)
    requires variable.ty.kind.Blob? && l.LBlob?
    ensures FieldSurvives(c, name, variable, l) <==> (l.dim == SINGLE || l.dim == MULTIPART)
  {
    var value := Some(ToJson(c, l));
    BlobIsFilledIn(name, variable, l);
    hide FieldSchema, SentSchema, SpellsOut, ReadSchema, ReadField, ToPb, Described, BlobSchema, BlobJson;
    DescribedSpellsOut(name, variable, value, l.uri, l.format, l.dim);
    ReadsSpelledBlob(c, SentSchema(name, variable, value), l.uri, l.format, l.dim);
    ReadsSentSchema(c, name, variable, value);
  }

  lemma BlobFieldRoundTrip(c: Formats, name: string, variable: Variable, l: Literal)
    requires variable.ty.kind.Blob?
    ensures FieldSurvives(c, name, variable, l) <==> RoundTrips(c, l, Normal(variable.ty))
  {
    if l.LBlob? {
      BlobComesBack(c, name, variable, l);
      hide FieldSurvives;
    } else {
      var value := Some(ToJson(c, l));
      hide FieldSchema, SentSchema, ReadSchema, ReadField, ToPb;
      BlobFieldKeepsFormat(name, variable, value);
      BlobSchemaReadsBlob(c, SentSchema(name, variable, value));
      ReadsSentSchema(c, name, variable, value);
    }
  }

  /** A literal comes back from its form field exactly when it is in the fragment of its type. */
  lemma FieldRoundTrip(c: Formats, name: string, variable: Variable, l: Literal)
    requires Parseable(variable.ty) && Printable(variable.ty) && Restorable(variable.ty)
    ensures FieldSurvives(c, name, variable, l) <==> RoundTrips(c, l, variable.ty)
  {
    if variable.ty.kind.Blob? {
      BlobFieldRoundTrip(c, name, variable, l);
    } else {
      PlainFieldRoundTrip(c, name, variable, l);
    }
    NormKeepsRoundTrips(c, l, variable.ty);
  }

  /** The fields of a form after its passage through a protobuf Struct. */
  function SentFields(c: Formats, literals: seq<NamedLiteral>, variables: Variables): JsonObject
    requires AllPrintable(literals, variables)
  {
    ToPb(JObj(FormProperties(c, literals, variables))).fields
  }

  predicate Restored(read: seq<NamedLiteral>, l: NamedLiteral) {
    exists i :: 0 <= i < |read| && read[i].name == l.name && Erase(read[i].value) == Erase(l.value)
  }

  /** What was read is what was written, for the literals that have a variable. */
  predicate SameLiterals(read: seq<NamedLiteral>, literals: seq<NamedLiteral>, variables: Variables) {
    && (forall i :: 0 <= i < |literals| && literals[i].name in variables ==> Restored(read, literals[i]))
    && (forall i :: 0 <= i < |read| ==> read[i].name in variables && Restored(literals, read[i]))
  }

  predicate GoodTypes(variables: Variables) {
    forall name | name in variables ::
      Parseable(variables[name].ty) && Printable(variables[name].ty) && Restorable(variables[name].ty)
  }

  predicate AllRoundTrip(c: Formats, literals: seq<NamedLiteral>, variables: Variables) {
    forall i :: 0 <= i < |literals| && literals[i].name in variables ==>
      RoundTrips(c, literals[i].value, variables[literals[i].name].ty)
  }

  lemma SentField(c: Formats, literals: seq<NamedLiteral>, variables: Variables, name: string)
    requires DistinctNames(literals) && AllPrintable(literals, variables)
    ensures name in SentFields(c, literals, variables) <==>
      exists i :: 0 <= i < |literals| && FieldFrom(literals, variables, i, name)
    ensures forall i :: 0 <= i < |literals| && FieldFrom(literals, variables, i, name) ==>
      SentFields(c, literals, variables)[name]
      == ToPb(JObj(FieldSchema(name, variables[name], Some(ToJson(c, literals[i].value)))))
  {
    PropertyOfEachLiteral(c, literals, variables, name);
  }

  /** A form whose literals are all in the fragment can be read. */
  lemma FormReads(c: Formats, literals: seq<NamedLiteral>, variables: Variables)
    requires DistinctNames(literals) && GoodTypes(variables) && AllRoundTrip(c, literals, variables)
    ensures
      var fields := SentFields(c, literals, variables);
      forall name | name in fields :: ReadField(c, name, fields[name]).Ok?
  {
    var fields := SentFields(c, literals, variables);
    forall name | name in fields ensures ReadField(c, name, fields[name]).Ok? {
      SentField(c, literals, variables, name);
      var i :| 0 <= i < |literals| && FieldFrom(literals, variables, i, name);
      FieldRoundTrip(c, name, variables[name], literals[i].value);
    }
  }

  /** Reading a form gives back the literals it was made from exactly when all of them are in the fragment. */
  lemma FormRoundTrip(c: Formats, literals: seq<NamedLiteral>, variables: Variables, read: seq<NamedLiteral>)
    requires DistinctNames(literals) && GoodTypes(variables)
    requires
      var fields := SentFields(c, literals, variables);
      ListsFields(c, fields, fields.Keys, read)
    ensures SameLiterals(read, literals, variables) <==> AllRoundTrip(c, literals, variables)
  {
    forall i | 0 <= i < |literals| && literals[i].name in variables
      ensures Restored(read, literals[i]) <==> RoundTrips(c, literals[i].value, variables[literals[i].name].ty)
    {
      OneLiteral(c, literals, variables, read, i);
    }
    if AllRoundTrip(c, literals, variables) {
      forall j | 0 <= j < |read| ensures read[j].name in variables && Restored(literals, read[j]) {
        var name := read[j].name;
        SentField(c, literals, variables, name);
        var i :| 0 <= i < |literals| && FieldFrom(literals, variables, i, name);
        FieldRoundTrip(c, name, variables[name], literals[i].value);
      }
    }
  }

  /** The properties of a form that was sent. */
  lemma SentForm(c: Formats, literals: seq<NamedLiteral>, variables: Variables, required: seq<Json>)
    requires AllPrintable(literals, variables)
    ensures
      var form := ToPb(JObj(Form(FormProperties(c, literals, variables), required)));
      form.JObj? && ObjectAt(form.fields, "properties") == Some(SentFields(c, literals, variables))
  {
  }

  /** From literals to a form and back: the call succeeds with the literals that went in, up to union annotations,
      exactly if all of them are in the fragment. */
  method SendAndReadForm(c: Formats, literals: seq<NamedLiteral>, variables: Variables)
    returns (r: Result<seq<NamedLiteral>, FormError>)
    requires DistinctNames(literals) && GoodTypes(variables)
    ensures AllRoundTrip(c, literals, variables) <==> r.Ok? && SameLiterals(r.value, literals, variables)
  {
    var form := LiteralsToLaunchFormJson(c, literals, variables);
    SentForm(c, literals, variables, RequiredNames(c, literals, variables));
    assert form.Ok? && form.value.JObj?;
    r := LaunchFormJsonToLiterals(c, form.value.fields);
    if AllRoundTrip(c, literals, variables) {
      FormReads(c, literals, variables);
    }
    if r.Ok? {
      FormRoundTrip(c, literals, variables, r.value);
    }
  }

  lemma OneLiteral(c: Formats, literals: seq<NamedLiteral>, variables: Variables, read: seq<NamedLiteral>, i: nat)
    requires DistinctNames(literals) && GoodTypes(variables)
    requires i < |literals| && literals[i].name in variables
    requires
      var fields := SentFields(c, literals, variables);
      ListsFields(c, fields, fields.Keys, read)
    ensures Restored(read, literals[i]) <==> RoundTrips(c, literals[i].value, variables[literals[i].name].ty)
  {
    var name := literals[i].name;
    SentField(c, literals, variables, name);
    assert FieldFrom(literals, variables, i, name);
    FieldRoundTrip(c, name, variables[name], literals[i].value);
    var f := ReadField(c, name, SentFields(c, literals, variables)[name]);
    if f.Ok? && f.value.Some? {
      assert NamedLiteral(name, f.value.value) in read;
    }
  }

  // Optional fields, and forms without values.

  /** A schema offers null exactly when its type is a union with a none variant. */
  lemma OptionalityAgrees(t: LiteralType)
    requires Parseable(t) && Printable(t)
    ensures OffersNull(SchemaOf(t)) <==> t.kind.Union? && FirstNone(t.kind.variants).Some?
  {
    if t.kind.Union? {
      var variants := t.kind.variants;
      var items := SchemaOf(t)["oneOf"].items;
      forall i | 0 <= i < |variants|
        ensures items[i] == JObj(VariantSchema(variants[i]))
        ensures StringAt(VariantSchema(variants[i]), "type") == Some("null") <==> IsNone(variants[i])
      {
        NullVariant(variants[i]);
      }
      if FirstNone(variants).Some? {
        assert items[FirstNone(variants).value].JObj?;
      }
    }
  }

  lemma NullVariant(t: LiteralType)
    requires Parseable(t) && Printable(t)
    ensures StringAt(VariantSchema(t), "type") == Some("null") <==> IsNone(t)
  {
    assert StringAt(VariantSchema(t), "type") == StringAt(SchemaOf(t), "type");
  }

  /** A field is required exactly when its value is not null-shaped and its type is not optional. */
  lemma RequiredExactly(c: Formats, literals: seq<NamedLiteral>, variables: Variables, name: string)
    requires AllPrintable(literals, variables) && GoodTypes(variables)
    ensures Text(name) in RequiredNames(c, literals, variables) <==>
      exists i :: 0 <= i < |literals| && FieldFrom(literals, variables, i, name)
                  && !IsNull(ToJson(c, literals[i].value)) && !Optional(variables[name].ty)
    decreases literals
  {
    if literals != [] {
      var n := |literals| - 1;
      var front, last := literals[..n], literals[n];
      RequiredExactly(c, front, variables, name);
      assert forall i :: 0 <= i < n ==> (FieldFrom(front, variables, i, name) <==> FieldFrom(literals, variables, i, name));
      assert FieldFrom(literals, variables, n, last.name) <==> last.name in variables;
      if last.name in variables {
        OptionalityAgrees(variables[last.name].ty);
        NeverNull(c, last.value);
        assert IsRequired(variables[last.name], Some(ToJson(c, last.value)))
          <==> !IsNull(ToJson(c, last.value)) && !Optional(variables[last.name].ty);
      }
      hide OffersNull, IsRequired, IsNull, ToJson, Optional, Parseable, Restorable;
    }
  }

  predicate Optional(t: LiteralType) {
    t.kind.Union? && FirstNone(t.kind.variants).Some?
  }

  predicate PrintableIn(variables: Variables, names: set<string>)
    requires names <= variables.Keys
  {
    forall name | name in names :: Printable(variables[name].ty)
  }

  /** The properties and the required names of the variables that are done. */
  ghost predicate EmptyFormOf(variables: Variables, done: set<string>, properties: JsonObject, required: seq<Json>)
    requires done <= variables.Keys && PrintableIn(variables, done)
  {
    && properties == (map name | name in done :: JObj(FieldSchema(name, variables[name], None)))
    && forall name :: Text(name) in required <==> name in done && IsRequired(variables[name], None)
  }

  lemma NoVariables(variables: Variables)
    ensures PrintableIn(variables, {}) && EmptyFormOf(variables, {}, map[], [])
  {
  }

  lemma OneUnprintable(variables: Variables, name: string)
    requires name in variables && !Printable(variables[name].ty)
    ensures !PrintableIn(variables, variables.Keys)
  {
  }

  lemma OneMoreVariable(variables: Variables, done: set<string>, properties: JsonObject, required: seq<Json>, name: string)
    requires done <= variables.Keys && PrintableIn(variables, done) && EmptyFormOf(variables, done, properties, required)
    requires name in variables && name !in done && Printable(variables[name].ty)
    ensures PrintableIn(variables, done + {name})
    ensures EmptyFormOf(variables, done + {name}, properties[name := JObj(FieldSchema(name, variables[name], None))],
                        if IsRequired(variables[name], None) then required + [Text(name)] else required)
  {
    hide FieldSchema, IsRequired, Printable;
  }

  /** The form of a task's inputs, without values; the order of the required names is arbitrary. */
  method TaskSpecToLaunchFormJson(variables: Variables)
    returns (r: Result<Json, FormError>, ghost properties: JsonObject, ghost required: seq<Json>)
    ensures !PrintableIn(variables, variables.Keys) ==> r == Err(BadType)
    ensures PrintableIn(variables, variables.Keys) ==>
      r == Ok(ToPb(JObj(Form(properties, required)))) && EmptyFormOf(variables, variables.Keys, properties, required)
  {
    var fields: JsonObject := map[];
    var names: seq<Json> := [];
    var todo := variables.Keys;
    ghost var done: set<string> := {};
    NoVariables(variables);
    hide FieldSchema, IsRequired, Printable, EmptyFormOf, PrintableIn, ToPb;
    while todo != {}
      invariant done + todo == variables.Keys && done !! todo && PrintableIn(variables, done)
      invariant EmptyFormOf(variables, done, fields, names)
      decreases |todo|
    {
      var name :| name in todo;
      if !Printable(variables[name].ty) {
        OneUnprintable(variables, name);
        return Err(BadType), map[], [];
      }
      OneMoreVariable(variables, done, fields, names, name);
      todo := todo - {name};
      done := done + {name};
      fields := fields[name := JObj(FieldSchema(name, variables[name], None))];
      if IsRequired(variables[name], None) {
        names := names + [Text(name)];
      }
    }
    assert done == variables.Keys;
    properties, required := fields, names;
    r := Ok(ToPb(JObj(Form(fields, names))));
  }

  /** What a field without a value reads as. */
  function EmptyReading(t: LiteralType): Option<Literal> {
    match t.kind
    case Union(variants) =>
      if FirstNone(variants).Some? then Some(LUnion(LiteralType(Unset, None), LNone)) else None
    case Blob(format, d) => Some(LBlob("", format, if d == MULTIPART then MULTIPART else SINGLE))
    case _ => None
  }

  /** The schema an input without a value is read with. */
  function EmptySchema(name: string, variable: Variable): JsonObject
    requires Printable(variable.ty)
  {
    Described(SchemaOf(variable.ty), name, variable)["title" := Text(name)]
  }

  lemma EmptyPlainField(name: string, variable: Variable)
    requires Parseable(variable.ty) && Printable(variable.ty) && !variable.ty.kind.Blob?
    ensures SentSchema(name, variable, None) == EmptySchema(name, variable)
  {
    var base := SchemaOf(variable.ty);
    NotBlobFormat(variable.ty);
    SchemaIsClean(variable.ty);
    PbIsClean(JObj(base));
    PbOfUpdate(base, "description", Text(variable.description));
    assert FieldSchema(name, variable, None) == Described(base, name, variable);
  }

  lemma NotStructSchema(t: LiteralType)
    requires Parseable(t) && Printable(t) && (t.kind.Struct? ==> t.kind.metadata.None?)
    ensures !IsStructSchema(SchemaOf(t)) && "default" !in SchemaOf(t)
  {
  }

  lemma NoDefault(name: string, variable: Variable)
    requires Parseable(variable.ty) && Printable(variable.ty)
    requires !variable.ty.kind.Blob? && (variable.ty.kind.Struct? ==> variable.ty.kind.metadata.None?)
    ensures
      var schema := EmptySchema(name, variable);
      "default" !in schema && BlobDefault(schema).None? && StructDefault(schema).None?
  {
    NotBlobFormat(variable.ty);
    NotStructSchema(variable.ty);
    var base, schema := SchemaOf(variable.ty), EmptySchema(name, variable);
    assert Agrees(schema, base, "type") && Agrees(schema, base, "format") && Agrees(schema, base, "additionalProperties");
    assert Agrees(schema, base, "default");
    hide SchemaOf, EmptySchema, CollectDefaults, BlobDefaultOf, Parseable, Printable;
  }

  lemma ReadWithoutDefault(c: Formats, schema: JsonObject, t: LiteralType)
    requires TypeOf(schema) == Ok(t)
    requires "default" !in schema && BlobDefault(schema).None? && StructDefault(schema).None?
    ensures ReadSchema(c, schema) ==
      if !OffersNull(schema) then Ok(None) else if Optional(t) then Ok(Some(NoneOf(t))) else Err(BadType)
  {
    hide TypeOf, BlobDefault, StructDefault, OffersNull;
  }

  lemma OffersAsBefore(schema: JsonObject, base: JsonObject)
    requires Agrees(schema, base, "oneOf")
    ensures OffersNull(schema) == OffersNull(base)
  {
  }

  lemma EmptySchemaReads(name: string, variable: Variable)
    requires Parseable(variable.ty) && Printable(variable.ty) && !variable.ty.kind.Blob?
    ensures
      var schema := EmptySchema(name, variable);
      && TypeOf(schema).Ok? && TypeOf(schema).value.kind == Norm(variable.ty.kind)
      && OffersNull(schema) == Optional(variable.ty)
  {
    var base, schema := SchemaOf(variable.ty), EmptySchema(name, variable);
    assert OnlyExtras(schema, base);
    assert Agrees(schema, base, "oneOf");
    hide TypeOf, SchemaOf, Norm, OffersNull, Agrees, OnlyExtras;
    TypeRoundTrip(variable.ty, schema);
    OptionalityAgrees(variable.ty);
    OffersAsBefore(schema, base);
  }

  lemma EmptyPlainReading(c: Formats, name: string, variable: Variable)
    requires Parseable(variable.ty) && Printable(variable.ty)
    requires !variable.ty.kind.Blob? && (variable.ty.kind.Struct? ==> variable.ty.kind.metadata.None?)
    ensures
      var r := ReadSchema(c, EmptySchema(name, variable));
      r.Ok? && r.value.Some? == Optional(variable.ty)
      && (r.value.Some? ==> Erase(r.value.value) == LUnion(LiteralType(Unset, None), LNone))
  {
    NoDefault(name, variable);
    hide EmptySchema, TypeOf, BlobDefault, StructDefault, OffersNull, Norm, ReadSchema, Parseable;
    EmptySchemaReads(name, variable);
    NormOptional(variable.ty);
    ReadWithoutDefault(c, EmptySchema(name, variable), TypeOf(EmptySchema(name, variable)).value);
  }

  /** Reading a form without values gives none for each optional input, an empty blob for each blob, and nothing for
      the other inputs, struct types with a schema of their own apart. */
  lemma EmptyFormReading(c: Formats, name: string, variable: Variable)
    requires Parseable(variable.ty) && Printable(variable.ty)
    requires variable.ty.kind.Struct? ==> variable.ty.kind.metadata.None?
    ensures
      var r := ReadField(c, name, ToPb(JObj(FieldSchema(name, variable, None))));
      && r.Ok? && r.value.Some? == EmptyReading(variable.ty).Some?
      && (r.value.Some? ==> Erase(r.value.value) == EmptyReading(variable.ty).value)
  {
    hide ReadField, ReadSchema, FieldSchema, SentSchema, EmptySchema, ToPb;
    ReadsSentSchema(c, name, variable, None);
    if variable.ty.kind.Blob? {
      EmptyBlobReading(c, name, variable);
    } else {
      EmptyPlainField(name, variable);
      EmptyPlainReading(c, name, variable);
    }
  }

  /** The default that struct metadata carries: its own, or those of its properties. */
  function MetadataDefault(m: JsonObject): Option<Json> {
    if "default" in m then Some(m["default"])
    else if ObjectAt(m, "properties").Some? && CollectDefaults(m["properties"].fields) != map[]
      then Some(JObj(CollectDefaults(m["properties"].fields)))
    else None
  }

  /** A struct input with a schema of its own reads as the defaults that schema carries, and as nothing without any. */
  lemma EmptyStructReading(c: Formats, name: string, variable: Variable)
    requires Parseable(variable.ty) && Printable(variable.ty)
    requires variable.ty.kind.Struct? && variable.ty.kind.metadata.Some?
    ensures
      var r := ReadField(c, name, ToPb(JObj(FieldSchema(name, variable, None))));
      match MetadataDefault(variable.ty.kind.metadata.value)
      case None => r == Ok(None)
      case Some(v) =>
        if v.JObj? && !IsNull(v) then r == Ok(Some(LGeneric(ToPb(v).fields))) else r.Err?
  {
    var m := variable.ty.kind.metadata.value;
    var schema := EmptySchema(name, variable);
    ReadsSentSchema(c, name, variable, None);
    EmptyPlainField(name, variable);
    EmptySchemaReads(name, variable);
    SameMetadata(name, variable);
    hide ReadField, FieldSchema, SentSchema, EmptySchema, Norm, SchemaOf, TypeOf, CollectDefaults;
    assert !OffersNull(schema);
  }

  lemma SameMetadata(name: string, variable: Variable)
    requires variable.ty.kind.Struct? && variable.ty.kind.metadata.Some? && Parseable(variable.ty)
    ensures
      var m, schema := variable.ty.kind.metadata.value, EmptySchema(name, variable);
      && Agrees(schema, m, "default") && Agrees(schema, m, "properties")
      && IsStructSchema(schema) && BlobDefault(schema).None?
  {
  }

  lemma NoneStaysNone(t: LiteralType)
    ensures IsNone(NormVariant(t)) <==> IsNone(t)
  {
  }

  lemma NormOptional(t: LiteralType)
    ensures Norm(t.kind).Union? <==> t.kind.Union?
    ensures t.kind.Union? ==> (FirstNone(Norm(t.kind).variants).Some? <==> FirstNone(t.kind.variants).Some?)
  {
    if t.kind.Union? {
      var variants, normal := t.kind.variants, Norm(t.kind).variants;
      forall i | 0 <= i < |normal| ensures IsNone(normal[i]) <==> IsNone(variants[i]) {
        NoneStaysNone(variants[i]);
      }
      if FirstNone(variants).Some? {
        assert IsNone(normal[FirstNone(variants).value]);
      }
    }
  }

  lemma EmptyBlobReading(c: Formats, name: string, variable: Variable)
    requires variable.ty.kind.Blob?
    ensures
      var k := variable.ty.kind;
      ReadSchema(c, SentSchema(name, variable, None))
      == Ok(Some(LBlob("", k.format, if k.dimensionality == MULTIPART then MULTIPART else SINGLE)))
  {
    var k := variable.ty.kind;
    assert FieldSchema(name, variable, None) == Described(BlobSchema("", k.format, DimensionName(k.dimensionality)), name, variable);
    hide FieldSchema, SentSchema, SpellsOut, ReadSchema, Described, BlobSchema;
    DescribedSpellsOut(name, variable, None, "", k.format, k.dimensionality);
    ReadsSpelledBlob(c, SentSchema(name, variable, None), "", k.format, k.dimensionality);
  }

  /** The default found by following a path of struct properties. */
  function DefaultAt(properties: JsonObject, path: seq<string>): Option<Json>
    decreases path
  {
    if path == [] || path[0] !in properties || !properties[path[0]].JObj? then None
    else
      var schema := properties[path[0]].fields;
      if "default" in schema then (if |path| == 1 then Some(schema["default"]) else None)
      else if IsStructSchema(schema) && ObjectAt(schema, "properties").Some?
        then DefaultAt(schema["properties"].fields, path[1..])
      else None
  }

  function ValueAt(o: JsonObject, path: seq<string>): Option<Json>
    decreases path
  {
    if path == [] || path[0] !in o then None
    else if |path| == 1 then Some(o[path[0]])
    else if o[path[0]].JObj? then ValueAt(o[path[0]].fields, path[1..])
    else None
  }

  /** Every default that a path of struct properties leads to is collected under that path. */
  lemma {:induction false} DefaultsAreCollected(properties: JsonObject, path: seq<string>)
    requires DefaultAt(properties, path).Some?
    ensures ValueAt(CollectDefaults(properties), path) == DefaultAt(properties, path)
    decreases path
  {
    var schema := properties[path[0]].fields;
    if "default" !in schema {
      var nested := schema["properties"].fields;
      DefaultsAreCollected(nested, path[1..]);
      assert CollectDefaults(nested) != map[];
      assert DefaultOf(properties[path[0]]) == Some(JObj(CollectDefaults(nested)));
    }
  }

  /** And nothing else is: whatever is collected for a property comes from such a path. */
  lemma {:induction false} CollectedHasDefault(properties: JsonObject, k: string) returns (path: seq<string>)
    requires k in CollectDefaults(properties)
    ensures path != [] && path[0] == k && DefaultAt(properties, path).Some?
    decreases JObj(properties)
  {
    var schema := properties[k].fields;
    if "default" in schema {
      path := [k];
    } else {
      var nested := schema["properties"].fields;
      var j :| j in CollectDefaults(nested);
      var rest := CollectedHasDefault(nested, j);
      path := [k] + rest;
      assert path[1..] == rest;
    }
  }
}
