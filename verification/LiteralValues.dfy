/** Literals, their JSON values, and reading them back at a type. */
module LiteralValues {
  import opened Base
  import opened Decimals
  import opened Jsons
  import opened LiteralTypes

  datatype Literal =
    | LString(s: string)
    | LInt(n: I64)
    | LFloat(x: real)
    | LBool(b: bool)
    | LDatetime(instant: int)
    | LDuration(seconds: I64, nanos: int)
    | LNone
    | LGeneric(fields: JsonObject)
    | LBlob(uri: string, format: string, dim: I32)
    | LDataset(uri: string, format: string)
    | LUnion(ty: LiteralType, value: Literal)
    | LCollection(items: seq<Literal>)
    | LMap(entries: map<string, Literal>)

  /** The text formats of the Go time package: RFC3339 and duration strings. */
  datatype Formats = Formats(
    showTime: int -> string,
    readTime: string -> Option<int>,
    showDuration: (I64, int) -> string,
    readDuration: string -> Option<(I64, int)>)

  function BlobJson(uri: string, format: string, d: I32): JsonObject {
    map["uri" := Text(uri), "format" := Text(format), "dimensionality" := Text(DimensionName(d))]
  }

  /** literalToJsonValues, followed by the passage through a protobuf Struct. */
  function ToJson(c: Formats, l: Literal): Json {
    match l
    case LString(s) => JStr(s)
    case LInt(n) => JInt(n)
    case LFloat(x) => JNum(x)
    case LBool(b) => JBool(b)
    case LDatetime(instant) => JStr(c.showTime(instant))
    case LDuration(seconds, nanos) => JStr(c.showDuration(seconds, nanos))
    case LNone => JObj(map["type" := Text("null")])
    case LGeneric(fields) => JObj(fields)
    case LBlob(uri, format, d) => JObj(BlobJson(uri, format, d))
    case LDataset(uri, format) => JObj(map["uri" := Text(uri), "format" := Text(format)])
    case LUnion(_, value) => ToJson(c, value)
    case LCollection(items) => JArr(seq(|items|, i requires 0 <= i < |items| => ToJson(c, items[i])))
    case LMap(entries) => JObj(map k | k in entries :: ToJson(c, entries[k]))
  }

  function Sent(c: Formats, l: Literal): Json {
    ToPb(ToJson(c, l))
  }

  /** Null is JSON null or any object whose "type" is "null". */
  predicate IsNull(v: Json) {
    v.JNull? || (v.JObj? && StringAt(v.fields, "type") == Some("null"))
  }

  predicate IsNone(t: LiteralType) {
    t.kind == Simple(NONE)
  }

  /** findNullVariantInUnionType */
  function FirstNone(variants: seq<LiteralType>): (r: Option<nat>)
    ensures r.Some? ==> r.value < |variants| && IsNone(variants[r.value])
    ensures r.None? ==> forall i :: 0 <= i < |variants| ==> !IsNone(variants[i])
  {
    if variants == [] then None
    else if IsNone(variants[0]) then Some(0)
    else
      var rest := FirstNone(variants[1..]);
      if rest.Some? then Some(rest.value + 1) else None
  }

  /** A union names its variant, with a tag that is always present. */
  function Tagged(t: LiteralType): LiteralType {
    t.(tag := Some(TagText(t)))
  }

  datatype ConversionError = NullNotAllowed | Mismatch | BadElement | NoVariant | Unsupported

  type Reading = Result<Literal, ConversionError>

  predicate AllDigits(s: string) {
    s != "" && forall i :: 0 <= i < |s| ==> '0' <= s[i] <= '9'
  }

  function ReadDuration(c: Formats, s: string): Option<(I64, int)> {
    if AllDigits(s) then
      if Digits(s).Some? && Digits(s).value < TWO_63 && Digits(s).value >= 0 then Some((Digits(s).value, 0)) else None
    else c.readDuration(s)
  }

  /** int32(v) of an int64 keeps the low 32 bits. */
  function LowWord(n: I64): I32 {
    var low := n % (2 * TWO_31);
    if low < TWO_31 then low else low - 2 * TWO_31
  }

  function ReadDimension(v: Json): Option<I32> {
    match v
    case JStr(s) => if s == "SINGLE" then Some(SINGLE) else if s == "MULTIPART" then Some(MULTIPART) else ParseInt32(s)
    case JNum(x) => Some(Int32(x))
    case JInt(n) => Some(LowWord(n))
    case _ => None
  }

  function ReadBlob(o: JsonObject): Option<Literal> {
    if StringAt(o, "uri").None? || StringAt(o, "format").None? || "dimensionality" !in o then None
    else
      var d := ReadDimension(o["dimensionality"]);
      if d.None? then None else Some(LBlob(StringAt(o, "uri").value, StringAt(o, "format").value, d.value))
  }

  function ReadDataset(o: JsonObject): Option<Literal> {
    if StringAt(o, "uri").None? || StringAt(o, "format").None? then None
    else Some(LDataset(StringAt(o, "uri").value, StringAt(o, "format").value))
  }

  function ReadSimple(c: Formats, v: Json, s: SimpleType): Reading {
    match s
    case STRING => if v.JStr? then Ok(LString(v.s)) else Err(Mismatch)
    case INTEGER => if v.JInt? then Ok(LInt(v.n)) else if v.JNum? then Ok(LInt(Int64(v.x))) else Err(Mismatch)
    case FLOAT =>
      if v.JNum? then Ok(LFloat(v.x)) else if v.JInt? then Ok(LFloat(Float64(v.n) as real)) else Err(Mismatch)
    case BOOLEAN => if v.JBool? then Ok(LBool(v.b)) else Err(Mismatch)
    case NONE => Ok(LNone)
    case DATETIME =>
      if v.JStr? && c.readTime(v.s).Some? then Ok(LDatetime(c.readTime(v.s).value)) else Err(Mismatch)
    case DURATION =>
      if v.JStr? then
        var d := ReadDuration(c, v.s);
        if d.Some? then Ok(LDuration(d.value.0, d.value.1)) else Err(Mismatch)
      else if v.JNum? then Ok(LDuration(Int64(v.x), 0))
      else Err(Mismatch)
    case ERROR => Err(Unsupported)
    case BINARY => Err(Unsupported)
  }

  /** jsonValueToLiteralWithFieldName */
  function FromJson(c: Formats, v: Json, t: LiteralType): Reading
    decreases t, 1, 0
  {
    if IsNull(v) then
      if t.kind.Union? && FirstNone(t.kind.variants).Some?
      then Ok(LUnion(Tagged(t.kind.variants[FirstNone(t.kind.variants).value]), LNone))
      else Err(NullNotAllowed)
    else
      match t.kind
      case Simple(s) => ReadSimple(c, v, s)
      case Struct(_) => if v.JObj? then Ok(LGeneric(ToPb(v).fields)) else Err(Mismatch)
      case Collection(elem) =>
        if !v.JArr? then Err(Unsupported)
        else if forall i :: 0 <= i < |v.items| ==> FromJson(c, v.items[i], elem).Ok? then
          Ok(LCollection(seq(|v.items|, i requires 0 <= i < |v.items| && FromJson(c, v.items[i], elem).Ok? =>
                                          FromJson(c, v.items[i], elem).value)))
        else Err(BadElement)
      case MapOf(value) =>
        if !v.JObj? then Err(Mismatch)
        else if forall k | k in v.fields :: FromJson(c, v.fields[k], value).Ok? then
          Ok(LMap(map k | k in v.fields :: FromJson(c, v.fields[k], value).value))
        else Err(BadElement)
      case StructuredDataset =>
        if v.JObj? && ReadDataset(v.fields).Some? then Ok(ReadDataset(v.fields).value) else Err(Mismatch)
      case Blob(_, _) => if v.JObj? && ReadBlob(v.fields).Some? then Ok(ReadBlob(v.fields).value) else Err(Mismatch)
      case Union(variants) => FirstMatch(c, v, t, 0)
      case Enum(values) => if v.JStr? && v.s in values then Ok(LString(v.s)) else Err(Mismatch)
      case Schema => Err(Unsupported)
      case Unset => Err(Unsupported)
  }

  /** findMatchingUnionVariant on a value that is not null: the first variant that converts, passing over NONE. */
  function FirstMatch(c: Formats, v: Json, t: LiteralType, i: nat): Reading
    requires t.kind.Union? && i <= |t.kind.variants|
    decreases t, 0, |t.kind.variants| - i
  {
    if i == |t.kind.variants| then Err(NoVariant)
    else
      var variant := t.kind.variants[i];
      if IsNone(variant) then FirstMatch(c, v, t, i + 1)
      else
        match FromJson(c, v, variant)
        case Ok(l) => Ok(LUnion(Tagged(variant), l))
        case Err(_) => FirstMatch(c, v, t, i + 1)
  }

  /** A literal of the given type. */
  predicate WellTyped(l: Literal, t: LiteralType) {
    match t.kind
    case Simple(STRING) => l.LString?
    case Simple(INTEGER) => l.LInt?
    case Simple(FLOAT) => l.LFloat?
    case Simple(BOOLEAN) => l.LBool?
    case Simple(DATETIME) => l.LDatetime?
    case Simple(DURATION) => l.LDuration?
    case Simple(NONE) => l.LNone?
    case Simple(_) => false
    case Struct(_) => l.LGeneric? && Clean(JObj(l.fields))
    case Collection(elem) => l.LCollection? && forall i :: 0 <= i < |l.items| ==> WellTyped(l.items[i], elem)
    case MapOf(value) => l.LMap? && forall k | k in l.entries :: WellTyped(l.entries[k], value)
    case StructuredDataset => l.LDataset?
    case Blob(_, _) => l.LBlob?
    case Enum(values) => l.LString? && l.s in values
    case Union(variants) =>
      l.LUnion? && exists i :: 0 <= i < |variants| && l.ty == Tagged(variants[i]) && WellTyped(l.value, variants[i])
    case Schema => false
    case Unset => false
  }

  /** The JSON values a type admits. */
  predicate Admits(c: Formats, t: LiteralType, v: Json) {
    match t.kind
    case Union(variants) =>
      if IsNull(v) then exists i :: 0 <= i < |variants| && IsNone(variants[i])
      else exists i :: 0 <= i < |variants| && !IsNone(variants[i]) && Admits(c, variants[i], v)
    case Simple(s) => !IsNull(v) && ReadSimple(c, v, s).Ok?
    case Struct(_) => !IsNull(v) && v.JObj?
    case Collection(elem) => v.JArr? && forall i :: 0 <= i < |v.items| ==> Admits(c, elem, v.items[i])
    case MapOf(value) => !IsNull(v) && v.JObj? && forall k | k in v.fields :: Admits(c, value, v.fields[k])
    case StructuredDataset => !IsNull(v) && v.JObj? && ReadDataset(v.fields).Some?
    case Blob(_, _) => !IsNull(v) && v.JObj? && ReadBlob(v.fields).Some?
    case Enum(values) => v.JStr? && v.s in values
    case Schema => false
    case Unset => false
  }

  /** Conversion succeeds on exactly the values the type admits. */
  lemma {:induction false} ReadsExactlyWhatIsAdmitted(c: Formats, t: LiteralType, v: Json)
    ensures FromJson(c, v, t).Ok? <==> Admits(c, t, v)
    decreases t, 1, 0
  {
    match t.kind
    case Collection(elem) =>
      if v.JArr? {
        forall i | 0 <= i < |v.items| ensures FromJson(c, v.items[i], elem).Ok? <==> Admits(c, elem, v.items[i]) {
          ReadsExactlyWhatIsAdmitted(c, elem, v.items[i]);
        }
      }
    case MapOf(value) =>
      if v.JObj? {
        forall k | k in v.fields ensures FromJson(c, v.fields[k], value).Ok? <==> Admits(c, value, v.fields[k]) {
          ReadsExactlyWhatIsAdmitted(c, value, v.fields[k]);
        }
      }
    case Union(variants) => MatchesWhatAVariantAdmits(c, t, v, 0);
    case _ =>
  }

  lemma {:induction false} MatchesWhatAVariantAdmits(c: Formats, t: LiteralType, v: Json, i: nat)
    requires t.kind.Union? && i <= |t.kind.variants|
    ensures FirstMatch(c, v, t, i).Ok? <==>
      exists j :: i <= j < |t.kind.variants| && !IsNone(t.kind.variants[j]) && Admits(c, t.kind.variants[j], v)
    decreases t, 0, |t.kind.variants| - i
  {
    if i < |t.kind.variants| {
      ReadsExactlyWhatIsAdmitted(c, t.kind.variants[i], v);
      MatchesWhatAVariantAdmits(c, t, v, i + 1);
    }
  }

  /** Whatever conversion returns has the type it was asked for. */
  lemma {:induction false} ConversionIsTypeSound(c: Formats, t: LiteralType, v: Json)
    requires FromJson(c, v, t).Ok?
    ensures WellTyped(FromJson(c, v, t).value, t)
    decreases t, 1, 0
  {
    if !IsNull(v) {
      match t.kind
      case Struct(_) => PbIsClean(v);
      case Collection(elem) =>
        forall i | 0 <= i < |v.items| ensures WellTyped(FromJson(c, v.items[i], elem).value, elem) {
          ConversionIsTypeSound(c, elem, v.items[i]);
        }
      case MapOf(value) =>
        forall k | k in v.fields ensures WellTyped(FromJson(c, v.fields[k], value).value, value) {
          ConversionIsTypeSound(c, value, v.fields[k]);
        }
      case Union(variants) => MatchIsTypeSound(c, t, v, 0);
      case _ =>
    }
  }

  lemma {:induction false} MatchIsTypeSound(c: Formats, t: LiteralType, v: Json, i: nat)
    requires t.kind.Union? && i <= |t.kind.variants| && FirstMatch(c, v, t, i).Ok?
    ensures WellTyped(FirstMatch(c, v, t, i).value, t)
    decreases t, 0, |t.kind.variants| - i
  {
    var variant := t.kind.variants[i];
    if !IsNone(variant) && FromJson(c, v, variant).Ok? {
      ConversionIsTypeSound(c, variant, v);
    } else {
      MatchIsTypeSound(c, t, v, i + 1);
    }
  }

  lemma TextOfNumber(n: nat)
    ensures Itoa(n) != "SINGLE" && Itoa(n) != "MULTIPART"
  {
    DigitsOfItoa(n);
    assert "SINGLE"[0] == 'S' && "MULTIPART"[0] == 'M';
  }

  /** The legacy forms of a dimensionality, a number or its text, read as that number. */
  lemma DimensionTextReads(d: I32)
    requires d >= 0
    ensures ReadDimension(JStr(Itoa(d))) == Some(d)
  {
    TextOfNumber(d);
    ParseOfItoa(d, -TWO_31, TWO_31);
    hide Digits, Itoa, ParseSigned;
  }

  lemma DimensionNumberReads(d: I32)
    ensures ReadDimension(JNum(d as real)) == Some(d) && ReadDimension(JInt(d)) == Some(d)
  {
    var n: int := d;
    assert (-n) as real == -(n as real);
  }

  /** A duration written as a number of seconds reads as those seconds. */
  lemma SecondsReadAsSeconds(c: Formats, n: nat)
    requires n < TWO_63
    ensures ReadDuration(c, Itoa(n)) == Some((n, 0))
  {
    DigitsOfItoa(n);
    ItoaIsDigits(n);
  }

  /** And one given as a JSON number, fractions cut off. */
  lemma NumberReadsAsSeconds(c: Formats, x: real, n: I64)
    requires if x >= 0.0 then n as real <= x < n as real + 1.0 else n as real - 1.0 < x <= n as real
    ensures ReadSimple(c, JNum(x), DURATION) == Ok(LDuration(n, 0))
    ensures ReadSimple(c, JNum(x), INTEGER) == Ok(LInt(n))
  {
    if x >= 0.0 {
      assert x.Floor == n;
    } else {
      var m: int := n;
      assert (-m) as real == -(m as real);
      assert (-x).Floor == -m;
    }
  }

  /** Any text but a row of digits is left to the parser of Go durations, and a row too long for 64 bits is refused. */
  lemma DurationTextExactly(c: Formats, s: string, n: nat)
    ensures s == "" || (exists i :: 0 <= i < |s| && !('0' <= s[i] <= '9')) ==> ReadDuration(c, s) == c.readDuration(s)
    ensures n >= TWO_63 ==> ReadDuration(c, Itoa(n)) == None
  {
    DigitsOfItoa(n);
    ItoaIsDigits(n);
  }

  /** An int64 reads as itself at an integer type, and as the nearest float64 at a float type. */
  lemma IntegersRead(c: Formats, n: I64)
    ensures ReadSimple(c, JInt(n), INTEGER) == Ok(LInt(n)) && ReadSimple(c, JInt(n), FLOAT) == Ok(LFloat(Float64(n) as real))
    ensures ReadSimple(c, JInt(n), DURATION).Err?
  {
  }

  /** JSON null and the none of the forms read alike: as the none of an optional type, and as nothing of any other. */
  lemma NullsReadAlike(c: Formats, t: LiteralType)
    ensures FromJson(c, JNull, t) == FromJson(c, JObj(map["type" := Text("null")]), t)
    ensures FromJson(c, JNull, t).Ok? <==> t.kind.Union? && exists i :: 0 <= i < |t.kind.variants| && t.kind.variants[i].kind == Simple(NONE)
    ensures FromJson(c, JNull, t).Ok? ==> FromJson(c, JNull, t).value.LUnion? && FromJson(c, JNull, t).value.value == LNone
  {
    if t.kind.Union? {
      if i :| 0 <= i < |t.kind.variants| && t.kind.variants[i].kind == Simple(NONE) {
        assert IsNone(t.kind.variants[i]);
      }
    }
  }

  /** A union literal says which variant it is, with its tag, even an empty one. */
  lemma {:induction false} UnionNamesVariant(c: Formats, v: Json, t: LiteralType, i: nat)
    requires t.kind.Union? && i <= |t.kind.variants| && FirstMatch(c, v, t, i).Ok?
    ensures
      var l := FirstMatch(c, v, t, i).value;
      l.LUnion? && NamesOneOf(l.ty, t.kind.variants)
    decreases |t.kind.variants| - i
  {
    var variant := t.kind.variants[i];
    if IsNone(variant) || FromJson(c, v, variant).Err? {
      UnionNamesVariant(c, v, t, i + 1);
    }
  }

  predicate NamesOneOf(ty: LiteralType, variants: seq<LiteralType>) {
    exists j :: 0 <= j < |variants| && ty.kind == variants[j].kind && ty.tag == Some(TagText(variants[j]))
  }

  /** So does every union that conversion makes, a null one too. */
  lemma ConvertedUnionIsNamed(c: Formats, v: Json, t: LiteralType)
    requires t.kind.Union? && FromJson(c, v, t).Ok?
    ensures FromJson(c, v, t).value.LUnion? && NamesOneOf(FromJson(c, v, t).value.ty, t.kind.variants)
  {
    if !IsNull(v) {
      UnionNamesVariant(c, v, t, 0);
    }
  }

  lemma {:induction false} ItoaIsDigits(n: nat)
    ensures AllDigits(Itoa(n))
  {
    if n >= 10 {
      ItoaIsDigits(n / 10);
    }
  }
}
