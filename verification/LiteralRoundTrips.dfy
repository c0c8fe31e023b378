/** Which literals come back from their JSON value, exactly. */
module LiteralRoundTrips {
  import opened Base
  import opened Jsons
  import opened LiteralTypes
  import opened LiteralValues

  /** A literal with the type annotations of its unions blanked. */
  function Erase(l: Literal): Literal {
    match l
    case LUnion(_, value) => LUnion(LiteralType(Unset, None), Erase(value))
    case LCollection(items) => LCollection(seq(|items|, i requires 0 <= i < |items| => Erase(items[i])))
    case LMap(entries) => LMap(map k | k in entries :: Erase(entries[k]))
    case _ => l
  }

  /** Sending a literal as JSON and reading it back at a type returns it, up to union annotations. */
  predicate Survives(c: Formats, l: Literal, t: LiteralType) {
    var r := FromJson(c, Sent(c, l), t);
    r.Ok? && Erase(r.value) == Erase(l)
  }

  predicate SimpleSurvives(c: Formats, l: Literal, s: SimpleType) {
    match s
    case STRING => l.LString?
    case INTEGER => l.LInt? && HasFloat(Magnitude(l.n))
    case FLOAT => l.LFloat?
    case BOOLEAN => l.LBool?
    case DATETIME => l.LDatetime? && c.readTime(c.showTime(l.instant)) == Some(l.instant)
    case DURATION => l.LDuration? && ReadDuration(c, c.showDuration(l.seconds, l.nanos)) == Some((l.seconds, l.nanos))
    case NONE => false
    case ERROR => false
    case BINARY => false
  }

  /** The fragment on which sending and reading back is the identity. */
  predicate RoundTrips(c: Formats, l: Literal, t: LiteralType)
    decreases t
  {
    match t.kind
    case Simple(s) => SimpleSurvives(c, l, s)
    case Struct(_) => l.LGeneric? && Clean(JObj(l.fields)) && !IsNull(JObj(l.fields))
    case Collection(elem) => l.LCollection? && forall i :: 0 <= i < |l.items| ==> RoundTrips(c, l.items[i], elem)
    case MapOf(value) =>
      l.LMap? && !IsNull(ToJson(c, l)) && forall k | k in l.entries :: RoundTrips(c, l.entries[k], value)
    case StructuredDataset => l.LDataset?
    case Blob(_, _) => l.LBlob? && (l.dim == SINGLE || l.dim == MULTIPART)
    case Enum(values) => l.LString? && l.s in values
    case Union(variants) =>
      && l.LUnion?
      && if IsNull(ToJson(c, l.value)) then l.value.LNone? && FirstNone(variants).Some?
         else exists i :: 0 <= i < |variants| && FirstTaker(c, Sent(c, l.value), variants, i)
                && RoundTrips(c, l.value, variants[i])
    case Schema => false
    case Unset => false
  }

  /** Variant i admits v and no earlier variant but NONE does. */
  predicate FirstTaker(c: Formats, v: Json, variants: seq<LiteralType>, i: nat)
    requires i < |variants|
  {
    && !IsNone(variants[i]) && Admits(c, variants[i], v)
    && forall j :: 0 <= j < i ==> IsNone(variants[j]) || !Admits(c, variants[j], v)
  }

  lemma NullIsNull(j: Json)
    ensures IsNull(ToPb(j)) <==> IsNull(j)
  {
  }

  /** The first variant that admits a value decides the union. */
  lemma {:induction false} FirstTakerDecides(c: Formats, v: Json, t: LiteralType, i: nat, k: nat)
    requires t.kind.Union? && i <= k < |t.kind.variants|
    requires FirstTaker(c, v, t.kind.variants, k)
    ensures FromJson(c, v, t.kind.variants[k]).Ok?
    ensures FirstMatch(c, v, t, i) == Ok(LUnion(Tagged(t.kind.variants[k]), FromJson(c, v, t.kind.variants[k]).value))
    decreases k - i
  {
    ReadsExactlyWhatIsAdmitted(c, t.kind.variants[i], v);
    ReadsExactlyWhatIsAdmitted(c, t.kind.variants[k], v);
    if i < k {
      FirstTakerDecides(c, v, t, i + 1, k);
    }
  }

  lemma {:induction false} FindFirstTaker(c: Formats, v: Json, t: LiteralType, i: nat) returns (k: nat)
    requires t.kind.Union? && i <= |t.kind.variants|
    requires forall j :: 0 <= j < i ==> IsNone(t.kind.variants[j]) || !Admits(c, t.kind.variants[j], v)
    requires FirstMatch(c, v, t, i).Ok?
    ensures k < |t.kind.variants| && FirstTaker(c, v, t.kind.variants, k)
    decreases |t.kind.variants| - i
  {
    ReadsExactlyWhatIsAdmitted(c, t.kind.variants[i], v);
    if !IsNone(t.kind.variants[i]) && Admits(c, t.kind.variants[i], v) {
      k := i;
    } else {
      k := FindFirstTaker(c, v, t, i + 1);
    }
  }

  lemma OnlyOneFirstTaker(c: Formats, v: Json, variants: seq<LiteralType>, i: nat, k: nat)
    requires i < |variants| && k < |variants|
    requires FirstTaker(c, v, variants, i) && FirstTaker(c, v, variants, k)
    ensures i == k
  {
  }

  lemma SimpleRoundTrip(c: Formats, l: Literal, t: LiteralType)
    requires t.kind.Simple?
    ensures Survives(c, l, t) <==> SimpleSurvives(c, l, t.kind.simple)
  {
    if l.LInt? {
      IntSurvives(l.n);
    }
    NullIsNull(ToJson(c, l));
  }

  lemma StructRoundTrip(c: Formats, l: Literal, t: LiteralType)
    requires t.kind.Struct?
    ensures Survives(c, l, t) <==> RoundTrips(c, l, t)
  {
    NullIsNull(ToJson(c, l));
    PbIsClean(ToJson(c, l));
    PbIsClean(Sent(c, l));
  }

  lemma DatasetRoundTrip(c: Formats, l: Literal, t: LiteralType)
    requires t.kind.StructuredDataset?
    ensures Survives(c, l, t) <==> RoundTrips(c, l, t)
  {
    NullIsNull(ToJson(c, l));
    if l.LDataset? {
      PbIsClean(ToJson(c, l));
    }
  }

  lemma BlobReadsBack(uri: string, format: string, d: I32)
    ensures ToPb(JObj(BlobJson(uri, format, d))) == JObj(BlobJson(uri, format, d))
    ensures ReadBlob(BlobJson(uri, format, d)) == Some(LBlob(uri, format, if d == MULTIPART then MULTIPART else SINGLE))
    ensures !IsNull(JObj(BlobJson(uri, format, d)))
  {
    PbIsClean(JObj(BlobJson(uri, format, d)));
  }

  lemma BlobRoundTrip(c: Formats, l: Literal, t: LiteralType)
    requires t.kind.Blob?
    ensures Survives(c, l, t) <==> RoundTrips(c, l, t)
  {
    if l.LBlob? {
      BlobReadsBack(l.uri, l.format, l.dim);
      hide ReadBlob, BlobJson, IsNull;
    } else {
      BlobsReadAsBlobs(c, Sent(c, l), t);
    }
  }

  lemma BlobsReadAsBlobs(c: Formats, v: Json, t: LiteralType)
    requires t.kind.Blob?
    ensures FromJson(c, v, t).Ok? ==> FromJson(c, v, t).value.LBlob?
  {
  }

  lemma EnumRoundTrip(c: Formats, l: Literal, t: LiteralType)
    requires t.kind.Enum?
    ensures Survives(c, l, t) <==> RoundTrips(c, l, t)
  {
    NullIsNull(ToJson(c, l));
  }

  /** A literal comes back exactly when it is in the fragment. */
  lemma {:induction false} ValueRoundTrip(c: Formats, l: Literal, t: LiteralType)
    ensures Survives(c, l, t) <==> RoundTrips(c, l, t)
    decreases t
  {
    match t.kind
    case Simple(_) => SimpleRoundTrip(c, l, t);
    case Collection(elem) =>
      if l.LCollection? {
        forall i | 0 <= i < |l.items| ensures Survives(c, l.items[i], elem) <==> RoundTrips(c, l.items[i], elem) {
          ValueRoundTrip(c, l.items[i], elem);
        }
      }
      CollectionRoundTrip(c, l, t);
    case MapOf(value) =>
      if l.LMap? {
        forall k | k in l.entries ensures Survives(c, l.entries[k], value) <==> RoundTrips(c, l.entries[k], value) {
          ValueRoundTrip(c, l.entries[k], value);
        }
      }
      MapRoundTrip(c, l, t);
    case Union(variants) =>
      if l.LUnion? {
        forall i | 0 <= i < |variants| ensures Survives(c, l.value, variants[i]) <==> RoundTrips(c, l.value, variants[i]) {
          ValueRoundTrip(c, l.value, variants[i]);
        }
      }
      UnionRoundTrip(c, l, t);
    case Struct(_) => StructRoundTrip(c, l, t);
    case StructuredDataset => DatasetRoundTrip(c, l, t);
    case Blob(_, _) => BlobRoundTrip(c, l, t);
    case Enum(_) => EnumRoundTrip(c, l, t);
    case Schema =>
    case Unset =>
  }

  lemma CollectionRoundTrip(c: Formats, l: Literal, t: LiteralType)
    requires t.kind.Collection?
    ensures Survives(c, l, t) <==>
      l.LCollection? && forall i :: 0 <= i < |l.items| ==> Survives(c, l.items[i], t.kind.elem)
  {
    NullIsNull(ToJson(c, l));
    var v := Sent(c, l);
    var r := FromJson(c, v, t);
    if l.LCollection? {
      assert forall i :: 0 <= i < |l.items| ==> v.items[i] == Sent(c, l.items[i]);
      if r.Ok? {
        var out := r.value.items;
        assert forall i :: 0 <= i < |out| ==> FromJson(c, v.items[i], t.kind.elem) == Ok(out[i]);
        if Erase(r.value) == Erase(l) {
          forall i | 0 <= i < |out| ensures Erase(out[i]) == Erase(l.items[i]) {
            assert Erase(out[i]) == Erase(r.value).items[i] == Erase(l).items[i];
          }
        }
      }
    }
  }

  lemma MapReading(c: Formats, v: Json, t: LiteralType, out: map<string, Literal>)
    requires t.kind.MapOf? && v.JObj? && !IsNull(v)
    ensures FromJson(c, v, t) == Ok(LMap(out)) <==>
      out.Keys == v.fields.Keys && forall k | k in v.fields :: FromJson(c, v.fields[k], t.kind.value) == Ok(out[k])
  {
    if out.Keys == v.fields.Keys && forall k | k in v.fields :: FromJson(c, v.fields[k], t.kind.value) == Ok(out[k]) {
      assert FromJson(c, v, t).value.entries == out;
    }
  }

  lemma SameErased(a: map<string, Literal>, b: map<string, Literal>)
    ensures Erase(LMap(a)) == Erase(LMap(b)) <==> a.Keys == b.Keys && forall k | k in a :: Erase(a[k]) == Erase(b[k])
  {
    var ea, eb := Erase(LMap(a)).entries, Erase(LMap(b)).entries;
    assert ea.Keys == a.Keys && eb.Keys == b.Keys;
    if ea == eb {
      forall k | k in a ensures Erase(a[k]) == Erase(b[k]) {
        assert ea[k] == eb[k];
      }
    }
    if a.Keys == b.Keys && forall k | k in a :: Erase(a[k]) == Erase(b[k]) {
      assert ea == eb;
    }
  }

  lemma MapRoundTrip(c: Formats, l: Literal, t: LiteralType)
    requires t.kind.MapOf?
    ensures Survives(c, l, t) <==>
      l.LMap? && !IsNull(ToJson(c, l)) && forall k | k in l.entries :: Survives(c, l.entries[k], t.kind.value)
  {
    hide Erase, FromJson;
    NullIsNull(ToJson(c, l));
    var v := Sent(c, l);
    MapReadsMap(c, v, t);
    OnlyMapsLookLikeMaps(l);
    if l.LMap? && !IsNull(v) {
      assert v.fields.Keys == l.entries.Keys;
      assert forall k | k in l.entries :: v.fields[k] == Sent(c, l.entries[k]);
      var r := FromJson(c, v, t);
      if r.Ok? {
        MapReading(c, v, t, r.value.entries);
        SameErased(r.value.entries, l.entries);
      } else if forall k | k in l.entries :: Survives(c, l.entries[k], t.kind.value) {
        var out := map k | k in l.entries :: FromJson(c, v.fields[k], t.kind.value).value;
        MapReading(c, v, t, out);
      }
    }
  }

  lemma MapReadsMap(c: Formats, v: Json, t: LiteralType)
    requires t.kind.MapOf?
    ensures FromJson(c, v, t).Ok? ==> FromJson(c, v, t).value.LMap? && !IsNull(v) && v.JObj?
  {
  }

  lemma OnlyMapsLookLikeMaps(l: Literal)
    ensures Erase(l).LMap? <==> l.LMap?
    ensures forall m :: Erase(LMap(m)).LMap?
  {
  }

  lemma UnionRoundTrip(c: Formats, l: Literal, t: LiteralType)
    requires t.kind.Union?
    ensures Survives(c, l, t) <==>
      && l.LUnion?
      && if IsNull(ToJson(c, l.value)) then l.value.LNone? && FirstNone(t.kind.variants).Some?
         else exists i :: 0 <= i < |t.kind.variants| && FirstTaker(c, Sent(c, l.value), t.kind.variants, i)
                && Survives(c, l.value, t.kind.variants[i])
  {
    NullIsNull(ToJson(c, l));
    if !IsNull(ToJson(c, l)) {
      VariantRoundTrip(c, l, t);
    } else {
      var variants := t.kind.variants;
      var r := FromJson(c, Sent(c, l), t);
      assert r.Ok? <==> FirstNone(variants).Some?;
      assert r.Ok? ==> Erase(r.value) == LUnion(LiteralType(Unset, None), LNone);
      if l.LUnion? {
        assert Erase(l) == LUnion(LiteralType(Unset, None), Erase(l.value));
      }
    }
  }

  lemma VariantRoundTrip(c: Formats, l: Literal, t: LiteralType)
    requires t.kind.Union? && !IsNull(Sent(c, l))
    ensures Survives(c, l, t) <==>
      && l.LUnion?
      && exists i :: 0 <= i < |t.kind.variants| && FirstTaker(c, Sent(c, l.value), t.kind.variants, i)
           && Survives(c, l.value, t.kind.variants[i])
  {
    var v, variants := Sent(c, l), t.kind.variants;
    if FirstMatch(c, v, t, 0).Ok? {
      var k := FindFirstTaker(c, v, t, 0);
      FirstTakerDecides(c, v, t, 0, k);
      assert Survives(c, l, t) <==> l.LUnion? && Survives(c, l.value, variants[k]);
      forall i | 0 <= i < |variants| && FirstTaker(c, v, variants, i) ensures i == k {
        OnlyOneFirstTaker(c, v, variants, i, k);
      }
    } else {
      forall i | 0 <= i < |variants| ensures !FirstTaker(c, v, variants, i) {
        if FirstTaker(c, v, variants, i) {
          FirstTakerDecides(c, v, t, 0, i);
        }
      }
    }
  }

  /** An optional type, in either order, loses nothing its other variant keeps. */
  lemma OptionalRoundTrip(c: Formats, x: LiteralType, none: LiteralType, t: LiteralType, ty: LiteralType, value: Literal)
    requires IsNone(none) && !IsNone(x) && (t.kind == Union([x, none]) || t.kind == Union([none, x]))
    ensures RoundTrips(c, LUnion(ty, value), t) <==>
      value.LNone? || (!IsNull(ToJson(c, value)) && RoundTrips(c, value, x))
  {
    ValueRoundTrip(c, value, x);
    ReadsExactlyWhatIsAdmitted(c, x, Sent(c, value));
    var variants := t.kind.variants;
    var i := if variants[0] == x then 0 else 1;
    assert variants[i] == x && IsNone(variants[1 - i]);
    if !IsNull(ToJson(c, value)) && RoundTrips(c, value, x) {
      assert FirstTaker(c, Sent(c, value), variants, i);
    }
  }

  /** An integer above 2^53 is rounded on its way through the form. */
  lemma BigIntegerIsLost(c: Formats)
    ensures !Survives(c, LInt(TWO_53 + 1), LiteralType(Simple(INTEGER), None))
  {
    ValueRoundTrip(c, LInt(TWO_53 + 1), LiteralType(Simple(INTEGER), None));
  }

  /** A map with an entry "type" that says "null" is taken for a null. */
  lemma NullShapedMapIsLost(c: Formats, entries: map<string, Literal>, value: LiteralType)
    requires "type" in entries && entries["type"] == LString("null")
    ensures !Survives(c, LMap(entries), LiteralType(MapOf(value), None))
  {
    assert ToJson(c, LMap(entries)).fields["type"] == JStr("null");
    ValueRoundTrip(c, LMap(entries), LiteralType(MapOf(value), None));
  }

  /** A float is truncated by a union that tries the integer variant first. */
  lemma FloatInIntegerUnionIsLost(c: Formats, ty: LiteralType, t: LiteralType, x: real)
    requires t.kind == Union([LiteralType(Simple(INTEGER), None), LiteralType(Simple(FLOAT), None)])
    ensures !Survives(c, LUnion(ty, LFloat(x)), t)
  {
    var v := Sent(c, LFloat(x));
    assert FirstTaker(c, v, t.kind.variants, 0);
    VariantRoundTrip(c, LUnion(ty, LFloat(x)), t);
    forall i | 0 <= i < 2 && FirstTaker(c, v, t.kind.variants, i) ensures i == 0 {
      OnlyOneFirstTaker(c, v, t.kind.variants, 0, i);
    }
    assert !Survives(c, LFloat(x), t.kind.variants[0]);
  }

  /** Types that printing and parsing keep: no error and no binary type inside. */
  predicate Restorable(t: LiteralType) {
    match t.kind
    case Simple(s) => s != ERROR && s != BINARY
    case Collection(elem) => Restorable(elem)
    case MapOf(value) => Restorable(value)
    case Union(variants) => forall i :: 0 <= i < |variants| ==> Restorable(variants[i])
    case _ => true
  }

  function Normal(t: LiteralType): LiteralType {
    LiteralType(Norm(t.kind), None)
  }

  /** Values and literals are admitted and returned by kind alone. */
  lemma KindDecides(c: Formats, a: LiteralType, b: LiteralType)
    requires a.kind == b.kind
    ensures forall v :: Admits(c, a, v) <==> Admits(c, b, v)
    ensures forall l :: RoundTrips(c, l, a) <==> RoundTrips(c, l, b)
  {
  }

  /** A type read back from its schema admits the same values. */
  lemma {:induction false} NormAdmitsTheSame(c: Formats, t: LiteralType, v: Json)
    requires Restorable(t)
    ensures Admits(c, Normal(t), v) <==> Admits(c, t, v)
    decreases t
  {
    match t.kind
    case Collection(elem) =>
      if v.JArr? {
        forall i | 0 <= i < |v.items| ensures Admits(c, Normal(t).kind.elem, v.items[i]) <==> Admits(c, elem, v.items[i]) {
          NormAdmitsTheSame(c, elem, v.items[i]);
          KindDecides(c, Normal(t).kind.elem, Normal(elem));
        }
      }
    case MapOf(value) =>
      if v.JObj? {
        forall k | k in v.fields ensures Admits(c, Normal(t).kind.value, v.fields[k]) <==> Admits(c, value, v.fields[k]) {
          NormAdmitsTheSame(c, value, v.fields[k]);
          KindDecides(c, Normal(t).kind.value, Normal(value));
        }
      }
    case Union(variants) =>
      VariantsAdmitTheSame(c, variants, v);
      UnionAdmitsTheSame(c, t, Normal(t), v);
    case _ =>
  }

  lemma UnionAdmitsTheSame(c: Formats, a: LiteralType, b: LiteralType, v: Json)
    requires a.kind.Union? && b.kind.Union? && |a.kind.variants| == |b.kind.variants|
    requires forall i :: 0 <= i < |a.kind.variants| ==>
      && (IsNone(a.kind.variants[i]) <==> IsNone(b.kind.variants[i]))
      && (Admits(c, a.kind.variants[i], v) <==> Admits(c, b.kind.variants[i], v))
    ensures Admits(c, a, v) <==> Admits(c, b, v)
  {
    var p, q := a.kind.variants, b.kind.variants;
    if IsNull(v) {
      assert (exists i :: 0 <= i < |p| && IsNone(p[i])) <==> (exists i :: 0 <= i < |q| && IsNone(q[i]));
    } else {
      SomeVariantAdmits(c, a, v);
      SomeVariantAdmits(c, b, v);
      hide Admits;
    }
  }

  lemma SomeVariantAdmits(c: Formats, t: LiteralType, v: Json)
    requires t.kind.Union? && !IsNull(v)
    ensures Admits(c, t, v) <==>
      exists i :: 0 <= i < |t.kind.variants| && !IsNone(t.kind.variants[i]) && Admits(c, t.kind.variants[i], v)
  {
  }

  lemma {:induction false} VariantsAdmitTheSame(c: Formats, variants: seq<LiteralType>, v: Json)
    requires forall i :: 0 <= i < |variants| ==> Restorable(variants[i])
    ensures forall i :: 0 <= i < |variants| ==>
      && (IsNone(NormVariant(variants[i])) <==> IsNone(variants[i]))
      && (Admits(c, NormVariant(variants[i]), v) <==> Admits(c, variants[i], v))
    decreases variants
  {
    forall i | 0 <= i < |variants|
      ensures IsNone(NormVariant(variants[i])) <==> IsNone(variants[i])
      ensures Admits(c, NormVariant(variants[i]), v) <==> Admits(c, variants[i], v)
    {
      NormAdmitsTheSame(c, variants[i], v);
      KindDecides(c, NormVariant(variants[i]), Normal(variants[i]));
    }
  }

  /** So the same literals come back through the printed type as through the type itself. */
  lemma {:induction false} NormKeepsRoundTrips(c: Formats, l: Literal, t: LiteralType)
    requires Restorable(t)
    ensures RoundTrips(c, l, Normal(t)) <==> RoundTrips(c, l, t)
    decreases t
  {
    match t.kind
    case Collection(elem) =>
      if l.LCollection? {
        forall i | 0 <= i < |l.items| ensures RoundTrips(c, l.items[i], Normal(t).kind.elem) <==> RoundTrips(c, l.items[i], elem) {
          NormKeepsRoundTrips(c, l.items[i], elem);
          KindDecides(c, Normal(t).kind.elem, Normal(elem));
        }
      }
    case MapOf(value) =>
      if l.LMap? {
        forall k | k in l.entries ensures RoundTrips(c, l.entries[k], Normal(t).kind.value) <==> RoundTrips(c, l.entries[k], value) {
          NormKeepsRoundTrips(c, l.entries[k], value);
          KindDecides(c, Normal(t).kind.value, Normal(value));
        }
      }
    case Union(variants) =>
      if l.LUnion? {
        var normal := Normal(t).kind.variants;
        VariantsAdmitTheSame(c, variants, Sent(c, l.value));
        forall i | 0 <= i < |variants| ensures RoundTrips(c, l.value, normal[i]) <==> RoundTrips(c, l.value, variants[i]) {
          NormKeepsRoundTrips(c, l.value, variants[i]);
          KindDecides(c, normal[i], Normal(variants[i]));
        }
        SameFirstTaker(c, Sent(c, l.value), variants, normal);
      }
    case _ =>
  }

  lemma SameFirstTaker(c: Formats, v: Json, p: seq<LiteralType>, q: seq<LiteralType>)
    requires |p| == |q|
    requires forall i :: 0 <= i < |p| ==>
      (IsNone(p[i]) <==> IsNone(q[i])) && (Admits(c, p[i], v) <==> Admits(c, q[i], v))
    ensures forall i :: 0 <= i < |p| ==> (FirstTaker(c, v, p, i) <==> FirstTaker(c, v, q, i))
    ensures FirstNone(p).Some? <==> FirstNone(q).Some?
  {
    if FirstNone(p).Some? {
      assert IsNone(q[FirstNone(p).value]);
    }
    if FirstNone(q).Some? {
      assert IsNone(p[FirstNone(q).value]);
    }
  }
}
