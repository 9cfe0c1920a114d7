/** Where the validator and the stated meaning agree: on schemas whose keywords all sit under the type that makes the
    validator look at them, whose enums cannot take a boolean for a number, and, where the schema says `integer` or
    `uniqueItems`, on values that do not write a whole number as a float. Together with `CanonKeepsMeaning`, validating against a canonical form decides what the
    original composition states. */
module Agreement {
  import opened Model
  import opened Validation
  import opened Meaning
  import opened Canonical
  import opened CanonicalMeaning
  import opened MergeMeaning

  /** No keyword that speaks about one kind of value. */
  predicate Bare(s: Schema) {
    && s.kw.bounds == NO_BOUNDS && s.kw.pattern.None? && s.kw.multipleOf.None? && s.kw.uniqueItems != Some(true)
    && s.kw.required == [] && s.kw.dependentRequired == map[]
    && s.properties == map[] && (s.additional.Unstated? || s.additional == Allowed(true))
    && s.items.None? && s.prefixItems == [] && s.contains.None?
    && s.patternProperties == map[] && s.propertyNames.None? && s.dependentSchemas == map[] && s.ifSchema.None?
  }

  predicate Concrete(t: Option<JType>) {
    t.Some? && (t.value.TObject? || t.value.TArray? || t.value.TString? || t.value.TBoolean? ||
                t.value.TInteger? || t.value.TNumber? || t.value.TNull?)
  }

  // ------------------------------------------------------------------ where single keywords part

  /** A boolean, or a number that Python's `==` takes for one, anywhere inside. */
  predicate HasBit(e: Value) {
    match e
    case Bool(_) => true
    case Int(i) => i == 0 || i == 1
    case Float(r) => r == 0.0 || r == 1.0
    case Arr(elems) => exists i :: 0 <= i < |elems| && HasBit(elems[i])
    case Obj(fields) => exists k :: k in fields && HasBit(fields[k])
    case _ => false
  }

  /** Among values of the type, some other value than the member's equals is `==` to the member. */
  predicate Confusable(t: Option<JType>, e: Value) {
    match t
    case Some(TBoolean) => IsNumeric(e) && HasBit(e)
    case Some(TInteger) => e.Bool?
    case Some(TNumber) => e.Bool?
    case Some(TString) => false
    case Some(TNull) => false
    case _ => HasBit(e)
  }

  lemma {:induction false} BitsAside(v: Value, e: Value)
    requires PyEq(v, e) && !HasBit(e)
    ensures JsonEq(v, e)
  {
    if v.Arr? {
      assert |v.elems| == |Norm(v).elems| == |Norm(e).elems| == |e.elems|;
      forall i | 0 <= i < |v.elems| ensures JsonEq(v.elems[i], e.elems[i]) {
        assert Norm(v).elems[i] == Norm(e).elems[i];
        BitsAside(v.elems[i], e.elems[i]);
      }
      assert JsonNorm(v).elems == JsonNorm(e).elems;
    }
    if v.Obj? {
      assert v.fields.Keys == Norm(v).fields.Keys == Norm(e).fields.Keys == e.fields.Keys;
      forall k | k in v.fields ensures JsonEq(v.fields[k], e.fields[k]) {
        assert Norm(v).fields[k] == Norm(e).fields[k];
        BitsAside(v.fields[k], e.fields[k]);
      }
      assert JsonNorm(v).fields == JsonNorm(e).fields;
    }
  }

  lemma {:induction false} ToldByType(t: Option<JType>, v: Value, e: Value)
    requires TypeStated(t, v) && !Confusable(t, e)
    ensures PyEq(v, e) == JsonEq(v, e)
  {
    if JsonEq(v, e) { EqualAreEqual(v, e); }
    if PyEq(v, e) && !HasBit(e) { BitsAside(v, e); }
  }

  /** A value that is `==` to one with a bit in it, and another value in JSON. */
  function Flipped(e: Value): Value {
    match e
    case Bool(b) => Int(if b then 1 else 0)
    case Int(i) => if HasBit(e) then Bool(i == 1) else e
    case Float(r) => if HasBit(e) then Bool(r == 1.0) else e
    case Arr(elems) => Arr(seq(|elems|, i requires 0 <= i < |elems| => Flipped(elems[i])))
    case Obj(fields) => Obj(map k | k in fields :: Flipped(fields[k]))
    case _ => e
  }

  lemma {:induction false} FlippedEqual(e: Value)
    ensures PyEq(Flipped(e), e)
    ensures HasBit(e) ==> !JsonEq(Flipped(e), e)
  {
    var f := Flipped(e);
    if e.Arr? {
      forall i | 0 <= i < |e.elems|
        ensures PyEq(f.elems[i], e.elems[i]) && (HasBit(e.elems[i]) ==> !JsonEq(f.elems[i], e.elems[i]))
      {
        FlippedEqual(e.elems[i]);
      }
      assert Norm(f).elems == Norm(e).elems;
      if HasBit(e) {
        var i :| 0 <= i < |e.elems| && HasBit(e.elems[i]);
        assert JsonNorm(f).elems[i] == JsonNorm(f.elems[i]) && JsonNorm(e).elems[i] == JsonNorm(e.elems[i]);
      }
    }
    if e.Obj? {
      forall k | k in e.fields
        ensures PyEq(f.fields[k], e.fields[k]) && (HasBit(e.fields[k]) ==> !JsonEq(f.fields[k], e.fields[k]))
      {
        FlippedEqual(e.fields[k]);
      }
      assert Norm(f).fields == Norm(e).fields;
    }
  }

  /** Without a type, the validator reads `const` as the standard does exactly when no boolean and no 0 or 1 is in it. */
  lemma {:induction false} ConstExactly(c: Value)
    requires !c.Null?
    ensures (forall v :: ConstOk(c, v) <==> ConstSat(c, v)) <==> !HasBit(c)
  {
    forall v | !HasBit(c) ensures ConstOk(c, v) <==> ConstSat(c, v) { ToldByType(None, v, c); }
    FlippedEqual(c);
    assert ConstOk(c, Flipped(c));
  }

  /** A float that is a whole number, anywhere inside. */
  predicate WholeFloats(v: Value) {
    match v
    case Float(r) => Whole(r)
    case Arr(elems) => exists i :: 0 <= i < |elems| && WholeFloats(elems[i])
    case Obj(fields) => exists k :: k in fields && WholeFloats(fields[k])
    case _ => false
  }

  lemma {:induction false} OneForm(a: Value, b: Value)
    requires JsonEq(a, b) && !WholeFloats(a) && !WholeFloats(b)
    ensures a == b
  {
    if a.Arr? {
      assert |a.elems| == |JsonNorm(a).elems| == |JsonNorm(b).elems| == |b.elems|;
      forall i | 0 <= i < |a.elems| ensures a.elems[i] == b.elems[i] {
        assert JsonNorm(a).elems[i] == JsonNorm(b).elems[i];
        OneForm(a.elems[i], b.elems[i]);
      }
    }
    if a.Obj? {
      assert a.fields.Keys == JsonNorm(a).fields.Keys == JsonNorm(b).fields.Keys == b.fields.Keys;
      forall k | k in a.fields ensures a.fields[k] == b.fields[k] {
        assert JsonNorm(a).fields[k] == JsonNorm(b).fields[k];
        OneForm(a.fields[k], b.fields[k]);
      }
      assert a.fields == b.fields;
    }
  }

  lemma {:induction false} DistinctAlike(elems: seq<Value>)
    requires !WholeFloats(Arr(elems))
    ensures Distinct(elems) == JsonDistinct(elems)
  {
    forall i, j | 0 <= i < j < |elems| && JsonEq(elems[i], elems[j]) ensures elems[i] == elems[j] {
      OneForm(elems[i], elems[j]);
    }
  }

  /** A type that takes whole floats for integers where the validator does not. */
  predicate Narrow(t: JType) { TypeSat(t, Float(1.0)) && !TypeMatches(t, Float(1.0)) }

  lemma {:induction false} FloatsAlike(t: JType, r: real)
    ensures TypeMatches(t, Float(r)) == TypeMatches(t, Float(1.0))
    ensures Whole(r) ==> TypeSat(t, Float(r)) == TypeSat(t, Float(1.0))
    ensures !Whole(r) ==> TypeSat(t, Float(r)) == TypeMatches(t, Float(r))
  {
    assert Whole(1.0);
    if t.TUnion? {
      forall i | 0 <= i < |t.members|
        ensures TypeMatches(t.members[i], Float(r)) == TypeMatches(t.members[i], Float(1.0))
        ensures Whole(r) ==> TypeSat(t.members[i], Float(r)) == TypeSat(t.members[i], Float(1.0))
        ensures !Whole(r) ==> TypeSat(t.members[i], Float(r)) == TypeMatches(t.members[i], Float(r))
      {
        FloatsAlike(t.members[i], r);
      }
    }
  }

  lemma {:induction false} OthersAlike(t: JType, v: Value)
    requires !v.Float?
    ensures TypeMatches(t, v) == TypeSat(t, v)
  {
    if t.TUnion? {
      forall i | 0 <= i < |t.members| ensures TypeMatches(t.members[i], v) == TypeSat(t.members[i], v) { OthersAlike(t.members[i], v); }
    }
  }

  /** The validator and the standard read a type alike at a value exactly when the value is not a whole float, or the
      type does not depend on taking one for an integer. */
  lemma {:induction false} TypesExactly(t: JType, v: Value)
    ensures TypeMatches(t, v) == TypeSat(t, v) <==> !(v.Float? && Whole(v.r) && Narrow(t))
  {
    if v.Float? {
      FloatsAlike(t, v.r);
      TypeWider(t);
    } else {
      OthersAlike(t, v);
    }
  }

  lemma {:induction false} TypeWider(t: JType)
    ensures TypeMatches(t, Float(1.0)) ==> TypeSat(t, Float(1.0))
  {
    if t.TUnion? && TypeMatches(t, Float(1.0)) {
      var i :| 0 <= i < |t.members| && TypeMatches(t.members[i], Float(1.0));
      TypeWider(t.members[i]);
    }
  }

  /** Whole divisors of integers: a quotient within the validator's tolerance of a whole number is one. */
  lemma {:induction false} DivisorsAlike(m: real, i: int)
    requires Whole(m) && m != 0.0 && -1000000000.0 < m < 1000000000.0
    ensures MultipleOk(Some(m), i as real) == MultipleSat(Some(m), i as real)
  {
    var q := i as real / m;
    var n := (q + 0.5).Floor;
    if Whole(q) { assert n == q.Floor; }
    if MultipleOk(Some(m), i as real) {
      var rest := i - n * m.Floor;
      assert q * m == i as real;
      assert rest as real == (q - n as real) * m by { assert (n * m.Floor) as real == n as real * m; }
      Within(q - n as real, m);
      assert rest == 0;
      assert (q - n as real) * m == 0.0;
      assert q == n as real;
    }
  }

  lemma {:induction false} Within(d: real, m: real)
    requires -0.000000001 <= d <= 0.000000001 && -1000000000.0 < m < 1000000000.0
    ensures -1.0 < d * m < 1.0
  {
    var a, b := if d < 0.0 then -d else d, if m < 0.0 then -m else m;
    assert a * b <= 0.000000001 * b < 1.0;
    assert d * m == a * b || d * m == -(a * b);
  }

  /** The keywords of a node are read alike, at any value or at values without whole floats. */
  predicate PlainKeywords(kw: Keywords, any: bool) {
    && !Confusable(kw.typ, kw.constant)
    && (kw.enum.Some? ==> forall i :: 0 <= i < |kw.enum.value| ==> !Confusable(kw.typ, kw.enum.value[i]))
    && (kw.multipleOf.Some? && kw.multipleOf.value != 0.0 ==>
          kw.typ != Some(TNumber) &&
          (kw.typ == Some(TInteger) ==> Whole(kw.multipleOf.value) && -1000000000.0 < kw.multipleOf.value < 1000000000.0))
    && (any ==> kw.uniqueItems != Some(true) && (kw.typ.Some? ==> !Narrow(kw.typ.value)))
  }

  // ------------------------------------------------------------------ plain schemas

  /** A concrete type or nothing that needs one; no composition, negation, property count or exclusive choice; a
      condition only on objects. */
  predicate Plain(s: Schema, any: bool)
    decreases s, 1
  {
    && (Concrete(s.kw.typ) || Bare(s)) && PlainKeywords(s.kw, any)
    && (s.ifSchema.Some? ==> s.kw.typ == Some(TObject))
    && s.kw.bounds.minProperties.None? && s.kw.bounds.maxProperties.None?
    && s.allOf == [] && s.not_.None? && |s.oneOf| <= 1
    && PlainParts(s, any)
  }

  predicate PlainOpt(o: Option<Schema>, any: bool)
    decreases o, 0
  {
    o.Some? ==> Plain(o.value, any)
  }

  predicate PlainSeq(ss: seq<Schema>, any: bool)
    decreases ss, 0
  {
    forall i :: 0 <= i < |ss| ==> Plain(ss[i], any)
  }

  predicate PlainParts(s: Schema, any: bool)
    decreases s, 0
  {
    && (forall x :: x in s.properties ==> Plain(s.properties[x], any))
    && (s.additional.Described? ==> Plain(s.additional.schema, any))
    && PlainOpt(s.items, any) && PlainSeq(s.prefixItems, any) && PlainOpt(s.contains, any)
    && (forall e :: e in s.patternProperties ==> Plain(s.patternProperties[e], any))
    && PlainOpt(s.propertyNames, any)
    && (forall t :: t in s.dependentSchemas ==> Plain(s.dependentSchemas[t], any))
    && PlainOpt(s.ifSchema, any) && PlainOpt(s.thenSchema, any) && PlainOpt(s.elseSchema, any)
    && PlainSeq(s.oneOf, any) && PlainSeq(s.anyOf, any)
  }

  lemma {:induction false} ArraysAgree(re: Regex, s: Schema, elems: seq<Value>, any: bool)
    requires PlainParts(s, any) && (any || !WholeFloats(Arr(elems)))
    ensures ArrayValid(re, s, elems) <==> ArrayShapeOk(s.kw, elems) && ArraySat(re, s, elems)
    decreases s, 0
  {
    forall i | 0 <= i < |s.prefixItems| && i < |elems|
      ensures Valid(re, s.prefixItems[i], elems[i]) == Sat(re, s.prefixItems[i], elems[i])
    {
      ValidatorAgrees(re, s.prefixItems[i], elems[i], any);
    }
    if s.items.Some? {
      forall i | 0 <= i < |elems| ensures Valid(re, s.items.value, elems[i]) == Sat(re, s.items.value, elems[i]) {
        ValidatorAgrees(re, s.items.value, elems[i], any);
      }
    }
    if s.contains.Some? {
      forall i | 0 <= i < |elems| ensures Valid(re, s.contains.value, elems[i]) == Sat(re, s.contains.value, elems[i]) {
        ValidatorAgrees(re, s.contains.value, elems[i], any);
      }
      assert Matching(re, s.contains.value, elems) == Satisfying(re, s.contains.value, elems);
    }
    assert PrefixValid(re, s, elems) == PrefixSat(re, s, elems);
    assert ItemsValid(re, s, elems) == ItemsSat(re, s, elems);
  }

  lemma {:induction false} FieldsAgree(re: Regex, s: Schema, fields: map<string, Value>, any: bool)
    requires PlainParts(s, any) && (any || !WholeFloats(Obj(fields)))
    ensures FieldsValid(re, s, fields) == FieldsSat(re, s, fields)
    ensures ExtrasValid(re, s, fields) == ExtrasSat(re, s, fields)
    decreases s, 0
  {
    forall k | k in s.properties && k in fields
      ensures Valid(re, s.properties[k], fields[k]) == Sat(re, s.properties[k], fields[k])
    {
      ValidatorAgrees(re, s.properties[k], fields[k], any);
    }
    ExtrasCovered(re, s, fields);
    assert Undeclared(re, s, fields) == {} <==> forall k :: k in fields ==> Covered(re, s, k) by {
      if forall k :: k in fields ==> Covered(re, s, k) { assert forall k :: k !in Undeclared(re, s, fields); }
      if Undeclared(re, s, fields) == {} { forall k | k in fields ensures Covered(re, s, k) { assert k !in Undeclared(re, s, fields); } }
    }
    hide Undeclared, Covered;
    if s.additional.Described? {
      forall k | k in fields ensures Valid(re, s.additional.schema, fields[k]) == Sat(re, s.additional.schema, fields[k]) {
        ValidatorAgrees(re, s.additional.schema, fields[k], any);
      }
    }
  }

  lemma {:induction false} GuardsAgree(re: Regex, s: Schema, fields: map<string, Value>, any: bool)
    requires PlainParts(s, any) && (any || !WholeFloats(Obj(fields)))
    ensures DependentsValid(re, s, fields) == DependentsSat(re, s, fields)
    ensures NamesValid(re, s, fields) == NamesSat(re, s, fields)
    ensures PatternsValid(re, s, fields) == PatternsSat(re, s, fields)
    decreases s, 0
  {
    forall t | t in s.dependentSchemas
      ensures Valid(re, s.dependentSchemas[t], Obj(fields)) == Sat(re, s.dependentSchemas[t], Obj(fields))
    {
      ValidatorAgrees(re, s.dependentSchemas[t], Obj(fields), any);
    }
    if s.propertyNames.Some? {
      forall k: string ensures Valid(re, s.propertyNames.value, Str(k)) == Sat(re, s.propertyNames.value, Str(k)) {
        ValidatorAgrees(re, s.propertyNames.value, Str(k), any);
      }
    }
    forall e, k | e in s.patternProperties && k in fields
      ensures Valid(re, s.patternProperties[e], fields[k]) == Sat(re, s.patternProperties[e], fields[k])
    {
      ValidatorAgrees(re, s.patternProperties[e], fields[k], any);
    }
  }

  lemma {:induction false} ConditionalAgrees(re: Regex, s: Schema, fields: map<string, Value>, any: bool)
    requires PlainParts(s, any) && (any || !WholeFloats(Obj(fields)))
    ensures ConditionalValid(re, s, fields) == ConditionalSat(re, s, Obj(fields))
    decreases s, 0
  {
    if s.ifSchema.Some? { ValidatorAgrees(re, s.ifSchema.value, Obj(fields), any); }
    if s.thenSchema.Some? { ValidatorAgrees(re, s.thenSchema.value, Obj(fields), any); }
    if s.elseSchema.Some? { ValidatorAgrees(re, s.elseSchema.value, Obj(fields), any); }
  }

  lemma {:induction false} ObjectsAgree(re: Regex, s: Schema, fields: map<string, Value>, any: bool)
    requires PlainParts(s, any) && (any || !WholeFloats(Obj(fields)))
    ensures ObjectValid(re, s, fields) <==>
      && RequiredOk(s.kw.required, fields) && DependentRequiredOk(s.kw.dependentRequired, fields)
      && ObjectSat(re, s, fields) && ConditionalSat(re, s, Obj(fields))
    decreases s, 1
  {
    FieldsAgree(re, s, fields, any);
    GuardsAgree(re, s, fields, any);
    ConditionalAgrees(re, s, fields, any);
  }

  lemma {:induction false} VariantsAgree(re: Regex, variants: seq<Schema>, v: Value, any: bool)
    requires PlainSeq(variants, any) && (any || !WholeFloats(v))
    ensures SomeSat(re, variants, v) <==> SomeValid(re, variants, v)
    decreases variants, 0
  {
    forall i | 0 <= i < |variants| ensures Valid(re, variants[i], v) == Sat(re, variants[i], v) {
      ValidatorAgrees(re, variants[i], v, any);
    }
  }

  lemma {:induction false} OneOfOne(re: Regex, variants: seq<Schema>, v: Value)
    requires |variants| == 1
    ensures OneSat(re, variants, v) == SomeSat(re, variants, v)
  {
    if SomeSat(re, variants, v) { assert NoOtherSat(re, variants, 0, v); }
  }

  lemma {:induction false} TypesAgree(kw: Keywords, v: Value, any: bool)
    requires PlainKeywords(kw, any) && (any || !WholeFloats(v))
    ensures TypeOk(kw.typ, v) == TypeStated(kw.typ, v)
  {
    if kw.typ.Some? { TypesExactly(kw.typ.value, v); }
  }

  lemma {:induction false} ChoicesAgree(kw: Keywords, v: Value, any: bool)
    requires PlainKeywords(kw, any) && TypeStated(kw.typ, v)
    ensures EnumOk(kw.enum, v) == EnumSat(kw.enum, v) && ConstOk(kw.constant, v) == ConstSat(kw.constant, v)
  {
    hide Confusable, PyEq, JsonEq, TypeStated;
    ToldByType(kw.typ, v, kw.constant);
    if kw.enum.Some? {
      forall i | 0 <= i < |kw.enum.value| ensures PyEq(v, kw.enum.value[i]) == JsonEq(v, kw.enum.value[i]) {
        ToldByType(kw.typ, v, kw.enum.value[i]);
      }
    }
  }

  // The limits of the validator, read one by one, are those of the standard.

  lemma {:induction false} RangesAgree(b: Bounds, x: real)
    ensures RangeOk(b, x) == RangeSat(b, x)
  {
  }

  lemma {:induction false} TextsAgree(re: Regex, kw: Keywords, text: string)
    ensures StringOk(re, kw, text) == TextSat(re, kw, text)
  {
  }

  lemma {:induction false} RequiredAgree(required: seq<string>, fields: map<string, Value>)
    ensures RequiredOk(required, fields) == RequiredSat(required, fields)
  {
    if RequiredOk(required, fields) {
      forall name | name in required ensures name in fields {}
    }
    forall i | 0 <= i < |required| ensures required[i] in required {}
  }

  lemma {:induction false} NamesAgree(kw: Keywords, fields: map<string, Value>)
    ensures RequiredOk(kw.required, fields) == RequiredSat(kw.required, fields)
    ensures DependentRequiredOk(kw.dependentRequired, fields) == DependentRequiredSat(kw.dependentRequired, fields)
  {
    RequiredAgree(kw.required, fields);
    DependentNames(kw.dependentRequired, fields);
    forall t | t in kw.dependentRequired
      ensures RequiredOk(kw.dependentRequired[t], fields) == RequiredSat(kw.dependentRequired[t], fields)
    {
      RequiredAgree(kw.dependentRequired[t], fields);
    }
    hide RequiredOk, RequiredSat;
  }

  lemma {:induction false} ExtrasCovered(re: Regex, s: Schema, fields: map<string, Value>)
    ensures forall k :: k in Undeclared(re, s, fields) <==> k in fields && !Covered(re, s, k)
  {
  }

  /** With a minimum and a maximum and nothing else, exactly the numbers of the closed interval are accepted; with
      exclusive limits, those of the open one. */
  lemma {:induction false} IntervalsExactly(re: Regex, low: real, high: real, v: Value)
    ensures
      var kw := NO_KEYWORDS.(typ := Some(TNumber));
      var shut := ANY.(kw := kw.(bounds := NO_BOUNDS.(minimum := Some(low), maximum := Some(high))));
      var gaping := ANY.(kw := kw.(bounds := NO_BOUNDS.(exclusiveMinimum := Some(low), exclusiveMaximum := Some(high))));
      && (Valid(re, shut, v) <==> IsNumeric(v) && low <= AsReal(v) <= high)
      && (Valid(re, gaping, v) <==> IsNumeric(v) && low < AsReal(v) < high)
  {
    var kw := NO_KEYWORDS.(typ := Some(TNumber));
    assert TypeMatches(TNumber, v) <==> IsNumeric(v);
    assert TypeOk(kw.typ, v) <==> IsNumeric(v);
  }

  /** Likewise for the length of a text and the number of items. */
  lemma {:induction false} CountsExactly(re: Regex, low: int, high: int, v: Value)
    ensures
      var texts := ANY.(kw := NO_KEYWORDS.(typ := Some(TString), bounds := NO_BOUNDS.(minLength := Some(low), maxLength := Some(high))));
      var lists := ANY.(kw := NO_KEYWORDS.(typ := Some(TArray), bounds := NO_BOUNDS.(minItems := Some(low), maxItems := Some(high))));
      && (Valid(re, texts, v) <==> v.Str? && low <= |v.s| <= high)
      && (Valid(re, lists, v) <==> v.Arr? && low <= |v.elems| <= high)
  {
    var lists := ANY.(kw := NO_KEYWORDS.(typ := Some(TArray), bounds := NO_BOUNDS.(minItems := Some(low), maxItems := Some(high))));
    assert TypeMatches(TString, v) <==> v.Str?;
    assert TypeMatches(TArray, v) <==> v.Arr?;
    if v.Arr? { assert PrefixValid(re, lists, v.elems) && ItemsValid(re, lists, v.elems); }
  }

  // ------------------------------------------------------------------ what the validator looks at

  /** The node with only what `validate_value` looks at: the keywords that sit under the one type they are about, and
      neither `allOf`, `not` nor the number of properties. */
  function Looked(s: Schema): Schema {
    var text, number := s.kw.typ == Some(TString), s.kw.typ in {Some(TInteger), Some(TNumber)};
    var list, object_ := s.kw.typ == Some(TArray), s.kw.typ == Some(TObject);
    Schema(
      NO_KEYWORDS.(
        typ := s.kw.typ, nullable := s.kw.nullable, enum := s.kw.enum, constant := s.kw.constant,
        bounds := Bounds(
          if number then s.kw.bounds.minimum else None, if number then s.kw.bounds.exclusiveMinimum else None,
          if text then s.kw.bounds.minLength else None, if list then s.kw.bounds.minItems else None, None,
          if number then s.kw.bounds.maximum else None, if number then s.kw.bounds.exclusiveMaximum else None,
          if text then s.kw.bounds.maxLength else None, if list then s.kw.bounds.maxItems else None, None),
        pattern := if text then s.kw.pattern else None, multipleOf := if number then s.kw.multipleOf else None,
        uniqueItems := if list then s.kw.uniqueItems else None,
        minContains := if list then s.kw.minContains else None, maxContains := if list then s.kw.maxContains else None,
        required := if object_ then s.kw.required else [], dependentRequired := if object_ then s.kw.dependentRequired else map[]),
      if object_ then s.properties else map[], if object_ then s.additional else Unstated,
      if list then s.items else None, if list then s.prefixItems else [], if list then s.contains else None,
      if object_ then s.patternProperties else map[], if object_ then s.propertyNames else None,
      if object_ then s.dependentSchemas else map[],
      if object_ then s.ifSchema else None, if object_ then s.thenSchema else None, if object_ then s.elseSchema else None,
      s.oneOf, s.anyOf, [], None)
  }

  /** Nothing else in a node matters to the validator, and `oneOf` asks for no more than `anyOf` would. */
  lemma {:induction false} LooksAt(re: Regex, s: Schema, v: Value)
    ensures Valid(re, s, v) <==> Valid(re, Looked(s), v)
    ensures s.anyOf == [] ==> (Valid(re, s, v) <==> Valid(re, s.(anyOf := s.oneOf, oneOf := []), v))
  {
    LooksAtParts(re, s, Looked(s), v);
    LooksAtParts(re, s, s.(anyOf := s.oneOf, oneOf := []), v);
    hide ArrayValid, ObjectValid, SomeValid;
  }

  lemma {:induction false} LooksAtParts(re: Regex, s: Schema, l: Schema, v: Value)
    requires l == Looked(s) || l == s.(anyOf := s.oneOf, oneOf := [])
    ensures s.kw.typ == Some(TArray) && v.Arr? ==> ArrayValid(re, s, v.elems) == ArrayValid(re, l, v.elems)
    ensures s.kw.typ == Some(TObject) && v.Obj? ==> ObjectValid(re, s, v.fields) == ObjectValid(re, l, v.fields)
  {
    hide Valid;
    if s.kw.typ == Some(TArray) && v.Arr? {
      assert PrefixValid(re, s, v.elems) == PrefixValid(re, l, v.elems) && ItemsValid(re, s, v.elems) == ItemsValid(re, l, v.elems);
    }
    if s.kw.typ == Some(TObject) && v.Obj? {
      assert FieldsValid(re, s, v.fields) == FieldsValid(re, l, v.fields) && DependentsValid(re, s, v.fields) == DependentsValid(re, l, v.fields);
      assert NamesValid(re, s, v.fields) == NamesValid(re, l, v.fields) && ConditionalValid(re, s, v.fields) == ConditionalValid(re, l, v.fields);
      forall e | e in s.patternProperties ensures PatternValid(re, s, e, v.fields) == PatternValid(re, l, e, v.fields) {}
      assert Undeclared(re, s, v.fields) == Undeclared(re, l, v.fields);
      assert ExtrasValid(re, s, v.fields) == ExtrasValid(re, l, v.fields);
    }
  }

  lemma {:induction false} NumbersAgree(kw: Keywords, v: Value, any: bool)
    requires PlainKeywords(kw, any) && IsNumeric(v) && TypeOk(kw.typ, v) && kw.typ in {Some(TInteger), Some(TNumber)}
    ensures NumberOk(kw, AsReal(v)) == NumberSat(kw, AsReal(v))
  {
    RangesAgree(kw.bounds, AsReal(v));
    if kw.multipleOf.Some? && kw.multipleOf.value != 0.0 { DivisorsAlike(kw.multipleOf.value, v.i); }
  }

  lemma {:induction false} ShapesAgree(kw: Keywords, elems: seq<Value>, any: bool)
    requires PlainKeywords(kw, any) && (any || !WholeFloats(Arr(elems)))
    ensures ArrayShapeOk(kw, elems) == ArrayShapeSat(kw, elems)
  {
    if !any { DistinctAlike(elems); }
  }

  /** What a node states of a value of its type, read keyword by keyword. */
  lemma {:induction false} NodeAgrees(re: Regex, s: Schema, v: Value, any: bool)
    requires Plain(s, any) && (any || !WholeFloats(v)) && !v.Null? && TypeOk(s.kw.typ, v)
    ensures
      && (s.kw.typ == Some(TString) ==> StringOk(re, s.kw, v.s))
      && (s.kw.typ in {Some(TInteger), Some(TNumber)} ==> NumberOk(s.kw, AsReal(v)))
      && (s.kw.typ == Some(TArray) ==> ArrayValid(re, s, v.elems))
      && (s.kw.typ == Some(TObject) ==> ObjectValid(re, s, v.fields))
      <==>
      && (v.Str? ==> TextSat(re, s.kw, v.s))
      && (IsNumeric(v) ==> NumberSat(s.kw, AsReal(v)))
      && (v.Arr? ==> ArrayShapeSat(s.kw, v.elems) && ArraySat(re, s, v.elems))
      && (v.Obj? ==> ObjectShapeSat(s.kw, v.fields) && ObjectSat(re, s, v.fields))
      && ConditionalSat(re, s, v)
    decreases s, 2
  {
    if Bare(s) { BareHolds(re, s, v); }
    if s.kw.typ in {Some(TInteger), Some(TNumber)} { NumbersAgree(s.kw, v, any); }
    if v.Str? { TextsAgree(re, s.kw, v.s); }
    if v.Arr? {
      ArraysAgree(re, s, v.elems, any);
      ShapesAgree(s.kw, v.elems, any);
    }
    if v.Obj? {
      ObjectsAgree(re, s, v.fields, any);
      NamesAgree(s.kw, v.fields);
    }
    hide StringOk, NumberOk, NumberSat, ArrayShapeOk, ArrayShapeSat, ArrayValid, ArraySat, ObjectValid, ObjectSat, PlainParts, PlainKeywords,
      RequiredOk, DependentRequiredOk, RequiredSat, DependentRequiredSat, TextSat, WholeFloats;
    assert s.ifSchema.None? ==> ConditionalSat(re, s, v);
    hide ConditionalSat;
  }

  /** On a plain schema, `validate_value` decides the stated meaning: of any value where nothing depends on telling
      integers from floats, of values without whole floats where something does. */
  lemma {:induction false} ValidatorAgrees(re: Regex, s: Schema, v: Value, any: bool)
    requires Plain(s, any) && (any || !WholeFloats(v))
    ensures Valid(re, s, v) <==> Sat(re, s, v)
    decreases s, 3
  {
    SatMeans(re, s, v);
    hide Sat, ArraySat, ObjectSat, SomeSat, OneSat, ArrayValid, ObjectValid, SomeValid, StringOk, NumberOk, ArrayShapeOk, NumberSat,
      ArrayShapeSat, ObjectShapeSat, PlainKeywords, ConditionalSat, EnumOk, ConstOk, EnumSat, ConstSat, TypeOk, TypeStated, WholeFloats;
    assert AllSat(re, s.allOf, v);
    if !v.Null? {
      VariantsAgree(re, s.anyOf, v, any);
      VariantsAgree(re, s.oneOf, v, any);
      if |s.oneOf| == 1 { OneOfOne(re, s.oneOf, v); }
      assert InPlaceSat(re, s, v) <==>
        (s.anyOf == [] || SomeValid(re, s.anyOf, v)) && (s.oneOf == [] || SomeValid(re, s.oneOf, v)) && ConditionalSat(re, s, v);
      TypesAgree(s.kw, v, any);
      if TypeOk(s.kw.typ, v) {
        ChoicesAgree(s.kw, v, any);
        NodeAgrees(re, s, v, any);
      }
    }
  }

  lemma {:induction false} BareHolds(re: Regex, s: Schema, v: Value)
    requires Bare(s)
    ensures v.Str? ==> TextSat(re, s.kw, v.s)
    ensures IsNumeric(v) ==> NumberOk(s.kw, AsReal(v)) && NumberSat(s.kw, AsReal(v))
    ensures v.Arr? ==> ArrayShapeSat(s.kw, v.elems) && ArraySat(re, s, v.elems)
    ensures v.Obj? ==> ObjectShapeSat(s.kw, v.fields) && ObjectSat(re, s, v.fields)
    ensures ConditionalSat(re, s, v)
  {
    if v.Arr? { assert PrefixSat(re, s, v.elems) && ItemsSat(re, s, v.elems) && ContainsSat(re, s, v.elems); }
    if v.Obj? {
      assert DependentsSat(re, s, v.fields) && NamesSat(re, s, v.fields) && PatternsSat(re, s, v.fields);
      assert FieldsSat(re, s, v.fields) && ExtrasSat(re, s, v.fields);
    }
  }

  /** Where the type is not `object` the validator passes over `if`: it agrees with what is stated exactly at the values
      it refuses and at those that meet the conditional. */
  lemma {:induction false} ConditionalExactly(re: Regex, s: Schema, v: Value, any: bool)
    requires Plain(s.(ifSchema := None), any) && (any || !WholeFloats(v)) && s.kw.typ != Some(TObject) && !v.Null?
    ensures (Valid(re, s, v) <==> Sat(re, s, v)) <==> (Valid(re, s, v) ==> ConditionalSat(re, s, v))
  {
    var unconditional := s.(ifSchema := None);
    ValidatorAgrees(re, unconditional, v, any);
    SatMeans(re, s, v);
    SatMeans(re, unconditional, v);
    assert ArrayValid(re, s, if v.Arr? then v.elems else []) == ArrayValid(re, unconditional, if v.Arr? then v.elems else []) by {
      var elems := if v.Arr? then v.elems else [];
      assert PrefixValid(re, s, elems) == PrefixValid(re, unconditional, elems) && ItemsValid(re, s, elems) == ItemsValid(re, unconditional, elems);
    }
    assert Valid(re, s, v) == Valid(re, unconditional, v);
    if v.Arr? { UnconditionalArrays(re, s, v.elems); }
    if v.Obj? { UnconditionalObjects(re, s, v.fields); }
  }

  lemma {:induction false} UnconditionalArrays(re: Regex, s: Schema, elems: seq<Value>)
    ensures ArraySat(re, s, elems) == ArraySat(re, s.(ifSchema := None), elems)
  {
    var u := s.(ifSchema := None);
    assert PrefixSat(re, s, elems) == PrefixSat(re, u, elems) && ItemsSat(re, s, elems) == ItemsSat(re, u, elems);
  }

  lemma {:induction false} UnconditionalObjects(re: Regex, s: Schema, fields: map<string, Value>)
    ensures ObjectSat(re, s, fields) == ObjectSat(re, s.(ifSchema := None), fields)
  {
    var u := s.(ifSchema := None);
    assert FieldsSat(re, s, fields) == FieldsSat(re, u, fields) && DependentsSat(re, s, fields) == DependentsSat(re, u, fields);
    assert NamesSat(re, s, fields) == NamesSat(re, u, fields) && PatternsSat(re, s, fields) == PatternsSat(re, u, fields);
    forall k ensures Covered(re, s, k) == Covered(re, u, k) {}
    assert ExtrasSat(re, s, fields) == ExtrasSat(re, u, fields);
  }

  /** Validating against the canonical form decides what the composition stated. */
  lemma {:induction false} CanonicalFormDecides(re: Regex, s: Schema, v: Value, any: bool)
    requires Faithful(s) && Plain(Canon(s), any) && (any || !WholeFloats(v))
    ensures Valid(re, Canon(s), v) <==> Sat(re, s, v)
  {
    CanonKeepsMeaning(re, s);
    ValidatorAgrees(re, Canon(s), v, any);
  }

  /** Asking for undeclared fields to be forbidden is closing the outermost node, where it does not say itself what it does
      with them; no schema at all accepts everything. */
  lemma {:induction false} ForbiddingCloses(re: Regex, s: Schema, v: Value)
    ensures Accepts(re, Some(s), v, true) <==> Valid(re, if s.additional == Unstated then s.(additional := Allowed(false)) else s, v)
    ensures Accepts(re, None, v, true) && Accepts(re, None, v, false)
    ensures Accepts(re, Some(s), v, false) <==> Valid(re, s, v)
  {
    if s.additional.Unstated? {
      ClosedParts(re, s, v);
      hide ArrayValid, ObjectValid, SomeValid;
    }
  }

  lemma {:induction false} ClosedParts(re: Regex, s: Schema, v: Value)
    requires s.additional.Unstated?
    ensures
      var closed := s.(additional := Allowed(false));
      && (s.kw.typ == Some(TArray) && v.Arr? ==> ArrayValid(re, s, v.elems) == ArrayValid(re, closed, v.elems))
      && (s.kw.typ == Some(TObject) && v.Obj? ==>
            ObjectValid(re, closed, v.fields) == (ObjectValid(re, s, v.fields) && Undeclared(re, s, v.fields) == {}))
  {
    hide Valid;
    var closed := s.(additional := Allowed(false));
    if s.kw.typ == Some(TArray) && v.Arr? {
      assert PrefixValid(re, s, v.elems) == PrefixValid(re, closed, v.elems) && ItemsValid(re, s, v.elems) == ItemsValid(re, closed, v.elems);
    }
    if s.kw.typ == Some(TObject) && v.Obj? {
      assert FieldsValid(re, s, v.fields) == FieldsValid(re, closed, v.fields) && DependentsValid(re, s, v.fields) == DependentsValid(re, closed, v.fields);
      assert NamesValid(re, s, v.fields) == NamesValid(re, closed, v.fields) && ConditionalValid(re, s, v.fields) == ConditionalValid(re, closed, v.fields);
      forall e | e in s.patternProperties ensures PatternValid(re, s, e, v.fields) == PatternValid(re, closed, e, v.fields) {}
      assert Undeclared(re, s, v.fields) == Undeclared(re, closed, v.fields);
    }
  }
}
