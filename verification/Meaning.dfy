/** What a schema states, read as JSON Schema 2020-12 reads it: keywords apply by the kind of the value, sub-schemas
    applied in place see every value (section 10.2 of JSON Schema Core), `allOf` is a conjunction (10.2.1.1), `oneOf`
    wants exactly one variant. `null` is decided by the model's `nullable` flag, on the node and on every conjunct.
 */
module Meaning {
  import opened Model
  import opened Ordering
  import opened Validation

  // ------------------------------------------------------------------ single keywords

  /** JSON equality (section 4.2.2 of JSON Schema Core): numbers are compared by value, and a boolean is not a number.
      Two values are equal when their normal forms are the same value. */
  function JsonNorm(v: Value): Value {
    match v
    case Int(i) => Float(i as real)
    case Arr(elems) => Arr(seq(|elems|, i requires 0 <= i < |elems| => JsonNorm(elems[i])))
    case Obj(fields) => Obj(map k | k in fields :: JsonNorm(fields[k]))
    case _ => v
  }

  predicate JsonEq(a: Value, b: Value) { JsonNorm(a) == JsonNorm(b) }

  predicate JsonMember(v: Value, values: seq<Value>) {
    exists i :: 0 <= i < |values| && JsonEq(v, values[i])
  }

  predicate Whole(x: real) { x.Floor as real == x }

  /** An integer is any number without a fractional part (section 6.1.1 of JSON Schema Validation). The standard knows no
      other type names; they are read as stating nothing. */
  predicate TypeSat(t: JType, v: Value) {
    match t
    case TObject => v.Obj?
    case TArray => v.Arr?
    case TString => v.Str?
    case TBoolean => v.Bool?
    case TInteger => v.Int? || (v.Float? && Whole(v.r))
    case TNumber => v.Int? || v.Float?
    case TNull => v.Null?
    case TUnion(members) => exists i :: 0 <= i < |members| && TypeSat(members[i], v)
    case TOther(_) => true
  }

  predicate TypeStated(t: Option<JType>, v: Value) { t.Some? ==> TypeSat(t.value, v) }

  predicate EnumSat(e: Option<seq<Value>>, v: Value) { e.Some? ==> JsonMember(v, e.value) }

  predicate ConstSat(c: Value, v: Value) { !c.Null? ==> JsonEq(v, c) }

  predicate MultipleSat(m: Option<real>, x: real) {
    m.Some? && m.value != 0.0 ==> Whole(x / m.value)
  }

  /** Two inclusive and two exclusive limits (sections 6.2.2 to 6.2.5 of JSON Schema Validation). */
  predicate RangeSat(b: Bounds, x: real) {
    && (b.minimum.Some? ==> x >= b.minimum.value) && (b.maximum.Some? ==> x <= b.maximum.value)
    && (b.exclusiveMinimum.Some? ==> x > b.exclusiveMinimum.value) && (b.exclusiveMaximum.Some? ==> x < b.exclusiveMaximum.value)
  }

  predicate NumberSat(kw: Keywords, x: real) {
    RangeSat(kw.bounds, x) && MultipleSat(kw.multipleOf, x)
  }

  /** A count between two inclusive limits (sections 6.3.1, 6.3.2, 6.4.1, 6.4.2, 6.5.1 and 6.5.2). */
  predicate CountSat(low: Option<int>, high: Option<int>, n: nat) {
    (low.Some? ==> n >= low.value) && (high.Some? ==> n <= high.value)
  }

  predicate TextSat(re: Regex, kw: Keywords, text: string) {
    CountSat(kw.bounds.minLength, kw.bounds.maxLength, |text|) && (kw.pattern.Some? ==> re.search(kw.pattern.value, text))
  }

  predicate JsonDistinct(xs: seq<Value>) {
    forall i, j :: 0 <= i < j < |xs| ==> !JsonEq(xs[i], xs[j])
  }

  predicate ArrayShapeSat(kw: Keywords, elems: seq<Value>) {
    && CountSat(kw.bounds.minItems, kw.bounds.maxItems, |elems|)
    && (kw.uniqueItems == Some(true) ==> JsonDistinct(elems))
  }

  /** Every keyword of the node itself that is not a schema. */
  predicate KeywordsSat(re: Regex, kw: Keywords, v: Value) {
    && EnumSat(kw.enum, v) && ConstSat(kw.constant, v) && TypeStated(kw.typ, v)
    && (v.Str? ==> TextSat(re, kw, v.s))
    && (IsNumeric(v) ==> NumberSat(kw, AsReal(v)))
    && (v.Arr? ==> ArrayShapeSat(kw, v.elems))
    && (v.Obj? ==> ObjectShapeSat(kw, v.fields))
  }

  predicate RequiredSat(required: seq<string>, fields: map<string, Value>) {
    forall name :: name in required ==> name in fields
  }

  predicate DependentRequiredSat(deps: map<string, seq<string>>, fields: map<string, Value>) {
    forall t, name :: t in deps && t in fields && name in deps[t] ==> name in fields
  }

  predicate ObjectShapeSat(kw: Keywords, fields: map<string, Value>) {
    && RequiredSat(kw.required, fields)
    && CountSat(kw.bounds.minProperties, kw.bounds.maxProperties, |fields|)
    && DependentRequiredSat(kw.dependentRequired, fields)
  }

  ghost predicate Sat(re: Regex, s: Schema, v: Value)
    decreases s, 1
  {
    AllSat(re, s.allOf, v) && Core(re, s, v)
  }

  /** Everything but `allOf`. */
  ghost predicate Core(re: Regex, s: Schema, v: Value)
    decreases s, 0, 2
  {
    if v.Null? then s.kw.nullable
    else
      && KeywordsSat(re, s.kw, v)
      && (v.Arr? ==> ArraySat(re, s, v.elems))
      && (v.Obj? ==> ObjectSat(re, s, v.fields))
      && InPlaceSat(re, s, v)
  }

  ghost predicate AllSat(re: Regex, all: seq<Schema>, v: Value)
    decreases all, 0
  {
    forall i :: 0 <= i < |all| ==> Sat(re, all[i], v)
  }

  ghost predicate ArraySat(re: Regex, s: Schema, elems: seq<Value>)
    decreases s, 0, 1
  {
    PrefixSat(re, s, elems) && ItemsSat(re, s, elems) && ContainsSat(re, s, elems)
  }

  ghost predicate ObjectSat(re: Regex, s: Schema, fields: map<string, Value>)
    decreases s, 0, 1
  {
    FieldsSat(re, s, fields) && GuardsSat(re, s, fields) && ExtrasSat(re, s, fields)
  }

  ghost predicate GuardsSat(re: Regex, s: Schema, fields: map<string, Value>)
    decreases s, 0, 0, 1
  {
    && DependentsSat(re, s, fields)
    && NamesSat(re, s, fields)
    && PatternsSat(re, s, fields)
  }

  ghost predicate PrefixSat(re: Regex, s: Schema, elems: seq<Value>)
    decreases s, 0, 0
  {
    forall i :: 0 <= i < |s.prefixItems| && i < |elems| ==> Sat(re, s.prefixItems[i], elems[i])
  }

  ghost predicate ItemsSat(re: Regex, s: Schema, elems: seq<Value>)
    decreases s, 0, 0
  {
    s.items.Some? ==> forall i :: |s.prefixItems| <= i < |elems| ==> Sat(re, s.items.value, elems[i])
  }

  ghost predicate ContainsSat(re: Regex, s: Schema, elems: seq<Value>)
    decreases s, 0, 0
  {
    s.contains.Some? ==> ContainedSat(s.kw, |Satisfying(re, s.contains.value, elems)|)
  }

  /** Without `minContains`, one is wanted (sections 6.4.4 and 6.4.5). */
  predicate ContainedSat(kw: Keywords, n: nat) {
    CountSat(if kw.minContains.Some? then kw.minContains else Some(1), kw.maxContains, n)
  }

  ghost function Satisfying(re: Regex, c: Schema, elems: seq<Value>): set<int>
    decreases c, 2
  {
    set i | 0 <= i < |elems| && Sat(re, c, elems[i])
  }

  ghost predicate FieldsSat(re: Regex, s: Schema, fields: map<string, Value>)
    decreases s, 0, 0
  {
    forall k :: k in s.properties && k in fields ==> Sat(re, s.properties[k], fields[k])
  }

  ghost predicate DependentsSat(re: Regex, s: Schema, fields: map<string, Value>)
    decreases s, 0, 0, 0
  {
    forall t :: t in s.dependentSchemas && t in fields ==> Sat(re, s.dependentSchemas[t], Obj(fields))
  }

  ghost predicate NamesSat(re: Regex, s: Schema, fields: map<string, Value>)
    decreases s, 0, 0, 0
  {
    s.propertyNames.Some? ==> forall k :: k in fields ==> Sat(re, s.propertyNames.value, Str(k))
  }

  ghost predicate PatternsSat(re: Regex, s: Schema, fields: map<string, Value>)
    decreases s, 0, 0, 0
  {
    && (forall e :: e in s.patternProperties ==> re.compiles(e))
    && (forall e, k :: e in s.patternProperties && k in fields && re.search(e, k) ==>
          Sat(re, s.patternProperties[e], fields[k]))
  }

  ghost predicate ExtrasSat(re: Regex, s: Schema, fields: map<string, Value>)
    decreases s, 0, 0
  {
    && (s.additional == Allowed(false) ==> forall k :: k in fields ==> Covered(re, s, k))
    && (s.additional.Described? ==>
          forall k :: k in fields && !Covered(re, s, k) ==> Sat(re, s.additional.schema, fields[k]))
  }

  /** A name `additionalProperties` does not apply to (section 10.3.2.3 of JSON Schema Core). */
  ghost predicate Covered(re: Regex, s: Schema, k: string) {
    k in s.properties || exists e :: e in s.patternProperties && re.compiles(e) && re.search(e, k)
  }

  /** The sub-schemas applied to the value itself. */
  ghost predicate InPlaceSat(re: Regex, s: Schema, v: Value)
    decreases s, 0, 1
  {
    && (s.anyOf == [] || SomeSat(re, s.anyOf, v))
    && (s.oneOf == [] || OneSat(re, s.oneOf, v))
    && (s.not_.Some? ==> !Sat(re, s.not_.value, v))
    && ConditionalSat(re, s, v)
  }

  ghost predicate ConditionalSat(re: Regex, s: Schema, v: Value)
    decreases s, 0, 0
  {
    s.ifSchema.Some? ==>
      if Sat(re, s.ifSchema.value, v)
      then s.thenSchema.Some? ==> Sat(re, s.thenSchema.value, v)
      else s.elseSchema.Some? ==> Sat(re, s.elseSchema.value, v)
  }

  ghost predicate SomeSat(re: Regex, variants: seq<Schema>, v: Value)
    decreases variants, 0
  {
    exists i :: 0 <= i < |variants| && Sat(re, variants[i], v)
  }

  ghost predicate OneSat(re: Regex, variants: seq<Schema>, v: Value)
    decreases variants, 0, 1
  {
    exists i :: 0 <= i < |variants| && Sat(re, variants[i], v) && NoOtherSat(re, variants, i, v)
  }

  ghost predicate NoOtherSat(re: Regex, variants: seq<Schema>, i: int, v: Value)
    decreases variants, 0, 0
  {
    forall j :: 0 <= j < |variants| && j != i ==> !Sat(re, variants[j], v)
  }

  lemma {:induction false} SatMeans(re: Regex, s: Schema, v: Value)
    ensures Sat(re, s, v) <==> AllSat(re, s.allOf, v) && Core(re, s, v)
    ensures Core(re, s, v) <==>
      if v.Null? then s.kw.nullable
      else
        && KeywordsSat(re, s.kw, v)
        && (v.Arr? ==> ArraySat(re, s, v.elems))
        && (v.Obj? ==> ObjectSat(re, s, v.fields))
        && InPlaceSat(re, s, v)
  {
  }

  // ------------------------------------------------------------------ same meaning

  ghost predicate Same(re: Regex, a: Schema, b: Schema) {
    forall v :: Sat(re, a, v) <==> Sat(re, b, v)
  }

  ghost predicate SameOpt(re: Regex, a: Option<Schema>, b: Option<Schema>) {
    a.Some? == b.Some? && (a.Some? ==> Same(re, a.value, b.value))
  }

  ghost predicate SameSeq(re: Regex, a: seq<Schema>, b: seq<Schema>) {
    |a| == |b| && forall i :: 0 <= i < |a| ==> Same(re, a[i], b[i])
  }

  ghost predicate SameMap(re: Regex, a: map<string, Schema>, b: map<string, Schema>) {
    a.Keys == b.Keys && forall k :: k in a ==> Same(re, a[k], b[k])
  }

  ghost predicate SameAdditional(re: Regex, a: Additional, b: Additional) {
    if a.Described? then b.Described? && Same(re, a.schema, b.schema) else a == b
  }

  /** Membership sees only which members are present. */
  lemma {:induction false} JsonMemberSame(v: Value, xs: seq<Value>, ys: seq<Value>)
    requires SameElements(xs, ys)
    ensures JsonMember(v, xs) == JsonMember(v, ys)
  {
    forall i | 0 <= i < |xs| && JsonEq(v, xs[i]) ensures JsonMember(v, ys) { assert xs[i] in ys; }
    forall i | 0 <= i < |ys| && JsonEq(v, ys[i]) ensures JsonMember(v, xs) { assert ys[i] in xs; }
  }

  ghost predicate SameMembers(a: Option<seq<Value>>, b: Option<seq<Value>>) {
    a.Some? == b.Some? && (a.Some? ==> forall v :: JsonMember(v, a.value) <==> JsonMember(v, b.value))
  }

  ghost predicate SameNames(a: seq<string>, b: seq<string>) {
    forall n :: n in a <==> n in b
  }

  ghost predicate SameDependents(a: map<string, seq<string>>, b: map<string, seq<string>>) {
    a.Keys == b.Keys && forall t :: t in a ==> SameNames(a[t], b[t])
  }

  /** Keywords that differ at most in the order and repetition of what are sets written as lists. */
  ghost predicate SameKeywords(a: Keywords, b: Keywords) {
    && SameMembers(a.enum, b.enum)
    && SameNames(a.required, b.required)
    && SameDependents(a.dependentRequired, b.dependentRequired)
    && b == a.(enum := b.enum, required := b.required, dependentRequired := b.dependentRequired)
  }

  lemma {:induction false} RequiredSame(a: seq<string>, b: seq<string>, fields: map<string, Value>)
    requires SameNames(a, b)
    ensures RequiredSat(a, fields) == RequiredSat(b, fields)
  {
  }

  lemma {:induction false} DependentNames(deps: map<string, seq<string>>, fields: map<string, Value>)
    ensures DependentRequiredSat(deps, fields) <==> forall t :: t in deps && t in fields ==> RequiredSat(deps[t], fields)
  {
  }

  lemma {:induction false} KeywordsSame(re: Regex, a: Keywords, b: Keywords, v: Value)
    requires SameKeywords(a, b)
    ensures KeywordsSat(re, a, v) == KeywordsSat(re, b, v)
  {
    if v.Obj? {
      RequiredSame(a.required, b.required, v.fields);
      forall t | t in a.dependentRequired
        ensures RequiredSat(a.dependentRequired[t], v.fields) == RequiredSat(b.dependentRequired[t], v.fields)
      {
        RequiredSame(a.dependentRequired[t], b.dependentRequired[t], v.fields);
      }
      DependentNames(a.dependentRequired, v.fields);
      DependentNames(b.dependentRequired, v.fields);
    }
  }

  /** Sub-schemas may be replaced, position by position, by schemas that mean the same. */
  ghost predicate SameParts(re: Regex, a: Schema, b: Schema) {
    && SameKeywords(a.kw, b.kw)
    && SameMap(re, a.properties, b.properties)
    && SameAdditional(re, a.additional, b.additional)
    && SameOpt(re, a.items, b.items)
    && SameSeq(re, a.prefixItems, b.prefixItems)
    && SameOpt(re, a.contains, b.contains)
    && SameMap(re, a.patternProperties, b.patternProperties)
    && SameOpt(re, a.propertyNames, b.propertyNames)
    && SameMap(re, a.dependentSchemas, b.dependentSchemas)
    && SameOpt(re, a.ifSchema, b.ifSchema) && SameOpt(re, a.thenSchema, b.thenSchema) && SameOpt(re, a.elseSchema, b.elseSchema)
    && SameSeq(re, a.oneOf, b.oneOf) && SameSeq(re, a.anyOf, b.anyOf)
    && SameOpt(re, a.not_, b.not_)
  }

  lemma {:induction false} ArraysSame(re: Regex, a: Schema, b: Schema, elems: seq<Value>)
    requires SameParts(re, a, b)
    ensures ArraySat(re, a, elems) == ArraySat(re, b, elems)
  {
    assert PrefixSat(re, a, elems) == PrefixSat(re, b, elems);
    assert ItemsSat(re, a, elems) == ItemsSat(re, b, elems);
    if a.contains.Some? {
      assert Satisfying(re, a.contains.value, elems) == Satisfying(re, b.contains.value, elems);
    }
  }

  lemma {:induction false} ObjectsSame(re: Regex, a: Schema, b: Schema, fields: map<string, Value>)
    requires SameParts(re, a, b)
    ensures ObjectSat(re, a, fields) == ObjectSat(re, b, fields)
  {
    assert FieldsSat(re, a, fields) == FieldsSat(re, b, fields);
    assert DependentsSat(re, a, fields) == DependentsSat(re, b, fields);
    assert NamesSat(re, a, fields) == NamesSat(re, b, fields);
    assert PatternsSat(re, a, fields) == PatternsSat(re, b, fields);
    forall k ensures Covered(re, a, k) == Covered(re, b, k) {}
    assert ExtrasSat(re, a, fields) == ExtrasSat(re, b, fields);
  }

  lemma {:induction false} VariantsSame(re: Regex, a: Schema, b: Schema, v: Value)
    requires SameParts(re, a, b)
    ensures InPlaceSat(re, a, v) == InPlaceSat(re, b, v)
  {
    if OneSat(re, a.oneOf, v) { OneSame(re, a.oneOf, b.oneOf, v); }
    if OneSat(re, b.oneOf, v) { OneSame(re, b.oneOf, a.oneOf, v); }
    assert SomeSat(re, a.anyOf, v) == SomeSat(re, b.anyOf, v);
    assert ConditionalSat(re, a, v) == ConditionalSat(re, b, v);
  }

  lemma {:induction false} OneSame(re: Regex, a: seq<Schema>, b: seq<Schema>, v: Value)
    requires SameSeq(re, a, b) && OneSat(re, a, v)
    ensures OneSat(re, b, v)
  {
    var i :| 0 <= i < |a| && Sat(re, a[i], v) && NoOtherSat(re, a, i, v);
    assert NoOtherSat(re, b, i, v);
  }

  lemma {:induction false} CoreSame(re: Regex, a: Schema, b: Schema, v: Value)
    requires SameParts(re, a, b)
    ensures Core(re, a, v) == Core(re, b, v)
  {
    KeywordsSame(re, a.kw, b.kw, v);
    VariantsSame(re, a, b, v);
    if v.Arr? { ArraysSame(re, a, b, v.elems); }
    if v.Obj? { ObjectsSame(re, a, b, v.fields); }
  }

  /** The congruence: same parts and equivalent conjunctions give the same meaning. */
  lemma {:induction false} Congruence(re: Regex, a: Schema, b: Schema)
    requires SameParts(re, a, b)
    requires forall v :: AllSat(re, a.allOf, v) <==> AllSat(re, b.allOf, v)
    ensures Same(re, a, b)
  {
    forall v ensures Sat(re, a, v) == Sat(re, b, v) { CoreSame(re, a, b, v); }
  }

  /** A composition is the conjunction of its host and its branches. */
  lemma {:induction false} HostAndBranches(re: Regex, s: Schema, all: seq<Schema>, v: Value)
    ensures Sat(re, s.(allOf := all), v) <==> Sat(re, s.(allOf := []), v) && AllSat(re, all, v)
  {
    CoreSame(re, s.(allOf := all), s.(allOf := []), v);
  }
}
