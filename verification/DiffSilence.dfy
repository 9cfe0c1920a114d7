/** An empty report means equivalence, where the comparison has no blind spot. */
module DiffSilence {
  import opened Model
  import opened Validation
  import Diff
  import opened DiffMeaning

  /** The blind spots are closed: `items` and variant lists are present and long alike on both sides, the same names
      are required of undeclared fields, and `additionalProperties` is unchanged. */
  predicate AlignedNode(prev: Schema, next: Schema) {
    && prev.items.Some? == next.items.Some?
    && |prev.oneOf| == |next.oneOf| && |prev.anyOf| == |next.anyOf|
    && (forall x :: x in prev.kw.required && x !in prev.properties ==> x in next.kw.required)
    && (forall x :: x in next.kw.required && x !in prev.properties ==> x in prev.kw.required)
    && prev.additional == next.additional
  }

  predicate AlignedOpt(o: Option<Schema>, n: Option<Schema>)
    decreases o, 0
  {
    o.Some? && n.Some? ==> Aligned(o.value, n.value)
  }

  predicate AlignedSeq(o: seq<Schema>, n: seq<Schema>)
    decreases o, 0
  {
    forall i :: 0 <= i < |o| && i < |n| ==> Aligned(o[i], n[i])
  }

  predicate Aligned(prev: Schema, next: Schema)
    decreases prev, 1
  {
    && AlignedNode(prev, next)
    && (forall x :: x in prev.properties && x in next.properties ==> Aligned(prev.properties[x], next.properties[x]))
    && (forall t :: t in prev.dependentSchemas && t in next.dependentSchemas ==> Aligned(prev.dependentSchemas[t], next.dependentSchemas[t]))
    && (forall e :: e in prev.patternProperties && e in next.patternProperties ==> Aligned(prev.patternProperties[e], next.patternProperties[e]))
    && AlignedOpt(prev.items, next.items) && AlignedSeq(prev.prefixItems, next.prefixItems)
    && AlignedOpt(prev.contains, next.contains) && AlignedOpt(prev.propertyNames, next.propertyNames)
    && AlignedOpt(prev.ifSchema, next.ifSchema) && AlignedOpt(prev.thenSchema, next.thenSchema) && AlignedOpt(prev.elseSchema, next.elseSchema)
    && AlignedSeq(prev.oneOf, next.oneOf) && AlignedSeq(prev.anyOf, next.anyOf)
  }

  // ------------------------------------------------------------------ parts that validate alike

  ghost predicate Alike(re: Regex, a: Schema, b: Schema) {
    forall v :: Valid(re, a, v) <==> Valid(re, b, v)
  }

  ghost predicate AlikeOpt(re: Regex, a: Option<Schema>, b: Option<Schema>) {
    a.Some? == b.Some? && (a.Some? ==> Alike(re, a.value, b.value))
  }

  ghost predicate AlikeSeq(re: Regex, a: seq<Schema>, b: seq<Schema>) {
    |a| == |b| && forall i :: 0 <= i < |a| ==> Alike(re, a[i], b[i])
  }

  ghost predicate AlikeMap(re: Regex, a: map<string, Schema>, b: map<string, Schema>) {
    a.Keys == b.Keys && forall x :: x in a ==> Alike(re, a[x], b[x])
  }

  ghost predicate AlikeParts(re: Regex, a: Schema, b: Schema) {
    && AlikeMap(re, a.properties, b.properties) && AlikeMap(re, a.patternProperties, b.patternProperties)
    && AlikeMap(re, a.dependentSchemas, b.dependentSchemas)
    && AlikeOpt(re, a.items, b.items) && AlikeSeq(re, a.prefixItems, b.prefixItems) && AlikeOpt(re, a.contains, b.contains)
    && AlikeOpt(re, a.propertyNames, b.propertyNames)
    && AlikeOpt(re, a.ifSchema, b.ifSchema) && AlikeOpt(re, a.thenSchema, b.thenSchema) && AlikeOpt(re, a.elseSchema, b.elseSchema)
    && AlikeSeq(re, a.oneOf, b.oneOf) && AlikeSeq(re, a.anyOf, b.anyOf)
    && a.additional == b.additional
  }

  ghost predicate AlikeKeywords(a: Keywords, b: Keywords) {
    && a.nullable == b.nullable && a.typ == b.typ && a.bounds == b.bounds && a.multipleOf == b.multipleOf
    && a.pattern == b.pattern && a.uniqueItems == b.uniqueItems && a.minContains == b.minContains && a.maxContains == b.maxContains
    && Diff.EnumEq(a.enum, b.enum) && PyEq(a.constant, b.constant)
    && (forall x :: x in a.required <==> x in b.required)
    && (forall t :: Diff.DependentRequiredOf(a.dependentRequired, t) == Diff.DependentRequiredOf(b.dependentRequired, t))
  }

  lemma {:induction false} EnumsAlike(a: Option<seq<Value>>, b: Option<seq<Value>>, v: Value)
    requires Diff.EnumEq(a, b)
    ensures EnumOk(a, v) == EnumOk(b, v)
  {
    if a.Some? {
      forall i | 0 <= i < |a.value| ensures PyEq(v, a.value[i]) == PyEq(v, b.value[i]) {}
    }
  }

  lemma {:induction false} RequiredAlike(a: Keywords, b: Keywords, fields: map<string, Value>)
    requires AlikeKeywords(a, b)
    ensures RequiredOk(a.required, fields) == RequiredOk(b.required, fields)
    ensures DependentRequiredOk(a.dependentRequired, fields) == DependentRequiredOk(b.dependentRequired, fields)
  {
    forall i | 0 <= i < |a.required| ensures a.required[i] in b.required { assert a.required[i] in a.required; }
    forall i | 0 <= i < |b.required| ensures b.required[i] in a.required { assert b.required[i] in b.required; }
    DependentsAlike(a, b, fields);
    DependentsAlike(b, a, fields);
  }

  lemma {:induction false} DependentsAlike(a: Keywords, b: Keywords, fields: map<string, Value>)
    requires forall t :: Diff.DependentRequiredOf(a.dependentRequired, t) == Diff.DependentRequiredOf(b.dependentRequired, t)
    ensures DependentRequiredOk(a.dependentRequired, fields) ==> DependentRequiredOk(b.dependentRequired, fields)
  {
    if DependentRequiredOk(a.dependentRequired, fields) {
      forall t | t in b.dependentRequired && t in fields ensures RequiredOk(b.dependentRequired[t], fields) {
        assert Diff.DependentRequiredOf(a.dependentRequired, t) == Diff.DependentRequiredOf(b.dependentRequired, t);
      }
    }
  }

  lemma {:induction false} ArraysAlike(re: Regex, a: Schema, b: Schema, elems: seq<Value>)
    requires AlikeParts(re, a, b) && AlikeKeywords(a.kw, b.kw)
    ensures ArrayValid(re, a, elems) == ArrayValid(re, b, elems)
  {
    hide Valid;
    assert PrefixValid(re, a, elems) == PrefixValid(re, b, elems);
    assert ItemsValid(re, a, elems) == ItemsValid(re, b, elems);
    if a.contains.Some? {
      assert Matching(re, a.contains.value, elems) == Matching(re, b.contains.value, elems);
    }
  }

  lemma {:induction false} ExtrasAlike(re: Regex, a: Schema, b: Schema, fields: map<string, Value>)
    requires AlikeParts(re, a, b)
    ensures ExtrasValid(re, a, fields) == ExtrasValid(re, b, fields)
  {
    hide Valid;
    forall k ensures MatchedByPattern(re, a.patternProperties, k) == MatchedByPattern(re, b.patternProperties, k) {}
    assert Undeclared(re, a, fields) == Undeclared(re, b, fields);
  }

  lemma {:induction false} ObjectsAlike(re: Regex, a: Schema, b: Schema, fields: map<string, Value>)
    requires AlikeParts(re, a, b) && AlikeKeywords(a.kw, b.kw)
    ensures ObjectValid(re, a, fields) == ObjectValid(re, b, fields)
  {
    hide Valid;
    RequiredAlike(a.kw, b.kw, fields);
    ExtrasAlike(re, a, b, fields);
    assert FieldsValid(re, a, fields) == FieldsValid(re, b, fields);
    assert DependentsValid(re, a, fields) == DependentsValid(re, b, fields);
    assert NamesValid(re, a, fields) == NamesValid(re, b, fields);
    assert ConditionalValid(re, a, fields) == ConditionalValid(re, b, fields);
    forall e | e in a.patternProperties ensures PatternValid(re, a, e, fields) == PatternValid(re, b, e, fields) {}
    assert PatternsValid(re, a, fields) == PatternsValid(re, b, fields);
  }

  lemma {:induction false} NodesAlike(re: Regex, a: Schema, b: Schema)
    requires AlikeParts(re, a, b) && AlikeKeywords(a.kw, b.kw)
    ensures Alike(re, a, b)
  {
    forall v ensures Valid(re, a, v) == Valid(re, b, v) {
      hide ArrayValid, ObjectValid, AlikeParts;
      EnumsAlike(a.kw.enum, b.kw.enum, v);
      if v.Arr? { ArraysAlike(re, a, b, v.elems); }
      if v.Obj? { ObjectsAlike(re, a, b, v.fields); }
      VariantsAlike(re, a, b, v);
      hide SomeValid, EnumOk, TypeOk, StringOk, NumberOk, TypeMatches;
      assert a.kw.typ == b.kw.typ;
      LeavesAlike(re, a.kw, b.kw, v);
    }
  }

  lemma {:induction false} VariantsAlike(re: Regex, a: Schema, b: Schema, v: Value)
    requires AlikeParts(re, a, b)
    ensures (a.anyOf == [] || SomeValid(re, a.anyOf, v)) == (b.anyOf == [] || SomeValid(re, b.anyOf, v))
    ensures (a.oneOf == [] || SomeValid(re, a.oneOf, v)) == (b.oneOf == [] || SomeValid(re, b.oneOf, v))
  {
    hide Valid;
  }

  lemma {:induction false} LeavesAlike(re: Regex, a: Keywords, b: Keywords, v: Value)
    requires AlikeKeywords(a, b)
    ensures ConstOk(a.constant, v) == ConstOk(b.constant, v)
    ensures v.Str? ==> StringOk(re, a, v.s) == StringOk(re, b, v.s)
    ensures IsNumeric(v) ==> NumberOk(a, AsReal(v)) == NumberOk(b, AsReal(v))
  {
  }

  // ------------------------------------------------------------------ the theorem

  lemma {:induction false} QuietNode(prev: Schema, next: Schema)
    requires Quiet(prev, next) && AlignedNode(prev, next)
    ensures AlikeKeywords(prev.kw, next.kw)
  {
    forall x ensures x in prev.kw.required <==> x in next.kw.required {}
  }

  lemma {:induction false} QuietOptAlike(re: Regex, o: Option<Schema>, n: Option<Schema>)
    requires QuietOpt(o, n) && AlignedOpt(o, n) && o.Some? == n.Some?
    ensures AlikeOpt(re, o, n)
    decreases o, 0
  {
    hide Quiet, Aligned;
    if o.Some? { SilentMeansAlike(re, o.value, n.value); }
  }

  lemma {:induction false} QuietSeqAlike(re: Regex, o: seq<Schema>, n: seq<Schema>)
    requires |o| == |n| && AlignedSeq(o, n) && forall i :: 0 <= i < |o| ==> Quiet(o[i], n[i])
    ensures AlikeSeq(re, o, n)
    decreases o, 0
  {
    hide Quiet, Aligned;
    forall i | 0 <= i < |o| ensures Alike(re, o[i], n[i]) { SilentMeansAlike(re, o[i], n[i]); }
  }

  lemma {:induction false} QuietMapsAlike(re: Regex, prev: Schema, next: Schema)
    requires Quiet(prev, next) && Aligned(prev, next)
    ensures AlikeMap(re, prev.properties, next.properties) && AlikeMap(re, prev.patternProperties, next.patternProperties)
    ensures AlikeMap(re, prev.dependentSchemas, next.dependentSchemas)
    decreases prev, 0
  {
    forall x | x in prev.properties ensures Alike(re, prev.properties[x], next.properties[x]) {
      SilentMeansAlike(re, prev.properties[x], next.properties[x]);
    }
    forall e | e in prev.patternProperties ensures Alike(re, prev.patternProperties[e], next.patternProperties[e]) {
      SilentMeansAlike(re, prev.patternProperties[e], next.patternProperties[e]);
    }
    forall t | t in prev.dependentSchemas ensures Alike(re, prev.dependentSchemas[t], next.dependentSchemas[t]) {
      SilentMeansAlike(re, prev.dependentSchemas[t], next.dependentSchemas[t]);
    }
  }

  lemma {:induction false} QuietListsAlike(re: Regex, prev: Schema, next: Schema)
    requires Quiet(prev, next) && Aligned(prev, next)
    ensures AlikeSeq(re, prev.prefixItems, next.prefixItems)
    ensures AlikeSeq(re, prev.oneOf, next.oneOf) && AlikeSeq(re, prev.anyOf, next.anyOf)
    decreases prev, 0
  {
    assert QuietMiddle(prev, next) && QuietLater(prev, next);
    assert QuietVariants(prev.oneOf, next.oneOf) && QuietVariants(prev.anyOf, next.anyOf);
    QuietSeqAlike(re, prev.prefixItems, next.prefixItems);
    QuietSeqAlike(re, prev.oneOf, next.oneOf);
    QuietSeqAlike(re, prev.anyOf, next.anyOf);
  }

  lemma {:induction false} QuietOptionsAlike(re: Regex, prev: Schema, next: Schema)
    requires Quiet(prev, next) && Aligned(prev, next)
    ensures AlikeOpt(re, prev.items, next.items) && AlikeOpt(re, prev.contains, next.contains)
    ensures AlikeOpt(re, prev.propertyNames, next.propertyNames)
    ensures AlikeOpt(re, prev.ifSchema, next.ifSchema) && AlikeOpt(re, prev.thenSchema, next.thenSchema)
    ensures AlikeOpt(re, prev.elseSchema, next.elseSchema)
    decreases prev, 0
  {
    assert QuietMiddle(prev, next) && QuietSingle(prev, next);
    assert QuietLoud(prev.contains, next.contains) && QuietLoud(prev.propertyNames, next.propertyNames);
    assert QuietLoud(prev.ifSchema, next.ifSchema) && QuietLoud(prev.thenSchema, next.thenSchema) && QuietLoud(prev.elseSchema, next.elseSchema);
    QuietOptAlike(re, prev.items, next.items);
    QuietOptAlike(re, prev.contains, next.contains);
    QuietOptAlike(re, prev.propertyNames, next.propertyNames);
    QuietOptAlike(re, prev.ifSchema, next.ifSchema);
    QuietOptAlike(re, prev.thenSchema, next.thenSchema);
    QuietOptAlike(re, prev.elseSchema, next.elseSchema);
  }

  lemma {:induction false} SilentMeansAlike(re: Regex, prev: Schema, next: Schema)
    requires Quiet(prev, next) && Aligned(prev, next)
    ensures Alike(re, prev, next)
    decreases prev, 1
  {
    QuietNode(prev, next);
    QuietMapsAlike(re, prev, next);
    QuietListsAlike(re, prev, next);
    QuietOptionsAlike(re, prev, next);
    hide Quiet, Alike, AlikeKeywords;
    NodesAlike(re, prev, next);
  }

  lemma {:induction false} SameUndeclared(re: Regex, prev: Schema, next: Schema, fields: map<string, Value>)
    requires prev.properties.Keys == next.properties.Keys && prev.patternProperties.Keys == next.patternProperties.Keys
    ensures Undeclared(re, prev, fields) == Undeclared(re, next, fields)
  {
    forall k ensures MatchedByPattern(re, prev.patternProperties, k) == MatchedByPattern(re, next.patternProperties, k) {}
  }

  /** A silent comparison means the two revisions accept the same values, with and without `forbid_undeclared_fields`. */
  lemma {:induction false} EmptyDiffMeansEquivalence(re: Regex, prev: Schema, next: Schema, v: Value, forbid: bool)
    requires Diff.SchemaEntries(prev, next, []) == [] && Aligned(prev, next)
    ensures Accepts(re, Some(prev), v, forbid) <==> Accepts(re, Some(next), v, forbid)
  {
    SilentIsQuiet(prev, next, []);
    assert QuietKeywords(prev.kw, next.kw) && QuietFields(prev, next) && QuietLater(prev, next) && AlignedNode(prev, next);
    hide Quiet, Valid, Aligned, Diff.SchemaEntries, QuietKeywords;
    SilentMeansAlike(re, prev, next);
    if v.Obj? { SameUndeclared(re, prev, next, v.fields); }
    assert prev.kw.typ == next.kw.typ by { QuietTypes(prev.kw, next.kw); }
  }

  lemma {:induction false} QuietTypes(o: Keywords, n: Keywords)
    requires QuietKeywords(o, n)
    ensures o.typ == n.typ
  {
  }
}
