/** Canonicalization and meaning: what one merge keeps, what a chain of merges keeps, and what the write-through into
    the branches of a kept composition does to their conjunction. */
module MergeMeaning {
  import opened Model
  import opened Ordering
  import opened Validation
  import opened Meaning
  import opened Canonical

  // ------------------------------------------------------------------ keywords

  /** Values that are equal in JSON are `==` in Python; the converse fails where a boolean meets 0 or 1. */
  lemma {:induction false} EqualAreEqual(a: Value, b: Value)
    requires JsonEq(a, b)
    ensures PyEq(a, b)
  {
    if a.Arr? && b.Arr? {
      assert |a.elems| == |JsonNorm(a).elems| == |JsonNorm(b).elems| == |b.elems|;
      forall i | 0 <= i < |a.elems| ensures PyEq(a.elems[i], b.elems[i]) {
        assert JsonNorm(a).elems[i] == JsonNorm(b).elems[i];
        EqualAreEqual(a.elems[i], b.elems[i]);
      }
      assert Norm(a).elems == Norm(b).elems;
    }
    if a.Obj? && b.Obj? {
      assert a.fields.Keys == JsonNorm(a).fields.Keys == JsonNorm(b).fields.Keys == b.fields.Keys;
      forall k | k in a.fields ensures PyEq(a.fields[k], b.fields[k]) {
        assert JsonNorm(a).fields[k] == JsonNorm(b).fields[k];
        EqualAreEqual(a.fields[k], b.fields[k]);
      }
      assert Norm(a).fields == Norm(b).fields;
    }
  }

  lemma {:induction false} MemberIn(v: Value, e: Value, values: seq<Value>)
    requires e in values && JsonEq(v, e)
    ensures JsonMember(v, values) && Member(v, values)
  {
    EqualAreEqual(v, e);
    var i :| 0 <= i < |values| && values[i] == e;
  }

  /** A member of one list that Python finds in the other is there in JSON too: no boolean is taken for 0 or 1. */
  predicate ToldApart(ours: seq<Value>, theirs: seq<Value>) {
    forall i :: 0 <= i < |ours| && Member(ours[i], theirs) ==> JsonMember(ours[i], theirs)
  }

  lemma {:induction false} CommonMembers(ours: seq<Value>, theirs: seq<Value>, v: Value)
    ensures JsonMember(v, ours) && JsonMember(v, theirs) ==> JsonMember(v, Common(ours, theirs))
    ensures JsonMember(v, Common(ours, theirs)) ==> JsonMember(v, ours)
    ensures JsonMember(v, Common(ours, theirs)) && ToldApart(ours, theirs) ==> JsonMember(v, theirs)
  {
    CommonElements(ours, theirs);
    var c := Common(ours, theirs);
    if JsonMember(v, ours) && JsonMember(v, theirs) {
      var i :| 0 <= i < |ours| && JsonEq(v, ours[i]);
      var j :| 0 <= j < |theirs| && JsonEq(v, theirs[j]);
      assert ours[i] in ours && theirs[j] in theirs;
      MemberIn(ours[i], theirs[j], theirs);
      MemberIn(v, ours[i], c);
    }
    if JsonMember(v, c) {
      var k :| 0 <= k < |c| && JsonEq(v, c[k]);
      assert c[k] in c;
      MemberIn(v, c[k], ours);
      if ToldApart(ours, theirs) {
        var i :| 0 <= i < |ours| && ours[i] == c[k];
        var j :| 0 <= j < |theirs| && JsonEq(c[k], theirs[j]);
        MemberIn(v, theirs[j], theirs);
      }
    }
  }

  predicate EnumsKept(t: Option<seq<Value>>, b: Option<seq<Value>>) {
    t.Some? && b.Some? ==> ToldApart(t.value, b.value)
  }

  lemma {:induction false} MeetEnumsSat(t: Option<seq<Value>>, b: Option<seq<Value>>, v: Value)
    ensures EnumSat(t, v) && EnumSat(b, v) ==> EnumSat(MeetEnums(t, b), v)
    ensures EnumSat(MeetEnums(t, b), v) ==> EnumSat(t, v)
    ensures EnumSat(MeetEnums(t, b), v) && EnumsKept(t, b) ==> EnumSat(b, v)
  {
    if b.Some? {
      var kept := if t.None? then b.value else Common(t.value, b.value);
      StableUniqueElements(kept);
      JsonMemberSame(v, kept, StableUnique(kept));
      if t.Some? { CommonMembers(t.value, b.value, v); }
    }
  }

  /** The intersection of two enums is what both accept, for every value, exactly when no member of the one is found in
      the other only because Python takes booleans for numbers. */
  lemma {:induction false} IntersectionExactly(t: seq<Value>, b: seq<Value>)
    ensures (forall v :: EnumSat(MeetEnums(Some(t), Some(b)), v) <==> EnumSat(Some(t), v) && EnumSat(Some(b), v))
      <==> ToldApart(t, b)
  {
    forall v | ToldApart(t, b)
      ensures EnumSat(MeetEnums(Some(t), Some(b)), v) <==> EnumSat(Some(t), v) && EnumSat(Some(b), v)
    {
      MeetEnumsSat(Some(t), Some(b), v);
    }
    if !ToldApart(t, b) {
      var i :| 0 <= i < |t| && Member(t[i], b) && !JsonMember(t[i], b);
      CommonElements(t, b);
      StableUniqueElements(Common(t, b));
      assert t[i] in StableUnique(Common(t, b));
      MemberIn(t[i], t[i], StableUnique(Common(t, b)));
      assert EnumSat(MeetEnums(Some(t), Some(b)), t[i]);
    }
  }

  lemma {:induction false} UnionRequired(a: seq<string>, b: seq<string>, fields: map<string, Value>)
    ensures RequiredSat(SortedNames(a + b), fields) <==> RequiredSat(a, fields) && RequiredSat(b, fields)
  {
    SortedSetElements(NameLess, a + b);
  }

  /** The keywords a merge copies only when absent are not lost, and the ones it never copies are not there. */
  predicate KeywordsKept(t: Keywords, b: Keywords) {
    && (b.pattern.Some? && t.pattern.Some? ==> t.pattern == b.pattern)
    && EnumsKept(t.enum, b.enum)
    && (!b.constant.Null? && !t.constant.Null? ==> JsonEq(t.constant, b.constant))
    && (b.multipleOf.Some? ==> t.multipleOf == b.multipleOf)
    && (b.uniqueItems == Some(true) ==> t.uniqueItems == Some(true))
  }

  lemma {:induction false} MergedScalars(re: Regex, t: Keywords, b: Keywords, m: Keywords, v: Value)
    requires !TypesDisagree(t.typ, b.typ) && m == MergeKeywords(t, b)
    ensures TypeStated(m.typ, v) <==> TypeStated(t.typ, v) && TypeStated(b.typ, v)
    ensures ConstSat(t.constant, v) && ConstSat(b.constant, v) ==> ConstSat(m.constant, v)
    ensures ConstSat(m.constant, v) ==> ConstSat(t.constant, v)
    ensures ConstSat(m.constant, v) && KeywordsKept(t, b) ==> ConstSat(b.constant, v)
  {
  }

  lemma {:induction false} MergedStrings(re: Regex, t: Keywords, b: Keywords, m: Keywords, text: string)
    requires m == MergeKeywords(t, b)
    ensures TextSat(re, t, text) && TextSat(re, b, text) ==> TextSat(re, m, text)
    ensures TextSat(re, m, text) ==> TextSat(re, t, text)
    ensures TextSat(re, m, text) && KeywordsKept(t, b) ==> TextSat(re, b, text)
  {
  }

  lemma {:induction false} MergedNumbers(t: Keywords, b: Keywords, m: Keywords, x: real)
    requires m == MergeKeywords(t, b)
    ensures NumberSat(t, x) && NumberSat(b, x) ==> NumberSat(m, x)
    ensures NumberSat(m, x) ==> NumberSat(t, x)
    ensures NumberSat(m, x) && KeywordsKept(t, b) ==> NumberSat(b, x)
  {
    assert RangeSat(m.bounds, x) <==> RangeSat(t.bounds, x) && RangeSat(b.bounds, x);
  }

  lemma {:induction false} MergedArrays(t: Keywords, b: Keywords, m: Keywords, elems: seq<Value>)
    requires m == MergeKeywords(t, b)
    ensures ArrayShapeSat(t, elems) && ArrayShapeSat(b, elems) ==> ArrayShapeSat(m, elems)
    ensures ArrayShapeSat(m, elems) ==> ArrayShapeSat(t, elems)
    ensures ArrayShapeSat(m, elems) && KeywordsKept(t, b) ==> ArrayShapeSat(b, elems)
  {
  }

  lemma {:induction false} MergedObjects(t: Keywords, b: Keywords, m: Keywords, fields: map<string, Value>)
    requires m == MergeKeywords(t, b)
    ensures ObjectShapeSat(t, fields) && ObjectShapeSat(b, fields) ==> ObjectShapeSat(m, fields)
    ensures ObjectShapeSat(m, fields) ==> ObjectShapeSat(t, fields)
    ensures ObjectShapeSat(m, fields) && b.dependentRequired == map[] ==> ObjectShapeSat(b, fields)
  {
    UnionRequired(t.required, b.required, fields);
  }

  lemma {:induction false} MergedKeywords(re: Regex, t: Keywords, b: Keywords, v: Value)
    requires !TypesDisagree(t.typ, b.typ)
    ensures KeywordsSat(re, t, v) && KeywordsSat(re, b, v) ==> KeywordsSat(re, MergeKeywords(t, b), v)
    ensures KeywordsSat(re, MergeKeywords(t, b), v) ==> KeywordsSat(re, t, v)
    ensures KeywordsSat(re, MergeKeywords(t, b), v) && KeywordsKept(t, b) && b.dependentRequired == map[] ==>
              KeywordsSat(re, b, v)
  {
    var m := MergeKeywords(t, b);
    MeetEnumsSat(t.enum, b.enum, v);
    MergedScalars(re, t, b, m, v);
    match v
    case Str(text) => MergedStrings(re, t, b, m, text);
    case Int(_) => MergedNumbers(t, b, m, AsReal(v));
    case Float(_) => MergedNumbers(t, b, m, AsReal(v));
    case Arr(elems) => MergedArrays(t, b, m, elems);
    case Obj(fields) => MergedObjects(t, b, m, fields);
    case _ =>
  }

  // ------------------------------------------------------------------ one merge

  predicate Open(a: Additional) { a.Unstated? || a == Allowed(true) }

  /** What merging `b` into `t` writes is entailed by `t` and `b` together: no null is let in, no field escapes the
      target's `additionalProperties`, and `items` does not reach positions the branch gave to `prefixItems`. */
  predicate Writable(t: Schema, b: Schema)
    decreases b, 1
  {
    !TypesDisagree(t.kw.typ, b.kw.typ) ==>
    && (b.kw.nullable ==> t.kw.nullable)
    && (Open(t.additional) || b.properties.Keys <= t.properties.Keys)
    && (t.items.None? && b.items.Some? ==> |b.prefixItems| <= |t.prefixItems|)
    && WritableFields(t, b)
  }

  predicate WritableFields(t: Schema, b: Schema)
    decreases b, 0
  {
    forall x :: x in t.properties && x in b.properties &&
                !PropertyTypesDisagree(t.properties[x].kw.typ, b.properties[x].kw.typ) ==>
      Writable(t.properties[x], b.properties[x])
  }

  /** Nothing `b` states is dropped: the keywords a merge never copies are absent from it, and the ones it copies only
      into an empty slot find the slot empty or filled alike. */
  predicate Lossless(t: Schema, b: Schema)
    decreases b
  {
    && KeywordsKept(t.kw, b.kw)
    && (t.kw.nullable ==> b.kw.nullable)
    && Open(b.additional)
    && b.oneOf == [] && b.anyOf == [] && b.allOf == [] && b.not_.None?
    && (b.items.Some? ==> t.prefixItems == [] && (t.items.None? || t.items == b.items))
    && forall x :: x in t.properties && x in b.properties ==> Lossless(t.properties[x], b.properties[x])
  }

  lemma {:induction false} MergedArrayPart(re: Regex, t: Schema, b: Schema, elems: seq<Value>)
    requires !TypesDisagree(t.kw.typ, b.kw.typ) && Writable(t, b)
    ensures ArraySat(re, t, elems) && ArraySat(re, b, elems) ==> ArraySat(re, MergeNode(t, b), elems)
    ensures ArraySat(re, MergeNode(t, b), elems) ==> ArraySat(re, t, elems)
    ensures ArraySat(re, MergeNode(t, b), elems) && Lossless(t, b) && !MergeConflicts(t, b) ==> ArraySat(re, b, elems)
  {
    var m := MergeNode(t, b);
    assert m.prefixItems == t.prefixItems && m.contains == t.contains && m.items == First(t.items, b.items);
    assert PrefixSat(re, m, elems) == PrefixSat(re, t, elems);
    assert ContainsSat(re, m, elems) == ContainsSat(re, t, elems) by {
      assert m.kw.minContains == t.kw.minContains && m.kw.maxContains == t.kw.maxContains;
    }
    assert ItemsSat(re, m, elems) ==> ItemsSat(re, t, elems);
    if PrefixSat(re, t, elems) && ItemsSat(re, t, elems) && ItemsSat(re, b, elems) { assert ItemsSat(re, m, elems); }
    if ItemsSat(re, m, elems) && Lossless(t, b) && !MergeConflicts(t, b) {
      assert PrefixSat(re, b, elems) && ItemsSat(re, b, elems) && ContainsSat(re, b, elems);
    }
  }

  lemma {:induction false} MergedExtras(re: Regex, t: Schema, b: Schema, fields: map<string, Value>)
    requires !TypesDisagree(t.kw.typ, b.kw.typ) && Writable(t, b)
    ensures ExtrasSat(re, t, fields) ==> ExtrasSat(re, MergeNode(t, b), fields)
    ensures ExtrasSat(re, MergeNode(t, b), fields) ==> ExtrasSat(re, t, fields)
  {
    var m := MergeNode(t, b);
    if !Open(t.additional) {
      assert m.properties.Keys == t.properties.Keys;
      forall k ensures Covered(re, m, k) == Covered(re, t, k) {}
    }
  }

  lemma {:induction false} MergedGuards(re: Regex, t: Schema, b: Schema, fields: map<string, Value>)
    requires !TypesDisagree(t.kw.typ, b.kw.typ)
    ensures GuardsSat(re, MergeNode(t, b), fields) == GuardsSat(re, t, fields)
    ensures !CarriesUnmergeable(b) ==> GuardsSat(re, b, fields)
  {
    var m := MergeNode(t, b);
    assert DependentsSat(re, m, fields) == DependentsSat(re, t, fields);
    assert NamesSat(re, m, fields) == NamesSat(re, t, fields);
    assert PatternsSat(re, m, fields) == PatternsSat(re, t, fields);
  }

  /** One merge at one value: entailed by both inputs, never weaker than the target, and as strong as the branch when
      nothing was dropped and no conflict was recorded. */
  lemma {:induction false} MergeAt(re: Regex, t: Schema, b: Schema, v: Value)
    requires Writable(t, b)
    ensures Sat(re, t, v) && Sat(re, b, v) ==> Sat(re, MergeNode(t, b), v)
    ensures Sat(re, MergeNode(t, b), v) ==> Sat(re, t, v)
    ensures Sat(re, MergeNode(t, b), v) && Lossless(t, b) && !MergeConflicts(t, b) ==> Sat(re, b, v)
    decreases b, 2
  {
    if !TypesDisagree(t.kw.typ, b.kw.typ) {
      var m := MergeNode(t, b);
      assert m.allOf == t.allOf && m.kw == MergeKeywords(t.kw, b.kw);
      SatMeans(re, t, v);
      SatMeans(re, b, v);
      SatMeans(re, m, v);
      assert b.allOf == [] ==> AllSat(re, b.allOf, v);
      if !v.Null? {
        MergedKeywords(re, t.kw, b.kw, v);
        if v.Arr? { MergedArrayPart(re, t, b, v.elems); }
        if v.Obj? { MergedObjectPart(re, t, b, v.fields); }
        MergedVariants(re, t, b, v);
      }
    }
  }

  lemma {:induction false} MergedVariants(re: Regex, t: Schema, b: Schema, v: Value)
    requires !TypesDisagree(t.kw.typ, b.kw.typ)
    ensures InPlaceSat(re, MergeNode(t, b), v) == InPlaceSat(re, t, v)
    ensures Lossless(t, b) && !CarriesUnmergeable(b) ==> InPlaceSat(re, b, v)
  {
    assert ConditionalSat(re, MergeNode(t, b), v) == ConditionalSat(re, t, v);
  }

  lemma {:induction false} MergedObjectPart(re: Regex, t: Schema, b: Schema, fields: map<string, Value>)
    requires !TypesDisagree(t.kw.typ, b.kw.typ) && Writable(t, b)
    ensures ObjectSat(re, t, fields) && ObjectSat(re, b, fields) ==> ObjectSat(re, MergeNode(t, b), fields)
    ensures ObjectSat(re, MergeNode(t, b), fields) ==> ObjectSat(re, t, fields)
    ensures ObjectSat(re, MergeNode(t, b), fields) && Lossless(t, b) && !MergeConflicts(t, b) ==> ObjectSat(re, b, fields)
    decreases b, 1
  {
    MergedGuards(re, t, b, fields);
    MergedExtras(re, t, b, fields);
    MergedFields(re, t, b, fields);
  }

  lemma {:induction false} NoConflictBelow(t: Schema, b: Schema, x: string)
    requires !MergeConflicts(t, b) && x in t.properties && x in b.properties
    ensures !PropertyTypesDisagree(t.properties[x].kw.typ, b.properties[x].kw.typ)
    ensures !MergeConflicts(t.properties[x], b.properties[x])
  {
    assert !ConflictAt(t, b, x);
  }

  lemma {:induction false} MergedFields(re: Regex, t: Schema, b: Schema, fields: map<string, Value>)
    requires !TypesDisagree(t.kw.typ, b.kw.typ) && WritableFields(t, b)
    ensures FieldsSat(re, t, fields) && FieldsSat(re, b, fields) ==> FieldsSat(re, MergeNode(t, b), fields)
    ensures FieldsSat(re, MergeNode(t, b), fields) ==> FieldsSat(re, t, fields)
    ensures FieldsSat(re, MergeNode(t, b), fields) && Lossless(t, b) && !MergeConflicts(t, b) ==> FieldsSat(re, b, fields)
    decreases b, 0
  {
    hide Sat;
    var m := MergeNode(t, b);
    forall x | x in t.properties && x in b.properties && x in fields &&
               !PropertyTypesDisagree(t.properties[x].kw.typ, b.properties[x].kw.typ)
      ensures Sat(re, t.properties[x], fields[x]) && Sat(re, b.properties[x], fields[x]) ==> Sat(re, m.properties[x], fields[x])
      ensures Sat(re, m.properties[x], fields[x]) ==> Sat(re, t.properties[x], fields[x])
    {
      MergeAt(re, t.properties[x], b.properties[x], fields[x]);
    }
    if FieldsSat(re, m, fields) && Lossless(t, b) && !MergeConflicts(t, b) {
      forall x | x in b.properties && x in fields ensures Sat(re, b.properties[x], fields[x]) {
        if x in t.properties {
          NoConflictBelow(t, b, x);
          MergeAt(re, t.properties[x], b.properties[x], fields[x]);
        } else {
          assert m.properties[x] == b.properties[x];
        }
      }
    }
  }
}
