/** Canonicalization keeps the meaning: collapsed compositions, compositions kept because of a conflict, and whole trees. */
module CanonicalMeaning {
  import opened Model
  import opened Ordering
  import opened Validation
  import opened Meaning
  import opened Canonical
  import opened MergeMeaning

  // ------------------------------------------------------------------ chains of merges

  ghost predicate FirstSat(re: Regex, branches: seq<Schema>, i: nat, v: Value)
    requires i <= |branches|
  {
    forall j :: 0 <= j < i ==> Sat(re, branches[j], v)
  }

  predicate Keeps(t: Schema, b: Schema) {
    Writable(t, b) && Lossless(t, b)
  }

  predicate KeepsAt(host: Schema, branches: seq<Schema>, i: nat)
    requires i < |branches|
  {
    Keeps(Stage(host, branches, i), branches[i])
  }

  /** Every merge of the chain keeps everything its branch states. */
  predicate Mergeable(host: Schema, branches: seq<Schema>) {
    forall i :: 0 <= i < |branches| ==> KeepsAt(host, branches, i)
  }

  predicate Safe(t: Schema, b: Schema) {
    !TypesDisagree(t.kw.typ, b.kw.typ) ==> WritableFields(t, b)
  }

  predicate SafeAt(host: Schema, branches: seq<Schema>, i: nat)
    requires i < |branches|
  {
    Safe(Stage(host, branches, i), branches[i])
  }

  /** Every merge of the chain writes, below its root, only what its branch entails. */
  predicate SafelyShared(host: Schema, branches: seq<Schema>) {
    forall i :: 0 <= i < |branches| ==> SafeAt(host, branches, i)
  }

  lemma {:induction false} StageStep(re: Regex, t: Schema, b: Schema, v: Value)
    requires Keeps(t, b) && !MergeConflicts(t, b)
    ensures Sat(re, MergeNode(t, b), v) <==> Sat(re, t, v) && Sat(re, b, v)
  {
    MergeAt(re, t, b, v);
  }

  lemma {:induction false} FirstSatStep(re: Regex, branches: seq<Schema>, i: nat, v: Value)
    requires 0 < i <= |branches|
    ensures FirstSat(re, branches, i, v) <==> FirstSat(re, branches, i - 1, v) && Sat(re, branches[i - 1], v)
  {
  }

  lemma {:induction false} StageMeans(re: Regex, host: Schema, branches: seq<Schema>, i: nat, v: Value)
    requires i <= |branches| && Mergeable(host, branches) && !CollapseConflicts(host, branches)
    ensures Sat(re, Stage(host, branches, i), v) <==> Sat(re, host, v) && FirstSat(re, branches, i, v)
  {
    hide Sat, MergeNode;
    if i > 0 {
      StageMeans(re, host, branches, i - 1, v);
      assert KeepsAt(host, branches, i - 1) && !ConflictsAt(host, branches, i - 1);
      StageStep(re, Stage(host, branches, i - 1), branches[i - 1], v);
      FirstSatStep(re, branches, i, v);
    }
  }

  /** A collapse that reports nothing accepts exactly what the composition accepted. */
  lemma {:induction false} CollapseKeepsMeaning(re: Regex, n: Schema, branches: seq<Schema>)
    requires Mergeable(n.(allOf := []), branches) && !CollapseConflicts(n.(allOf := []), branches)
    ensures Same(re, Collapse(n, branches), n.(allOf := branches))
  {
    var host := n.(allOf := []);
    forall v ensures Sat(re, Collapse(n, branches), v) == Sat(re, n.(allOf := branches), v) {
      StageMeans(re, host, branches, |branches|, v);
      HostAndBranches(re, n, branches, v);
    }
  }

  // ------------------------------------------------------------------ a kept composition

  /** Everything `m` has beyond `t`, at every path the value reaches, holds of the value. */
  ghost predicate Grown(re: Regex, t: Schema, m: Schema, v: Value)
    decreases m
  {
    && t.properties.Keys <= m.properties.Keys
    && (v.Obj? ==> forall x :: x in m.properties && x in v.fields ==>
          if x in t.properties then Grown(re, t.properties[x], m.properties[x], v.fields[x])
          else Sat(re, m.properties[x], v.fields[x]))
  }

  lemma {:induction false} GrownSelf(re: Regex, t: Schema, v: Value)
    ensures Grown(re, t, t, v)
    decreases t
  {
    if v.Obj? {
      forall x | x in t.properties && x in v.fields ensures Grown(re, t.properties[x], t.properties[x], v.fields[x]) {
        GrownSelf(re, t.properties[x], v.fields[x]);
      }
    }
  }

  lemma {:induction false} GrownStep(re: Regex, t: Schema, m: Schema, b: Schema, v: Value)
    requires Grown(re, t, m, v) && Sat(re, b, v)
    requires Safe(m, b)
    ensures Grown(re, t, MergeNode(m, b), v)
    decreases b
  {
    if !TypesDisagree(m.kw.typ, b.kw.typ) && v.Obj? {
      SatMeans(re, b, v);
      var r := MergeNode(m, b);
      forall x | x in r.properties && x in v.fields
        ensures if x in t.properties then Grown(re, t.properties[x], r.properties[x], v.fields[x])
                else Sat(re, r.properties[x], v.fields[x])
      {
        if x in m.properties && x in b.properties &&
           !PropertyTypesDisagree(m.properties[x].kw.typ, b.properties[x].kw.typ) {
          if x in t.properties {
            assert Writable(m.properties[x], b.properties[x]);
            GrownStep(re, t.properties[x], m.properties[x], b.properties[x], v.fields[x]);
          } else {
            MergeAt(re, m.properties[x], b.properties[x], v.fields[x]);
          }
        }
      }
    }
  }

  /** What is written into a branch is entailed by the branches together. */
  lemma {:induction false} WriteBackEntailed(re: Regex, b: Schema, t: Schema, m: Schema, v: Value)
    requires Sat(re, b, v) && Grown(re, t, m, v)
    ensures Sat(re, WriteBack(b, t, m), v)
    decreases b
  {
    var w := WriteBack(b, t, m);
    SatMeans(re, b, v);
    SatMeans(re, w, v);
    if v.Obj? {
      RestUnwritten(re, b, t, m, v);
      forall x | x in w.properties && x in v.fields ensures Sat(re, w.properties[x], v.fields[x]) {
        if !TypesDisagree(t.kw.typ, b.kw.typ) && x in m.properties && x in t.properties &&
           !PropertyTypesDisagree(t.properties[x].kw.typ, b.properties[x].kw.typ) {
          WriteBackEntailed(re, b.properties[x], t.properties[x], m.properties[x], v.fields[x]);
        }
      }
    } else {
      RestUnwritten(re, b, t, m, v);
    }
  }

  /** The write-through changes nothing but property schemas. */
  lemma {:induction false} RestUnwritten(re: Regex, b: Schema, t: Schema, m: Schema, v: Value)
    ensures WriteBack(b, t, m).kw == b.kw && WriteBack(b, t, m).allOf == b.allOf
    ensures InPlaceSat(re, WriteBack(b, t, m), v) == InPlaceSat(re, b, v)
    ensures v.Arr? ==> ArraySat(re, WriteBack(b, t, m), v.elems) == ArraySat(re, b, v.elems)
    ensures v.Obj? ==> GuardsSat(re, WriteBack(b, t, m), v.fields) == GuardsSat(re, b, v.fields)
    ensures v.Obj? ==> ExtrasSat(re, WriteBack(b, t, m), v.fields) == ExtrasSat(re, b, v.fields)
  {
    var w := WriteBack(b, t, m);
    assert w.properties.Keys == b.properties.Keys;
    assert w == b.(properties := w.properties);
    assert ConditionalSat(re, w, v) == ConditionalSat(re, b, v);
    if v.Arr? {
      assert PrefixSat(re, w, v.elems) == PrefixSat(re, b, v.elems);
      assert ItemsSat(re, w, v.elems) == ItemsSat(re, b, v.elems);
      assert ContainsSat(re, w, v.elems) == ContainsSat(re, b, v.elems);
    }
    if v.Obj? {
      forall k ensures Covered(re, w, k) == Covered(re, b, k) {}
      assert DependentsSat(re, w, v.fields) == DependentsSat(re, b, v.fields);
      assert NamesSat(re, w, v.fields) == NamesSat(re, b, v.fields);
      assert PatternsSat(re, w, v.fields) == PatternsSat(re, b, v.fields);
    }
  }

  /** Everything `b` gave to the target is still stated by `m`. */
  ghost predicate Retains(re: Regex, m: Schema, t: Schema, b: Schema, v: Value)
    decreases b
  {
    !TypesDisagree(t.kw.typ, b.kw.typ) ==>
      && b.properties.Keys <= m.properties.Keys
      && (v.Obj? ==> forall x :: x in b.properties && x in v.fields ==>
            if x in t.properties
            then PropertyTypesDisagree(t.properties[x].kw.typ, b.properties[x].kw.typ) ||
                 Retains(re, m.properties[x], t.properties[x], b.properties[x], v.fields[x])
            else Sat(re, m.properties[x], v.fields[x]) ==> Sat(re, b.properties[x], v.fields[x]))
  }

  lemma {:induction false} RetainsMerge(re: Regex, t: Schema, b: Schema, v: Value)
    ensures Retains(re, MergeNode(t, b), t, b, v)
    decreases b
  {
    if !TypesDisagree(t.kw.typ, b.kw.typ) && v.Obj? {
      forall x | x in b.properties && x in v.fields && x in t.properties &&
                 !PropertyTypesDisagree(t.properties[x].kw.typ, b.properties[x].kw.typ)
        ensures Retains(re, MergeNode(t, b).properties[x], t.properties[x], b.properties[x], v.fields[x])
      {
        RetainsMerge(re, t.properties[x], b.properties[x], v.fields[x]);
      }
    }
  }

  lemma {:induction false} RetainsStep(re: Regex, m: Schema, t: Schema, b: Schema, c: Schema, v: Value)
    requires Retains(re, m, t, b, v)
    requires Safe(m, c)
    ensures Retains(re, MergeNode(m, c), t, b, v)
    decreases b
  {
    if !TypesDisagree(t.kw.typ, b.kw.typ) && !TypesDisagree(m.kw.typ, c.kw.typ) && v.Obj? {
      var r := MergeNode(m, c);
      forall x | x in b.properties && x in v.fields
        ensures if x in t.properties
                then PropertyTypesDisagree(t.properties[x].kw.typ, b.properties[x].kw.typ) ||
                     Retains(re, r.properties[x], t.properties[x], b.properties[x], v.fields[x])
                else Sat(re, r.properties[x], v.fields[x]) ==> Sat(re, b.properties[x], v.fields[x])
      {
        if x in c.properties && !PropertyTypesDisagree(m.properties[x].kw.typ, c.properties[x].kw.typ) {
          if x in t.properties {
            if !PropertyTypesDisagree(t.properties[x].kw.typ, b.properties[x].kw.typ) {
              assert Writable(m.properties[x], c.properties[x]);
              RetainsStep(re, m.properties[x], t.properties[x], b.properties[x], c.properties[x], v.fields[x]);
            }
          } else {
            MergeAt(re, m.properties[x], c.properties[x], v.fields[x]);
          }
        }
      }
    }
  }

  /** A written-through branch still states all the branch stated. */
  lemma {:induction false} WriteBackStrong(re: Regex, b: Schema, t: Schema, m: Schema, v: Value)
    requires Sat(re, WriteBack(b, t, m), v) && Retains(re, m, t, b, v)
    ensures Sat(re, b, v)
    decreases b
  {
    var w := WriteBack(b, t, m);
    SatMeans(re, b, v);
    SatMeans(re, w, v);
    RestUnwritten(re, b, t, m, v);
    if v.Obj? {
      forall x | x in b.properties && x in v.fields ensures Sat(re, b.properties[x], v.fields[x]) {
        assert Sat(re, w.properties[x], v.fields[x]);
        if !TypesDisagree(t.kw.typ, b.kw.typ) && x in t.properties &&
           !PropertyTypesDisagree(t.properties[x].kw.typ, b.properties[x].kw.typ) {
          WriteBackStrong(re, b.properties[x], t.properties[x], m.properties[x], v.fields[x]);
        }
      }
    }
  }

  lemma {:induction false} GrownChain(re: Regex, host: Schema, branches: seq<Schema>, i: nat, k: nat, v: Value)
    requires i <= k <= |branches| && SafelyShared(host, branches) && AllSat(re, branches, v)
    ensures Grown(re, Stage(host, branches, i), Stage(host, branches, k), v)
  {
    if i == k {
      GrownSelf(re, Stage(host, branches, i), v);
    } else {
      GrownChain(re, host, branches, i, k - 1, v);
      assert SafeAt(host, branches, k - 1);
      GrownStep(re, Stage(host, branches, i), Stage(host, branches, k - 1), branches[k - 1], v);
    }
  }

  lemma {:induction false} RetainsChain(re: Regex, host: Schema, branches: seq<Schema>, i: nat, k: nat, v: Value)
    requires i < k <= |branches| && SafelyShared(host, branches)
    ensures Retains(re, Stage(host, branches, k), Stage(host, branches, i), branches[i], v)
  {
    if k == i + 1 {
      RetainsMerge(re, Stage(host, branches, i), branches[i], v);
    } else {
      RetainsChain(re, host, branches, i, k - 1, v);
      assert SafeAt(host, branches, k - 1);
      RetainsStep(re, Stage(host, branches, k - 1), Stage(host, branches, i), branches[i], branches[k - 1], v);
    }
  }

  /** The kept branches, written through by the merge that was given up, accept together what they accepted before. */
  lemma {:induction false} WriteBacksKeepMeaning(re: Regex, host: Schema, branches: seq<Schema>, v: Value)
    requires SafelyShared(host, branches)
    ensures AllSat(re, WriteBacks(host, branches), v) <==> AllSat(re, branches, v)
  {
    var n := |branches|;
    var ws := WriteBacks(host, branches);
    if AllSat(re, branches, v) {
      forall i | 0 <= i < n ensures Sat(re, ws[i], v) {
        GrownChain(re, host, branches, i, n, v);
        WriteBackEntailed(re, branches[i], Stage(host, branches, i), Stage(host, branches, n), v);
      }
    }
    if AllSat(re, ws, v) {
      forall i | 0 <= i < n ensures Sat(re, branches[i], v) {
        assert Sat(re, ws[i], v);
        RetainsChain(re, host, branches, i, n, v);
        WriteBackStrong(re, branches[i], Stage(host, branches, i), Stage(host, branches, n), v);
      }
    }
  }

  /** A reported conflict still keeps the meaning. */
  lemma {:induction false} ConflictKeepsMeaning(re: Regex, n: Schema, branches: seq<Schema>)
    requires SafelyShared(n.(allOf := []), branches) && CollapseConflicts(n.(allOf := []), branches)
    ensures Same(re, Collapse(n, branches), n.(allOf := branches))
  {
    var host := n.(allOf := []);
    forall v ensures Sat(re, Collapse(n, branches), v) == Sat(re, n.(allOf := branches), v) {
      WriteBacksKeepMeaning(re, host, branches, v);
      HostAndBranches(re, n, branches, v);
      HostAndBranches(re, n, WriteBacks(host, branches), v);
    }
  }

  // ------------------------------------------------------------------ whole schemas

  predicate FaithfulOpt(o: Option<Schema>)
    decreases o, 0
  {
    o.Some? ==> Faithful(o.value)
  }

  predicate FaithfulSeq(ss: seq<Schema>)
    decreases ss, 0
  {
    forall i :: 0 <= i < |ss| ==> Faithful(ss[i])
  }

  predicate FaithfulParts(s: Schema)
    decreases s, 0
  {
    && (forall x :: x in s.properties ==> Faithful(s.properties[x]))
    && (s.additional.Described? ==> Faithful(s.additional.schema))
    && FaithfulOpt(s.items) && FaithfulSeq(s.prefixItems) && FaithfulOpt(s.contains)
    && (forall e :: e in s.patternProperties ==> Faithful(s.patternProperties[e]))
    && FaithfulOpt(s.propertyNames)
    && (forall t :: t in s.dependentSchemas ==> Faithful(s.dependentSchemas[t]))
    && FaithfulOpt(s.ifSchema) && FaithfulOpt(s.thenSchema) && FaithfulOpt(s.elseSchema)
    && FaithfulSeq(s.oneOf) && FaithfulSeq(s.anyOf) && FaithfulSeq(s.allOf)
  }

  /** Wherever the schema composes with `allOf`, either the collapse drops nothing, or it is given up and what it had
      already written is entailed. */
  predicate Faithful(s: Schema)
    decreases s, 1
  {
    && FaithfulParts(s)
    && (s.allOf != [] ==>
          var host, branches := CanonParts(s).(allOf := []), CanonSeq(s.allOf);
          if CollapseConflicts(host, branches) then SafelyShared(host, branches) else Mergeable(host, branches))
  }

  lemma {:induction false} SelfParts(re: Regex, s: Schema, kw: Keywords, all: seq<Schema>)
    requires SameKeywords(s.kw, kw)
    ensures SameParts(re, s, s.(kw := kw, allOf := all))
  {
  }

  lemma {:induction false} SortedKeywordsSame(kw: Keywords)
    ensures SameKeywords(kw, SortKeywords(kw))
  {
    SortedSetElements(NameLess, kw.required);
    if kw.enum.Some? {
      StableUniqueElements(kw.enum.value);
      forall v { JsonMemberSame(v, kw.enum.value, StableUnique(kw.enum.value)); }
    }
  }

  lemma {:induction false} CanonOptSame(re: Regex, o: Option<Schema>)
    requires FaithfulOpt(o)
    ensures SameOpt(re, CanonOpt(o), o)
    decreases o, 0
  {
    if o.Some? { CanonKeepsMeaning(re, o.value); }
  }

  lemma {:induction false} CanonSeqSame(re: Regex, ss: seq<Schema>)
    requires FaithfulSeq(ss)
    ensures SameSeq(re, CanonSeq(ss), ss)
    decreases ss, 0
  {
    forall i | 0 <= i < |ss| ensures Same(re, CanonSeq(ss)[i], ss[i]) { CanonKeepsMeaning(re, ss[i]); }
  }

  lemma {:induction false} CanonMapsSame(re: Regex, s: Schema)
    requires FaithfulParts(s)
    ensures SameMap(re, CanonParts(s).properties, s.properties)
    ensures SameMap(re, CanonParts(s).patternProperties, s.patternProperties)
    ensures SameMap(re, CanonParts(s).dependentSchemas, s.dependentSchemas)
    decreases s, 0, 0
  {
    forall x | x in s.properties ensures Same(re, Canon(s.properties[x]), s.properties[x]) {
      CanonKeepsMeaning(re, s.properties[x]);
    }
    forall e | e in s.patternProperties ensures Same(re, Canon(s.patternProperties[e]), s.patternProperties[e]) {
      CanonKeepsMeaning(re, s.patternProperties[e]);
    }
    forall t | t in s.dependentSchemas ensures Same(re, Canon(s.dependentSchemas[t]), s.dependentSchemas[t]) {
      CanonKeepsMeaning(re, s.dependentSchemas[t]);
    }
  }

  lemma {:induction false} SortedDependentsSame(s: Schema)
    ensures SameKeywords(CanonParts(s).kw, s.kw)
  {
    forall t | t in s.kw.dependentRequired ensures SameNames(SortedNames(s.kw.dependentRequired[t]), s.kw.dependentRequired[t]) {
      SortedSetElements(NameLess, s.kw.dependentRequired[t]);
    }
  }

  lemma {:induction false} CanonOptionsSame(re: Regex, s: Schema)
    requires FaithfulParts(s)
    ensures SameAdditional(re, CanonAdditional(s.additional), s.additional)
    ensures SameOpt(re, CanonOpt(s.items), s.items) && SameOpt(re, CanonOpt(s.contains), s.contains)
    ensures SameOpt(re, CanonOpt(s.propertyNames), s.propertyNames)
    ensures SameOpt(re, CanonOpt(s.ifSchema), s.ifSchema)
    ensures SameOpt(re, CanonOpt(s.thenSchema), s.thenSchema)
    ensures SameOpt(re, CanonOpt(s.elseSchema), s.elseSchema)
    decreases s, 0, 0
  {
    if s.additional.Described? { CanonKeepsMeaning(re, s.additional.schema); }
    CanonOptSame(re, s.items);
    CanonOptSame(re, s.contains);
    CanonOptSame(re, s.propertyNames);
    CanonOptSame(re, s.ifSchema);
    CanonOptSame(re, s.thenSchema);
    CanonOptSame(re, s.elseSchema);
  }

  lemma {:induction false} CanonPartsSame(re: Regex, s: Schema)
    requires FaithfulParts(s)
    ensures SameParts(re, CanonParts(s), s)
    decreases s, 0, 1
  {
    CanonMapsSame(re, s);
    SortedDependentsSame(s);
    CanonOptionsSame(re, s);
    CanonSeqSame(re, s.prefixItems);
    CanonSeqSame(re, s.oneOf);
    CanonSeqSame(re, s.anyOf);
  }

  /** Canonicalization preserves meaning: the canonical form accepts exactly the values the schema accepts, whether its
      compositions were collapsed or reported and kept. */
  lemma {:induction false} CanonKeepsMeaning(re: Regex, s: Schema)
    requires Faithful(s)
    ensures Same(re, Canon(s), s)
    decreases s, 1
  {
    var n := CanonParts(s);
    CanonPartsSame(re, s);
    var c := n;
    if s.allOf == [] {
      Congruence(re, n, s);
    } else {
      var branches := CanonSeq(s.allOf);
      c := Collapse(n, branches);
      CanonSeqSame(re, s.allOf);
      Recomposed(re, s, n, branches);
      if CollapseConflicts(n.(allOf := []), branches) {
        ConflictKeepsMeaning(re, n, branches);
      } else {
        CollapseKeepsMeaning(re, n, branches);
      }
    }
    SortedKeywordsSame(c.kw);
    SelfParts(re, c, SortKeywords(c.kw), c.allOf);
    Congruence(re, c, c.(kw := SortKeywords(c.kw)));
    SameTransitive(re, c.(kw := SortKeywords(c.kw)), c, s);
  }

  lemma {:induction false} Recomposed(re: Regex, s: Schema, n: Schema, branches: seq<Schema>)
    requires SameParts(re, n, s) && SameSeq(re, branches, s.allOf)
    ensures Same(re, n.(allOf := branches), s)
  {
    forall v ensures AllSat(re, branches, v) <==> AllSat(re, s.allOf, v) {}
    Congruence(re, n.(allOf := branches), s);
  }

  lemma {:induction false} SameTransitive(re: Regex, a: Schema, b: Schema, c: Schema)
    requires Same(re, b, a) && Same(re, b, c)
    ensures Same(re, a, c)
  {
  }
}
