/** Refactorings that must not show: the order of `allOf` branches and inlining a composition, at any node and any number
    of times, leave the canonical form alone, and the differ finds nothing to say about a schema and itself. */
module Refactoring {
  import opened Model
  import opened Ordering
  import opened Canonical
  import opened BranchOrder
  import opened Inlining
  import opened Diff
  import opened DiffMeaning

  // ------------------------------------------------------------------ permuting the branches

  lemma {:induction false} CanonWithout(a: seq<Schema>, k: nat)
    requires k < |a|
    ensures |CanonSeq(a)| == |a| && CanonSeq(a)[k] == Canon(a[k])
    ensures CanonSeq(a[..k] + a[k + 1..]) == CanonSeq(a)[..k] + CanonSeq(a)[k + 1..]
  {
    hide Canon;
  }

  lemma {:induction false} CanonSplit(a: seq<Schema>, k: nat)
    requires k < |a|
    ensures multiset(CanonSeq(a)) == multiset{Canon(a[k])} + multiset(CanonSeq(a[..k] + a[k + 1..]))
  {
    hide *;
    CanonWithout(a, k);
    WithoutOne(CanonSeq(a), k);
  }

  lemma {:induction false} CanonPermuted(a: seq<Schema>, b: seq<Schema>)
    requires multiset(a) == multiset(b)
    ensures multiset(CanonSeq(a)) == multiset(CanonSeq(b))
    decreases |b|
  {
    hide *;
    SameLength(a, b);
    if b == [] {
      assert a == b;
    } else {
      var k := TakeOut(a, b);
      CanonPermuted(a[..k] + a[k + 1..], b[1..]);
      CanonSplit(a, k);
      CanonSplit(b, 0);
      assert b[..0] + b[1..] == b[1..];
    }
  }

  /** The branches, in canonical form, commute over the node that holds them in pairs, and merge without conflict. */
  predicate Composable(s: Schema) {
    Commuting(CanonParts(s).(allOf := []), CanonSeq(s.allOf)) && !CollapseConflicts(CanonParts(s).(allOf := []), CanonSeq(s.allOf))
  }

  lemma {:induction false} CollapsedAll(s: Schema)
    requires !CollapseConflicts(CanonParts(s).(allOf := []), CanonSeq(s.allOf)) && s.allOf != []
    ensures Canon(s) ==
      var m := MergeAll(CanonParts(s).(allOf := []), CanonSeq(s.allOf));
      m.(kw := SortKeywords(m.kw))
  {
    hide CanonParts, CanonSeq, MergeAll, SortKeywords;
    StageIsMergeAll(CanonParts(s).(allOf := []), CanonSeq(s.allOf));
  }

  lemma {:induction false} SameParts(s: Schema, permuted: seq<Schema>)
    ensures CanonParts(s.(allOf := permuted)).(allOf := []) == CanonParts(s).(allOf := [])
  {
    hide Canon, CanonSeq, CanonOpt, CanonAdditional;
  }

  /** Reordering the branches of a composition changes nothing in its canonical form, and neither order is reported. */
  lemma {:induction false} BranchOrderIrrelevant(s: Schema, permuted: seq<Schema>)
    requires Composable(s) && multiset(permuted) == multiset(s.allOf)
    ensures Canon(s.(allOf := permuted)) == Canon(s)
    ensures !CollapseConflicts(CanonParts(s).(allOf := []), CanonSeq(permuted))
  {
    hide CanonParts, CanonSeq, Commuting, MergeAll, SortKeywords, Canon;
    var h := CanonParts(s).(allOf := []);
    SameParts(s, permuted);
    CanonPermuted(s.allOf, permuted);
    PeacefulExactly(h, CanonSeq(s.allOf));
    PeacefulPermuted(h, CanonSeq(s.allOf), CanonSeq(permuted));
    PeacefulExactly(h, CanonSeq(permuted));
    assert |multiset(permuted)| == |permuted| && |multiset(s.allOf)| == |s.allOf|;
    if permuted == [] {
      assert s.(allOf := permuted) == s;
    } else {
      OrderIrrelevant(h, CanonSeq(s.allOf), CanonSeq(permuted));
      CollapsedAll(s);
      CollapsedAll(s.(allOf := permuted));
    }
  }

  lemma {:induction false} SortedAfterTwo(h: Keywords, a: Keywords, b: Keywords)
    ensures
      var m := MergeKeywords(MergeKeywords(h, a), b);
      SortKeywords(m).(enum := None) == m.(enum := None)
    ensures a.enum.Some? || b.enum.Some? ==>
      var m := MergeKeywords(MergeKeywords(h, a), b);
      SortKeywords(m) == m
  {
    SortedNamesIdempotent(SortedNames(h.required + a.required) + b.required);
    var e := MeetEnums(h.enum, a.enum);
    if b.enum.Some? {
      StableUniqueIdempotent(if e.None? then b.enum.value else Common(e.value, b.enum.value));
    } else if a.enum.Some? {
      StableUniqueIdempotent(if h.enum.None? then a.enum.value else Common(h.enum.value, a.enum.value));
    }
    hide StableUnique, SortedNames, Common, Tighten;
  }

  /** Putting what was merged in order does not make two merges alike that were not. */
  lemma {:induction false} SortingHidesNothing(h: Schema, a: Schema, b: Schema)
    requires !MergeConflicts(h, a) && !MergeConflicts(MergeNode(h, a), b)
    requires !MergeConflicts(h, b) && !MergeConflicts(MergeNode(h, b), a)
    ensures
      var m, n := MergeNode(MergeNode(h, a), b), MergeNode(MergeNode(h, b), a);
      m.(kw := SortKeywords(m.kw)) == n.(kw := SortKeywords(n.kw)) <==> m == n
  {
    NoConflictMeans(h, a);
    NoConflictMeans(h, b);
    NoConflictMeans(MergeNode(h, a), b);
    MergedShape(h, a);
    assert BothMerge(h, a, b);
    BothEither(h, a, b);
    BothShape(h, a, b);
    BothShape(h, b, a);
    SortedAfterTwo(h.kw, a.kw, b.kw);
    SortedAfterTwo(h.kw, b.kw, a.kw);
    hide MergeConflicts, MergeNode, BothMerge, SortKeywords, SortedNames, Tighten;
    if a.kw.enum.None? && b.kw.enum.None? {
      EnumsExactly(h.kw.enum, a.kw.enum, b.kw.enum);
    }
    hide StableUnique, Common;
  }

  /** With two branches and no conflict: either order gives the same canonical form if and only if the branches commute. */
  lemma {:induction false} TwoBranchesExactly(s: Schema, first: Schema, second: Schema)
    requires s.allOf == [first, second]
    requires !CollapseConflicts(CanonParts(s).(allOf := []), [Canon(first), Canon(second)])
    requires !CollapseConflicts(CanonParts(s).(allOf := []), [Canon(second), Canon(first)])
    ensures Canon(s.(allOf := [second, first])) == Canon(s) <==>
      Commutes(CanonParts(s).(allOf := []), Canon(first), Canon(second))
  {
    var h, a, b := CanonParts(s).(allOf := []), Canon(first), Canon(second);
    SameParts(s, [second, first]);
    assert CanonSeq([first, second]) == [a, b] && CanonSeq([second, first]) == [b, a];
    hide Canon, CanonParts, CanonSeq;
    CollapsedAll(s);
    CollapsedAll(s.(allOf := [second, first]));
    TwoMerged(h, a, b);
    TwoMerged(h, b, a);
    SortingHidesNothing(h, a, b);
    CommutesExactly(h, a, b);
    hide MergeNode, Commutes, MergeAll, SortKeywords, CollapseConflicts, MergeConflicts;
  }

  lemma {:induction false} TwoMerged(h: Schema, a: Schema, b: Schema)
    ensures MergeAll(h, [a, b]) == MergeNode(MergeNode(h, a), b)
    ensures !CollapseConflicts(h, [a, b]) ==> !MergeConflicts(h, a) && !MergeConflicts(MergeNode(h, a), b)
  {
    PeacefulExactly(h, [a, b]);
    assert [a, b][1..] == [b] && [b][1..] == [];
    hide MergeNode, MergeConflicts, CollapseConflicts;
    assert MergeAll(MergeNode(h, a), [b]) == MergeAll(MergeNode(MergeNode(h, a), b), []);
    assert Peaceful(h, [a, b]) ==> Peaceful(MergeNode(h, a), [b]);
  }

  // ------------------------------------------------------------------ a schema against itself

  lemma {:induction false} ProtoSelf(s: Schema)
    ensures QuietProto(s, s)
  {
  }

  lemma {:induction false} MappingSelf(m: map<string, string>, keys: seq<string>)
    ensures MappingNotes(m, m, keys) == []
  {
    if keys != [] { MappingSelf(m, keys[1..]); }
  }

  lemma {:induction false} DiscriminatorSelf(d: Option<Discriminator>)
    ensures DiscriminatorNotes(d, d) == []
  {
    var m := if d.Some? then d.value.mapping else map[];
    MappingSelf(m, SortedKeys(m.Keys - m.Keys));
    MappingSelf(m, SortedKeys(m.Keys * m.Keys));
  }

  lemma {:induction false} QuietOptSelf(o: Option<Schema>)
    ensures QuietOpt(o, o) && QuietLoud(o, o)
    decreases o, 0
  {
    if o.Some? { QuietSelf(o.value); }
  }

  lemma {:induction false} QuietSeqSelf(ss: seq<Schema>)
    ensures QuietVariants(ss, ss)
    decreases ss, 0
  {
    forall i | 0 <= i < |ss| ensures Quiet(ss[i], ss[i]) { QuietSelf(ss[i]); }
  }

  lemma {:induction false} QuietLaterSelf(s: Schema)
    ensures QuietLater(s, s) && QuietFields(s, s)
    decreases s, 0
  {
    hide Quiet;
    forall x | x in s.properties ensures Quiet(s.properties[x], s.properties[x]) { QuietSelf(s.properties[x]); }
    forall x | x in s.dependentSchemas ensures Quiet(s.dependentSchemas[x], s.dependentSchemas[x]) { QuietSelf(s.dependentSchemas[x]); }
    forall x | x in s.patternProperties ensures Quiet(s.patternProperties[x], s.patternProperties[x]) { QuietSelf(s.patternProperties[x]); }
    forall i | 0 <= i < |s.prefixItems| ensures Quiet(s.prefixItems[i], s.prefixItems[i]) { QuietSelf(s.prefixItems[i]); }
  }

  lemma {:induction false} QuietSelf(s: Schema)
    ensures Quiet(s, s)
    decreases s, 1
  {
    ProtoSelf(s);
    DiscriminatorSelf(s.kw.discriminator);
    QuietOptSelf(s.items);
    QuietSeqSelf(s.oneOf);
    QuietSeqSelf(s.anyOf);
    QuietSeqSelf(s.allOf);
    QuietLaterSelf(s);
    QuietOptSelf(s.propertyNames);
    QuietOptSelf(s.contains);
    QuietOptSelf(s.ifSchema);
    QuietOptSelf(s.thenSchema);
    QuietOptSelf(s.elseSchema);
    hide QuietLater, QuietFields, QuietOpt, QuietLoud, QuietVariants, QuietProto, DiscriminatorNotes;
  }

  // ------------------------------------------------------------------ refactoring anywhere

  ghost predicate BelowOpt(a: Option<Schema>, b: Option<Schema>)
    decreases a, 0
  {
    a.Some? == b.Some? && (a.Some? ==> Refactored(a.value, b.value))
  }

  ghost predicate BelowSeq(a: seq<Schema>, b: seq<Schema>)
    decreases a, 0
  {
    |a| == |b| && forall i :: 0 <= i < |a| ==> Refactored(a[i], b[i])
  }

  ghost predicate BelowMap(parent: Schema, a: map<string, Schema>, b: map<string, Schema>)
    requires a == parent.properties || a == parent.patternProperties || a == parent.dependentSchemas
    decreases parent, 0
  {
    a.Keys == b.Keys && forall x :: x in a ==> Refactored(a[x], b[x])
  }

  ghost predicate BelowAdditional(a: Additional, b: Additional)
    decreases a, 0
  {
    if a.Described? then b.Described? && Refactored(a.schema, b.schema) else a == b
  }

  /** The same node, but for refactorings of its sub-schemas. What is under `not` is not canonicalized. */
  ghost predicate Below(a: Schema, b: Schema)
    decreases a, 1
  {
    && a.kw == b.kw && a.not_ == b.not_
    && BelowMap(a, a.properties, b.properties) && BelowAdditional(a.additional, b.additional)
    && BelowOpt(a.items, b.items) && BelowSeq(a.prefixItems, b.prefixItems) && BelowOpt(a.contains, b.contains)
    && BelowMap(a, a.patternProperties, b.patternProperties) && BelowOpt(a.propertyNames, b.propertyNames)
    && BelowMap(a, a.dependentSchemas, b.dependentSchemas)
    && BelowOpt(a.ifSchema, b.ifSchema) && BelowOpt(a.thenSchema, b.thenSchema) && BelowOpt(a.elseSchema, b.elseSchema)
    && BelowSeq(a.oneOf, b.oneOf) && BelowSeq(a.anyOf, b.anyOf) && BelowSeq(a.allOf, b.allOf)
  }

  predicate Reordered(a: Schema, b: Schema) {
    Composable(a) && b == a.(allOf := b.allOf) && multiset(b.allOf) == multiset(a.allOf)
  }

  /** One refactoring of the node itself: its branches in another order, merged into it by hand, or taken out again. */
  predicate AtNode(a: Schema, b: Schema) {
    || a == b || Reordered(a, b) || Reordered(b, a)
    || (Inlinable(a) && b == Inlined(a)) || (Inlinable(b) && a == Inlined(b))
  }

  /** Refactorings anywhere in the schema: of the sub-schemas first, then of the node. */
  ghost predicate Refactored(a: Schema, b: Schema)
    decreases a, 2
  {
    exists m :: Below(a, m) && AtNode(m, b)
  }

  lemma {:induction false} CanonAtNode(a: Schema, b: Schema)
    requires AtNode(a, b)
    ensures Canon(a) == Canon(b)
  {
    if Reordered(a, b) { BranchOrderIrrelevant(a, b.allOf); }
    if Reordered(b, a) { BranchOrderIrrelevant(b, a.allOf); }
    if Inlinable(a) && b == Inlined(a) { InliningIrrelevant(a); }
    if Inlinable(b) && a == Inlined(b) { InliningIrrelevant(b); }
    hide Canon, Composable, Inlinable, Inlined;
  }

  lemma {:induction false} CanonBelowOpt(a: Option<Schema>, b: Option<Schema>)
    requires BelowOpt(a, b)
    ensures CanonOpt(a) == CanonOpt(b)
    decreases a, 0
  {
    hide Canon, Refactored;
    if a.Some? { CanonRefactored(a.value, b.value); }
  }

  lemma {:induction false} CanonBelowSeq(a: seq<Schema>, b: seq<Schema>)
    requires BelowSeq(a, b)
    ensures CanonSeq(a) == CanonSeq(b) && |a| == |b|
    decreases a, 0
  {
    hide Canon, Refactored;
    forall i | 0 <= i < |a| ensures Canon(a[i]) == Canon(b[i]) { CanonRefactored(a[i], b[i]); }
  }

  lemma {:induction false} CanonBelowMap(parent: Schema, a: map<string, Schema>, b: map<string, Schema>)
    requires a == parent.properties || a == parent.patternProperties || a == parent.dependentSchemas
    requires BelowMap(parent, a, b)
    ensures (map x | x in a :: Canon(a[x])) == (map x | x in b :: Canon(b[x]))
    decreases parent, 0
  {
    hide Canon, Refactored;
    forall x | x in a ensures Canon(a[x]) == Canon(b[x]) { CanonRefactored(a[x], b[x]); }
  }

  lemma {:induction false} CanonBelowAdditional(a: Additional, b: Additional)
    requires BelowAdditional(a, b)
    ensures CanonAdditional(a) == CanonAdditional(b)
    decreases a, 0
  {
    hide Canon, Refactored;
    if a.Described? { CanonRefactored(a.schema, b.schema); }
  }

  lemma {:induction false} CanonBelowParts(a: Schema, b: Schema)
    requires Below(a, b)
    ensures CanonParts(a).(allOf := []) == CanonParts(b).(allOf := [])
    ensures CanonSeq(a.allOf) == CanonSeq(b.allOf) && |a.allOf| == |b.allOf|
    decreases a, 1
  {
    hide Canon, CanonOpt, CanonSeq, CanonAdditional, BelowOpt, BelowSeq, BelowMap, BelowAdditional, Refactored;
    CanonBelowMap(a, a.properties, b.properties);
    CanonBelowMap(a, a.patternProperties, b.patternProperties);
    CanonBelowMap(a, a.dependentSchemas, b.dependentSchemas);
    CanonBelowAdditional(a.additional, b.additional);
    CanonBelowOpt(a.items, b.items);
    CanonBelowOpt(a.contains, b.contains);
    CanonBelowOpt(a.propertyNames, b.propertyNames);
    CanonBelowOpt(a.ifSchema, b.ifSchema);
    CanonBelowOpt(a.thenSchema, b.thenSchema);
    CanonBelowOpt(a.elseSchema, b.elseSchema);
    CanonBelowSeq(a.prefixItems, b.prefixItems);
    CanonBelowSeq(a.oneOf, b.oneOf);
    CanonBelowSeq(a.anyOf, b.anyOf);
    CanonBelowSeq(a.allOf, b.allOf);
  }

  /** The canonical form is made of the parts' and the branches' canonical forms. */
  lemma {:induction false} CanonFromParts(a: Schema, b: Schema)
    requires CanonParts(a).(allOf := []) == CanonParts(b).(allOf := [])
    requires CanonSeq(a.allOf) == CanonSeq(b.allOf) && |a.allOf| == |b.allOf|
    ensures Canon(a) == Canon(b)
  {
    assert CanonParts(a).allOf == a.allOf && CanonParts(b).allOf == b.allOf;
    hide CanonParts, CanonSeq, SortKeywords, Stage, WriteBacks, CollapseConflicts;
    var m, n := CanonParts(a), CanonParts(b);
    if a.allOf == [] {
      assert m == m.(allOf := []) && n == n.(allOf := []);
    } else {
      var cs := CanonSeq(a.allOf);
      assert m.(allOf := []).(allOf := WriteBacks(m.(allOf := []), cs)) == m.(allOf := WriteBacks(m.(allOf := []), cs));
      assert n.(allOf := []).(allOf := WriteBacks(n.(allOf := []), cs)) == n.(allOf := WriteBacks(n.(allOf := []), cs));
      assert Collapse(m, cs) == Collapse(n, cs);
    }
  }

  /** Refactoring anywhere leaves the canonical form alone. */
  lemma {:induction false} CanonRefactored(a: Schema, b: Schema)
    requires Refactored(a, b)
    ensures Canon(a) == Canon(b)
    decreases a, 2
  {
    var m :| Below(a, m) && AtNode(m, b);
    CanonBelowParts(a, m);
    hide *;
    CanonFromParts(a, m);
    CanonAtNode(m, b);
  }

  /** One refactoring after the other leads from `a` to `b`. */
  ghost predicate Leads(chain: seq<Schema>, a: Schema, b: Schema) {
    chain != [] && chain[0] == a && chain[|chain| - 1] == b && forall i :: 0 <= i < |chain| - 1 ==> Refactored(chain[i], chain[i + 1])
  }

  ghost predicate Equivalent(a: Schema, b: Schema) {
    exists chain :: Leads(chain, a, b)
  }

  lemma {:induction false} CanonAlong(chain: seq<Schema>, a: Schema, b: Schema)
    requires Leads(chain, a, b)
    ensures Canon(a) == Canon(b)
    decreases |chain|
  {
    hide Canon, Refactored;
    if |chain| > 1 {
      CanonRefactored(chain[0], chain[1]);
      CanonAlong(chain[1..], chain[1], b);
    }
  }

  /** However many refactorings, wherever they are made. */
  lemma {:induction false} CanonEquivalent(a: Schema, b: Schema)
    requires Equivalent(a, b)
    ensures Canon(a) == Canon(b)
  {
    var chain :| Leads(chain, a, b);
    CanonAlong(chain, a, b);
  }

  lemma {:induction false} SelfOpt(o: Option<Schema>)
    ensures BelowOpt(o, o)
    decreases o, 0
  {
    hide Refactored;
    if o.Some? { RefactoredSelf(o.value); }
  }

  lemma {:induction false} SelfSeq(ss: seq<Schema>)
    ensures BelowSeq(ss, ss)
    decreases ss, 0
  {
    hide Refactored;
    forall i | 0 <= i < |ss| ensures Refactored(ss[i], ss[i]) { RefactoredSelf(ss[i]); }
  }

  lemma {:induction false} SelfMap(parent: Schema, m: map<string, Schema>)
    requires m == parent.properties || m == parent.patternProperties || m == parent.dependentSchemas
    ensures BelowMap(parent, m, m)
    decreases parent, 0
  {
    hide Refactored;
    forall x | x in m ensures Refactored(m[x], m[x]) { RefactoredSelf(m[x]); }
  }

  lemma {:induction false} SelfAdditional(a: Additional)
    ensures BelowAdditional(a, a)
    decreases a, 0
  {
    hide Refactored;
    if a.Described? { RefactoredSelf(a.schema); }
  }

  lemma {:induction false} SelfBelow(s: Schema)
    ensures Below(s, s)
    decreases s, 1
  {
    hide BelowOpt, BelowSeq, BelowMap, BelowAdditional;
    SelfMap(s, s.properties);
    SelfMap(s, s.patternProperties);
    SelfMap(s, s.dependentSchemas);
    SelfAdditional(s.additional);
    SelfOpt(s.items);
    SelfOpt(s.contains);
    SelfOpt(s.propertyNames);
    SelfOpt(s.ifSchema);
    SelfOpt(s.thenSchema);
    SelfOpt(s.elseSchema);
    SelfSeq(s.prefixItems);
    SelfSeq(s.oneOf);
    SelfSeq(s.anyOf);
    SelfSeq(s.allOf);
  }

  /** Doing nothing is a refactoring. */
  lemma {:induction false} RefactoredSelf(s: Schema)
    ensures Refactored(s, s)
    decreases s, 2
  {
    SelfBelow(s);
    AtNodeSelf(s);
    hide Below, AtNode;
  }

  lemma {:induction false} AtNodeSelf(s: Schema)
    ensures AtNode(s, s)
  {
  }

  // ------------------------------------------------------------------ refactoring is silent

  /** Comparing canonical forms, as the pipeline does, reports nothing about a refactoring. */
  lemma {:induction false} RefactoringIsSilent(a: Schema, b: Schema, path: seq<Step>)
    requires Equivalent(a, b)
    ensures SchemaEntries(Canon(a), Canon(b), path) == [] && SchemaEntries(Canon(b), Canon(a), path) == []
  {
    CanonEquivalent(a, b);
    QuietSelf(Canon(a));
    SilentIsQuiet(Canon(a), Canon(a), path);
    hide Canon, Quiet, SchemaEntries, Equivalent;
  }

  /** In particular about branches in another order, and about a composition merged by hand. */
  lemma {:induction false} PermutingIsSilent(s: Schema, permuted: seq<Schema>, path: seq<Step>)
    requires Composable(s) && multiset(permuted) == multiset(s.allOf)
    ensures SchemaEntries(Canon(s), Canon(s.(allOf := permuted)), path) == []
    ensures SchemaEntries(Canon(s.(allOf := permuted)), Canon(s), path) == []
  {
    assert AtNode(s, s.(allOf := permuted));
    hide AtNode;
    AtOnce(s, s.(allOf := permuted));
    RefactoringIsSilent(s, s.(allOf := permuted), path);
  }

  lemma {:induction false} InliningIsSilent(s: Schema, path: seq<Step>)
    requires Inlinable(s)
    ensures SchemaEntries(Canon(s), Canon(Inlined(s)), path) == [] && SchemaEntries(Canon(Inlined(s)), Canon(s), path) == []
    ensures Inlined(s).allOf == []
  {
    assert AtNode(s, Inlined(s));
    hide AtNode;
    InlinedSorted(s);
    AtOnce(s, Inlined(s));
    RefactoringIsSilent(s, Inlined(s), path);
  }

  lemma {:induction false} AtOnce(a: Schema, b: Schema)
    requires AtNode(a, b)
    ensures Equivalent(a, b)
  {
    SelfBelow(a);
    hide Below, AtNode;
    assert Refactored(a, b);
    hide Refactored;
    assert Leads([a, b], a, b);
  }
}
