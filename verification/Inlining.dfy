/** Inlining a composition: merging the branches into their host by hand, before anything is canonicalized, gives the
    same canonical form, because canonicalizing commutes with merging. */
module Inlining {
  import opened Model
  import opened Ordering
  import opened Canonical
  import opened BranchOrder

  // ------------------------------------------------------------------ keywords

  function CanonKeywords(kw: Keywords): Keywords {
    SortKeywords(kw.(dependentRequired := map t | t in kw.dependentRequired :: SortedNames(kw.dependentRequired[t])))
  }

  lemma {:induction false} CommonStable(ours: seq<Value>, theirs: seq<Value>)
    ensures Common(ours, StableUnique(theirs)) == Common(ours, theirs)
  {
    if ours != [] {
      CommonStable(ours[1..], theirs);
      StableUniqueElements(theirs);
      MemberSame(ours[0], theirs, StableUnique(theirs));
    }
  }

  lemma {:induction false} EnumsCanon(t: Option<seq<Value>>, b: Option<seq<Value>>)
    ensures
      var st, sb := if t.Some? then Some(StableUnique(t.value)) else None, if b.Some? then Some(StableUnique(b.value)) else None;
      var m := MeetEnums(t, b);
      MeetEnums(st, sb) == if m.Some? then Some(StableUnique(m.value)) else None
  {
    if t.Some? && b.Some? {
      CommonStable(StableUnique(t.value), b.value);
      StableFirst(t.value, b.value);
      StableUniqueIdempotent(Common(t.value, b.value));
    } else if b.Some? {
      StableUniqueIdempotent(b.value);
    }
    hide Common, StableUnique;
  }

  lemma {:induction false} KeywordsCanon(t: Keywords, b: Keywords)
    ensures CanonKeywords(MergeKeywords(t, b)) == MergeKeywords(CanonKeywords(t), CanonKeywords(b))
  {
    EnumsCanon(t.enum, b.enum);
    RequiredCanon(t.required, b.required);
    hide StableUnique, SortedNames, MeetEnums, Tighten;
    var m, n := CanonKeywords(MergeKeywords(t, b)), MergeKeywords(CanonKeywords(t), CanonKeywords(b));
    assert m.dependentRequired == n.dependentRequired && m.enum == n.enum && m.required == n.required;
  }

  // ------------------------------------------------------------------ one merge

  /** Wherever the two are merged, neither holds a composition of its own. */
  predicate Flat(t: Schema, b: Schema)
    decreases b
  {
    && t.allOf == [] && b.allOf == []
    && forall x :: x in t.properties && x in b.properties ==> Flat(t.properties[x], b.properties[x])
  }

  lemma {:induction false} FlatAt(t: Schema, b: Schema, x: string)
    requires Flat(t, b) && x in t.properties && x in b.properties
    ensures Flat(t.properties[x], b.properties[x])
  {
  }

  /** The canonical form of a node without a composition, part by part. */
  lemma {:induction false} CanonShape(s: Schema)
    requires s.allOf == []
    ensures Canon(s) == CanonParts(s).(kw := CanonKeywords(s.kw))
    ensures Canon(s).kw == CanonKeywords(s.kw) && Canon(s).items == CanonOpt(s.items) && Canon(s).allOf == []
    ensures Canon(s).properties.Keys == s.properties.Keys
    ensures forall x :: x in s.properties ==> Canon(s).properties[x] == Canon(s.properties[x])
  {
    hide StableUnique, SortedNames, CanonOpt, CanonSeq, CanonAdditional;
  }

  lemma {:induction false} CanonOptFirst(t: Option<Schema>, b: Option<Schema>)
    ensures CanonOpt(First(t, b)) == First(CanonOpt(t), CanonOpt(b))
  {
    hide Canon;
  }

  lemma {:induction false} TypesKept(t: Schema, b: Schema)
    requires t.allOf == [] && b.allOf == []
    ensures TypesDisagree(Canon(t).kw.typ, Canon(b).kw.typ) == TypesDisagree(t.kw.typ, b.kw.typ)
  {
    CanonShape(t);
    CanonShape(b);
    hide Canon, StableUnique, SortedNames;
  }

  /** Nodes that differ in the properties, the items and the keywords alone have canonical forms that do. */
  lemma {:induction false} CanonRest(t: Schema, m: Schema)
    requires t.allOf == [] && m == t.(kw := m.kw, properties := m.properties, items := m.items)
    ensures Canon(m) == Canon(t).(kw := CanonKeywords(m.kw), properties := Canon(m).properties, items := CanonOpt(m.items))
  {
    CanonShape(t);
    CanonShape(m);
    hide Canon, CanonKeywords, CanonOpt, CanonSeq, CanonAdditional;
  }

  lemma {:induction false} MergeCanonAt(t: Schema, b: Schema, x: string)
    requires Flat(t, b) && !TypesDisagree(t.kw.typ, b.kw.typ) && (x in t.properties || x in b.properties)
    ensures EqualAt(Canon(MergeNode(t, b)).properties, MergeNode(Canon(t), Canon(b)).properties, x)
    decreases b, 0
  {
    MergedShape(t, b);
    CanonShape(t);
    CanonShape(b);
    CanonShape(MergeNode(t, b));
    TypesKept(t, b);
    if x in t.properties && x in b.properties {
      FlatAt(t, b, x);
      CanonMerges(t.properties[x], b.properties[x]);
    }
    hide Canon, MergeNode, Flat, CanonKeywords;
    MergedAt(t, b, x);
    MergedAt(Canon(t), Canon(b), x);
  }

  lemma {:induction false} MergeCanonProperties(t: Schema, b: Schema)
    requires Flat(t, b) && !TypesDisagree(t.kw.typ, b.kw.typ)
    ensures Canon(MergeNode(t, b)).properties == MergeNode(Canon(t), Canon(b)).properties
    decreases b, 1
  {
    FlatRoots(t, b);
    hide *;
    MergedShape(t, b);
    TypesKept(t, b);
    CanonShape(t);
    CanonShape(b);
    MergedRoot(t, b);
    CanonShape(MergeNode(t, b));
    MergedShape(Canon(t), Canon(b));
    var keys := t.properties.Keys + b.properties.Keys;
    forall x | x in keys ensures EqualAt(Canon(MergeNode(t, b)).properties, MergeNode(Canon(t), Canon(b)).properties, x) {
      MergeCanonAt(t, b, x);
    }
    SameMaps(Canon(MergeNode(t, b)).properties, MergeNode(Canon(t), Canon(b)).properties, keys);
  }

  lemma {:induction false} FlatRoots(t: Schema, b: Schema)
    requires Flat(t, b)
    ensures t.allOf == [] && b.allOf == []
  {
  }

  lemma {:induction false} MergedRoot(t: Schema, b: Schema)
    ensures MergeNode(t, b).allOf == t.allOf
  {
  }

  /** Canonicalizing what was merged is merging what was canonicalized. */
  lemma {:induction false} CanonMerges(t: Schema, b: Schema)
    requires Flat(t, b)
    ensures Canon(MergeNode(t, b)) == MergeNode(Canon(t), Canon(b))
    decreases b, 2
  {
    FlatRoots(t, b);
    TypesKept(t, b);
    if TypesDisagree(t.kw.typ, b.kw.typ) {
      Refused(t, b);
      Refused(Canon(t), Canon(b));
      hide Flat, MergeNode, Canon;
    } else {
      MergeCanonProperties(t, b);
      hide Flat, MergeNode, Canon, MergeKeywords, CanonKeywords, CanonOpt;
      MergedShape(t, b);
      CanonShape(t);
      CanonShape(b);
      CanonRest(t, MergeNode(t, b));
      MergedShape(Canon(t), Canon(b));
      KeywordsCanon(t.kw, b.kw);
      CanonOptFirst(t.items, b.items);
    }
  }

  lemma {:induction false} UnmergeableKept(b: Schema)
    requires b.allOf == []
    ensures CarriesUnmergeable(Canon(b)) == CarriesUnmergeable(b)
  {
    CanonShape(b);
    hide Canon, CanonSeq, StableUnique, SortedNames;
    var c := CanonParts(b);
    assert c.patternProperties.Keys == b.patternProperties.Keys && c.dependentSchemas.Keys == b.dependentSchemas.Keys;
    assert Canon(b).kw.dependentRequired.Keys == b.kw.dependentRequired.Keys;
    assert |c.prefixItems| == |b.prefixItems| by { SameCount(b.prefixItems); }
  }

  lemma {:induction false} SameCount(ss: seq<Schema>)
    ensures |CanonSeq(ss)| == |ss|
  {
    hide Canon;
  }

  /** It records the same conflicts. */
  lemma {:induction false} ConflictsKept(t: Schema, b: Schema)
    requires Flat(t, b)
    ensures MergeConflicts(Canon(t), Canon(b)) == MergeConflicts(t, b)
    decreases b
  {
    FlatRoots(t, b);
    TypesKept(t, b);
    UnmergeableKept(b);
    CanonShape(t);
    CanonShape(b);
    NoConflictMeans(t, b);
    NoConflictMeans(Canon(t), Canon(b));
    forall x | x in t.properties && x in b.properties
      ensures MergeConflicts(Canon(t).properties[x], Canon(b).properties[x]) == MergeConflicts(t.properties[x], b.properties[x])
    {
      FlatAt(t, b, x);
      ConflictsKept(t.properties[x], b.properties[x]);
    }
    hide Canon, MergeConflicts, CarriesUnmergeable, Flat;
  }

  // ------------------------------------------------------------------ a chain of merges

  predicate FlatStep(h: Schema, branches: seq<Schema>, i: nat)
    requires i < |branches|
  {
    Flat(Stage(h, branches, i), branches[i])
  }

  predicate FlatChain(h: Schema, branches: seq<Schema>) {
    forall i :: 0 <= i < |branches| ==> FlatStep(h, branches, i)
  }

  lemma {:induction false} StageCanon(h: Schema, branches: seq<Schema>, i: nat)
    requires FlatChain(h, branches) && i <= |branches| == |CanonSeq(branches)|
    ensures Canon(Stage(h, branches, i)) == Stage(Canon(h), CanonSeq(branches), i)
  {
    hide Canon, CanonSeq, MergeNode, Flat;
    if i > 0 {
      StageCanon(h, branches, i - 1);
      assert FlatStep(h, branches, i - 1);
      CanonMerges(Stage(h, branches, i - 1), branches[i - 1]);
      CanonNth(branches, i - 1);
    }
  }

  lemma {:induction false} CanonNth(ss: seq<Schema>, i: nat)
    requires i < |ss|
    ensures |CanonSeq(ss)| == |ss| && CanonSeq(ss)[i] == Canon(ss[i])
  {
    hide Canon;
  }

  // ------------------------------------------------------------------ whole nodes

  /** The composition with its branches merged into the host. */
  function Inlined(s: Schema): Schema {
    Stage(s.(allOf := []), s.allOf, |s.allOf|)
  }

  /** No merge of the composition meets another composition, and none conflicts. */
  predicate Inlinable(s: Schema) {
    FlatChain(s.(allOf := []), s.allOf) && !CollapseConflicts(s.(allOf := []), s.allOf)
  }

  lemma {:induction false} ChainConflicts(h: Schema, branches: seq<Schema>)
    requires FlatChain(h, branches)
    ensures CollapseConflicts(Canon(h), CanonSeq(branches)) == CollapseConflicts(h, branches)
  {
    SameCount(branches);
    var cs := CanonSeq(branches);
    forall i | 0 <= i < |branches| ensures ConflictsAt(Canon(h), cs, i) == ConflictsAt(h, branches, i) {
      StageCanon(h, branches, i);
      assert FlatStep(h, branches, i);
      ConflictsKept(Stage(h, branches, i), branches[i]);
      assert cs[i] == Canon(branches[i]);
      hide Canon, MergeConflicts, Stage, Flat, CanonSeq;
    }
    hide Canon, CanonSeq, ConflictsAt, FlatStep;
  }

  lemma {:induction false} HostCanon(s: Schema)
    ensures ButForOrder(CanonParts(s).(allOf := []), Canon(s.(allOf := [])))
  {
    var h := s.(allOf := []);
    CanonShape(h);
    SortedTwice(CanonParts(s).kw);
    assert CanonParts(h).kw == CanonParts(s).kw;
    hide Canon, CanonOpt, CanonSeq, CanonAdditional, StableUnique, SortedNames;
  }

  /** Merging the branches by hand leaves the canonical form as it was. */
  lemma {:induction false} InliningIrrelevant(s: Schema)
    requires Inlinable(s)
    ensures Canon(Inlined(s)) == Canon(s)
  {
    var h, branches := s.(allOf := []), s.allOf;
    var n, cs := CanonParts(s).(allOf := []), CanonSeq(s.allOf);
    SameCount(branches);
    if branches == [] {
      assert h == s;
    } else {
      HostCanon(s);
      StageCanon(h, branches, |branches|);
      ChainConflicts(h, branches);
      OrderConflicts(n, Canon(h), cs);
      OrderStages(n, Canon(h), cs, |branches|);
      CanonCollapsed(s);
      InlinedSorted(s);
      hide Canon, CanonParts, CanonSeq, Stage, CollapseConflicts, FlatChain, SortKeywords;
    }
  }

  lemma {:induction false} CanonCollapsed(s: Schema)
    requires s.allOf != [] && !CollapseConflicts(CanonParts(s).(allOf := []), CanonSeq(s.allOf))
    ensures |CanonSeq(s.allOf)| == |s.allOf|
    ensures Canon(s) ==
      var m := Stage(CanonParts(s).(allOf := []), CanonSeq(s.allOf), |s.allOf|);
      m.(kw := SortKeywords(m.kw))
  {
    SameCount(s.allOf);
    hide CanonParts, CanonSeq, Stage, SortKeywords;
  }

  lemma {:induction false} InlinedSorted(s: Schema)
    ensures Inlined(s).allOf == []
    ensures Canon(Inlined(s)).kw == SortKeywords(Canon(Inlined(s)).kw)
  {
    StageRoot(s.(allOf := []), s.allOf, |s.allOf|);
    CanonShape(Inlined(s));
    SortedTwice(Inlined(s).kw.(dependentRequired := CanonKeywords(Inlined(s).kw).dependentRequired));
    hide Canon, Stage, StableUnique, SortedNames;
  }

  lemma {:induction false} StageRoot(h: Schema, branches: seq<Schema>, i: nat)
    requires i <= |branches|
    ensures Stage(h, branches, i).allOf == h.allOf
  {
    if i > 0 {
      StageRoot(h, branches, i - 1);
      MergedRoot(Stage(h, branches, i - 1), branches[i - 1]);
    }
    hide MergeNode;
  }
}
