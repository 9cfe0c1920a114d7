/** The fixed points of canonicalization: exactly the settled schemas. */
module FixedPoints {
  import opened Model
  import opened Ordering
  import opened Canonical
  import opened BranchOrder
  import opened CanonicalForm
  import Clashes

  // ------------------------------------------------------------------ what merges make of a node

  predicate SetsGrew(p: Keywords, q: Keywords) {
    && p.dependentRequired == q.dependentRequired
    && (p.required == q.required || SortedNames(p.required) == p.required)
    && (p.enum == q.enum || (p.enum.Some? && StableUnique(p.enum.value) == p.enum.value))
  }

  /** `p` is what further merges can make of `q`, as far as the shape goes. */
  predicate GrewFrom(p: Schema, q: Schema)
    decreases q
  {
    && p == q.(kw := p.kw, properties := p.properties, items := p.items)
    && SetsGrew(p.kw, q.kw) && (q.items.Some? ==> p.items == q.items)
    && forall x :: x in q.properties ==> x in p.properties && GrewFrom(p.properties[x], q.properties[x])
  }

  lemma {:induction false} GrewMeans(p: Schema, q: Schema)
    ensures GrewFrom(p, q) <==>
      && p == q.(kw := p.kw, properties := p.properties, items := p.items)
      && SetsGrew(p.kw, q.kw) && (q.items.Some? ==> p.items == q.items)
      && forall x :: x in q.properties ==> x in p.properties && GrewFrom(p.properties[x], q.properties[x])
  {
    hide SetsGrew;
  }

  lemma {:induction false} GrewSelf(q: Schema)
    ensures GrewFrom(q, q)
    decreases q
  {
    forall x | x in q.properties ensures GrewFrom(q.properties[x], q.properties[x]) { GrewSelf(q.properties[x]); }
  }

  lemma {:induction false} SetsGrewMerge(p: Keywords, c: Keywords, q: Keywords)
    requires SetsGrew(p, q)
    ensures SetsGrew(MergeKeywords(p, c), q)
  {
    SortedNamesIdempotent(p.required + c.required);
    if c.enum.Some? { StableUniqueIdempotent(if p.enum.None? then c.enum.value else Common(p.enum.value, c.enum.value)); }
    hide StableUnique, Common, SortedNames, Tighten;
  }

  lemma {:induction false} GrewMerge(p: Schema, c: Schema, q: Schema)
    requires GrewFrom(p, q)
    ensures GrewFrom(MergeNode(p, c), q)
    decreases q
  {
    GrewMeans(p, q);
    GrewMeans(MergeNode(p, c), q);
    hide GrewFrom, SetsGrew;
    if TypesDisagree(p.kw.typ, c.kw.typ) {
      Refused(p, c);
    } else {
      SetsGrewMerge(p.kw, c.kw, q.kw);
      MergedShape(p, c);
      hide MergeNode, MergeKeywords;
      forall x | x in q.properties ensures x in MergeNode(p, c).properties && GrewFrom(MergeNode(p, c).properties[x], q.properties[x]) {
        MergedAt(p, c, x);
        if x in c.properties { GrewMerge(p.properties[x], c.properties[x], q.properties[x]); }
      }
    }
  }

  lemma {:induction false} StageGrew(h: Schema, branches: seq<Schema>, i: nat, k: nat)
    requires i <= k <= |branches|
    ensures GrewFrom(Stage(h, branches, k), Stage(h, branches, i))
    decreases k
  {
    hide GrewFrom, MergeNode;
    if i == k {
      GrewSelf(Stage(h, branches, i));
    } else {
      StageGrew(h, branches, i, k - 1);
      GrewMerge(Stage(h, branches, k - 1), branches[k - 1], Stage(h, branches, i));
    }
  }

  // ------------------------------------------------------------------ a canonical form that keeps its composition

  /** Of a node that keeps its composition, or has none, canonicalization sorts the sets and canonicalizes the parts. */
  lemma {:induction false} CanonKept(s: Schema)
    requires s.allOf != [] ==> Canon(s).allOf != []
    ensures s.allOf != [] ==> CollapseConflicts(CanonParts(s).(allOf := []), CanonSeq(s.allOf))
    ensures Canon(s) == CanonParts(s).(kw := SortKeywords(CanonParts(s).kw), allOf := Canon(s).allOf)
    ensures Canon(s).allOf == if s.allOf == [] then [] else WriteBacks(CanonParts(s).(allOf := []), CanonSeq(s.allOf))
  {
    var n, branches := CanonParts(s), CanonSeq(s.allOf);
    Clashes.StageFlat(n.(allOf := []), branches, |branches|);
    assert n.allOf == s.allOf by { hide CanonOpt, CanonSeq, CanonAdditional; }
    hide CanonParts, CanonSeq, Stage, CollapseConflicts, WriteBacks, SortKeywords;
  }

  /** ... and keeps the names of its properties. */
  lemma {:induction false} CanonKeptProperties(s: Schema)
    requires s.allOf != [] ==> Canon(s).allOf != []
    ensures Canon(s).properties.Keys == s.properties.Keys
    ensures forall x :: x in s.properties ==> Canon(s).properties[x] == Canon(s.properties[x])
    ensures Canon(s).items == CanonOpt(s.items)
    ensures Canon(s).kw == SortKeywords(CanonParts(s).kw)
  {
    CanonKept(s);
    hide Canon, CanonOpt, CanonSeq, CanonAdditional, SortKeywords;
  }

  // ------------------------------------------------------------------ nothing written is taken back

  lemma {:induction false} GrewKeywords(p: Schema, q: Schema)
    requires SetsGrew(p.kw, q.kw) && q.kw == SortKeywords(CanonParts(p).kw)
    ensures p.kw == q.kw
  {
    hide CanonOpt, CanonSeq, CanonAdditional, Canon, StableUnique, SortedNames;
  }

  /** What grew out of its own canonical form is that form. */
  lemma {:induction false} GrewFixed(p: Schema, q: Schema)
    requires GrewFrom(p, q) && Canon(p) == q
    ensures p == q
    decreases q
  {
    GrewMeans(p, q);
    CanonKeptProperties(p);
    GrewKeywords(p, q);
    hide GrewFrom, SetsGrew, Canon, CanonParts, SortKeywords;
    assert p.items == q.items;
    forall x | x in p.properties ensures EqualAt(p.properties, q.properties, x) {
      assert Canon(p.properties[x]) == q.properties[x];
      GrewFixed(p.properties[x], q.properties[x]);
    }
    SameMaps(p.properties, q.properties, q.properties.Keys);
  }

  lemma {:induction false} WrittenFixedAt(b: Schema, c: Schema, t: Schema, m: Schema, x: string)
    requires c.allOf == b.allOf && Canon(b) == c && WriteBack(c, t, m) == b && GrewFrom(m, MergeNode(t, c))
    requires !TypesDisagree(t.kw.typ, c.kw.typ) && x in c.properties
    ensures x in b.properties && b.properties[x] == c.properties[x]
    decreases c, 0
  {
    hide *;
    CanonKeptProperties(b);
    WrittenAt(c, t, m, x);
    MergedShape(t, c);
    MergedAt(t, c, x);
    GrewMeans(m, MergeNode(t, c));
    var p, q := b.properties[x], c.properties[x];
    assert Canon(p) == q;
    if x !in t.properties {
      GrewFixed(p, q);
    } else if !PropertyTypesDisagree(t.properties[x].kw.typ, q.kw.typ) {
      WrittenFixed(p, q, t.properties[x], m.properties[x]);
    }
  }

  /** A branch that reads as it did before although a merge wrote into its canonical form was canonical. */
  lemma {:induction false} WrittenFixed(b: Schema, c: Schema, t: Schema, m: Schema)
    requires Canon(b) == c && WriteBack(c, t, m) == b && GrewFrom(m, MergeNode(t, c))
    ensures b == c
    decreases c, 1
  {
    WrittenShape(c, t, m);
    if !TypesDisagree(t.kw.typ, c.kw.typ) {
      hide Canon, WriteBack, GrewFrom, MergeNode;
      forall x | x in c.properties ensures EqualAt(b.properties, c.properties, x) { WrittenFixedAt(b, c, t, m, x); }
      SameMaps(b.properties, c.properties, c.properties.Keys);
    }
  }

  // ------------------------------------------------------------------ fixed schemas are settled

  lemma {:induction false} FixedOpt(o: Option<Schema>)
    requires CanonOpt(o) == o
    ensures SettledOpt(o)
    decreases o, 0
  {
    hide Canon, Settled;
    if o.Some? { FixedSettled(o.value); }
  }

  lemma {:induction false} FixedSeq(ss: seq<Schema>)
    requires CanonSeq(ss) == ss
    ensures SettledSeq(ss)
    decreases ss, 0
  {
    hide Canon, Settled;
    forall i | 0 <= i < |ss| ensures Settled(ss[i]) {
      assert CanonSeq(ss)[i] == Canon(ss[i]);
      FixedSettled(ss[i]);
    }
  }

  lemma {:induction false} FixedAdditional(a: Additional)
    requires CanonAdditional(a) == a
    ensures a.Described? ==> Settled(a.schema)
    decreases a, 0
  {
    hide Canon, Settled;
    if a.Described? { FixedSettled(a.schema); }
  }

  lemma {:induction false} FixedMaps(s: Schema)
    requires CanonParts(s) == s
    ensures SettledMaps(s)
    decreases s, 0
  {
    FixedMapsAt(s);
    hide Canon, Settled, CanonParts;
    forall x | x in s.properties ensures Settled(s.properties[x]) { FixedSettled(s.properties[x]); }
    forall x | x in s.patternProperties ensures Settled(s.patternProperties[x]) { FixedSettled(s.patternProperties[x]); }
    forall x | x in s.dependentSchemas ensures Settled(s.dependentSchemas[x]) { FixedSettled(s.dependentSchemas[x]); }
  }

  lemma {:induction false} FixedMapsAt(s: Schema)
    requires CanonParts(s) == s
    ensures forall x :: x in s.properties ==> Canon(s.properties[x]) == s.properties[x]
    ensures forall x :: x in s.patternProperties ==> Canon(s.patternProperties[x]) == s.patternProperties[x]
    ensures forall x :: x in s.dependentSchemas ==> Canon(s.dependentSchemas[x]) == s.dependentSchemas[x]
    ensures forall t :: t in s.kw.dependentRequired ==> SortedNames(s.kw.dependentRequired[t]) == s.kw.dependentRequired[t]
  {
    hide Canon, CanonOpt, CanonSeq, CanonAdditional;
    var n := CanonParts(s);
    forall x | x in s.properties ensures Canon(s.properties[x]) == s.properties[x] { assert n.properties[x] == Canon(s.properties[x]); }
    forall x | x in s.patternProperties ensures Canon(s.patternProperties[x]) == s.patternProperties[x] {
      assert n.patternProperties[x] == Canon(s.patternProperties[x]);
    }
    forall x | x in s.dependentSchemas ensures Canon(s.dependentSchemas[x]) == s.dependentSchemas[x] {
      assert n.dependentSchemas[x] == Canon(s.dependentSchemas[x]);
    }
    forall t | t in s.kw.dependentRequired ensures SortedNames(s.kw.dependentRequired[t]) == s.kw.dependentRequired[t] {
      assert n.kw.dependentRequired[t] == SortedNames(s.kw.dependentRequired[t]);
    }
  }

  lemma {:induction false} FixedSingles(s: Schema)
    requires CanonParts(s) == s
    ensures CanonAdditional(s.additional) == s.additional && CanonOpt(s.items) == s.items && CanonSeq(s.prefixItems) == s.prefixItems
    ensures CanonOpt(s.contains) == s.contains && CanonOpt(s.propertyNames) == s.propertyNames
    ensures CanonOpt(s.ifSchema) == s.ifSchema && CanonOpt(s.thenSchema) == s.thenSchema && CanonOpt(s.elseSchema) == s.elseSchema
    ensures CanonSeq(s.oneOf) == s.oneOf && CanonSeq(s.anyOf) == s.anyOf
  {
    hide Canon, CanonOpt, CanonSeq, CanonAdditional;
  }

  lemma {:induction false} FixedParts(s: Schema)
    requires CanonParts(s) == s
    ensures SettledParts(s)
    decreases s, 1
  {
    FixedSingles(s);
    FixedMaps(s);
    hide CanonParts, CanonOpt, CanonSeq, CanonAdditional, Canon, Settled, SettledMaps, SettledOpt, SettledSeq;
    FixedAdditional(s.additional);
    FixedOpt(s.items);
    FixedSeq(s.prefixItems);
    FixedOpt(s.contains);
    FixedOpt(s.propertyNames);
    FixedOpt(s.ifSchema);
    FixedOpt(s.thenSchema);
    FixedOpt(s.elseSchema);
    FixedSeq(s.oneOf);
    FixedSeq(s.anyOf);
  }

  lemma {:induction false} PartsFixed(s: Schema)
    requires Canon(s) == s
    ensures CanonParts(s) == s && SortedSets(s.kw)
  {
    CanonKept(s);
    var n := CanonParts(s);
    assert n == s.(kw := n.kw, properties := n.properties, additional := n.additional, items := n.items, prefixItems := n.prefixItems,
                   contains := n.contains, patternProperties := n.patternProperties, propertyNames := n.propertyNames,
                   dependentSchemas := n.dependentSchemas, ifSchema := n.ifSchema, thenSchema := n.thenSchema,
                   elseSchema := n.elseSchema, oneOf := n.oneOf, anyOf := n.anyOf)
      && n.kw == s.kw.(dependentRequired := n.kw.dependentRequired) by { hide CanonOpt, CanonSeq, CanonAdditional, Canon; }
    hide Canon, CanonParts;
    SortKeywordsSorted(n.kw);
    hide SortedSets;
  }

  lemma {:induction false} BranchFixed(h: Schema, branches: seq<Schema>, i: nat, b: Schema)
    requires i < |branches| && branches[i] == Canon(b)
    requires WriteBack(branches[i], Stage(h, branches, i), Stage(h, branches, |branches|)) == b
    ensures branches[i] == b
  {
    hide *;
    StageGrew(h, branches, i + 1, |branches|);
    NextStage(h, branches, i);
    WrittenFixed(b, branches[i], Stage(h, branches, i), Stage(h, branches, |branches|));
  }

  lemma {:induction false} EachCanonical(ss: seq<Schema>)
    ensures |CanonSeq(ss)| == |ss| && forall i :: 0 <= i < |ss| ==> CanonSeq(ss)[i] == Canon(ss[i])
  {
    hide Canon;
  }

  lemma {:induction false} EachWritten(h: Schema, branches: seq<Schema>, i: nat)
    requires i < |branches|
    ensures |WriteBacks(h, branches)| == |branches|
    ensures WriteBacks(h, branches)[i] == WriteBack(branches[i], Stage(h, branches, i), Stage(h, branches, |branches|))
  {
    hide WriteBack, Stage;
  }

  lemma {:induction false} BranchesFixed(s: Schema)
    requires Canon(s) == s && s.allOf != []
    ensures CanonSeq(s.allOf) == s.allOf
  {
    hide *;
    PartsFixed(s);
    CanonKept(s);
    var h, branches := s.(allOf := []), CanonSeq(s.allOf);
    EachCanonical(s.allOf);
    forall i | 0 <= i < |branches| ensures branches[i] == s.allOf[i] {
      EachWritten(h, branches, i);
      BranchFixed(h, branches, i, s.allOf[i]);
    }
  }

  lemma {:induction false} NextStage(h: Schema, branches: seq<Schema>, i: nat)
    requires i < |branches|
    ensures Stage(h, branches, i + 1) == MergeNode(Stage(h, branches, i), branches[i])
  {
  }

  lemma {:induction false} FixedSettled(s: Schema)
    requires Canon(s) == s
    ensures Settled(s)
    decreases s, 2
  {
    PartsFixed(s);
    FixedParts(s);
    if s.allOf != [] { BranchesFixed(s); }
    CanonKept(s);
    assert CanonSeq([]) == [];
    FixedSeq(s.allOf);
    hide Canon, CanonParts, CanonSeq, SettledParts, SettledSeq, SortedSets, CollapseConflicts, WriteBacks;
    SettledFrom(s);
  }

  /** A schema is its own canonical form if and only if its sets are sorted, its sub-schemas settled, and every composition
      it holds conflicts and has taken in everything a merge would write. */
  lemma {:induction false} FixedExactly(s: Schema)
    ensures Canon(s) == s <==> Settled(s)
  {
    hide Canon, Settled;
    if Settled(s) { SettledFixed(s); }
    if Canon(s) == s { FixedSettled(s); }
  }

  /** Canonicalizing twice changes nothing if and only if the first form is settled. */
  lemma {:induction false} IdempotentExactly(s: Schema)
    ensures Canon(Canon(s)) == Canon(s) <==> Settled(Canon(s))
  {
    hide Canon, Settled;
    FixedExactly(Canon(s));
  }

  // ------------------------------------------------------------------ a kept composition that is merged into

  /** Wherever the merge changes a node, the composition kept there has nothing more to take in. */
  predicate MergeRests(t: Schema, b: Schema)
    decreases b
  {
    || MergeNode(t, b) == t
    || (AtRest(MergeNode(t, b).(allOf := []), t.allOf) &&
        forall x :: x in t.properties && x in b.properties ==> MergeRests(t.properties[x], b.properties[x]))
  }

  lemma {:induction false} RestsMeans(t: Schema, b: Schema)
    requires MergeNode(t, b) != t
    ensures MergeRests(t, b) <==>
      && AtRest(MergeNode(t, b).(allOf := []), t.allOf)
      && forall x :: x in t.properties && x in b.properties ==> MergeRests(t.properties[x], b.properties[x])
  {
    hide AtRest, MergeNode;
  }

  lemma {:induction false} PropertiesRest(t: Schema, b: Schema)
    requires SettledParts(t) && SettledParts(b) && !TypesDisagree(t.kw.typ, b.kw.typ)
    ensures SettledParts(MergeNode(t, b)) <==>
      forall x :: x in t.properties && x in b.properties ==> MergeRests(t.properties[x], b.properties[x])
    decreases b, 0
  {
    var m := MergeNode(t, b);
    MergedShape(t, b);
    ItemsSettled(t);
    ItemsSettled(b);
    hide Settled, SettledParts, MergeNode, MergeRests, SettledOpt;
    forall x | x in m.properties
      ensures Settled(m.properties[x]) <==> (x in t.properties && x in b.properties ==> MergeRests(t.properties[x], b.properties[x]))
    {
      MergedAt(t, b, x);
      if x in t.properties { SettledAt(t, x); }
      if x in b.properties { SettledAt(b, x); }
      if x in t.properties && x in b.properties { MergeRestsExactly(t.properties[x], b.properties[x]); }
    }
    if SettledParts(m) {
      forall x | x in m.properties ensures Settled(m.properties[x]) { SettledAt(m, x); }
    }
    if forall x :: x in m.properties ==> Settled(m.properties[x]) { SettledReplaced(t, m); }
  }

  /** A merge of two fixed points is a fixed point again if and only if every composition it writes into is at rest. */
  lemma {:induction false} MergeRestsExactly(t: Schema, b: Schema)
    requires Settled(t) && Settled(b)
    ensures Settled(MergeNode(t, b)) <==> MergeRests(t, b)
    decreases b, 1
  {
    hide *;
    if MergeNode(t, b) == t {
      RestsSame(t, b);
    } else {
      SettledPieces(t);
      SettledPieces(b);
      if TypesDisagree(t.kw.typ, b.kw.typ) { Refused(t, b); }
      PropertiesRest(t, b);
      RestsMeans(t, b);
      SettledMerge(t, b);
    }
  }

  lemma {:induction false} RestsSame(t: Schema, b: Schema)
    requires MergeNode(t, b) == t
    ensures MergeRests(t, b)
  {
    hide MergeNode;
  }

  lemma {:induction false} SettledMerge(t: Schema, b: Schema)
    requires SortedSets(t.kw) && SettledSeq(t.allOf) && !TypesDisagree(t.kw.typ, b.kw.typ)
    ensures Settled(MergeNode(t, b)) <==> SettledParts(MergeNode(t, b)) && AtRest(MergeNode(t, b).(allOf := []), t.allOf)
  {
    MergedShape(t, b);
    MergedSorted(t.kw, b.kw);
    hide SettledParts, SettledSeq, SortedSets, AtRest, MergeNode, MergeKeywords;
  }
}
