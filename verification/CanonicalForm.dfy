/** Canonical form as a fixed point: canonicalizing twice changes nothing, also where a composition was reported and kept,
    unless a merge has written into a node that still holds a composition. */
module CanonicalForm {
  import opened Model
  import opened Ordering
  import opened Canonical
  import opened BranchOrder

  // ------------------------------------------------------------------ fixed points

  predicate SortedSets(kw: Keywords) {
    && (kw.enum.Some? ==> StableUnique(kw.enum.value) == kw.enum.value)
    && SortedNames(kw.required) == kw.required
  }

  predicate SettledOpt(o: Option<Schema>)
    decreases o, 0
  {
    o.Some? ==> Settled(o.value)
  }

  predicate SettledSeq(ss: seq<Schema>)
    decreases ss, 0
  {
    forall i :: 0 <= i < |ss| ==> Settled(ss[i])
  }

  predicate SettledMaps(s: Schema)
    decreases s, 0, 0
  {
    && (forall t :: t in s.kw.dependentRequired ==> SortedNames(s.kw.dependentRequired[t]) == s.kw.dependentRequired[t])
    && (forall x :: x in s.properties ==> Settled(s.properties[x]))
    && (forall e :: e in s.patternProperties ==> Settled(s.patternProperties[e]))
    && (forall t :: t in s.dependentSchemas ==> Settled(s.dependentSchemas[t]))
  }

  /** Sub-schemas are settled and dependency lists sorted. */
  predicate SettledParts(s: Schema)
    decreases s, 0, 1
  {
    && SettledMaps(s)
    && (s.additional.Described? ==> Settled(s.additional.schema))
    && SettledOpt(s.items) && SettledSeq(s.prefixItems) && SettledOpt(s.contains)
    && SettledOpt(s.propertyNames)
    && SettledOpt(s.ifSchema) && SettledOpt(s.thenSchema) && SettledOpt(s.elseSchema)
    && SettledSeq(s.oneOf) && SettledSeq(s.anyOf)
  }

  /** A composition that stays: collapsing it again conflicts again, and writes nothing new. */
  predicate AtRest(h: Schema, branches: seq<Schema>) {
    branches != [] ==> CollapseConflicts(h, branches) && WriteBacks(h, branches) == branches
  }

  predicate Settled(s: Schema)
    decreases s, 1
  {
    SortedSets(s.kw) && SettledParts(s) && SettledSeq(s.allOf) && AtRest(s.(allOf := []), s.allOf)
  }

  lemma {:induction false} SortKeywordsSorted(kw: Keywords)
    ensures SortedSets(SortKeywords(kw))
  {
    SortedNamesIdempotent(kw.required);
    if kw.enum.Some? { StableUniqueIdempotent(kw.enum.value); }
  }

  // ------------------------------------------------------------------ settled schemas are fixed

  lemma {:induction false} SettledOptFixed(o: Option<Schema>)
    requires SettledOpt(o)
    ensures CanonOpt(o) == o
    decreases o, 0
  {
    if o.Some? { SettledFixed(o.value); }
  }

  lemma {:induction false} SettledSeqFixed(ss: seq<Schema>)
    requires SettledSeq(ss)
    ensures CanonSeq(ss) == ss
    decreases ss, 0
  {
    forall i | 0 <= i < |ss| ensures CanonSeq(ss)[i] == ss[i] { SettledFixed(ss[i]); }
  }

  lemma {:induction false} SettledMapsFixed(s: Schema)
    requires SettledMaps(s)
    ensures (map x | x in s.properties :: Canon(s.properties[x])) == s.properties
    ensures (map x | x in s.patternProperties :: Canon(s.patternProperties[x])) == s.patternProperties
    ensures (map x | x in s.dependentSchemas :: Canon(s.dependentSchemas[x])) == s.dependentSchemas
    ensures (map t | t in s.kw.dependentRequired :: SortedNames(s.kw.dependentRequired[t])) == s.kw.dependentRequired
    decreases s, 0
  {
    hide Canon;
    forall x | x in s.properties ensures Canon(s.properties[x]) == s.properties[x] { SettledFixed(s.properties[x]); }
    forall x | x in s.patternProperties ensures Canon(s.patternProperties[x]) == s.patternProperties[x] {
      SettledFixed(s.patternProperties[x]);
    }
    forall x | x in s.dependentSchemas ensures Canon(s.dependentSchemas[x]) == s.dependentSchemas[x] {
      SettledFixed(s.dependentSchemas[x]);
    }
  }

  lemma {:induction false} SettledPartsFixed(s: Schema)
    requires SettledParts(s)
    ensures CanonParts(s) == s
    decreases s, 1
  {
    hide Canon, CanonOpt, CanonSeq, CanonAdditional, Settled, SettledOpt, SettledSeq, SettledMaps;
    assert CanonAdditional(s.additional) == s.additional by { AdditionalFixed(s.additional); }
    SettledMapsFixed(s);
    SettledOptFixed(s.items);
    SettledOptFixed(s.contains);
    SettledOptFixed(s.propertyNames);
    SettledOptFixed(s.ifSchema);
    SettledOptFixed(s.thenSchema);
    SettledOptFixed(s.elseSchema);
    SettledSeqFixed(s.prefixItems);
    SettledSeqFixed(s.oneOf);
    SettledSeqFixed(s.anyOf);
  }

  lemma {:induction false} AdditionalFixed(a: Additional)
    requires a.Described? ==> Settled(a.schema)
    ensures CanonAdditional(a) == a
    decreases a, 0
  {
    if a.Described? { SettledFixed(a.schema); }
  }

  lemma {:induction false} SettledFixed(s: Schema)
    requires Settled(s)
    ensures Canon(s) == s
    decreases s, 2
  {
    SettledPartsFixed(s);
    SettledSeqFixed(s.allOf);
    hide CanonParts, SettledParts, SettledSeq, CollapseConflicts, WriteBacks;
  }

  // ------------------------------------------------------------------ merging settled nodes

  /** The merge changes no node whose composition survives: it leaves the target as it is, or the target holds no
      composition and the same is true of every property merged. */
  predicate MergeGentle(t: Schema, b: Schema)
    decreases b
  {
    || MergeNode(t, b) == t
    || (t.allOf == [] && forall x :: x in t.properties && x in b.properties ==> MergeGentle(t.properties[x], b.properties[x]))
  }

  /** Nor does the write-through into a branch. */
  predicate WriteGentle(b: Schema, t: Schema, m: Schema)
    decreases b
  {
    || WriteBack(b, t, m) == b
    || (b.allOf == [] &&
        forall x :: x in b.properties && x in t.properties && x in m.properties ==>
          WriteGentle(b.properties[x], t.properties[x], m.properties[x]))
  }

  lemma {:induction false} MergedSorted(t: Keywords, b: Keywords)
    requires b.enum.Some? || (t.enum.Some? ==> StableUnique(t.enum.value) == t.enum.value)
    ensures SortedSets(MergeKeywords(t, b))
  {
    SortedNamesIdempotent(t.required + b.required);
    if b.enum.Some? {
      StableUniqueIdempotent(if t.enum.None? then b.enum.value else Common(t.enum.value, b.enum.value));
    }
  }

  lemma {:induction false} SettledAt(s: Schema, x: string)
    requires SettledParts(s) && x in s.properties
    ensures Settled(s.properties[x])
  {
    hide Settled;
  }

  lemma {:induction false} SettledPieces(s: Schema)
    requires Settled(s)
    ensures SortedSets(s.kw) && SettledParts(s) && SettledSeq(s.allOf)
  {
    hide SettledParts, SettledSeq, SortedSets;
  }

  lemma {:induction false} SettledFlat(s: Schema)
    requires s.allOf == [] && SortedSets(s.kw) && SettledParts(s)
    ensures Settled(s)
  {
    hide SettledParts, SortedSets;
  }

  /** Other properties, items and keywords on a node whose parts are settled. */
  lemma {:induction false} SettledReplaced(t: Schema, m: Schema)
    requires SettledParts(t) && m == t.(kw := m.kw, properties := m.properties, items := m.items)
    requires m.kw.dependentRequired == t.kw.dependentRequired && SettledOpt(m.items)
    requires forall x :: x in m.properties ==> Settled(m.properties[x])
    ensures SettledParts(m)
  {
    hide Settled, SettledOpt, SettledSeq;
  }

  lemma {:induction false} MergeSettledParts(t: Schema, b: Schema)
    requires SettledParts(t) && SettledParts(b) && !TypesDisagree(t.kw.typ, b.kw.typ)
    requires forall x :: x in t.properties && x in b.properties ==> MergeGentle(t.properties[x], b.properties[x])
    ensures SettledParts(MergeNode(t, b))
    decreases b, 0
  {
    var m := MergeNode(t, b);
    MergedShape(t, b);
    forall x | x in m.properties ensures Settled(m.properties[x]) {
      MergedAt(t, b, x);
      if x in t.properties { SettledAt(t, x); }
      if x in b.properties { SettledAt(b, x); }
      if x in t.properties && x in b.properties { MergeSettled(t.properties[x], b.properties[x]); }
    }
    assert SettledOpt(m.items);
    hide Settled, SettledParts, MergeNode, MergeGentle, SettledOpt;
    SettledReplaced(t, m);
  }

  lemma {:induction false} MergeSettled(t: Schema, b: Schema)
    requires Settled(t) && Settled(b) && MergeGentle(t, b)
    ensures Settled(MergeNode(t, b))
    decreases b, 1
  {
    if MergeNode(t, b) != t {
      SettledPieces(t);
      SettledPieces(b);
      if TypesDisagree(t.kw.typ, b.kw.typ) { Refused(t, b); }
      MergeSettledParts(t, b);
      MergedShape(t, b);
      MergedSorted(t.kw, b.kw);
      hide Settled, SettledParts, MergeNode, MergeGentle, SortedSets;
      SettledFlat(MergeNode(t, b));
    }
  }

  lemma {:induction false} WriteSettled(b: Schema, t: Schema, m: Schema)
    requires Settled(b) && SettledParts(m) && WriteGentle(b, t, m)
    ensures Settled(WriteBack(b, t, m))
    decreases b
  {
    var w := WriteBack(b, t, m);
    if w != b {
      SettledPieces(b);
      WrittenShape(b, t, m);
      forall x | x in w.properties ensures Settled(w.properties[x]) {
        WrittenAt(b, t, m, x);
        SettledAt(b, x);
        if x in m.properties {
          SettledAt(m, x);
          if x in t.properties && !PropertyTypesDisagree(t.properties[x].kw.typ, b.properties[x].kw.typ) {
            SettledPieces(m.properties[x]);
            WriteSettled(b.properties[x], t.properties[x], m.properties[x]);
          }
        }
      }
      ItemsSettled(b);
      hide Settled, SettledParts, WriteBack, WriteGentle, SettledOpt, SettledSeq, SortedSets;
      SettledReplaced(b, w);
      SettledFlat(w);
    }
  }

  lemma {:induction false} ItemsSettled(s: Schema)
    requires SettledParts(s)
    ensures SettledOpt(s.items)
  {
  }

  lemma {:induction false} WrittenShape(b: Schema, t: Schema, m: Schema)
    ensures WriteBack(b, t, m) == b.(properties := WriteBack(b, t, m).properties)
    ensures WriteBack(b, t, m).properties.Keys == b.properties.Keys
    ensures TypesDisagree(t.kw.typ, b.kw.typ) ==> WriteBack(b, t, m) == b
  {
  }

  lemma {:induction false} WrittenAt(b: Schema, t: Schema, m: Schema, x: string)
    requires x in b.properties
    ensures x in WriteBack(b, t, m).properties
    ensures WriteBack(b, t, m).properties[x] ==
      if TypesDisagree(t.kw.typ, b.kw.typ) || x !in m.properties then b.properties[x]
      else if x !in t.properties then m.properties[x]
      else if PropertyTypesDisagree(t.properties[x].kw.typ, b.properties[x].kw.typ) then b.properties[x]
      else WriteBack(b.properties[x], t.properties[x], m.properties[x])
  {
  }

  // ------------------------------------------------------------------ later stages of a merge

  /** What further merges can make of the keywords `r`. */
  predicate KeywordsLater(m: Keywords, r: Keywords) {
    && (r.typ.Some? ==> m.typ == r.typ) && (r.format.Some? ==> m.format == r.format) && (r.pattern.Some? ==> m.pattern == r.pattern)
    && (!r.constant.Null? ==> m.constant == r.constant) && (!r.default.Null? ==> m.default == r.default)
    && (!r.example.Null? ==> m.example == r.example) && (r.nullable ==> m.nullable)
    && (forall n :: n in r.required ==> n in m.required)
    && (r.enum.Some? ==> m.enum.Some? && forall v :: v in m.enum.value ==> v in r.enum.value)
    && Tighten(m.bounds, r.bounds) == m.bounds
  }

  predicate Later(m: Schema, r: Schema)
    decreases r
  {
    && KeywordsLater(m.kw, r.kw) && (r.items.Some? ==> m.items == r.items)
    && forall x :: x in r.properties ==> x in m.properties && Later(m.properties[x], r.properties[x])
  }

  lemma {:induction false} LaterMeans(m: Schema, r: Schema)
    ensures Later(m, r) <==>
      && KeywordsLater(m.kw, r.kw) && (r.items.Some? ==> m.items == r.items)
      && forall x :: x in r.properties ==> x in m.properties && Later(m.properties[x], r.properties[x])
  {
    hide KeywordsLater;
  }

  lemma {:induction false} LaterType(m: Schema, r: Schema)
    requires Later(m, r)
    ensures r.kw.typ.Some? ==> m.kw.typ == r.kw.typ
  {
    LaterMeans(m, r);
    hide Later;
  }

  lemma {:induction false} BoundsAbsorb(m: Bounds, t: Bounds, b: Bounds)
    ensures Tighten(t, t) == t
    ensures Tighten(m, Tighten(t, b)) == m ==> Tighten(m, b) == m
    ensures Tighten(m, t) == m ==> Tighten(Tighten(m, b), t) == Tighten(m, b)
  {
  }

  lemma {:induction false} LaterSelf(r: Schema)
    ensures Later(r, r)
    decreases r
  {
    BoundsAbsorb(r.kw.bounds, r.kw.bounds, r.kw.bounds);
    forall x | x in r.properties ensures Later(r.properties[x], r.properties[x]) { LaterSelf(r.properties[x]); }
    hide Tighten;
  }

  lemma {:induction false} KeywordsLaterMerge(m: Keywords, c: Keywords, r: Keywords)
    requires KeywordsLater(m, r)
    ensures KeywordsLater(MergeKeywords(m, c), r)
  {
    BoundsAbsorb(m.bounds, r.bounds, c.bounds);
    SortedSetElements(NameLess, m.required + c.required);
    if r.enum.Some? && c.enum.Some? {
      StableUniqueElements(Common(m.enum.value, c.enum.value));
      CommonElements(m.enum.value, c.enum.value);
    }
    hide Tighten, StableUnique, Common;
  }

  lemma {:induction false} LaterMerge(m: Schema, c: Schema, r: Schema)
    requires Later(m, r)
    ensures Later(MergeNode(m, c), r)
    decreases r
  {
    LaterMeans(m, r);
    LaterMeans(MergeNode(m, c), r);
    hide Later, KeywordsLater;
    if TypesDisagree(m.kw.typ, c.kw.typ) {
      Refused(m, c);
    } else {
      KeywordsLaterMerge(m.kw, c.kw, r.kw);
      MergedShape(m, c);
      hide MergeNode, MergeKeywords;
      forall x | x in r.properties ensures x in MergeNode(m, c).properties && Later(MergeNode(m, c).properties[x], r.properties[x]) {
        MergedAt(m, c, x);
        if x in c.properties { LaterMerge(m.properties[x], c.properties[x], r.properties[x]); }
      }
    }
  }

  lemma {:induction false} StageLater(h: Schema, branches: seq<Schema>, i: nat, k: nat)
    requires i <= k <= |branches|
    ensures Later(Stage(h, branches, k), Stage(h, branches, i))
    decreases k
  {
    hide Later, MergeNode;
    if i == k {
      LaterSelf(Stage(h, branches, i));
    } else {
      StageLater(h, branches, i, k - 1);
      LaterMerge(Stage(h, branches, k - 1), branches[k - 1], Stage(h, branches, i));
    }
  }

  // ------------------------------------------------------------------ what was merged once is absorbed

  /** Sets are sorted here and in the properties below. */
  predicate SortedDown(s: Schema)
    decreases s
  {
    SortedSets(s.kw) && forall x :: x in s.properties ==> SortedDown(s.properties[x])
  }

  lemma {:induction false} SettledSorted(s: Schema)
    requires Settled(s)
    ensures SortedDown(s)
    decreases s
  {
    SettledPieces(s);
    hide Settled, SortedSets;
    forall x | x in s.properties ensures SortedDown(s.properties[x]) {
      SettledAt(s, x);
      SettledSorted(s.properties[x]);
    }
    hide SettledParts;
  }

  lemma {:induction false} AllCommon(ours: seq<Value>, theirs: seq<Value>)
    requires forall v :: v in ours ==> Member(v, theirs)
    ensures Common(ours, theirs) == ours
  {
    if ours != [] {
      assert ours == [ours[0]] + ours[1..] && ours[0] in ours;
      forall v | v in ours[1..] ensures Member(v, theirs) { assert v in ours; }
      AllCommon(ours[1..], theirs);
    }
  }

  lemma {:induction false} EnumsAbsorb(m: Option<seq<Value>>, t: Option<seq<Value>>, b: Option<seq<Value>>)
    requires m.Some? ==> StableUnique(m.value) == m.value
    requires MeetEnums(t, b).Some? ==> m.Some? && forall v :: v in m.value ==> v in MeetEnums(t, b).value
    ensures MeetEnums(m, b) == m
  {
    if b.Some? {
      var kept := if t.None? then b.value else Common(t.value, b.value);
      StableUniqueElements(kept);
      if t.Some? { CommonElements(t.value, b.value); }
      forall v | v in m.value ensures Member(v, b.value) { if t.None? { OwnMember(v, b.value); } }
      AllCommon(m.value, b.value);
    }
  }

  lemma {:induction false} KeywordsAbsorb(m: Keywords, t: Keywords, b: Keywords)
    requires SortedSets(m) && KeywordsLater(m, MergeKeywords(t, b))
    ensures MergeKeywords(m, b) == m
  {
    EnumsAbsorb(m.enum, t.enum, b.enum);
    BoundsAbsorb(m.bounds, t.bounds, b.bounds);
    SortedSetElements(NameLess, t.required + b.required);
    forall n | n in b.required ensures n in m.required { assert n in t.required + b.required; }
    SortedNamesSame(m.required + b.required, m.required);
    hide Tighten, StableUnique, Common, SortedNames, MeetEnums;
  }

  lemma {:induction false} KeywordsAbsorbSelf(m: Keywords)
    requires SortedSets(m)
    ensures MergeKeywords(m, m) == m
  {
    if m.enum.Some? {
      forall v | v in m.enum.value ensures Member(v, m.enum.value) { OwnMember(v, m.enum.value); }
      AllCommon(m.enum.value, m.enum.value);
    }
    BoundsAbsorb(m.bounds, m.bounds, m.bounds);
    SortedNamesSame(m.required + m.required, m.required);
    hide Tighten, StableUnique, Common, SortedNames;
  }

  /** A node whose every property absorbs what it meets stays what it is. */
  lemma {:induction false} StaysFrom(m: Schema, w: Schema)
    requires !TypesDisagree(m.kw.typ, w.kw.typ) && MergeKeywords(m.kw, w.kw) == m.kw && First(m.items, w.items) == m.items
    requires w.properties.Keys <= m.properties.Keys
    requires forall x :: x in w.properties ==> MergeNode(m.properties[x], w.properties[x]) == m.properties[x]
    ensures MergeNode(m, w) == m
  {
    MergedShape(m, w);
    hide MergeNode, MergeKeywords;
    var keys := m.properties.Keys;
    assert MergeNode(m, w).properties.Keys == keys;
    forall x | x in keys ensures EqualAt(MergeNode(m, w).properties, m.properties, x) { MergedAt(m, w, x); }
    SameMaps(MergeNode(m, w).properties, m.properties, keys);
  }

  lemma {:induction false} AbsorbsSelf(m: Schema)
    requires SortedDown(m)
    ensures MergeNode(m, m) == m
    decreases m
  {
    KeywordsAbsorbSelf(m.kw);
    forall x | x in m.properties ensures MergeNode(m.properties[x], m.properties[x]) == m.properties[x] {
      AbsorbsSelf(m.properties[x]);
    }
    hide MergeKeywords, MergeNode, SortedDown;
    StaysFrom(m, m);
  }

  lemma {:induction false} LaterAt(m: Schema, t: Schema, b: Schema, x: string)
    requires Later(m, MergeNode(t, b)) && !TypesDisagree(t.kw.typ, b.kw.typ) && x in b.properties
    ensures x in m.properties
    ensures x in t.properties ==> Later(m.properties[x], MergeNode(t.properties[x], b.properties[x]))
  {
    LaterMeans(m, MergeNode(t, b));
    MergedShape(t, b);
    MergedAt(t, b, x);
    hide Later, MergeNode, KeywordsLater;
  }

  lemma {:induction false} RefusedStays(m: Schema, t: Schema, b: Schema)
    requires Later(m, MergeNode(t, b)) && TypesDisagree(t.kw.typ, b.kw.typ)
    ensures TypesDisagree(m.kw.typ, b.kw.typ) && MergeNode(m, b) == m
  {
    Refused(t, b);
    LaterType(m, t);
    Refused(m, b);
    hide Later, MergeNode;
  }

  lemma {:induction false} AbsorbsAt(m: Schema, t: Schema, b: Schema, x: string)
    requires SortedDown(m) && Later(m, MergeNode(t, b)) && !TypesDisagree(t.kw.typ, b.kw.typ) && x in b.properties
    ensures x in m.properties && x in WriteBack(b, t, m).properties
    ensures MergeNode(m.properties[x], WriteBack(b, t, m).properties[x]) == m.properties[x]
    decreases b, 0
  {
    LaterAt(m, t, b, x);
    WrittenAt(b, t, m, x);
    assert SortedDown(m.properties[x]);
    hide SortedDown, Later, WriteBack, MergeNode;
    if x !in t.properties {
      AbsorbsSelf(m.properties[x]);
    } else if PropertyTypesDisagree(t.properties[x].kw.typ, b.properties[x].kw.typ) {
      RefusedStays(m.properties[x], t.properties[x], b.properties[x]);
    } else {
      Absorbs(m.properties[x], t.properties[x], b.properties[x]);
    }
  }

  /** A branch, as it was written through, adds nothing to what it was merged into. */
  lemma {:induction false} Absorbs(m: Schema, t: Schema, b: Schema)
    requires SortedDown(m) && Later(m, MergeNode(t, b))
    ensures MergeNode(m, WriteBack(b, t, m)) == m
    decreases b, 1
  {
    WrittenShape(b, t, m);
    if TypesDisagree(t.kw.typ, b.kw.typ) {
      RefusedStays(m, t, b);
    } else if TypesDisagree(m.kw.typ, b.kw.typ) {
      hide SortedDown, Later, WriteBack;
      Refused(m, WriteBack(b, t, m));
    } else {
      var w := WriteBack(b, t, m);
      LaterMeans(m, MergeNode(t, b));
      MergedShape(t, b);
      KeywordsAbsorb(m.kw, t.kw, b.kw);
      forall x | x in b.properties ensures x in m.properties && MergeNode(m.properties[x], w.properties[x]) == m.properties[x] {
        AbsorbsAt(m, t, b, x);
      }
      hide SortedDown, Later, WriteBack, MergeNode, MergeKeywords, KeywordsLater;
      StaysFrom(m, w);
    }
  }

  // ------------------------------------------------------------------ merging the written-through branches again

  /** The target at an earlier stage, over the final state of everything that was not the host's own. */
  function WriteOver(h: Schema, t: Schema, m: Schema): Schema
    decreases t
  {
    t.(properties := map x | x in t.properties ::
         if x !in m.properties then t.properties[x]
         else if x in h.properties then WriteOver(h.properties[x], t.properties[x], m.properties[x])
         else m.properties[x])
  }

  lemma {:induction false} OverAt(h: Schema, t: Schema, m: Schema, x: string)
    ensures WriteOver(h, t, m) == t.(properties := WriteOver(h, t, m).properties)
    ensures WriteOver(h, t, m).properties.Keys == t.properties.Keys
    ensures x in t.properties ==>
      WriteOver(h, t, m).properties[x] == (if x !in m.properties then t.properties[x]
                                           else if x in h.properties then WriteOver(h.properties[x], t.properties[x], m.properties[x])
                                           else m.properties[x])
  {
  }

  lemma {:induction false} OverStart(h: Schema, m: Schema)
    ensures WriteOver(h, h, m) == h
    decreases h
  {
    var keys := h.properties.Keys;
    OverAt(h, h, m, "");
    forall x | x in keys ensures EqualAt(WriteOver(h, h, m).properties, h.properties, x) {
      OverAt(h, h, m, x);
      if x in m.properties { OverStart(h.properties[x], m.properties[x]); }
    }
    SameMaps(WriteOver(h, h, m).properties, h.properties, keys);
  }

  lemma {:induction false} OverEnd(h: Schema, m: Schema)
    ensures WriteOver(h, m, m) == m
    decreases m
  {
    var keys := m.properties.Keys;
    OverAt(h, m, m, "");
    forall x | x in keys ensures EqualAt(WriteOver(h, m, m).properties, m.properties, x) {
      OverAt(h, m, m, x);
      if x in h.properties { OverEnd(h.properties[x], m.properties[x]); }
    }
    SameMaps(WriteOver(h, m, m).properties, m.properties, keys);
  }

  /** The setting of one step: `t` grew out of the host, and `m` out of `t` merged with `b`. */
  predicate Between(h: Schema, t: Schema, b: Schema, m: Schema) {
    Later(t, h) && Later(m, MergeNode(t, b)) && forall x :: x in m.properties ==> SortedDown(m.properties[x])
  }

  lemma {:induction false} BetweenAt(h: Schema, t: Schema, b: Schema, m: Schema, x: string)
    requires Between(h, t, b, m) && !TypesDisagree(t.kw.typ, b.kw.typ) && x in b.properties && x in h.properties
    ensures x in t.properties && x in m.properties
    ensures Between(h.properties[x], t.properties[x], b.properties[x], m.properties[x])
  {
    LaterMeans(t, h);
    LaterAt(m, t, b, x);
    assert SortedDown(m.properties[x]);
    hide Later, MergeNode, KeywordsLater, SortedSets;
  }

  lemma {:induction false} BetweenParts(h: Schema, t: Schema, b: Schema, m: Schema)
    requires Between(h, t, b, m)
    ensures h.properties.Keys <= t.properties.Keys <= m.properties.Keys
    ensures !TypesDisagree(t.kw.typ, b.kw.typ) ==> b.properties.Keys <= m.properties.Keys
    ensures forall x :: x in t.properties ==> t.properties[x].kw.typ.Some? ==> m.properties[x].kw.typ == t.properties[x].kw.typ
  {
    LaterMeans(t, h);
    LaterMeans(m, MergeNode(t, b));
    if TypesDisagree(t.kw.typ, b.kw.typ) {
      Refused(t, b);
      forall x | x in t.properties ensures t.properties[x].kw.typ.Some? ==> m.properties[x].kw.typ == t.properties[x].kw.typ {
        LaterType(m.properties[x], t.properties[x]);
      }
    } else {
      MergedShape(t, b);
      forall x | x in t.properties ensures t.properties[x].kw.typ.Some? ==> m.properties[x].kw.typ == t.properties[x].kw.typ {
        MergedAt(t, b, x);
        LaterType(m.properties[x], MergeNode(t, b).properties[x]);
        if x in b.properties { TypeStays(t.properties[x], b.properties[x]); }
      }
    }
    hide Later, MergeNode, KeywordsLater, SortedDown;
  }

  lemma {:induction false} BetweenLater(h: Schema, t: Schema, b: Schema, m: Schema)
    requires Between(h, t, b, m)
    ensures Later(m, MergeNode(t, b)) && forall x :: x in m.properties ==> SortedDown(m.properties[x])
  {
    hide Later, MergeNode, SortedDown;
  }

  lemma {:induction false} TypeStays(t: Schema, b: Schema)
    ensures t.kw.typ.Some? ==> MergeNode(t, b).kw.typ == t.kw.typ
  {
  }

  lemma {:induction false} OverStepAt(h: Schema, t: Schema, b: Schema, m: Schema, x: string)
    requires Between(h, t, b, m) && !TypesDisagree(t.kw.typ, b.kw.typ) && (x in t.properties || x in b.properties)
    ensures EqualAt(MergeNode(WriteOver(h, t, m), WriteBack(b, t, m)).properties, WriteOver(h, MergeNode(t, b), m).properties, x)
    decreases b, 0
  {
    hide Between, WriteOver, WriteBack, MergeNode, Later, SortedDown;
    BetweenLater(h, t, b, m);
    BetweenParts(h, t, b, m);
    OverAt(h, t, m, x);
    MergedShape(t, b);
    OverAt(h, MergeNode(t, b), m, x);
    WrittenShape(b, t, m);
    if x in b.properties {
      WrittenAt(b, t, m, x);
      LaterAt(m, t, b, x);
      assert SortedDown(m.properties[x]);
      if x in h.properties { BetweenAt(h, t, b, m, x); }
    }
    MergedAt(t, b, x);
    MergedAt(WriteOver(h, t, m), WriteBack(b, t, m), x);
    if x in t.properties && x in b.properties {
      var refused := PropertyTypesDisagree(t.properties[x].kw.typ, b.properties[x].kw.typ);
      if x in h.properties {
        OverAt(h.properties[x], t.properties[x], m.properties[x], "");
        if refused {
          Refused(t.properties[x], b.properties[x]);
          Refused(WriteOver(h, t, m).properties[x], b.properties[x]);
        } else {
          OverStep(h.properties[x], t.properties[x], b.properties[x], m.properties[x]);
        }
      } else if refused {
        Refused(m.properties[x], b.properties[x]);
      } else {
        Absorbs(m.properties[x], t.properties[x], b.properties[x]);
      }
    }
  }

  /** Merging what became of a branch into what became of the target is what became of the two merged. */
  lemma {:induction false} OverStep(h: Schema, t: Schema, b: Schema, m: Schema)
    requires Between(h, t, b, m)
    ensures MergeNode(WriteOver(h, t, m), WriteBack(b, t, m)) == WriteOver(h, MergeNode(t, b), m)
    decreases b, 1
  {
    WrittenShape(b, t, m);
    OverAt(h, t, m, "");
    OverAt(h, MergeNode(t, b), m, "");
    var over, w := WriteOver(h, t, m), WriteBack(b, t, m);
    if TypesDisagree(t.kw.typ, b.kw.typ) {
      Refused(t, b);
      Refused(over, w);
    } else {
      MergedShape(t, b);
      MergedShape(over, w);
      var keys := t.properties.Keys + b.properties.Keys;
      forall x | x in keys ensures EqualAt(MergeNode(over, w).properties, WriteOver(h, MergeNode(t, b), m).properties, x) {
        OverStepAt(h, t, b, m, x);
      }
      hide Between, WriteOver, WriteBack, MergeNode, MergeKeywords;
      SameMaps(MergeNode(over, w).properties, WriteOver(h, MergeNode(t, b), m).properties, keys);
    }
  }

  // ------------------------------------------------------------------ writing them through again

  lemma {:induction false} SameWritten(b: Schema, t: Schema, m: Schema)
    requires !TypesDisagree(t.kw.typ, b.kw.typ) ==> forall x :: x in b.properties ==> WriteBack(b, t, m).properties[x] == b.properties[x]
    ensures WriteBack(b, t, m) == b
  {
    WrittenShape(b, t, m);
    hide WriteBack;
    if !TypesDisagree(t.kw.typ, b.kw.typ) {
      SameMapsWhole(WriteBack(b, t, m).properties, b.properties);
    }
  }

  lemma {:induction false} SameMapsWhole(m: map<string, Schema>, n: map<string, Schema>)
    requires m.Keys == n.Keys && forall x :: x in n ==> m[x] == n[x]
    ensures m == n
  {
  }

  lemma {:induction false} WrittenSelf(m: Schema)
    ensures WriteBack(m, m, m) == m
    decreases m
  {
    forall x | x in m.properties ensures WriteBack(m, m, m).properties[x] == m.properties[x] {
      WrittenAt(m, m, m, x);
      WrittenSelf(m.properties[x]);
    }
    hide WriteBack;
    SameWritten(m, m, m);
  }

  lemma {:induction false} WrittenTwiceAt(b: Schema, t: Schema, m: Schema, x: string)
    requires Later(m, MergeNode(t, b)) && !TypesDisagree(t.kw.typ, b.kw.typ) && x in b.properties
    requires !TypesDisagree(m.kw.typ, b.kw.typ)
    ensures WriteBack(WriteBack(b, t, m), m, m).properties[x] == WriteBack(b, t, m).properties[x]
    decreases b, 0
  {
    LaterAt(m, t, b, x);
    WrittenShape(b, t, m);
    WrittenAt(b, t, m, x);
    WrittenAt(WriteBack(b, t, m), m, m, x);
    hide WriteBack, Later, MergeNode;
    if x !in t.properties {
      WrittenSelf(m.properties[x]);
    } else if PropertyTypesDisagree(t.properties[x].kw.typ, b.properties[x].kw.typ) {
      RefusedStays(m.properties[x], t.properties[x], b.properties[x]);
      assert PropertyTypesDisagree(m.properties[x].kw.typ, b.properties[x].kw.typ) by {
        Refused(t.properties[x], b.properties[x]);
        LaterType(m.properties[x], t.properties[x]);
      }
    } else {
      WrittenTwice(b.properties[x], t.properties[x], m.properties[x]);
    }
  }

  lemma {:induction false} WrittenTwice(b: Schema, t: Schema, m: Schema)
    requires Later(m, MergeNode(t, b))
    ensures WriteBack(WriteBack(b, t, m), m, m) == WriteBack(b, t, m)
    decreases b, 1
  {
    WrittenShape(b, t, m);
    if TypesDisagree(t.kw.typ, b.kw.typ) {
      RefusedStays(m, t, b);
      WrittenShape(b, m, m);
    } else {
      forall x | x in b.properties && !TypesDisagree(m.kw.typ, b.kw.typ)
        ensures WriteBack(WriteBack(b, t, m), m, m).properties[x] == WriteBack(b, t, m).properties[x]
      {
        WrittenTwiceAt(b, t, m, x);
      }
      hide WriteBack, Later, MergeNode;
      SameWritten(WriteBack(b, t, m), m, m);
    }
  }

  lemma {:induction false} WrittenAgainAt(h: Schema, t: Schema, b: Schema, m: Schema, x: string)
    requires Between(h, t, b, m) && !TypesDisagree(t.kw.typ, b.kw.typ) && x in b.properties
    ensures WriteBack(WriteBack(b, t, m), WriteOver(h, t, m), m).properties[x] == WriteBack(b, t, m).properties[x]
    decreases b, 0
  {
    hide WriteBack, WriteOver, Later, MergeNode, Between;
    BetweenLater(h, t, b, m);
    var w, over := WriteBack(b, t, m), WriteOver(h, t, m);
    BetweenParts(h, t, b, m);
    LaterAt(m, t, b, x);
    OverAt(h, t, m, x);
    WrittenShape(b, t, m);
    WrittenAt(b, t, m, x);
    WrittenAt(w, over, m, x);
    if x in h.properties {
      BetweenAt(h, t, b, m, x);
      OverAt(h.properties[x], t.properties[x], m.properties[x], "");
    }
    if x in t.properties && !PropertyTypesDisagree(t.properties[x].kw.typ, b.properties[x].kw.typ) {
      if x in h.properties {
        WrittenAgain(h.properties[x], t.properties[x], b.properties[x], m.properties[x]);
        WrittenShape(b.properties[x], t.properties[x], m.properties[x]);
      } else {
        WrittenTwice(b.properties[x], t.properties[x], m.properties[x]);
        WrittenShape(b.properties[x], t.properties[x], m.properties[x]);
      }
    }
  }

  /** Merged a second time, a branch is written nothing new. */
  lemma {:induction false} WrittenAgain(h: Schema, t: Schema, b: Schema, m: Schema)
    requires Between(h, t, b, m)
    ensures WriteBack(WriteBack(b, t, m), WriteOver(h, t, m), m) == WriteBack(b, t, m)
    decreases b, 1
  {
    OverAt(h, t, m, "");
    WrittenShape(b, t, m);
    forall x | x in b.properties && !TypesDisagree(t.kw.typ, b.kw.typ)
      ensures WriteBack(WriteBack(b, t, m), WriteOver(h, t, m), m).properties[x] == WriteBack(b, t, m).properties[x]
    {
      WrittenAgainAt(h, t, b, m, x);
    }
    hide WriteBack, WriteOver, Between;
    SameWritten(WriteBack(b, t, m), WriteOver(h, t, m), m);
  }

  // ------------------------------------------------------------------ conflicts stay

  lemma {:induction false} UnmergeableWritten(b: Schema, t: Schema, m: Schema)
    ensures CarriesUnmergeable(WriteBack(b, t, m)) == CarriesUnmergeable(b)
  {
    WrittenShape(b, t, m);
    hide WriteBack;
  }

  lemma {:induction false} ConflictsStay(t: Schema, b: Schema, m: Schema)
    requires MergeConflicts(t, b) && Later(m, MergeNode(t, b))
    ensures MergeConflicts(m, WriteBack(b, t, m))
    decreases b
  {
    var w := WriteBack(b, t, m);
    WrittenShape(b, t, m);
    NoConflictMeans(t, b);
    NoConflictMeans(m, w);
    UnmergeableWritten(b, t, m);
    if TypesDisagree(t.kw.typ, b.kw.typ) {
      RefusedStays(m, t, b);
    } else if !CarriesUnmergeable(b) {
      var x :| x in t.properties && x in b.properties && MergeConflicts(t.properties[x], b.properties[x]);
      LaterAt(m, t, b, x);
      WrittenAt(b, t, m, x);
      if PropertyTypesDisagree(t.properties[x].kw.typ, b.properties[x].kw.typ) {
        RefusedStays(m.properties[x], t.properties[x], b.properties[x]);
        NoConflictMeans(m.properties[x], b.properties[x]);
      } else {
        ConflictsStay(t.properties[x], b.properties[x], m.properties[x]);
      }
      hide MergeConflicts, WriteBack, Later, MergeNode, CarriesUnmergeable;
    }
  }

  /** A branch that conflicted conflicts again. */
  lemma {:induction false} ConflictsAgain(h: Schema, t: Schema, b: Schema, m: Schema)
    requires MergeConflicts(t, b) && Between(h, t, b, m)
    ensures MergeConflicts(WriteOver(h, t, m), WriteBack(b, t, m))
    decreases b
  {
    hide MergeConflicts, WriteBack, WriteOver, Later, MergeNode, CarriesUnmergeable, Between, SortedDown;
    var w, over := WriteBack(b, t, m), WriteOver(h, t, m);
    WrittenShape(b, t, m);
    OverAt(h, t, m, "");
    NoConflictMeans(t, b);
    NoConflictMeans(over, w);
    UnmergeableWritten(b, t, m);
    if !TypesDisagree(t.kw.typ, b.kw.typ) && !CarriesUnmergeable(b) {
      var x :| x in t.properties && x in b.properties && MergeConflicts(t.properties[x], b.properties[x]);
      BetweenParts(h, t, b, m);
      BetweenLater(h, t, b, m);
      LaterAt(m, t, b, x);
      WrittenAt(b, t, m, x);
      OverAt(h, t, m, x);
      if x in h.properties {
        BetweenAt(h, t, b, m, x);
        OverAt(h.properties[x], t.properties[x], m.properties[x], "");
      }
      if PropertyTypesDisagree(t.properties[x].kw.typ, b.properties[x].kw.typ) {
        NoConflictMeans(over.properties[x], b.properties[x]);
      } else if x in h.properties {
        ConflictsAgain(h.properties[x], t.properties[x], b.properties[x], m.properties[x]);
      } else {
        ConflictsStay(t.properties[x], b.properties[x], m.properties[x]);
      }
    }
  }

  // ------------------------------------------------------------------ a whole composition

  predicate GentleStep(h: Schema, branches: seq<Schema>, i: nat)
    requires i < |branches|
  {
    MergeGentle(Stage(h, branches, i), branches[i])
  }

  predicate GentleWrite(h: Schema, branches: seq<Schema>, i: nat)
    requires i < |branches|
  {
    WriteGentle(branches[i], Stage(h, branches, i), Stage(h, branches, |branches|))
  }

  /** No merge of the composition changes a node whose own composition survives, nor does writing through to the branches
      when it is given up. */
  predicate GentleChain(h: Schema, branches: seq<Schema>) {
    && (forall i :: 0 <= i < |branches| ==> GentleStep(h, branches, i))
    && (CollapseConflicts(h, branches) ==> forall i :: 0 <= i < |branches| ==> GentleWrite(h, branches, i))
  }

  lemma {:induction false} StageSettled(h: Schema, branches: seq<Schema>, i: nat)
    requires i <= |branches| && SettledParts(h) && h.allOf == [] && SettledSeq(branches)
    requires forall k :: 0 <= k < |branches| ==> GentleStep(h, branches, k)
    ensures SettledParts(Stage(h, branches, i)) && Stage(h, branches, i).allOf == []
  {
    hide SettledParts, Settled, MergeNode;
    if i > 0 {
      StageSettled(h, branches, i - 1);
      var t, b := Stage(h, branches, i - 1), branches[i - 1];
      assert GentleStep(h, branches, i - 1);
      SettledPieces(b);
      if TypesDisagree(t.kw.typ, b.kw.typ) {
        Refused(t, b);
      } else {
        MergedShape(t, b);
        hide GentleStep;
        forall x | x in t.properties && x in b.properties ensures MergeGentle(t.properties[x], b.properties[x]) {
          GentleBelow(t, b, x);
        }
        MergeSettledParts(t, b);
      }
    }
  }

  lemma {:induction false} GentleBelow(t: Schema, b: Schema, x: string)
    requires MergeGentle(t, b) && !TypesDisagree(t.kw.typ, b.kw.typ) && x in t.properties && x in b.properties
    ensures MergeGentle(t.properties[x], b.properties[x])
  {
    if MergeNode(t, b) == t { MergedAt(t, b, x); }
  }

  lemma {:induction false} StagesOver(h: Schema, branches: seq<Schema>, i: nat)
    requires i <= |branches| && forall x :: x in Stage(h, branches, |branches|).properties ==> SortedDown(Stage(h, branches, |branches|).properties[x])
    ensures Stage(h, WriteBacks(h, branches), i) == WriteOver(h, Stage(h, branches, i), Stage(h, branches, |branches|))
  {
    hide MergeNode, WriteBack, WriteOver, SortedDown, Later;
    var m := Stage(h, branches, |branches|);
    if i == 0 {
      OverStart(h, m);
    } else {
      StagesOver(h, branches, i - 1);
      StageBetween(h, branches, i - 1);
      OverStep(h, Stage(h, branches, i - 1), branches[i - 1], m);
    }
  }

  lemma {:induction false} StageBetween(h: Schema, branches: seq<Schema>, i: nat)
    requires i < |branches| && forall x :: x in Stage(h, branches, |branches|).properties ==> SortedDown(Stage(h, branches, |branches|).properties[x])
    ensures Between(h, Stage(h, branches, i), branches[i], Stage(h, branches, |branches|))
  {
    hide MergeNode, SortedDown, Later;
    StageLater(h, branches, 0, i);
    StageLater(h, branches, i + 1, |branches|);
  }

  /** Merging the written-through branches again conflicts again, and writes nothing new. */
  lemma {:induction false} WritesRest(h: Schema, branches: seq<Schema>)
    requires branches != [] && CollapseConflicts(h, branches)
    requires forall x :: x in Stage(h, branches, |branches|).properties ==> SortedDown(Stage(h, branches, |branches|).properties[x])
    ensures AtRest(h, WriteBacks(h, branches))
  {
    hide MergeNode, WriteBack, WriteOver, SortedDown, Later, MergeConflicts, Between, Stage;
    var n := |branches|;
    var ws, m := WriteBacks(h, branches), Stage(h, branches, n);
    StagesOver(h, branches, n);
    OverEnd(h, m);
    forall i | 0 <= i < n ensures WriteBacks(h, ws)[i] == ws[i] {
      StagesOver(h, branches, i);
      StageBetween(h, branches, i);
      WrittenAgain(h, Stage(h, branches, i), branches[i], m);
    }
    assert WriteBacks(h, ws) == ws;
    var i :| 0 <= i < n && ConflictsAt(h, branches, i);
    StagesOver(h, branches, i);
    StageBetween(h, branches, i);
    ConflictsAgain(h, Stage(h, branches, i), branches[i], m);
    assert ConflictsAt(h, ws, i);
  }

  /** The order of the host's sets does not matter to it. */
  lemma {:induction false} RestButForOrder(a: Schema, b: Schema, branches: seq<Schema>)
    requires ButForOrder(a, b) && AtRest(a, branches)
    ensures AtRest(b, branches)
  {
    if branches != [] {
      OrderConflicts(a, b, branches);
      OrderStages(a, b, branches, |branches|);
      forall i | 0 <= i < |branches| ensures WriteBacks(b, branches)[i] == WriteBacks(a, branches)[i] {
        OrderStages(a, b, branches, i);
        OrderWritten(branches[i], Stage(a, branches, i), Stage(b, branches, i), Stage(a, branches, |branches|), Stage(b, branches, |branches|));
      }
      hide CollapseConflicts, WriteBack, ButForOrder, Stage;
      assert WriteBacks(b, branches) == WriteBacks(a, branches);
    }
  }

  lemma {:induction false} OrderWritten(branch: Schema, t: Schema, t': Schema, m: Schema, m': Schema)
    requires ButForOrder(t, t') && ButForOrder(m, m')
    ensures WriteBack(branch, t, m) == WriteBack(branch, t', m')
  {
    assert t.kw.typ == SortKeywords(t.kw).typ == SortKeywords(t'.kw).typ == t'.kw.typ;
    hide StableUnique, SortedNames, SortKeywords;
    WrittenShape(branch, t, m);
    WrittenShape(branch, t', m');
    forall x | x in branch.properties ensures EqualAt(WriteBack(branch, t, m).properties, WriteBack(branch, t', m').properties, x) {
      WrittenAt(branch, t, m, x);
      WrittenAt(branch, t', m', x);
    }
    hide WriteBack;
    SameMaps(WriteBack(branch, t, m).properties, WriteBack(branch, t', m').properties, branch.properties.Keys);
  }

  // ------------------------------------------------------------------ canonicalizing settles

  predicate GentleOpt(o: Option<Schema>)
    decreases o, 0
  {
    o.Some? ==> Gentle(o.value)
  }

  predicate GentleSeq(ss: seq<Schema>)
    decreases ss, 0
  {
    forall i :: 0 <= i < |ss| ==> Gentle(ss[i])
  }

  predicate GentleParts(s: Schema)
    decreases s, 0
  {
    && (forall x :: x in s.properties ==> Gentle(s.properties[x]))
    && (s.additional.Described? ==> Gentle(s.additional.schema))
    && GentleOpt(s.items) && GentleSeq(s.prefixItems) && GentleOpt(s.contains)
    && (forall e :: e in s.patternProperties ==> Gentle(s.patternProperties[e]))
    && GentleOpt(s.propertyNames)
    && (forall t :: t in s.dependentSchemas ==> Gentle(s.dependentSchemas[t]))
    && GentleOpt(s.ifSchema) && GentleOpt(s.thenSchema) && GentleOpt(s.elseSchema)
    && GentleSeq(s.oneOf) && GentleSeq(s.anyOf) && GentleSeq(s.allOf)
  }

  /** Nowhere in the schema does a merge change a node whose composition survives. */
  predicate Gentle(s: Schema)
    decreases s, 1
  {
    GentleParts(s) && GentleChain(CanonParts(s).(allOf := []), CanonSeq(s.allOf))
  }

  lemma {:induction false} CanonOptSettled(o: Option<Schema>)
    requires GentleOpt(o)
    ensures SettledOpt(CanonOpt(o))
    decreases o, 0
  {
    hide Canon, Settled, Gentle;
    if o.Some? { CanonSettled(o.value); }
  }

  lemma {:induction false} CanonSeqSettled(ss: seq<Schema>)
    requires GentleSeq(ss)
    ensures SettledSeq(CanonSeq(ss))
    decreases ss, 0
  {
    hide Canon, Settled, Gentle;
    forall i | 0 <= i < |ss| ensures Settled(CanonSeq(ss)[i]) { CanonSettled(ss[i]); }
  }

  lemma {:induction false} CanonMapsSettled(s: Schema)
    requires GentleParts(s)
    ensures SettledMaps(CanonParts(s).(allOf := []))
    decreases s, 0
  {
    hide Canon, Settled, CanonOpt, CanonSeq, CanonAdditional, Gentle, GentleOpt, GentleSeq, SortedNames;
    forall x | x in s.properties ensures Settled(Canon(s.properties[x])) { CanonSettled(s.properties[x]); }
    forall e | e in s.patternProperties ensures Settled(Canon(s.patternProperties[e])) { CanonSettled(s.patternProperties[e]); }
    forall t | t in s.dependentSchemas ensures Settled(Canon(s.dependentSchemas[t])) { CanonSettled(s.dependentSchemas[t]); }
    forall t | t in s.kw.dependentRequired
      ensures SortedNames(SortedNames(s.kw.dependentRequired[t])) == SortedNames(s.kw.dependentRequired[t])
    {
      SortedNamesIdempotent(s.kw.dependentRequired[t]);
    }
  }

  lemma {:induction false} CanonPartsSettled(s: Schema)
    requires GentleParts(s)
    ensures SettledParts(CanonParts(s).(allOf := []))
    decreases s, 1
  {
    hide Canon, CanonOpt, CanonSeq, Settled, SettledOpt, SettledSeq, SettledMaps, Gentle, GentleOpt, GentleSeq;
    CanonMapsSettled(s);
    if s.additional.Described? { CanonSettled(s.additional.schema); }
    CanonOptSettled(s.items);
    CanonSeqSettled(s.prefixItems);
    CanonOptSettled(s.contains);
    CanonOptSettled(s.propertyNames);
    CanonOptSettled(s.ifSchema);
    CanonOptSettled(s.thenSchema);
    CanonOptSettled(s.elseSchema);
    CanonSeqSettled(s.oneOf);
    CanonSeqSettled(s.anyOf);
  }

  lemma {:induction false} RekeyedParts(c: Schema, kw: Keywords, all: seq<Schema>)
    requires SettledParts(c) && kw.dependentRequired == c.kw.dependentRequired
    ensures SettledParts(c.(kw := kw, allOf := all))
  {
    hide Settled, SettledOpt, SettledSeq;
  }

  lemma {:induction false} WriteBacksSettled(h: Schema, branches: seq<Schema>)
    requires SettledParts(h) && h.allOf == [] && SettledSeq(branches) && GentleChain(h, branches) && CollapseConflicts(h, branches)
    ensures SettledSeq(WriteBacks(h, branches))
    ensures forall x :: x in Stage(h, branches, |branches|).properties ==> SortedDown(Stage(h, branches, |branches|).properties[x])
  {
    var m := Stage(h, branches, |branches|);
    StageSettled(h, branches, |branches|);
    hide SettledParts, Settled, WriteBack, Stage, CollapseConflicts, SortedDown;
    forall i | 0 <= i < |branches| ensures Settled(WriteBacks(h, branches)[i]) {
      assert GentleWrite(h, branches, i);
      WriteSettled(branches[i], Stage(h, branches, i), m);
    }
    forall x | x in m.properties ensures SortedDown(m.properties[x]) {
      SettledAt(m, x);
      SettledSorted(m.properties[x]);
    }
  }

  lemma {:induction false} SettledFrom(s: Schema)
    requires SortedSets(s.kw) && SettledParts(s) && SettledSeq(s.allOf) && AtRest(s.(allOf := []), s.allOf)
    ensures Settled(s)
  {
    hide SortedSets, SettledParts, SettledSeq, AtRest;
  }

  lemma {:induction false} CollapseSettled(n: Schema, branches: seq<Schema>)
    requires branches != [] && SettledParts(n.(allOf := [])) && SettledSeq(branches) && GentleChain(n.(allOf := []), branches)
    ensures
      var c := Collapse(n, branches);
      Settled(c.(kw := SortKeywords(c.kw)))
  {
    var h := n.(allOf := []);
    var c := Collapse(n, branches);
    var kw := SortKeywords(c.kw);
    SortKeywordsSorted(c.kw);
    assert kw.dependentRequired == c.kw.dependentRequired;
    if CollapseConflicts(h, branches) {
      var ws := WriteBacks(h, branches);
      WriteBacksSettled(h, branches);
      WritesRest(h, branches);
      SortedTwice(c.kw);
      assert c == h.(allOf := ws);
      assert ButForOrder(h, h.(kw := kw));
      RestButForOrder(h, h.(kw := kw), ws);
      RekeyedParts(h, kw, ws);
      hide SettledParts, SettledSeq, Settled, SortKeywords, AtRest, WriteBacks, GentleChain, SortedSets, CollapseConflicts;
      assert c.(kw := kw).(allOf := []) == h.(kw := kw);
      SettledFrom(c.(kw := kw));
    } else {
      StageSettled(h, branches, |branches|);
      RekeyedParts(c, kw, []);
      hide SettledParts, SettledSeq, Settled, SortKeywords, Stage, GentleChain, SortedSets;
      SettledFlat(c.(kw := kw));
    }
  }

  lemma {:induction false} CanonSettled(s: Schema)
    requires Gentle(s)
    ensures Settled(Canon(s))
    decreases s, 2
  {
    CanonPartsSettled(s);
    if s.allOf == [] {
      var n := CanonParts(s);
      SortKeywordsSorted(n.kw);
      RekeyedParts(n.(allOf := []), SortKeywords(n.kw), []);
      assert n.(allOf := []).(kw := SortKeywords(n.kw), allOf := []) == Canon(s);
      hide CanonParts, SettledParts, Settled, SortKeywords, SortedSets, Gentle;
      SettledFlat(Canon(s));
    } else {
      CanonSeqSettled(s.allOf);
      assert |CanonSeq(s.allOf)| == |s.allOf| by { hide Canon; }
      hide CanonParts, CanonSeq, SettledParts, SettledSeq, Settled, GentleParts, GentleChain, Collapse;
      CollapseSettled(CanonParts(s), CanonSeq(s.allOf));
    }
  }

  /** Canonicalization is idempotent, compositions that were reported and kept included, wherever no merge has changed a
      node whose composition survives. */
  lemma {:induction false} CanonIdempotent(s: Schema)
    requires Gentle(s)
    ensures Canon(Canon(s)) == Canon(s)
  {
    CanonSettled(s);
    SettledFixed(Canon(s));
  }

  // ------------------------------------------------------------------ schemas nothing is reported about

  /** No composition survives at the node or at a property below it. */
  predicate NoneKept(s: Schema)
    decreases s
  {
    s.allOf == [] && forall x :: x in s.properties ==> NoneKept(s.properties[x])
  }

  lemma {:induction false} NoneKeptGentle(t: Schema, b: Schema)
    requires NoneKept(t) && NoneKept(b)
    ensures MergeGentle(t, b) && NoneKept(MergeNode(t, b))
    decreases b
  {
    forall x | x in t.properties && x in b.properties
      ensures MergeGentle(t.properties[x], b.properties[x]) && NoneKept(MergeNode(t.properties[x], b.properties[x]))
    {
      NoneKeptGentle(t.properties[x], b.properties[x]);
    }
    if TypesDisagree(t.kw.typ, b.kw.typ) {
      Refused(t, b);
    } else {
      MergedShape(t, b);
      forall x | x in MergeNode(t, b).properties ensures NoneKept(MergeNode(t, b).properties[x]) { MergedAt(t, b, x); }
    }
    hide MergeNode;
  }

  lemma {:induction false} StageNoneKept(h: Schema, branches: seq<Schema>, i: nat)
    requires i <= |branches| && NoneKept(h) && forall k :: 0 <= k < |branches| ==> NoneKept(branches[k])
    ensures NoneKept(Stage(h, branches, i))
    ensures i < |branches| ==> GentleStep(h, branches, i)
  {
    hide NoneKept, MergeNode, MergeGentle;
    if i > 0 {
      StageNoneKept(h, branches, i - 1);
      NoneKeptGentle(Stage(h, branches, i - 1), branches[i - 1]);
    }
    if i < |branches| { NoneKeptGentle(Stage(h, branches, i), branches[i]); }
  }

  lemma {:induction false} HostNoneKept(s: Schema)
    requires forall x :: x in s.properties ==> NoneKept(Canon(s.properties[x]))
    ensures NoneKept(CanonParts(s).(allOf := []))
  {
    hide Canon, CanonOpt, CanonSeq, CanonAdditional;
  }

  lemma {:induction false} PropertiesUnreported(s: Schema, x: string)
    requires !Reports(s) && x in s.properties
    ensures !Reports(s.properties[x])
  {
    hide CanonParts, CanonSeq, CollapseConflicts;
    assert !ReportsMap(s, s.properties);
  }

  lemma {:induction false} BranchesUnreported(s: Schema, i: nat)
    requires !Reports(s) && i < |s.allOf|
    ensures !Reports(s.allOf[i]) && |CanonSeq(s.allOf)| == |s.allOf| && CanonSeq(s.allOf)[i] == Canon(s.allOf[i])
    ensures !CollapseConflicts(CanonParts(s).(allOf := []), CanonSeq(s.allOf))
  {
    hide CanonParts, CollapseConflicts, Canon;
    assert !ReportsSeq(s.allOf);
  }

  /** Nothing is kept where nothing is reported. */
  lemma {:induction false} UnreportedNoneKept(s: Schema)
    requires !Reports(s)
    ensures NoneKept(Canon(s))
    ensures NoneKept(CanonParts(s).(allOf := [])) && forall i :: 0 <= i < |s.allOf| ==> NoneKept(CanonSeq(s.allOf)[i])
    decreases s
  {
    forall x | x in s.properties ensures NoneKept(Canon(s.properties[x])) {
      PropertiesUnreported(s, x);
      UnreportedNoneKept(s.properties[x]);
    }
    HostNoneKept(s);
    forall i | 0 <= i < |s.allOf| ensures NoneKept(CanonSeq(s.allOf)[i]) {
      BranchesUnreported(s, i);
      UnreportedNoneKept(s.allOf[i]);
    }
    var h, branches := CanonParts(s).(allOf := []), CanonSeq(s.allOf);
    if s.allOf == [] {
      var n := CanonParts(s);
      assert n == h;
      hide CanonParts, SortKeywords, Reports;
      RekeyedNoneKept(n, SortKeywords(n.kw));
    } else {
      BranchesUnreported(s, 0);
      StageNoneKept(h, branches, |branches|);
      var c := Stage(h, branches, |branches|);
      assert Canon(s) == c.(kw := SortKeywords(c.kw)) by { hide CanonParts, CanonSeq, SortKeywords, Stage; }
      hide CanonParts, CanonSeq, SortKeywords, Stage, Reports, Canon;
      RekeyedNoneKept(c, SortKeywords(c.kw));
    }
  }

  lemma {:induction false} RekeyedNoneKept(c: Schema, kw: Keywords)
    requires NoneKept(c)
    ensures NoneKept(c.(kw := kw))
  {
  }

  lemma {:induction false} UnreportedOpt(o: Option<Schema>)
    requires !ReportsOpt(o)
    ensures GentleOpt(o)
    decreases o, 0
  {
    hide Reports, Gentle;
    if o.Some? { UnreportedGentle(o.value); }
  }

  lemma {:induction false} UnreportedSeq(ss: seq<Schema>)
    requires !ReportsSeq(ss)
    ensures GentleSeq(ss)
    decreases ss, 0
  {
    hide Reports, Gentle;
    forall i | 0 <= i < |ss| ensures Gentle(ss[i]) { UnreportedGentle(ss[i]); }
  }

  lemma {:induction false} UnreportedMap(s: Schema, m: map<string, Schema>)
    requires m == s.properties || m == s.patternProperties || m == s.dependentSchemas
    requires !ReportsMap(s, m)
    ensures forall x :: x in m ==> Gentle(m[x])
    decreases s, 0
  {
    hide Reports, Gentle;
    forall x | x in m ensures Gentle(m[x]) { UnreportedGentle(m[x]); }
  }

  lemma {:induction false} UnreportedParts(s: Schema)
    requires !ReportsParts(s)
    ensures GentleParts(s)
    decreases s, 1
  {
    hide Reports, Gentle, ReportsOpt, ReportsSeq, ReportsMap, GentleOpt, GentleSeq;
    UnreportedMap(s, s.properties);
    UnreportedMap(s, s.patternProperties);
    UnreportedMap(s, s.dependentSchemas);
    if s.additional.Described? { UnreportedGentle(s.additional.schema); }
    UnreportedOpt(s.items);
    UnreportedOpt(s.contains);
    UnreportedOpt(s.propertyNames);
    UnreportedOpt(s.ifSchema);
    UnreportedOpt(s.thenSchema);
    UnreportedOpt(s.elseSchema);
    UnreportedSeq(s.prefixItems);
    UnreportedSeq(s.oneOf);
    UnreportedSeq(s.anyOf);
    UnreportedSeq(s.allOf);
  }

  /** In particular wherever nothing is reported, and then no `allOf` is left. */
  lemma {:induction false} UnreportedGentle(s: Schema)
    requires !Reports(s)
    ensures Gentle(s) && Canon(s).allOf == []
    decreases s, 2
  {
    UnreportedParts(s);
    UnreportedNoneKept(s);
    var h, branches := CanonParts(s).(allOf := []), CanonSeq(s.allOf);
    assert |branches| == |s.allOf| by { hide Canon; }
    if s.allOf != [] { BranchesUnreported(s, 0); }
    hide CanonParts, CanonSeq, Canon, Reports, GentleParts, CollapseConflicts, Stage;
    forall i | 0 <= i < |branches| ensures GentleStep(h, branches, i) { StageNoneKept(h, branches, i); }
    assert branches == [] ==> !CollapseConflicts(h, branches) by { NothingConflicts(h); }
  }

  lemma {:induction false} NothingConflicts(h: Schema)
    ensures !CollapseConflicts(h, [])
  {
  }
}
