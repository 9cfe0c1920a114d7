/** The order of `allOf` branches: exactly when two merges commute, and what follows for any number of branches. */
module BranchOrder {
  import opened Model
  import opened Ordering
  import opened Canonical

  // ------------------------------------------------------------------ intersecting enums

  lemma {:induction false} CommonLast(ours: seq<Value>, last: Value, theirs: seq<Value>)
    ensures Common(ours + [last], theirs) == Common(ours, theirs) + if Member(last, theirs) then [last] else []
  {
    if ours == [] {
      assert ours + [last] == [last] && [last][1..] == [];
    } else {
      CommonLast(ours[1..], last, theirs);
      assert (ours + [last])[1..] == ours[1..] + [last];
    }
  }

  lemma {:induction false} CommonDeduped(ours: seq<Value>, theirs: seq<Value>)
    ensures Common(Dedupe(ours), theirs) == Dedupe(Common(ours, theirs))
  {
    if ours != [] {
      var front, last := ours[..|ours| - 1], ours[|ours| - 1];
      assert ours == front + [last];
      CommonDeduped(front, theirs);
      CommonLast(front, last, theirs);
      CommonLast(Dedupe(front), last, theirs);
      CommonElements(front, theirs);
      DedupeElements(front);
      DedupeElements(Common(front, theirs));
      DedupeLast(Common(front, theirs), last);
      DedupeLast(front, last);
      hide Common, Dedupe, Member;
      assert Dedupe(ours) == if last in Dedupe(front) then Dedupe(front) else Dedupe(front) + [last];
      assert Common(ours, theirs) == if Member(last, theirs) then Common(front, theirs) + [last] else Common(front, theirs);
    }
  }

  lemma {:induction false} DedupeLast(front: seq<Value>, last: Value)
    ensures Dedupe(front + [last]) == Dedupe(front) + if last in Dedupe(front) then [] else [last]
  {
    assert (front + [last])[..|front|] == front;
  }

  lemma {:induction false} ScalarsCommon(ours: seq<Value>, theirs: seq<Value>)
    requires AllScalar(ours)
    ensures AllScalar(Common(ours, theirs))
  {
    CommonElements(ours, theirs);
    forall i | 0 <= i < |Common(ours, theirs)| ensures Scalar(Common(ours, theirs)[i]) {
      assert Common(ours, theirs)[i] in ours;
      var j :| 0 <= j < |ours| && ours[j] == Common(ours, theirs)[i];
    }
  }

  /** Putting a list in order first does not show in the intersection. */
  lemma {:induction false} StableFirst(ours: seq<Value>, theirs: seq<Value>)
    ensures StableUnique(Common(StableUnique(ours), theirs)) == StableUnique(Common(ours, theirs))
  {
    var c := Common(ours, theirs);
    StableUniqueElements(ours);
    CommonElements(ours, theirs);
    CommonElements(StableUnique(ours), theirs);
    if AllScalar(ours) {
      ScalarsCommon(ours, theirs);
      StableUniqueSame(c, Common(StableUnique(ours), theirs));
    } else {
      CommonDeduped(ours, theirs);
      DedupedStable(c);
    }
  }

  lemma {:induction false} DedupedStable(values: seq<Value>)
    ensures StableUnique(Dedupe(values)) == StableUnique(values)
  {
    DedupeElements(values);
    if AllScalar(values) {
      StableUniqueSame(values, Dedupe(values));
    } else {
      AllScalarSame(values, Dedupe(values));
      DedupeNoDuplicates(values);
      DedupeFixed(Dedupe(values));
    }
  }

  lemma {:induction false} CommonTwice(h: seq<Value>, a: seq<Value>, b: seq<Value>)
    ensures Common(Common(h, a), b) == Common(Common(h, b), a)
  {
    if h != [] {
      CommonTwice(h[1..], a, b);
      assert Common(h, a) == if Member(h[0], a) then [h[0]] + Common(h[1..], a) else Common(h[1..], a);
      assert Common(h, b) == if Member(h[0], b) then [h[0]] + Common(h[1..], b) else Common(h[1..], b);
      CommonFirst(h[0], Common(h[1..], a), b);
      CommonFirst(h[0], Common(h[1..], b), a);
    }
  }

  lemma {:induction false} CommonFirst(first: Value, rest: seq<Value>, theirs: seq<Value>)
    ensures Common([first] + rest, theirs) == (if Member(first, theirs) then [first] else []) + Common(rest, theirs)
  {
    assert ([first] + rest)[1..] == rest;
  }

  /** The host's enum settles the order, or one branch has none, or the two intersections coincide. */
  predicate EnumsMeet(h: Option<seq<Value>>, a: Option<seq<Value>>, b: Option<seq<Value>>) {
    h.Some? || a.None? || b.None? ||
    StableUnique(Common(StableUnique(a.value), b.value)) == StableUnique(Common(StableUnique(b.value), a.value))
  }

  lemma {:induction false} EnumsExactly(h: Option<seq<Value>>, a: Option<seq<Value>>, b: Option<seq<Value>>)
    ensures MeetEnums(MeetEnums(h, a), b) == MeetEnums(MeetEnums(h, b), a) <==> EnumsMeet(h, a, b)
  {
    if h.Some? && a.Some? && b.Some? {
      StableFirst(Common(h.value, a.value), b.value);
      StableFirst(Common(h.value, b.value), a.value);
      CommonTwice(h.value, a.value, b.value);
    }
    hide Common, StableUnique;
  }

  lemma {:induction false} OwnMember(v: Value, values: seq<Value>)
    requires v in values
    ensures Member(v, values)
  {
    var i :| 0 <= i < |values| && values[i] == v;
    assert PyEq(v, values[i]);
  }

  lemma {:induction false} FoundIn(u: Value, w: Value, values: seq<Value>)
    requires w in values && PyEq(u, w)
    ensures Member(u, values)
  {
    var i :| 0 <= i < |values| && values[i] == w;
  }

  lemma {:induction false} SameMeeting(a: seq<Value>, b: seq<Value>)
    requires AllScalar(a) && AllScalar(b)
    ensures EnumsMeet(None, Some(a), Some(b)) <==> SameElements(Common(a, b), Common(b, a))
  {
    StableFirst(a, b);
    StableFirst(b, a);
    ScalarsCommon(a, b);
    StableUniqueElements(Common(a, b));
    StableUniqueElements(Common(b, a));
    hide Common, StableUnique, AllScalar;
    if SameElements(Common(a, b), Common(b, a)) { StableUniqueSame(Common(a, b), Common(b, a)); }
  }

  /** Two lists of scalars intersect alike either way exactly when members that are `==` are in both lists. */
  lemma {:induction false} ScalarEnumsExactly(a: seq<Value>, b: seq<Value>)
    requires AllScalar(a) && AllScalar(b)
    ensures EnumsMeet(None, Some(a), Some(b)) <==> forall u, w :: u in a && w in b && PyEq(u, w) ==> u in b && w in a
  {
    SameMeeting(a, b);
    CommonElements(a, b);
    CommonElements(b, a);
    hide Common, StableUnique, AllScalar, Member, EnumsMeet, PyEq;
    if SameElements(Common(a, b), Common(b, a)) {
      forall u, w | u in a && w in b && PyEq(u, w) ensures u in b && w in a {
        FoundIn(u, w, b);
        EqSymmetric(u, w);
        FoundIn(w, u, a);
        assert u in Common(a, b) && w in Common(b, a);
      }
    }
    if forall u, w :: u in a && w in b && PyEq(u, w) ==> u in b && w in a {
      forall v | v in a && Member(v, b) ensures v in b && Member(v, a) { InBoth(v, b); OwnMember(v, a); }
      forall v | v in b && Member(v, a) ensures v in a && Member(v, b) {
        InBoth(v, a);
        var w :| w in a && PyEq(v, w);
        EqSymmetric(v, w);
        OwnMember(v, b);
      }
    }
  }

  lemma {:induction false} EqSymmetric(u: Value, w: Value)
    requires PyEq(u, w)
    ensures PyEq(w, u)
  {
  }

  lemma {:induction false} InBoth(v: Value, values: seq<Value>)
    requires Member(v, values)
    ensures exists w :: w in values && PyEq(v, w)
  {
    var i :| 0 <= i < |values| && PyEq(v, values[i]);
    assert values[i] in values;
  }

  // ------------------------------------------------------------------ keywords

  /** A slot the first writer fills: the host has filled it, or the branches do not state it differently. */
  predicate SlotFree<T(==)>(h: Option<T>, a: Option<T>, b: Option<T>) {
    h.Some? || a.None? || b.None? || a == b
  }

  predicate ValueFree(h: Value, a: Value, b: Value) {
    !h.Null? || a.Null? || b.Null? || a == b
  }

  predicate SlotsFree(h: Keywords, a: Keywords, b: Keywords) {
    && SlotFree(h.typ, a.typ, b.typ) && SlotFree(h.format, a.format, b.format) && SlotFree(h.pattern, a.pattern, b.pattern)
    && ValueFree(h.constant, a.constant, b.constant) && ValueFree(h.default, a.default, b.default)
    && ValueFree(h.example, a.example, b.example)
  }

  lemma {:induction false} RequiredCommute(h: seq<string>, a: seq<string>, b: seq<string>)
    ensures SortedNames(SortedNames(h + a) + b) == SortedNames(SortedNames(h + b) + a)
    ensures SortedNames(a + b) == SortedNames(b + a)
  {
    SortedSetElements(NameLess, h + a);
    SortedSetElements(NameLess, h + b);
    SortedNamesSame(SortedNames(h + a) + b, SortedNames(h + b) + a);
    SortedNamesSame(a + b, b + a);
  }

  lemma {:induction false} BoundsCommute(h: Bounds, a: Bounds, b: Bounds)
    ensures Tighten(Tighten(h, a), b) == Tighten(Tighten(h, b), a)
    ensures Tighten(a, b) == Tighten(b, a)
  {
  }

  lemma {:induction false} KeywordsExactly(h: Keywords, a: Keywords, b: Keywords)
    ensures MergeKeywords(MergeKeywords(h, a), b) == MergeKeywords(MergeKeywords(h, b), a) <==>
      SlotsFree(h, a, b) && EnumsMeet(h.enum, a.enum, b.enum)
  {
    EnumsExactly(h.enum, a.enum, b.enum);
    RequiredCommute(h.required, a.required, b.required);
    BoundsCommute(h.bounds, a.bounds, b.bounds);
    hide MeetEnums, Tighten, EnumsMeet, SortedNames;
  }

  /** What a merge takes from its target unchanged. */
  function LeftBehind(s: Schema): Schema {
    s.(kw := s.kw.(typ := None, required := [], enum := None, bounds := NO_BOUNDS, format := None, pattern := None,
                   constant := Null, default := Null, example := Null, nullable := false),
       properties := map[], items := None)
  }

  lemma {:induction false} KeywordsSwapExactly(a: Schema, b: Schema)
    requires LeftBehind(a) == LeftBehind(b)
    ensures MergeKeywords(a.kw, b.kw) == MergeKeywords(b.kw, a.kw) <==>
      SlotsFree(NO_KEYWORDS, a.kw, b.kw) && MeetEnums(a.kw.enum, b.kw.enum) == MeetEnums(b.kw.enum, a.kw.enum)
  {
    RequiredCommute([], a.kw.required, b.kw.required);
    BoundsCommute(NO_BOUNDS, a.kw.bounds, b.kw.bounds);
    hide MeetEnums, Tighten, SortedNames;
  }

  // ------------------------------------------------------------------ two nodes merged either way

  /** Nothing on the two nodes tells which was there first, nor on the properties they share. */
  predicate Swaps(a: Schema, b: Schema)
    decreases b
  {
    && LeftBehind(a) == LeftBehind(b) && SlotsFree(NO_KEYWORDS, a.kw, b.kw) && SlotFree(None, a.items, b.items)
    && MeetEnums(a.kw.enum, b.kw.enum) == MeetEnums(b.kw.enum, a.kw.enum)
    && forall x :: x in a.properties && x in b.properties ==> Swaps(a.properties[x], b.properties[x])
  }

  /** What a merge without disagreement does, property by property. */
  lemma {:induction false} MergedShape(t: Schema, b: Schema)
    requires !TypesDisagree(t.kw.typ, b.kw.typ)
    ensures MergeNode(t, b) == t.(kw := MergeKeywords(t.kw, b.kw), properties := MergeNode(t, b).properties, items := First(t.items, b.items))
    ensures MergeNode(t, b).properties.Keys == t.properties.Keys + b.properties.Keys
  {
  }

  /** Where the types of a shared property disagree, merging keeps the target's, so no case has to be made of it. */
  lemma {:induction false} MergedAt(t: Schema, b: Schema, x: string)
    requires !TypesDisagree(t.kw.typ, b.kw.typ) && (x in t.properties || x in b.properties)
    ensures x in MergeNode(t, b).properties
    ensures MergeNode(t, b).properties[x] ==
      if x !in t.properties then b.properties[x]
      else if x !in b.properties then t.properties[x]
      else MergeNode(t.properties[x], b.properties[x])
  {
  }

  lemma {:induction false} Refused(t: Schema, b: Schema)
    requires TypesDisagree(t.kw.typ, b.kw.typ)
    ensures MergeNode(t, b) == t
  {
  }

  predicate EqualAt(m: map<string, Schema>, n: map<string, Schema>, x: string) {
    x in m && x in n && m[x] == n[x]
  }

  lemma {:induction false} SameMaps(m: map<string, Schema>, n: map<string, Schema>, keys: set<string>)
    requires m.Keys == keys == n.Keys
    ensures m == n <==> forall x :: x in keys ==> EqualAt(m, n, x)
  {
  }

  lemma {:induction false} SwappedAt(a: Schema, b: Schema, x: string)
    requires !TypesDisagree(a.kw.typ, b.kw.typ) && (x in a.properties || x in b.properties)
    ensures EqualAt(MergeNode(a, b).properties, MergeNode(b, a).properties, x) <==>
      (x in a.properties && x in b.properties ==> Swaps(a.properties[x], b.properties[x]))
    decreases b, 0
  {
    hide MergeNode, Swaps;
    MergedAt(a, b, x);
    MergedAt(b, a, x);
    if x in a.properties && x in b.properties { SwapExactly(a.properties[x], b.properties[x]); }
  }

  lemma {:induction false} SwappedProperties(a: Schema, b: Schema)
    requires !TypesDisagree(a.kw.typ, b.kw.typ)
    ensures MergeNode(a, b).properties == MergeNode(b, a).properties <==>
      forall x :: x in a.properties && x in b.properties ==> Swaps(a.properties[x], b.properties[x])
    decreases b, 1
  {
    hide *;
    MergedShape(a, b);
    TypesEither(a, b);
    MergedShape(b, a);
    var keys := a.properties.Keys + b.properties.Keys;
    forall x | x in keys
      ensures EqualAt(MergeNode(a, b).properties, MergeNode(b, a).properties, x) <==>
        (x in a.properties && x in b.properties ==> Swaps(a.properties[x], b.properties[x]))
    {
      SwappedAt(a, b, x);
    }
    SameMaps(MergeNode(a, b).properties, MergeNode(b, a).properties, keys);
  }

  lemma {:induction false} TypesEither(a: Schema, b: Schema)
    ensures TypesDisagree(a.kw.typ, b.kw.typ) == TypesDisagree(b.kw.typ, a.kw.typ)
  {
  }

  lemma {:induction false} SwapsMeans(a: Schema, b: Schema)
    ensures Swaps(a, b) <==>
      && LeftBehind(a) == LeftBehind(b) && SlotsFree(NO_KEYWORDS, a.kw, b.kw) && SlotFree(None, a.items, b.items)
      && MeetEnums(a.kw.enum, b.kw.enum) == MeetEnums(b.kw.enum, a.kw.enum)
      && forall x :: x in a.properties && x in b.properties ==> Swaps(a.properties[x], b.properties[x])
  {
    hide LeftBehind, SlotsFree, SlotFree, MeetEnums;
  }

  lemma {:induction false} LeftAfter(t: Schema, b: Schema)
    ensures LeftBehind(MergeNode(t, b)) == LeftBehind(t)
  {
  }

  /** Two nodes merge alike either way exactly when what a merge leaves behind is the same on both, no slot is stated
      differently, and their enums intersect alike, here and on every property they share. */
  lemma {:induction false} SwapExactly(a: Schema, b: Schema)
    ensures MergeNode(a, b) == MergeNode(b, a) <==> Swaps(a, b)
    decreases b, 2
  {
    SwapsMeans(a, b);
    LeftAfter(a, b);
    LeftAfter(b, a);
    if TypesDisagree(a.kw.typ, b.kw.typ) {
      Refused(a, b);
      Refused(b, a);
      hide Swaps, MergeNode;
    } else {
      SwappedProperties(a, b);
      MergedShape(a, b);
      MergedShape(b, a);
      hide Swaps, MergeNode, MergeKeywords;
      if LeftBehind(a) == LeftBehind(b) {
        KeywordsSwapExactly(a, b);
        hide SlotsFree, MeetEnums;
      }
    }
  }

  // ------------------------------------------------------------------ two merges into a host

  /** The host refuses one of the branches; or each slot is filled by the host or not stated differently by the
      branches, their enums intersect alike, and the same holds of every property both branches have, where one the
      host lacks must merge alike either way. */
  predicate Commutes(h: Schema, a: Schema, b: Schema)
    decreases b
  {
    || TypesDisagree(h.kw.typ, a.kw.typ) || TypesDisagree(h.kw.typ, b.kw.typ)
    || (&& SlotsFree(h.kw, a.kw, b.kw) && EnumsMeet(h.kw.enum, a.kw.enum, b.kw.enum) && SlotFree(h.items, a.items, b.items)
        && forall x :: x in a.properties && x in b.properties ==> CommutesAt(h, a, b, x))
  }

  predicate CommutesAt(h: Schema, a: Schema, b: Schema, x: string)
    requires x in a.properties && x in b.properties
    decreases b, 0
  {
    if x in h.properties then Commutes(h.properties[x], a.properties[x], b.properties[x])
    else Swaps(a.properties[x], b.properties[x])
  }

  lemma {:induction false} CommutesMeans(h: Schema, a: Schema, b: Schema)
    requires !TypesDisagree(h.kw.typ, a.kw.typ) && !TypesDisagree(h.kw.typ, b.kw.typ)
    ensures Commutes(h, a, b) <==>
      && SlotsFree(h.kw, a.kw, b.kw) && EnumsMeet(h.kw.enum, a.kw.enum, b.kw.enum) && SlotFree(h.items, a.items, b.items)
      && forall x :: x in a.properties && x in b.properties ==> CommutesAt(h, a, b, x)
  {
    hide SlotsFree, SlotFree, EnumsMeet, CommutesAt;
  }

  /** Both branches are merged, one after the other. */
  predicate BothMerge(h: Schema, a: Schema, b: Schema) {
    !TypesDisagree(h.kw.typ, a.kw.typ) && !TypesDisagree(h.kw.typ, b.kw.typ) && !TypesDisagree(a.kw.typ, b.kw.typ)
  }

  lemma {:induction false} BothShape(h: Schema, a: Schema, b: Schema)
    requires BothMerge(h, a, b)
    ensures !TypesDisagree(MergeNode(h, a).kw.typ, b.kw.typ)
    ensures MergeNode(MergeNode(h, a), b) == h.(kw := MergeKeywords(MergeKeywords(h.kw, a.kw), b.kw),
      properties := MergeNode(MergeNode(h, a), b).properties, items := First(First(h.items, a.items), b.items))
    ensures MergeNode(MergeNode(h, a), b).properties.Keys == h.properties.Keys + a.properties.Keys + b.properties.Keys
  {
    MergedShape(h, a);
    MergedShape(MergeNode(h, a), b);
    hide MergeNode;
  }

  lemma {:induction false} MergedTwice(h: Schema, a: Schema, b: Schema, x: string)
    requires BothMerge(h, a, b) && (x in h.properties || x in a.properties || x in b.properties)
    ensures x in MergeNode(MergeNode(h, a), b).properties
    ensures MergeNode(MergeNode(h, a), b).properties[x] ==
      if x !in b.properties then MergeNode(h, a).properties[x]
      else if x in h.properties && x in a.properties then MergeNode(MergeNode(h.properties[x], a.properties[x]), b.properties[x])
      else if x in h.properties then MergeNode(h.properties[x], b.properties[x])
      else if x in a.properties then MergeNode(a.properties[x], b.properties[x])
      else b.properties[x]
  {
    BothShape(h, a, b);
    MergedShape(h, a);
    hide MergeNode;
    if x in h.properties || x in a.properties { MergedAt(h, a, x); }
    MergedAt(MergeNode(h, a), b, x);
  }

  lemma {:induction false} CommutedAt(h: Schema, a: Schema, b: Schema, x: string)
    requires BothMerge(h, a, b) && (x in h.properties || x in a.properties || x in b.properties)
    ensures EqualAt(MergeNode(MergeNode(h, a), b).properties, MergeNode(MergeNode(h, b), a).properties, x) <==>
      (x in a.properties && x in b.properties ==> CommutesAt(h, a, b, x))
    decreases b, 0
  {
    MergedTwice(h, a, b, x);
    MergedTwice(h, b, a, x);
    hide MergeNode, Commutes, Swaps;
    if x in h.properties || x in a.properties { MergedAt(h, a, x); }
    if x in h.properties || x in b.properties { MergedAt(h, b, x); }
    if x in a.properties && x in b.properties {
      if x in h.properties {
        CommutesExactly(h.properties[x], a.properties[x], b.properties[x]);
      } else {
        SwapExactly(a.properties[x], b.properties[x]);
      }
    }
  }

  lemma {:induction false} CommutedProperties(h: Schema, a: Schema, b: Schema)
    requires BothMerge(h, a, b)
    ensures MergeNode(MergeNode(h, a), b).properties == MergeNode(MergeNode(h, b), a).properties <==>
      forall x :: x in a.properties && x in b.properties ==> CommutesAt(h, a, b, x)
    decreases b, 1
  {
    BothEither(h, a, b);
    hide *;
    BothShape(h, a, b);
    BothShape(h, b, a);
    var keys := h.properties.Keys + a.properties.Keys + b.properties.Keys;
    var m, n := MergeNode(MergeNode(h, a), b).properties, MergeNode(MergeNode(h, b), a).properties;
    forall x | x in keys
      ensures EqualAt(m, n, x) <==> (x in a.properties && x in b.properties ==> CommutesAt(h, a, b, x))
    {
      CommutedAt(h, a, b, x);
    }
    SameMaps(m, n, keys);
  }

  lemma {:induction false} BothEither(h: Schema, a: Schema, b: Schema)
    ensures BothMerge(h, a, b) == BothMerge(h, b, a)
  {
  }

  lemma {:induction false} OneRefused(h: Schema, a: Schema, b: Schema)
    requires TypesDisagree(h.kw.typ, a.kw.typ) || TypesDisagree(h.kw.typ, b.kw.typ)
    ensures MergeNode(MergeNode(h, a), b) == MergeNode(MergeNode(h, b), a)
  {
    if TypesDisagree(h.kw.typ, a.kw.typ) {
      Refused(h, a);
      assert MergeNode(h, b).kw.typ == h.kw.typ;
      Refused(MergeNode(h, b), a);
    } else {
      Refused(h, b);
      assert MergeNode(h, a).kw.typ == h.kw.typ;
      Refused(MergeNode(h, a), b);
    }
  }

  lemma {:induction false} FirstTypeStays(h: Schema, a: Schema, b: Schema)
    requires h.kw.typ.None? && TypesDisagree(a.kw.typ, b.kw.typ)
    ensures MergeNode(MergeNode(h, a), b) != MergeNode(MergeNode(h, b), a)
  {
    Refused(MergeNode(h, a), b);
    Refused(MergeNode(h, b), a);
  }

  /** Merging two branches into a host gives the same either way if and only if the branches commute over it. */
  lemma {:induction false} CommutesExactly(h: Schema, a: Schema, b: Schema)
    ensures MergeNode(MergeNode(h, a), b) == MergeNode(MergeNode(h, b), a) <==> Commutes(h, a, b)
    decreases b, 2
  {
    hide MergeNode, CommutesAt, MergeKeywords, EnumsMeet;
    if TypesDisagree(h.kw.typ, a.kw.typ) || TypesDisagree(h.kw.typ, b.kw.typ) {
      OneRefused(h, a, b);
    } else if TypesDisagree(a.kw.typ, b.kw.typ) {
      FirstTypeStays(h, a, b);
    } else {
      CommutesMeans(h, a, b);
      BothEither(h, a, b);
      CommutedProperties(h, a, b);
      KeywordsExactly(h.kw, a.kw, b.kw);
      BothShape(h, a, b);
      BothShape(h, b, a);
      hide Commutes, SlotsFree;
    }
  }

  // ------------------------------------------------------------------ a third branch does not undo it

  lemma {:induction false} CommutesEither(h: Schema, a: Schema, b: Schema)
    requires Commutes(h, a, b)
    ensures Commutes(h, b, a)
  {
    CommutesExactly(h, a, b);
    CommutesExactly(h, b, a);
    hide Commutes, MergeNode;
  }

  lemma {:induction false} SwappingEnums(c: Option<seq<Value>>, a: Option<seq<Value>>, b: Option<seq<Value>>)
    requires MeetEnums(c, a) == MeetEnums(a, c) && MeetEnums(c, b) == MeetEnums(b, c) && MeetEnums(a, b) == MeetEnums(b, a)
    ensures EnumsMeet(c, a, b)
  {
    hide StableUnique, Common;
  }

  /** Three nodes that merge alike in pairs: two of them commute over the third. */
  lemma {:induction false} SwapsCommute(c: Schema, a: Schema, b: Schema)
    requires Swaps(c, a) && Swaps(c, b) && Swaps(a, b)
    ensures Commutes(c, a, b)
    decreases b
  {
    SwapsMeans(c, a);
    SwapsMeans(c, b);
    SwapsMeans(a, b);
    SwappingEnums(c.kw.enum, a.kw.enum, b.kw.enum);
    assert SlotsFree(c.kw, a.kw, b.kw);
    CommutesMeans(c, a, b);
    hide Swaps, Commutes, LeftBehind, MeetEnums, EnumsMeet, SlotsFree;
    forall x | x in a.properties && x in b.properties ensures CommutesAt(c, a, b, x) {
      if x in c.properties { SwapsCommute(c.properties[x], a.properties[x], b.properties[x]); }
    }
  }

  lemma {:induction false} SlotsLater(h: Keywords, c: Keywords, a: Keywords, b: Keywords)
    requires SlotsFree(h, a, b) && EnumsMeet(h.enum, a.enum, b.enum)
    ensures SlotsFree(MergeKeywords(h, c), a, b) && EnumsMeet(MergeKeywords(h, c).enum, a.enum, b.enum)
  {
    hide StableUnique, Common;
  }

  lemma {:induction false} CommutesLaterAt(h: Schema, c: Schema, a: Schema, b: Schema, x: string)
    requires Commutes(h, a, b) && Commutes(h, c, a) && Commutes(h, c, b)
    requires !TypesDisagree(h.kw.typ, a.kw.typ) && !TypesDisagree(h.kw.typ, b.kw.typ) && !TypesDisagree(h.kw.typ, c.kw.typ)
    requires x in a.properties && x in b.properties
    ensures CommutesAt(MergeNode(h, c), a, b, x)
    decreases b, 0
  {
    CommutesMeans(h, a, b);
    CommutesMeans(h, c, a);
    CommutesMeans(h, c, b);
    MergedShape(h, c);
    if x in h.properties || x in c.properties { MergedAt(h, c, x); }
    hide Commutes, MergeNode, Swaps, SlotsFree, EnumsMeet;
    assert CommutesAt(h, a, b, x);
    if x in c.properties {
      assert CommutesAt(h, c, a, x) && CommutesAt(h, c, b, x);
      if x in h.properties {
        CommutesLater(h.properties[x], c.properties[x], a.properties[x], b.properties[x]);
      } else {
        SwapsCommute(c.properties[x], a.properties[x], b.properties[x]);
      }
    }
  }

  /** Branches that commute over the host in pairs still do once another of them is merged. */
  lemma {:induction false} CommutesLater(h: Schema, c: Schema, a: Schema, b: Schema)
    requires Commutes(h, a, b) && Commutes(h, c, a) && Commutes(h, c, b)
    ensures Commutes(MergeNode(h, c), a, b)
    decreases b, 1
  {
    var m := MergeNode(h, c);
    if TypesDisagree(h.kw.typ, c.kw.typ) {
      Refused(h, c);
    } else if TypesDisagree(h.kw.typ, a.kw.typ) || TypesDisagree(h.kw.typ, b.kw.typ) {
      MergedShape(h, c);
    } else {
      MergedShape(h, c);
      CommutesMeans(h, a, b);
      SlotsLater(h.kw, c.kw, a.kw, b.kw);
      assert SlotFree(m.items, a.items, b.items);
      hide Commutes, MergeNode, SlotsFree, EnumsMeet, MergeKeywords;
      forall x | x in a.properties && x in b.properties ensures CommutesAt(m, a, b, x) { CommutesLaterAt(h, c, a, b, x); }
      CommutesFrom(m, a, b);
    }
  }

  lemma {:induction false} CommutesFrom(h: Schema, a: Schema, b: Schema)
    requires SlotsFree(h.kw, a.kw, b.kw) && EnumsMeet(h.kw.enum, a.kw.enum, b.kw.enum) && SlotFree(h.items, a.items, b.items)
    requires forall x :: x in a.properties && x in b.properties ==> CommutesAt(h, a, b, x)
    ensures Commutes(h, a, b)
  {
    hide SlotsFree, EnumsMeet, SlotFree, CommutesAt;
  }

  // ------------------------------------------------------------------ any number of branches, in any order

  /** The branches commute over the host in pairs. */
  predicate Commuting(h: Schema, branches: seq<Schema>) {
    forall i, j :: 0 <= i < j < |branches| ==> Commutes(h, branches[i], branches[j])
  }

  lemma {:induction false} CommutingRest(h: Schema, branches: seq<Schema>, k: nat)
    requires Commuting(h, branches) && k < |branches|
    ensures Commuting(MergeNode(h, branches[k]), branches[..k] + branches[k + 1..])
  {
    hide MergeNode, Commutes;
    var b, rest := branches[k], branches[..k] + branches[k + 1..];
    forall i, j | 0 <= i < j < |rest| ensures Commutes(MergeNode(h, b), rest[i], rest[j]) {
      var p, q := if i < k then i else i + 1, if j < k then j else j + 1;
      assert rest[i] == branches[p] && rest[j] == branches[q];
      if p < k { CommutesEither(h, branches[p], b); }
      if q < k { CommutesEither(h, branches[q], b); }
      CommutesLater(h, b, rest[i], rest[j]);
    }
  }

  /** The host with every branch merged in, first branch first. */
  function MergeAll(h: Schema, branches: seq<Schema>): Schema
    decreases |branches|
  {
    if branches == [] then h else MergeAll(MergeNode(h, branches[0]), branches[1..])
  }

  lemma {:induction false} MergeAllStep(h: Schema, branches: seq<Schema>)
    requires branches != []
    ensures MergeAll(h, branches) == MergeAll(MergeNode(h, branches[0]), branches[1..])
  {
  }

  lemma {:induction false} CommutingPair(h: Schema, branches: seq<Schema>, k: nat)
    requires Commuting(h, branches) && 0 < k < |branches|
    ensures Commutes(h, branches[0], branches[k])
  {
    hide Commutes;
  }

  lemma {:induction false} BranchFirst(h: Schema, branches: seq<Schema>, k: nat)
    requires Commuting(h, branches) && k < |branches|
    ensures MergeAll(h, branches) == MergeAll(MergeNode(h, branches[k]), branches[..k] + branches[k + 1..])
    decreases k
  {
    hide *;
    MergeAllStep(h, branches);
    CommutingRest(h, branches, 0);
    WithoutFirst(branches);
    if k > 0 {
      var first, rest, without := branches[0], branches[1..], branches[..k] + branches[k + 1..];
      BranchFirst(MergeNode(h, first), rest, k - 1);
      CommutingPair(h, branches, k);
      CommutesExactly(h, first, branches[k]);
      WithoutLater(branches, k);
      MergeAllStep(MergeNode(h, branches[k]), without);
    }
  }

  /** Branches that commute in pairs merge to the same node in any order. */
  lemma {:induction false} OrderIrrelevant(h: Schema, branches: seq<Schema>, permuted: seq<Schema>)
    requires Commuting(h, branches) && multiset(branches) == multiset(permuted)
    ensures MergeAll(h, branches) == MergeAll(h, permuted)
    decreases |permuted|
  {
    hide MergeNode, Commutes, Commuting;
    SameLength(branches, permuted);
    if permuted != [] {
      var k := TakeOut(branches, permuted);
      BranchFirst(h, branches, k);
      CommutingRest(h, branches, k);
      OrderIrrelevant(MergeNode(h, permuted[0]), branches[..k] + branches[k + 1..], permuted[1..]);
    }
  }

  lemma {:induction false} StageAfterFirst(h: Schema, branches: seq<Schema>, i: nat)
    requires i < |branches|
    ensures Stage(h, branches, i + 1) == Stage(MergeNode(h, branches[0]), branches[1..], i)
  {
    hide MergeNode;
    if i > 0 { StageAfterFirst(h, branches, i - 1); }
  }

  lemma {:induction false} StageIsMergeAll(h: Schema, branches: seq<Schema>)
    ensures Stage(h, branches, |branches|) == MergeAll(h, branches)
    decreases |branches|
  {
    hide MergeNode;
    if branches != [] {
      StageAfterFirst(h, branches, |branches| - 1);
      StageIsMergeAll(MergeNode(h, branches[0]), branches[1..]);
    }
  }

  // ------------------------------------------------------------------ conflicts in another order

  lemma {:induction false} NoConflictMeans(t: Schema, b: Schema)
    ensures !MergeConflicts(t, b) <==>
      && !TypesDisagree(t.kw.typ, b.kw.typ) && !CarriesUnmergeable(b)
      && forall x :: x in t.properties && x in b.properties ==> !MergeConflicts(t.properties[x], b.properties[x])
  {
    if !MergeConflicts(t, b) {
      forall x | x in t.properties && x in b.properties ensures !MergeConflicts(t.properties[x], b.properties[x]) {
        assert !ConflictAt(t, b, x);
      }
    } else if !TypesDisagree(t.kw.typ, b.kw.typ) && !CarriesUnmergeable(b) {
      var x :| x in b.properties && ConflictAt(t, b, x);
      if PropertyTypesDisagree(t.properties[x].kw.typ, b.properties[x].kw.typ) {
        assert MergeConflicts(t.properties[x], b.properties[x]);
      }
    }
  }

  lemma {:induction false} UnmergeableLeft(a: Schema, b: Schema)
    requires LeftBehind(a) == LeftBehind(b)
    ensures CarriesUnmergeable(a) == CarriesUnmergeable(b)
  {
    var u, w := LeftBehind(a), LeftBehind(b);
    assert u.kw.dependentRequired == a.kw.dependentRequired && w.kw.dependentRequired == b.kw.dependentRequired;
  }

  lemma {:induction false} SwappedConflicts(a: Schema, b: Schema)
    requires Swaps(a, b) && !MergeConflicts(a, b)
    ensures !MergeConflicts(b, a)
    decreases b
  {
    NoConflictMeans(a, b);
    NoConflictMeans(b, a);
    SwapsMeans(a, b);
    UnmergeableLeft(a, b);
    hide Swaps, MergeConflicts, CarriesUnmergeable, LeftBehind, MeetEnums, SlotsFree;
    forall x | x in b.properties && x in a.properties ensures !MergeConflicts(b.properties[x], a.properties[x]) {
      SwappedConflicts(a.properties[x], b.properties[x]);
    }
  }

  lemma {:induction false} FirstHasNoConflict(h: Schema, a: Schema, b: Schema)
    requires !MergeConflicts(h, a) && !MergeConflicts(MergeNode(h, a), b)
    ensures !MergeConflicts(h, b)
    decreases b
  {
    NoConflictMeans(h, a);
    NoConflictMeans(MergeNode(h, a), b);
    NoConflictMeans(h, b);
    MergedShape(h, a);
    hide MergeConflicts, MergeNode, CarriesUnmergeable;
    forall x | x in h.properties && x in b.properties ensures !MergeConflicts(h.properties[x], b.properties[x]) {
      MergedAt(h, a, x);
      if x in a.properties { FirstHasNoConflict(h.properties[x], a.properties[x], b.properties[x]); }
    }
  }

  /** Commuting branches that merge without conflict in one order do in the other. */
  lemma {:induction false} ConflictsEither(h: Schema, a: Schema, b: Schema)
    requires Commutes(h, a, b) && !MergeConflicts(h, a) && !MergeConflicts(MergeNode(h, a), b)
    ensures !MergeConflicts(h, b) && !MergeConflicts(MergeNode(h, b), a)
    decreases b
  {
    FirstHasNoConflict(h, a, b);
    NoConflictMeans(h, a);
    NoConflictMeans(h, b);
    NoConflictMeans(MergeNode(h, a), b);
    NoConflictMeans(MergeNode(h, b), a);
    MergedShape(h, a);
    MergedShape(h, b);
    CommutesMeans(h, a, b);
    hide Commutes, MergeConflicts, MergeNode, CarriesUnmergeable, SlotsFree, EnumsMeet, Swaps;
    forall x | x in MergeNode(h, b).properties && x in a.properties
      ensures !MergeConflicts(MergeNode(h, b).properties[x], a.properties[x])
    {
      MergedAt(h, b, x);
      if x in b.properties {
        MergedAt(h, a, x);
        assert CommutesAt(h, a, b, x);
        if x in h.properties {
          ConflictsEither(h.properties[x], a.properties[x], b.properties[x]);
        } else {
          SwappedConflicts(a.properties[x], b.properties[x]);
        }
      }
    }
  }

  /** Merging the branches one after the other records no conflict. */
  predicate Peaceful(h: Schema, branches: seq<Schema>)
    decreases |branches|
  {
    branches != [] ==> !MergeConflicts(h, branches[0]) && Peaceful(MergeNode(h, branches[0]), branches[1..])
  }

  lemma {:induction false} PeacefulAt(h: Schema, branches: seq<Schema>, i: nat)
    requires i < |branches| && Peaceful(h, branches)
    ensures !ConflictsAt(h, branches, i)
    decreases i
  {
    hide MergeNode, MergeConflicts;
    if i > 0 {
      PeacefulAt(MergeNode(h, branches[0]), branches[1..], i - 1);
      StageAfterFirst(h, branches, i - 1);
    }
  }

  lemma {:induction false} PeacefulFrom(h: Schema, branches: seq<Schema>)
    requires forall i :: 0 <= i < |branches| ==> !ConflictsAt(h, branches, i)
    ensures Peaceful(h, branches)
    decreases |branches|
  {
    hide MergeNode, MergeConflicts;
    if branches != [] {
      assert !ConflictsAt(h, branches, 0);
      forall i | 0 <= i < |branches| - 1 ensures !ConflictsAt(MergeNode(h, branches[0]), branches[1..], i) {
        StageAfterFirst(h, branches, i);
        assert !ConflictsAt(h, branches, i + 1);
      }
      PeacefulFrom(MergeNode(h, branches[0]), branches[1..]);
    }
  }

  lemma {:induction false} PeacefulExactly(h: Schema, branches: seq<Schema>)
    ensures Peaceful(h, branches) <==> !CollapseConflicts(h, branches)
  {
    hide Peaceful, ConflictsAt;
    if Peaceful(h, branches) {
      forall i | 0 <= i < |branches| ensures !ConflictsAt(h, branches, i) { PeacefulAt(h, branches, i); }
    }
    if !CollapseConflicts(h, branches) { PeacefulFrom(h, branches); }
  }

  lemma {:induction false} PeacefulStep(h: Schema, branches: seq<Schema>)
    requires branches != []
    ensures Peaceful(h, branches) <==> !MergeConflicts(h, branches[0]) && Peaceful(MergeNode(h, branches[0]), branches[1..])
  {
    hide MergeNode, MergeConflicts;
  }

  lemma {:induction false} PeacefulFirst(h: Schema, branches: seq<Schema>, k: nat)
    requires Commuting(h, branches) && Peaceful(h, branches) && k < |branches|
    ensures !MergeConflicts(h, branches[k])
    ensures Peaceful(MergeNode(h, branches[k]), branches[..k] + branches[k + 1..])
    decreases k
  {
    hide *;
    PeacefulStep(h, branches);
    CommutingRest(h, branches, 0);
    WithoutFirst(branches);
    if k > 0 {
      var first, rest, without := branches[0], branches[1..], branches[..k] + branches[k + 1..];
      WithoutLater(branches, k);
      PeacefulFirst(MergeNode(h, first), rest, k - 1);
      CommutingPair(h, branches, k);
      ConflictsEither(h, first, branches[k]);
      CommutesExactly(h, first, branches[k]);
      PeacefulStep(MergeNode(h, branches[k]), without);
    }
  }

  /** So do any number of them, in any order. */
  lemma {:induction false} PeacefulPermuted(h: Schema, branches: seq<Schema>, permuted: seq<Schema>)
    requires Commuting(h, branches) && Peaceful(h, branches) && multiset(branches) == multiset(permuted)
    ensures Peaceful(h, permuted)
    decreases |permuted|
  {
    hide MergeNode, Commutes, Commuting, MergeConflicts;
    SameLength(branches, permuted);
    if permuted != [] {
      var k := TakeOut(branches, permuted);
      PeacefulFirst(h, branches, k);
      CommutingRest(h, branches, k);
      PeacefulPermuted(MergeNode(h, permuted[0]), branches[..k] + branches[k + 1..], permuted[1..]);
    }
  }

  // ------------------------------------------------------------------ sets written as lists

  lemma {:induction false} SortedTwice(kw: Keywords)
    ensures SortKeywords(SortKeywords(kw)) == SortKeywords(kw)
  {
    SortedNamesIdempotent(kw.required);
    if kw.enum.Some? { StableUniqueIdempotent(kw.enum.value); }
  }

  lemma {:induction false} RequiredCanon(t: seq<string>, b: seq<string>)
    ensures SortedNames(SortedNames(t) + SortedNames(b)) == SortedNames(SortedNames(t + b)) == SortedNames(t + b)
    ensures SortedNames(SortedNames(t) + b) == SortedNames(t + b)
  {
    SortedSetElements(NameLess, t);
    SortedSetElements(NameLess, b);
    SortedSetElements(NameLess, t + b);
    SortedNamesSame(SortedNames(t) + SortedNames(b), t + b);
    SortedNamesSame(SortedNames(t) + b, t + b);
    SortedNamesSame(SortedNames(t + b), t + b);
  }

  /** The order and repetition of what are sets written as lists is all that tells the two apart. */
  predicate ButForOrder(a: Schema, b: Schema) {
    b == a.(kw := b.kw) && SortKeywords(a.kw) == SortKeywords(b.kw)
  }

  lemma {:induction false} SortedMerge(t: Keywords, b: Keywords)
    ensures SortKeywords(MergeKeywords(t, b)) == SortKeywords(MergeKeywords(SortKeywords(t), b))
  {
    if t.enum.Some? && b.enum.Some? {
      StableFirst(t.enum.value, b.enum.value);
    } else if t.enum.Some? {
      StableUniqueIdempotent(t.enum.value);
    }
    RequiredCanon(t.required, b.required);
    hide StableUnique, SortedNames, Common, Tighten;
  }

  lemma {:induction false} OrderStep(a: Schema, b: Schema, branch: Schema)
    requires ButForOrder(a, b)
    ensures ButForOrder(MergeNode(a, branch), MergeNode(b, branch))
    ensures MergeConflicts(a, branch) == MergeConflicts(b, branch)
  {
    assert a.kw.typ == SortKeywords(a.kw).typ == SortKeywords(b.kw).typ == b.kw.typ;
    NoConflictMeans(a, branch);
    NoConflictMeans(b, branch);
    if TypesDisagree(a.kw.typ, branch.kw.typ) {
      Refused(a, branch);
      Refused(b, branch);
    } else {
      SortedMerge(a.kw, branch.kw);
      SortedMerge(b.kw, branch.kw);
      assert MergeNode(a, branch).properties == MergeNode(b, branch).properties;
      MergedShape(a, branch);
      MergedShape(b, branch);
      hide MergeNode, MergeKeywords, SortKeywords, MergeConflicts;
    }
  }

  lemma {:induction false} OrderStages(a: Schema, b: Schema, branches: seq<Schema>, i: nat)
    requires ButForOrder(a, b) && i <= |branches|
    ensures ButForOrder(Stage(a, branches, i), Stage(b, branches, i))
  {
    hide ButForOrder, MergeNode;
    if i > 0 {
      OrderStages(a, b, branches, i - 1);
      OrderStep(Stage(a, branches, i - 1), Stage(b, branches, i - 1), branches[i - 1]);
    }
  }

  lemma {:induction false} OrderConflicts(a: Schema, b: Schema, branches: seq<Schema>)
    requires ButForOrder(a, b)
    ensures CollapseConflicts(a, branches) == CollapseConflicts(b, branches)
  {
    forall i | 0 <= i < |branches| ensures ConflictsAt(a, branches, i) == ConflictsAt(b, branches, i) {
      OrderStages(a, b, branches, i);
      OrderStep(Stage(a, branches, i), Stage(b, branches, i), branches[i]);
    }
    hide ConflictsAt, ButForOrder;
  }
}
