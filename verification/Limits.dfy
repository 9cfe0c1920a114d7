/** Where the code does not do what its documentation says for every schema: exact conditions where there is one, and
    concrete schemas for each hypothesis of the main theorems. */
module Limits {
  import opened Model
  import opened Ordering
  import opened Validation
  import opened Meaning
  import opened Canonical
  import opened CanonicalForm
  import opened BranchOrder
  import opened Inlining
  import opened Diff
  import opened DiffMeaning
  import opened Refactoring
  import opened WireSafety

  // ------------------------------------------------------------------ null and compositions

  predicate AllNullable(branches: seq<Schema>) { forall i :: 0 <= i < |branches| ==> branches[i].kw.nullable }
  predicate SomeNullable(branches: seq<Schema>) { exists i :: 0 <= i < |branches| && branches[i].kw.nullable }

  /** A merge takes `nullable` from either side. */
  lemma {:induction false} StageNullable(host: Schema, branches: seq<Schema>, i: nat)
    requires i <= |branches| && forall j :: 0 <= j < |branches| ==> !ConflictsAt(host, branches, j)
    ensures Stage(host, branches, i).allOf == host.allOf
    ensures Stage(host, branches, i).kw.nullable <==> host.kw.nullable || SomeNullable(branches[..i])
  {
    hide MergeConflicts, SomeNullable, MergeNode;
    if i > 0 {
      StageNullable(host, branches, i - 1);
      assert !ConflictsAt(host, branches, i - 1);
      NoTypeConflict(host, branches, i - 1);
      MergedNullable(Stage(host, branches, i - 1), branches[i - 1]);
      SomeNullableNext(branches, i);
    } else {
      assert !SomeNullable(branches[..0]) by { NobodyNullable(); }
    }
  }

  lemma {:induction false} NobodyNullable()
    ensures !SomeNullable([])
  {
  }

  lemma {:induction false} MergedNullable(t: Schema, b: Schema)
    requires !TypesDisagree(t.kw.typ, b.kw.typ)
    ensures MergeNode(t, b).kw.nullable == (t.kw.nullable || b.kw.nullable) && MergeNode(t, b).allOf == t.allOf
  {
  }

  lemma {:induction false} SomeNullableNext(branches: seq<Schema>, i: nat)
    requires 0 < i <= |branches|
    ensures SomeNullable(branches[..i]) <==> SomeNullable(branches[..i - 1]) || branches[i - 1].kw.nullable
  {
    if SomeNullable(branches[..i]) {
      var j :| 0 <= j < i && branches[..i][j].kw.nullable;
      if j < i - 1 { assert branches[..i - 1][j].kw.nullable; }
    }
    if SomeNullable(branches[..i - 1]) {
      var j :| 0 <= j < i - 1 && branches[..i - 1][j].kw.nullable;
      assert branches[..i][j].kw.nullable;
    }
    if branches[i - 1].kw.nullable { assert branches[..i][i - 1].kw.nullable; }
  }

  lemma {:induction false} NoTypeConflict(host: Schema, branches: seq<Schema>, i: nat)
    requires i < |branches| && !ConflictsAt(host, branches, i)
    ensures !TypesDisagree(Stage(host, branches, i).kw.typ, branches[i].kw.typ)
  {
  }

  /** A conjunction accepts `null` only if every part does; the collapsed form accepts it if any part does. The collapse
      is right about `null` exactly when the parts agree. */
  lemma {:induction false} NullExactly(re: Regex, n: Schema, branches: seq<Schema>)
    requires branches != [] && forall i :: 0 <= i < |branches| ==> branches[i].allOf == []
    requires !CollapseConflicts(n.(allOf := []), branches)
    ensures (Sat(re, Collapse(n, branches), Null) <==> Sat(re, n.(allOf := branches), Null)) <==>
      (n.kw.nullable && AllNullable(branches)) || (!n.kw.nullable && !SomeNullable(branches))
  {
    var host := n.(allOf := []);
    assert forall j :: 0 <= j < |branches| ==> !ConflictsAt(host, branches, j);
    StageNullable(host, branches, |branches|);
    assert branches[..|branches|] == branches;
    NullMeans(re, Collapse(n, branches));
    NullMeans(re, n.(allOf := branches));
    forall i | 0 <= i < |branches| ensures Sat(re, branches[i], Null) == branches[i].kw.nullable { NullMeans(re, branches[i]); }
    assert AllSat(re, branches, Null) <==> AllNullable(branches);
    hide Sat, MergeNode, Stage;
    if AllNullable(branches) { assert branches[0].kw.nullable; }
  }

  lemma {:induction false} NullMeans(re: Regex, s: Schema)
    ensures Sat(re, s, Null) <==> AllSat(re, s.allOf, Null) && s.kw.nullable
    ensures s.allOf == [] ==> (Sat(re, s, Null) <==> s.kw.nullable)
  {
    SatMeans(re, s, Null);
    if s.allOf == [] { assert AllSat(re, s.allOf, Null); }
  }

  // ------------------------------------------------------------------ what a collapse drops

  lemma {:induction false} OneBranch(n: Schema, b: Schema)
    requires n.allOf == [] && !MergeConflicts(n, b)
    ensures !CollapseConflicts(n, [b]) && Collapse(n, [b]) == MergeNode(n, b)
  {
    assert Stage(n, [b], 0) == n;
    assert Stage(n, [b], 1) == MergeNode(n, b);
    forall i | 0 <= i < 1 ensures !ConflictsAt(n, [b], i) {}
    assert n.(allOf := []) == n;
  }

  lemma {:induction false} OfOneBranch(re: Regex, n: Schema, b: Schema, v: Value)
    requires Sat(re, n.(allOf := [b]), v)
    ensures Sat(re, b, v)
  {
    SatMeans(re, n.(allOf := [b]), v);
    assert Sat(re, [b][0], v);
  }

  /** A branch's `multipleOf` is lost: the collapse accepts 1, the composition does not. */
  lemma {:induction false} DropsMultipleOf(re: Regex)
    ensures
      var b := Typed(TNumber).(kw := NO_KEYWORDS.(typ := Some(TNumber), multipleOf := Some(2.0)));
      && !CollapseConflicts(ANY, [b])
      && Sat(re, Collapse(ANY, [b]), Int(1)) && !Sat(re, ANY.(allOf := [b]), Int(1))
  {
    var b := Typed(TNumber).(kw := NO_KEYWORDS.(typ := Some(TNumber), multipleOf := Some(2.0)));
    OneBranch(ANY, b);
    var m := MergeNode(ANY, b);
    assert m.kw.multipleOf == None && m.kw.bounds == NO_BOUNDS && m.kw.enum == None && m.kw.constant == Null && m.kw.typ == Some(TNumber);
    SatMeans(re, m, Int(1));
    assert AllSat(re, m.allOf, Int(1)) && InPlaceSat(re, m, Int(1));
    assert (1.0 / 2.0 + 0.5).Floor == 1;
    if Sat(re, ANY.(allOf := [b]), Int(1)) {
      OfOneBranch(re, ANY, b, Int(1));
      SatMeans(re, b, Int(1));
    }
  }

  /** So are its variants. */
  lemma {:induction false} DropsVariants(re: Regex)
    ensures
      var b := ANY.(anyOf := [Typed(TString)]);
      && !CollapseConflicts(ANY, [b])
      && Sat(re, Collapse(ANY, [b]), Int(1)) && !Sat(re, ANY.(allOf := [b]), Int(1))
  {
    var b := ANY.(anyOf := [Typed(TString)]);
    OneBranch(ANY, b);
    var m := MergeNode(ANY, b);
    assert m.kw.bounds == NO_BOUNDS && m.anyOf == [];
    SatMeans(re, m, Int(1));
    assert AllSat(re, m.allOf, Int(1)) && InPlaceSat(re, m, Int(1));
    if Sat(re, ANY.(allOf := [b]), Int(1)) {
      OfOneBranch(re, ANY, b, Int(1));
      SatMeans(re, b, Int(1));
      SatMeans(re, Typed(TString), Int(1));
    }
  }

  /** A host that allows no other properties allows a branch's once they have been merged in. */
  lemma {:induction false} OpensClosedHost(re: Regex, v: Value)
    requires !v.Null?
    ensures
      var n := ANY.(additional := Allowed(false));
      var b := ANY.(properties := map["x" := ANY]);
      && !CollapseConflicts(n, [b])
      && Sat(re, Collapse(n, [b]), Obj(map["x" := v])) && !Sat(re, n.(allOf := [b]), Obj(map["x" := v]))
  {
    var n := ANY.(additional := Allowed(false));
    var b := ANY.(properties := map["x" := ANY]);
    forall x | x in b.properties ensures !ConflictAt(n, b, x) {}
    OneBranch(n, b);
    assert MergeNode(n, b) == n.(properties := b.properties) by {
      assert MergeNode(n, b).properties == b.properties;
      assert MergeNode(n, b).kw == NO_KEYWORDS;
    }
    hide MergeNode, Collapse, Sat;
    OnlyX(re, v);
    ClosedRefuses(re, n.(allOf := [b]), v);
  }

  /** An object with the one property it declares. */
  lemma {:induction false} OnlyX(re: Regex, v: Value)
    requires !v.Null?
    ensures Sat(re, ANY.(additional := Allowed(false), properties := map["x" := ANY]), Obj(map["x" := v]))
  {
    hide Sat;
    var m, fields := ANY.(additional := Allowed(false), properties := map["x" := ANY]), map["x" := v];
    SatMeans(re, m, Obj(fields));
    AnythingGoes(re, v);
    assert AllSat(re, m.allOf, Obj(fields)) && InPlaceSat(re, m, Obj(fields));
    assert FieldsSat(re, m, fields) && ExtrasSat(re, m, fields);
    assert DependentsSat(re, m, fields) && NamesSat(re, m, fields) && PatternsSat(re, m, fields);
    assert GuardsSat(re, m, fields);
    assert ObjectSat(re, m, fields);
  }

  lemma {:induction false} ClosedRefuses(re: Regex, s: Schema, v: Value)
    requires s.additional == Allowed(false) && s.properties == map[] && s.patternProperties == map[]
    ensures !Sat(re, s, Obj(map["x" := v]))
  {
    hide Sat;
    SatMeans(re, s, Obj(map["x" := v]));
    assert !Covered(re, s, "x");
    assert !ExtrasSat(re, s, map["x" := v]);
  }

  /** The unconstrained schema accepts everything but `null`. */
  lemma {:induction false} AnythingGoes(re: Regex, v: Value)
    requires !v.Null?
    ensures Sat(re, ANY, v)
  {
    SatMeans(re, ANY, v);
    assert AllSat(re, ANY.allOf, v) && InPlaceSat(re, ANY, v);
    if v.Arr? { assert PrefixSat(re, ANY, v.elems) && ItemsSat(re, ANY, v.elems) && ContainsSat(re, ANY, v.elems); }
    if v.Obj? {
      assert FieldsSat(re, ANY, v.fields) && ExtrasSat(re, ANY, v.fields);
      assert DependentsSat(re, ANY, v.fields) && NamesSat(re, ANY, v.fields) && PatternsSat(re, ANY, v.fields);
    }
  }

  // ------------------------------------------------------------------ canonicalizing twice

  const LONG := ANY.(kw := NO_KEYWORDS.(bounds := NO_BOUNDS.(minLength := Some(1))))

  function With(x: string, s: Schema): Schema { ANY.(properties := map[x := s]) }

  const TEXT := Typed(TString)
  const NUMBERED := Typed(TInteger).(properties := map["p" := ANY])

  /** Kept because its first two branches disagree; the second one's `p` is never merged. */
  const KEPT := ANY.(allOf := [TEXT, NUMBERED, With("p", LONG)])

  predicate Simple(s: Schema) {
    s.kw.enum.None? && s.kw.required == [] && s.kw.dependentRequired == map[] && s == ANY.(kw := s.kw, properties := s.properties)
  }

  lemma {:induction false} SimpleSettled(s: Schema)
    requires Simple(s) && forall x :: x in s.properties ==> Settled(s.properties[x])
    ensures Settled(s)
  {
    hide Settled;
    assert SortedSets(s.kw) && SettledMaps(s) && SettledParts(s);
    hide SettledParts;
    SettledFlat(s);
  }

  lemma {:induction false} SimpleMerge(t: Schema, b: Schema)
    requires !TypesDisagree(t.kw.typ, b.kw.typ) && t.kw.required == [] == b.kw.required && b.kw.enum.None?
    ensures MergeNode(t, b).kw.required == [] && MergeNode(t, b).kw.enum == t.kw.enum
  {
    assert t.kw.required + b.kw.required == [];
  }

  lemma {:induction false} KeptStages()
    ensures
      var branches := KEPT.allOf;
      && CollapseConflicts(ANY, branches)
      && Stage(ANY, branches, 1) == TEXT == Stage(ANY, branches, 2) && Stage(ANY, branches, 3).properties == map["p" := LONG]
  {
    var branches := KEPT.allOf;
    SimpleMerge(ANY, TEXT);
    assert MergeNode(ANY, TEXT) == TEXT && MergeNode(TEXT, NUMBERED) == TEXT;
    assert Stage(ANY, branches, 0) == ANY && Stage(ANY, branches, 1) == MergeNode(ANY, TEXT);
    assert Stage(ANY, branches, 2) == MergeNode(Stage(ANY, branches, 1), NUMBERED);
    assert MergeNode(TEXT, With("p", LONG)).properties == map["p" := LONG];
    assert Stage(ANY, branches, 3) == MergeNode(Stage(ANY, branches, 2), With("p", LONG));
    assert ConflictsAt(ANY, branches, 1);
  }

  lemma {:induction false} DisturbedStages(h: Schema)
    requires h == Typed(TInteger)
    ensures
      var branches := KEPT.allOf;
      && CollapseConflicts(h, branches)
      && Stage(h, branches, 1) == h && Stage(h, branches, 2) == NUMBERED && Stage(h, branches, 3).properties == map["p" := LONG]
  {
    var branches := KEPT.allOf;
    SimpleMerge(h, NUMBERED);
    assert MergeNode(h, TEXT) == h;
    assert MergeNode(h, NUMBERED).properties == map["p" := ANY];
    assert Stage(h, branches, 0) == h && Stage(h, branches, 1) == MergeNode(h, TEXT);
    assert Stage(h, branches, 2) == MergeNode(Stage(h, branches, 1), NUMBERED) == NUMBERED;
    SimpleMerge(ANY, LONG);
    assert MergeNode(ANY, LONG) == LONG;
    assert MergeNode(NUMBERED, With("p", LONG)).properties == map["p" := LONG];
    assert Stage(h, branches, 3) == MergeNode(Stage(h, branches, 2), With("p", LONG));
    assert ConflictsAt(h, branches, 0);
  }

  lemma {:induction false} KeptRest()
    ensures AtRest(ANY, KEPT.allOf)
  {
    KeptStages();
    hide Stage, CollapseConflicts;
    var branches := KEPT.allOf;
    var ws := WriteBacks(ANY, branches);
    var m := Stage(ANY, branches, 3);
    WrittenShape(With("p", LONG), TEXT, m);
    WrittenAt(With("p", LONG), TEXT, m, "p");
    WrittenShape(NUMBERED, TEXT, m);
    assert WriteBack(TEXT, Stage(ANY, branches, 0), m) == TEXT;
    hide WriteBack;
    assert WriteBack(With("p", LONG), TEXT, m).properties == map["p" := LONG];
    assert ws == branches;
  }

  lemma {:induction false} AnySettled()
    ensures Settled(ANY) && SettledParts(ANY)
  {
    SimpleSettled(ANY);
    SettledPieces(ANY);
    hide Settled, SettledParts;
  }

  lemma {:induction false} TypedSettled(t: JType)
    ensures Settled(Typed(t))
  {
    SimpleSettled(Typed(t));
    hide Settled;
  }

  lemma {:induction false} WithSettled(x: string, s: Schema)
    requires Settled(s)
    ensures Settled(With(x, s))
  {
    hide Settled;
    SimpleSettled(With(x, s));
  }

  lemma {:induction false} KeptBranches()
    ensures SettledSeq(KEPT.allOf)
  {
    hide Settled;
    AnySettled();
    TypedSettled(TString);
    SimpleSettled(LONG);
    SimpleSettled(NUMBERED);
    WithSettled("p", LONG);
  }

  lemma {:induction false} KeptSettled()
    ensures Settled(KEPT)
  {
    KeptRest();
    KeptBranches();
    AnySettled();
    SettledPieces(ANY);
    hide Settled, SettledParts, AtRest, SettledSeq, SortedSets;
    RekeyedParts(ANY, NO_KEYWORDS, KEPT.allOf);
    assert KEPT.(allOf := []) == ANY && ANY.(kw := NO_KEYWORDS, allOf := KEPT.allOf) == KEPT;
    SettledFrom(KEPT);
  }

  /** With the type it was given from outside, the kept composition is not at rest: its second branch is merged now. */
  lemma {:induction false} KeptDisturbed()
    ensures Canon(KEPT.(kw := TEXT.kw.(typ := Some(TInteger)))) != KEPT.(kw := TEXT.kw.(typ := Some(TInteger)))
  {
    var disturbed, h := KEPT.(kw := TEXT.kw.(typ := Some(TInteger))), Typed(TInteger);
    var branches := KEPT.allOf;
    KeptSettled();
    SettledPieces(KEPT);
    SettledSeqFixed(branches);
    RekeyedParts(KEPT, h.kw, branches);
    SettledPartsFixed(disturbed);
    DisturbedStages(h);
    var ws := WriteBacks(h, branches);
    assert ws[1].properties["p"] == LONG by { hide Stage; }
    assert disturbed.(allOf := []) == h;
    assert Canon(disturbed).allOf == ws by { hide CanonParts, CanonSeq, CollapseConflicts, WriteBacks, SortKeywords; }
    assert branches[1].properties["p"] == ANY;
  }

  /** An outer merge gives a type to a node whose own composition was kept: canonicalizing again changes it. */
  lemma {:induction false} NotIdempotent()
    ensures
      var s := ANY.(allOf := [With("x", KEPT), With("x", Typed(TInteger))]);
      !CollapseConflicts(ANY, s.allOf) && Canon(Canon(s)) != Canon(s)
  {
    var a, b := With("x", KEPT), With("x", Typed(TInteger));
    var s := ANY.(allOf := [a, b]);
    OuterStages(a, b, KEPT.(kw := TEXT.kw.(typ := Some(TInteger))));
    OuterFixed(a, b);
    KeptDisturbed();
    hide CanonSeq, Stage, CollapseConflicts, SortKeywords, CanonParts, WriteBacks;
    var n, m := CanonParts(s), Stage(ANY, [a, b], 2);
    assert Collapse(n, [a, b]) == m;
    assert Canon(s) == m.(kw := SortKeywords(m.kw));
    hide Canon;
    CanonShape(Canon(s));
    assert Canon(Canon(s)).properties["x"] == Canon(Canon(s).properties["x"]);
  }

  lemma {:induction false} OuterFixed(a: Schema, b: Schema)
    requires a == With("x", KEPT) && b == With("x", Typed(TInteger))
    ensures CanonParts(ANY.(allOf := [a, b])).(allOf := []) == ANY && CanonSeq([a, b]) == [a, b]
  {
    TypedSettled(TInteger);
    AnySettled();
    hide CanonParts, CanonSeq, Settled, SettledParts, Typed;
    KeptSettled();
    WithSettled("x", KEPT);
    WithSettled("x", Typed(TInteger));
    BothSettled(a, b);
    SettledSeqFixed([a, b]);
    RekeyedParts(ANY, NO_KEYWORDS, [a, b]);
    assert ANY.(kw := NO_KEYWORDS, allOf := [a, b]) == ANY.(allOf := [a, b]);
    SettledPartsFixed(ANY.(allOf := [a, b]));
    assert ANY.(allOf := [a, b]).(allOf := []) == ANY;
  }

  lemma {:induction false} BothSettled(a: Schema, b: Schema)
    requires Settled(a) && Settled(b)
    ensures SettledSeq([a, b])
  {
    hide Settled;
  }

  lemma {:induction false} OuterStages(a: Schema, b: Schema, disturbed: Schema)
    requires a == With("x", KEPT) && b == With("x", Typed(TInteger)) && disturbed == KEPT.(kw := TEXT.kw.(typ := Some(TInteger)))
    ensures
      var m := Stage(ANY, [a, b], 2);
      !CollapseConflicts(ANY, [a, b]) && m.allOf == [] && m.properties == map["x" := disturbed]
  {
    var branches := [a, b];
    SimpleMerge(KEPT, Typed(TInteger));
    assert MergeNode(KEPT, Typed(TInteger)) == disturbed;
    SimpleMerge(ANY, a);
    assert MergeNode(ANY, a).properties == map["x" := KEPT];
    assert MergeNode(ANY, a) == a;
    assert Stage(ANY, branches, 0) == ANY && Stage(ANY, branches, 1) == a;
    assert Stage(ANY, branches, 2) == MergeNode(a, b);
    assert MergeNode(a, b).properties == map["x" := disturbed];
    forall i | 0 <= i < 2 ensures !ConflictsAt(ANY, branches, i) {
      NoConflictMeans(ANY, a);
      NoConflictMeans(a, b);
      NoConflictMeans(KEPT, Typed(TInteger));
    }
  }

  // ------------------------------------------------------------------ booleans, numbers, and conditions

  /** Two enums that have nothing in common are intersected to one that has: `true` is found in `[1]`. */
  lemma {:induction false} TakesBooleansForNumbers(re: Regex)
    ensures
      var a, b := ANY.(kw := NO_KEYWORDS.(enum := Some([Bool(true)]))), ANY.(kw := NO_KEYWORDS.(enum := Some([Int(1)])));
      && !CollapseConflicts(a, [b])
      && Sat(re, Collapse(a, [b]), Bool(true)) && !Sat(re, a.(allOf := [b]), Bool(true))
  {
    var a, b := ANY.(kw := NO_KEYWORDS.(enum := Some([Bool(true)]))), ANY.(kw := NO_KEYWORDS.(enum := Some([Int(1)])));
    OneBranch(a, b);
    var m := MergeNode(a, b);
    OneBoolean();
    assert m.kw.enum == Some([Bool(true)]) && m.kw.typ == None && m.kw.constant == Null;
    SatMeans(re, m, Bool(true));
    assert JsonEq(Bool(true), [Bool(true)][0]);
    assert AllSat(re, m.allOf, Bool(true)) && InPlaceSat(re, m, Bool(true));
    if Sat(re, a.(allOf := [b]), Bool(true)) {
      OfOneBranch(re, a, b, Bool(true));
      SatMeans(re, b, Bool(true));
    }
  }

  lemma {:induction false} OneBoolean()
    ensures MeetEnums(Some([Bool(true)]), Some([Int(1)])) == Some([Bool(true)])
  {
    assert PyEq(Bool(true), [Int(1)][0]);
    assert Member(Bool(true), [Int(1)]);
    assert Common([Bool(true)][1..], [Int(1)]) == [];
    assert Common([Bool(true)], [Int(1)]) == [Bool(true)];
    assert SortedSet(ScalarLess, [Bool(true)][1..]) == [];
    assert StableUnique([Bool(true)]) == [Bool(true)];
  }

  /** The validator takes `true` for a member of `[1]`. */
  lemma {:induction false} BooleanPassesForOne(re: Regex)
    ensures
      var s := ANY.(kw := NO_KEYWORDS.(enum := Some([Int(1)])));
      Valid(re, s, Bool(true)) && !Sat(re, s, Bool(true))
  {
    var s := ANY.(kw := NO_KEYWORDS.(enum := Some([Int(1)])));
    assert PyEq(Bool(true), [Int(1)][0]);
    SatMeans(re, s, Bool(true));
  }

  /** The validator refuses 1.0 as an integer. */
  lemma {:induction false} WholeFloatRefused(re: Regex)
    ensures !Valid(re, Typed(TInteger), Float(1.0)) && Sat(re, Typed(TInteger), Float(1.0))
  {
    var s := Typed(TInteger);
    SatMeans(re, s, Float(1.0));
    assert Whole(1.0) && AllSat(re, s.allOf, Float(1.0)) && InPlaceSat(re, s, Float(1.0));
  }

  /** The validator tells 1 from 1.0 among items that are to be unique. */
  lemma {:induction false} WholeFloatDistinct(re: Regex)
    ensures
      var s := Typed(TArray).(kw := NO_KEYWORDS.(typ := Some(TArray), uniqueItems := Some(true)));
      Valid(re, s, Arr([Int(1), Float(1.0)])) && !Sat(re, s, Arr([Int(1), Float(1.0)]))
  {
    var s := Typed(TArray).(kw := NO_KEYWORDS.(typ := Some(TArray), uniqueItems := Some(true)));
    var elems := [Int(1), Float(1.0)];
    assert PrefixValid(re, s, elems) && ItemsValid(re, s, elems);
    SatMeans(re, s, Arr(elems));
    assert JsonEq(elems[0], elems[1]);
  }

  /** The validator lets through a value that misses a multiple by less than its tolerance. */
  lemma {:induction false} ToleranceAccepts(re: Regex)
    ensures
      var s := Typed(TNumber).(kw := NO_KEYWORDS.(typ := Some(TNumber), multipleOf := Some(1.0)));
      Valid(re, s, Float(0.0000000001)) && !Sat(re, s, Float(0.0000000001))
  {
    var s := Typed(TNumber).(kw := NO_KEYWORDS.(typ := Some(TNumber), multipleOf := Some(1.0)));
    var x := 0.0000000001;
    assert x / 1.0 == x && (x + 0.5).Floor == 0 && x.Floor == 0;
    SatMeans(re, s, Float(x));
  }

  /** The validator looks at `if` only where the type is `object`. */
  lemma {:induction false} ConditionUnchecked(re: Regex)
    ensures
      var s := Typed(TString).(ifSchema := Some(ANY), thenSchema := Some(ANY.(kw := NO_KEYWORDS.(enum := Some([Str("b")])))));
      Valid(re, s, Str("a")) && !Sat(re, s, Str("a"))
  {
    var onlyB := ANY.(kw := NO_KEYWORDS.(enum := Some([Str("b")])));
    var s := Typed(TString).(ifSchema := Some(ANY), thenSchema := Some(onlyB));
    AnythingGoes(re, Str("a"));
    SatMeans(re, onlyB, Str("a"));
    SatMeans(re, s, Str("a"));
  }

  // ------------------------------------------------------------------ what the differ does not see

  /** Two schemas the differ is silent about, one of which accepts a value the other refuses. */
  ghost predicate Unseen(re: Regex, prev: Schema, next: Schema, v: Value) {
    SchemaEntries(prev, next, []) == [] && Valid(re, prev, v) != Valid(re, next, v)
  }

  /** Everything but the four blind spots is the same. */
  lemma {:induction false} QuietButFor(prev: Schema, next: Schema)
    requires next == prev.(kw := prev.kw.(required := next.kw.required), items := next.items, anyOf := next.anyOf, additional := next.additional)
    requires forall x :: x in prev.properties ==> (x in prev.kw.required <==> x in next.kw.required)
    requires prev.kw.proto.fieldNumbers == map[]
    requires prev.items.Some? && next.items.Some? ==> prev.items == next.items
    requires |prev.anyOf| == |next.anyOf| ==> prev.anyOf == next.anyOf
    ensures SchemaEntries(prev, next, []) == []
  {
    QuietSelf(prev);
    SilentIsQuiet(prev, next, []);
    hide SchemaEntries;
    assert QuietProto(prev, next);
    assert QuietLater(prev, prev) && QuietSingle(prev, prev) && QuietFields(prev, prev) && QuietMiddle(prev, prev);
    hide QuietProto, Quiet;
    assert QuietLater(prev, next) && QuietSingle(prev, next) && QuietFields(prev, next) && QuietMiddle(prev, next);
    assert QuietKeywords(prev.kw, next.kw);
    QuietFrom(prev, next);
  }

  lemma {:induction false} QuietFrom(prev: Schema, next: Schema)
    requires QuietProto(prev, next) && QuietKeywords(prev.kw, next.kw) && QuietFields(prev, next)
    requires QuietMiddle(prev, next) && QuietLater(prev, next) && QuietSingle(prev, next)
    ensures Quiet(prev, next)
  {
    hide QuietProto, QuietKeywords, QuietFields, QuietMiddle, QuietLater, QuietSingle;
  }

  /** `items` appearing on one side only. */
  lemma {:induction false} ItemsAppearUnseen(re: Regex)
    ensures Unseen(re, Typed(TArray), Typed(TArray).(items := Some(Typed(TString))), Arr([Int(1)]))
  {
    hide Valid, SchemaEntries;
    var prev, next := Typed(TArray), Typed(TArray).(items := Some(Typed(TString)));
    QuietButFor(prev, next);
    OneItem(re, prev);
    OneItem(re, next);
  }

  lemma {:induction false} OneItem(re: Regex, s: Schema)
    requires s == Typed(TArray).(items := s.items) && (s.items.Some? ==> s.items.value == Typed(TString))
    ensures Valid(re, s, Arr([Int(1)])) <==> s.items.None?
  {
    assert PrefixValid(re, s, [Int(1)]);
    assert ItemsValid(re, s, [Int(1)]) <==> s.items.None? by {
      if s.items.Some? { assert !Valid(re, Typed(TString), [Int(1)][0]); }
    }
    assert ArrayValid(re, s, [Int(1)]) <==> s.items.None?;
  }

  /** A variant added. */
  lemma {:induction false} VariantAddedUnseen(re: Regex)
    ensures Unseen(re, ANY.(anyOf := [Typed(TString)]), ANY.(anyOf := [Typed(TString), Typed(TInteger)]), Int(1))
  {
    hide Valid, SchemaEntries;
    var prev, next := ANY.(anyOf := [Typed(TString)]), ANY.(anyOf := [Typed(TString), Typed(TInteger)]);
    QuietButFor(prev, next);
    SomeVariant(re, prev);
    SomeVariant(re, next);
    NumberTyped(re);
    assert !Valid(re, prev.anyOf[0], Int(1)) && Valid(re, next.anyOf[1], Int(1));
  }

  lemma {:induction false} SomeVariant(re: Regex, s: Schema)
    requires s == ANY.(anyOf := s.anyOf) && s.anyOf != []
    ensures Valid(re, s, Int(1)) <==> SomeValid(re, s.anyOf, Int(1))
  {
  }

  lemma {:induction false} NumberTyped(re: Regex)
    ensures !Valid(re, Typed(TString), Int(1)) && Valid(re, Typed(TInteger), Int(1))
  {
  }

  /** A name required that no property declares. */
  lemma {:induction false} UndeclaredRequiredUnseen(re: Regex)
    ensures
      var next := Typed(TObject).(kw := NO_KEYWORDS.(typ := Some(TObject), required := ["x"]));
      Unseen(re, Typed(TObject), next, Obj(map[]))
  {
    hide Valid, SchemaEntries;
    var prev, next := Typed(TObject), Typed(TObject).(kw := NO_KEYWORDS.(typ := Some(TObject), required := ["x"]));
    QuietButFor(prev, next);
    PlainObjectValid(re, prev, map[]);
    RequiredRefuses(re, next);
  }

  lemma {:induction false} RequiredRefuses(re: Regex, s: Schema)
    requires s.kw.typ == Some(TObject) && s.kw.required == ["x"]
    ensures !Valid(re, s, Obj(map[]))
  {
    assert s.kw.required[0] == "x";
    assert !RequiredOk(s.kw.required, map[]);
    assert !ObjectValid(re, s, map[]);
  }

  /** Additional properties forbidden. */
  lemma {:induction false} ClosingUnseen(re: Regex)
    ensures Unseen(re, Typed(TObject), Typed(TObject).(additional := Allowed(false)), Obj(map["x" := Int(1)]))
  {
    hide Valid, SchemaEntries;
    var prev, next, fields := Typed(TObject), Typed(TObject).(additional := Allowed(false)), map["x" := Int(1)];
    QuietButFor(prev, next);
    PlainObjectValid(re, prev, fields);
    ClosedInvalid(re, next);
  }

  lemma {:induction false} ClosedInvalid(re: Regex, s: Schema)
    requires s.kw.typ == Some(TObject) && s.additional == Allowed(false) && s.properties == map[] && s.patternProperties == map[]
    ensures !Valid(re, s, Obj(map["x" := Int(1)]))
  {
    var fields := map["x" := Int(1)];
    assert "x" in Undeclared(re, s, fields);
    assert !ExtrasValid(re, s, fields);
    assert !ObjectValid(re, s, fields);
  }

  lemma {:induction false} PlainObjectValid(re: Regex, s: Schema, fields: map<string, Value>)
    requires s == Typed(TObject)
    ensures Valid(re, s, Obj(fields))
  {
    assert FieldsValid(re, s, fields) && DependentsValid(re, s, fields) && NamesValid(re, s, fields);
    assert PatternsValid(re, s, fields) && ConditionalValid(re, s, fields) && ExtrasValid(re, s, fields);
    assert ObjectValid(re, s, fields);
  }

  // ------------------------------------------------------------------ what is not the same the other way round

  /** Of two patterns the first one merged stays, so the order of the branches shows. */
  lemma {:induction false} OrderShows()
    ensures
      var a, b := ANY.(kw := NO_KEYWORDS.(pattern := Some("a"))), ANY.(kw := NO_KEYWORDS.(pattern := Some("b")));
      && !CollapseConflicts(ANY, [a, b]) && !CollapseConflicts(ANY, [b, a])
      && Collapse(ANY, [a, b]).kw.pattern == Some("a") && Collapse(ANY, [b, a]).kw.pattern == Some("b")
  {
    TwoPatterns("a", "b");
    TwoPatterns("b", "a");
  }

  lemma {:induction false} TwoPatterns(p: string, q: string)
    ensures
      var a, b := ANY.(kw := NO_KEYWORDS.(pattern := Some(p))), ANY.(kw := NO_KEYWORDS.(pattern := Some(q)));
      !CollapseConflicts(ANY, [a, b]) && Collapse(ANY, [a, b]).kw.pattern == Some(p)
  {
    var a, b := ANY.(kw := NO_KEYWORDS.(pattern := Some(p))), ANY.(kw := NO_KEYWORDS.(pattern := Some(q)));
    PatternKept(ANY, a);
    PatternKept(MergeNode(ANY, a), b);
    hide MergeNode, MergeConflicts;
    assert ANY.(allOf := []) == ANY;
    assert Stage(ANY, [a, b], 0) == ANY && Stage(ANY, [a, b], 1) == MergeNode(ANY, a);
    assert Stage(ANY, [a, b], 2) == MergeNode(MergeNode(ANY, a), b);
    forall i | 0 <= i < 2 ensures !ConflictsAt(ANY, [a, b], i) {}
  }

  lemma {:induction false} PatternKept(t: Schema, b: Schema)
    requires t.kw.typ.None? && b == ANY.(kw := NO_KEYWORDS.(pattern := b.kw.pattern)) && b.kw.pattern.Some?
    ensures !MergeConflicts(t, b) && MergeNode(t, b).kw.typ.None?
    ensures MergeNode(t, b).kw.pattern == if t.kw.pattern.Some? then t.kw.pattern else b.kw.pattern
  {
  }

  /** Two revisions that differ in the protobuf part alone are compared silently when that part is. */
  lemma {:induction false} OnlyProtoDiffers(prev: Schema, next: Schema)
    requires next == prev.(kw := prev.kw.(proto := next.kw.proto)) && QuietProto(prev, next)
    ensures Quiet(prev, next)
  {
    QuietSelf(prev);
    QuietPieces(prev);
    hide QuietProto, Quiet;
    assert QuietFields(prev, next) && QuietMiddle(prev, next) && QuietLater(prev, next) && QuietSingle(prev, next);
    assert QuietKeywords(prev.kw, next.kw);
    QuietFrom(prev, next);
  }

  /** A field number dropped without being reserved is reported; the same number added is not. */
  lemma {:induction false} NumberingNotMirrored()
    ensures
      var prev := ANY.(kw := NO_KEYWORDS.(proto := Proto(map[1 := "x"], {}, {}, [])));
      SchemaEntries(prev, ANY, []) != [] && SchemaEntries(ANY, prev, []) == []
  {
    var prev := ANY.(kw := NO_KEYWORDS.(proto := Proto(map[1 := "x"], {}, {}, [])));
    hide SchemaEntries;
    SilentIsQuiet(prev, ANY, []);
    SilentIsQuiet(ANY, prev, []);
    assert 1 in prev.kw.proto.fieldNumbers && 1 in Unreserved(prev, ANY);
    assert QuietProto(ANY, prev) && !QuietProto(prev, ANY);
    OnlyProtoDiffers(ANY, prev);
  }

  /** Explicit presence lost is reported; explicit presence gained is not. */
  lemma {:induction false} PresenceNotMirrored()
    ensures
      var next := ANY.(kw := NO_KEYWORDS.(proto := Proto(map[1 := "x"], {}, {}, [])), properties := map["x" := ANY]);
      var prev := next.(kw := NO_KEYWORDS.(proto := Proto(map[1 := "x"], {}, {"x"}, [])));
      SchemaEntries(prev, next, []) != [] && SchemaEntries(next, prev, []) == []
  {
    var next := ANY.(kw := NO_KEYWORDS.(proto := Proto(map[1 := "x"], {}, {}, [])), properties := map["x" := ANY]);
    var prev := next.(kw := NO_KEYWORDS.(proto := Proto(map[1 := "x"], {}, {"x"}, [])));
    hide SchemaEntries;
    SilentIsQuiet(prev, next, []);
    SilentIsQuiet(next, prev, []);
    assert 1 in prev.kw.proto.fieldNumbers && "x" in LostPresence(prev, next);
    assert QuietProto(next, prev) && !QuietProto(prev, next);
    hide QuietProto, LostPresence;
    OnlyProtoDiffers(next, prev);
  }

  // ------------------------------------------------------------------ what only one of two readers looks at

  /** The validator looks at `minLength` only where the type is stated. */
  lemma {:induction false} UntypedUnchecked(re: Regex)
    ensures
      var s := ANY.(kw := NO_KEYWORDS.(bounds := NO_BOUNDS.(minLength := Some(1))));
      Valid(re, s, Str("")) && !Sat(re, s, Str(""))
  {
    var s := ANY.(kw := NO_KEYWORDS.(bounds := NO_BOUNDS.(minLength := Some(1))));
    SatMeans(re, s, Str(""));
  }

  /** The wire shape of an array says what it holds; the differ does not compare `items` that only one side has. */
  lemma {:induction false} ItemsChangeTheWire()
    ensures
      var prev := ANY.(kw := NO_KEYWORDS.(proto := Proto(map[1 := "x"], {}, {}, [])), properties := map["x" := Typed(TArray)]);
      var next := prev.(properties := map["x" := Typed(TArray).(items := Some(Typed(TInteger)))]);
      SchemaEntries(prev, next, []) == [] && !WireSafe(prev, next)
  {
    var was, now := Typed(TArray), Typed(TArray).(items := Some(Typed(TInteger)));
    var prev := ANY.(kw := NO_KEYWORDS.(proto := Proto(map[1 := "x"], {}, {}, [])), properties := map["x" := was]);
    var next := prev.(properties := map["x" := now]);
    QuietButFor(was, now);
    hide *;
    ShapesDiffer(was, now);
    SilentIsQuiet(was, now, []);
    QuietSelf(prev);
    OneFieldQuiet(prev, next, was, now);
    OneFieldUnsafe(prev, next, was, now);
    SilentIsQuiet(prev, next, []);
  }

  /** Messages with one numbered field that is compared silently are compared silently. */
  lemma {:induction false} OneFieldQuiet(prev: Schema, next: Schema, was: Schema, now: Schema)
    requires prev.properties == map["x" := was] && next == prev.(properties := map["x" := now])
    requires prev.kw.proto == Proto(map[1 := "x"], {}, {}, []) && Quiet(was, now) && Quiet(prev, prev)
    ensures Quiet(prev, next)
  {
    assert QuietProto(prev, next);
    QuietPieces(prev);
    OtherwiseQuiet(prev, next);
    OneFieldOnly(prev, next, was, now);
    hide *;
    QuietFrom(prev, next);
  }

  lemma {:induction false} OneFieldOnly(prev: Schema, next: Schema, was: Schema, now: Schema)
    requires prev.properties == map["x" := was] && next == prev.(properties := map["x" := now]) && Quiet(was, now)
    ensures QuietFields(prev, next)
  {
    hide Quiet;
    forall x | x in prev.properties ensures Quiet(prev.properties[x], next.properties[x]) { assert x == "x"; }
  }

  lemma {:induction false} OtherwiseQuiet(prev: Schema, next: Schema)
    requires next == prev.(properties := next.properties) && QuietLater(prev, prev) && QuietSingle(prev, prev) && QuietMiddle(prev, prev)
    ensures QuietLater(prev, next) && QuietSingle(prev, next) && QuietMiddle(prev, next) && QuietKeywords(prev.kw, next.kw)
  {
    hide Quiet;
  }

  lemma {:induction false} QuietPieces(s: Schema)
    requires Quiet(s, s)
    ensures QuietLater(s, s) && QuietSingle(s, s) && QuietMiddle(s, s) && QuietFields(s, s)
  {
    hide QuietProto, QuietKeywords, QuietFields, QuietMiddle, QuietLater, QuietSingle;
  }

  lemma {:induction false} OneFieldUnsafe(prev: Schema, next: Schema, was: Schema, now: Schema)
    requires prev.properties == map["x" := was] && next == prev.(properties := map["x" := now])
    requires prev.kw.proto == Proto(map[1 := "x"], {}, {}, []) && WireShape(Some(was)) != WireShape(Some(now))
    ensures !WireSafe(prev, next)
  {
    hide WireShape;
    assert ShapeOf(prev, 1) == WireShape(Some(was)) && ShapeOf(next, 1) == WireShape(Some(now));
  }

  lemma {:induction false} ShapesDiffer(was: Schema, now: Schema)
    requires was == Typed(TArray) && now == was.(items := Some(Typed(TInteger)))
    ensures WireShape(Some(was)) != WireShape(Some(now))
  {
    assert WireShape(Some(was)) == "array";
    assert WireShape(Some(now))[..1] == "r";
  }
}
