/** When a composition collapses, said of the schemas that are composed: two of them clash where they state different types
    for one place, or where one carries a keyword that cannot be merged at a place the other has too. */
module Clashes {
  import opened Model
  import opened Ordering
  import opened Canonical

  /** The property reached along a route of names. */
  function At(s: Schema, route: seq<string>): Option<Schema>
    decreases |route|
  {
    if route == [] then Some(s)
    else if route[0] in s.properties then At(s.properties[route[0]], route[1..])
    else None
  }

  /** `dependentRequired`, `dependentSchemas`, `patternProperties`, `prefixItems`, `if`, `contains` or `propertyNames`. */
  predicate CarriesRule(s: Schema) {
    || |s.kw.dependentRequired| > 0 || |s.dependentSchemas| > 0 || |s.patternProperties| > 0 || |s.prefixItems| > 0
    || s.ifSchema != None || s.contains != None || s.propertyNames != None
  }

  /** Both have the place, and there they state different types, or the later one carries a rule. */
  predicate ClashAt(earlier: Schema, later: Schema, route: seq<string>) {
    var a, b := At(earlier, route), At(later, route);
    a.Some? && b.Some? && ((a.value.kw.typ.Some? && b.value.kw.typ.Some? && a.value.kw.typ != b.value.kw.typ) || CarriesRule(b.value))
  }

  ghost predicate Clash(earlier: Schema, later: Schema) {
    exists route: seq<string> :: ClashAt(earlier, later, route)
  }

  /** The branch clashes with the host or with a branch before it. */
  ghost predicate Clashing(host: Schema, branches: seq<Schema>, i: nat)
    requires i < |branches|
  {
    Clash(host, branches[i]) || exists k :: 0 <= k < i && Clash(branches[k], branches[i])
  }

  ghost predicate AnyClash(host: Schema, branches: seq<Schema>) {
    exists i :: 0 <= i < |branches| && Clashing(host, branches, i)
  }

  // ------------------------------------------------------------------ one merge

  lemma {:induction false} EmptyMap<K, V>(m: map<K, V>)
    ensures |m| > 0 <==> m != map[]
  {
  }

  lemma {:induction false} SevenRules(b: Schema)
    ensures CarriesRule(b) <==> CarriesUnmergeable(b)
  {
    EmptyMap(b.kw.dependentRequired);
    EmptyMap(b.dependentSchemas);
    EmptyMap(b.patternProperties);
  }

  lemma {:induction false} ClashBelow(t: Schema, b: Schema, x: string, route: seq<string>)
    requires x in t.properties && x in b.properties
    ensures ClashAt(t, b, [x] + route) <==> ClashAt(t.properties[x], b.properties[x], route)
  {
    assert ([x] + route)[1..] == route;
  }

  lemma {:induction false} ClashHere(t: Schema, b: Schema)
    ensures ClashAt(t, b, []) <==> TypesDisagree(t.kw.typ, b.kw.typ) || CarriesRule(b)
  {
  }

  lemma {:induction false} ConflictClashes(t: Schema, b: Schema) returns (route: seq<string>)
    requires MergeConflicts(t, b)
    ensures ClashAt(t, b, route)
    decreases b
  {
    SevenRules(b);
    hide CarriesRule, CarriesUnmergeable, ClashAt;
    ClashHere(t, b);
    route := [];
    if !TypesDisagree(t.kw.typ, b.kw.typ) && !CarriesRule(b) {
      var x :| x in b.properties && ConflictAt(t, b, x);
      if PropertyTypesDisagree(t.properties[x].kw.typ, b.properties[x].kw.typ) {
        ClashHere(t.properties[x], b.properties[x]);
      } else {
        route := ConflictClashes(t.properties[x], b.properties[x]);
      }
      ClashBelow(t, b, x, route);
      route := [x] + route;
    }
  }

  lemma {:induction false} ClashConflicts(t: Schema, b: Schema, route: seq<string>)
    requires ClashAt(t, b, route)
    ensures MergeConflicts(t, b)
    decreases |route|
  {
    SevenRules(b);
    hide CarriesRule, CarriesUnmergeable;
    if route != [] {
      var x := route[0];
      assert route == [x] + route[1..];
      ClashBelow(t, b, x, route[1..]);
      ClashConflicts(t.properties[x], b.properties[x], route[1..]);
      assert ConflictAt(t, b, x);
    }
  }

  /** A merge records a conflict exactly when the two clash somewhere. */
  lemma {:induction false} MergeClashes(t: Schema, b: Schema)
    ensures MergeConflicts(t, b) <==> Clash(t, b)
  {
    hide MergeConflicts, ClashAt;
    if MergeConflicts(t, b) { var route := ConflictClashes(t, b); }
    if route: seq<string> :| ClashAt(t, b, route) { ClashConflicts(t, b, route); }
  }

  // ------------------------------------------------------------------ a chain of merges

  function TypeAt(o: Option<Schema>): Option<JType> { if o.Some? then o.value.kw.typ else None }

  /** The merge has the places of both, with the type either states. */
  lemma {:induction false} MergedPlaces(t: Schema, b: Schema, route: seq<string>)
    requires !MergeConflicts(t, b)
    ensures At(MergeNode(t, b), route).Some? <==> At(t, route).Some? || At(b, route).Some?
    ensures TypeAt(At(MergeNode(t, b), route)) == First(TypeAt(At(t, route)), TypeAt(At(b, route)))
    decreases |route|
  {
    if route != [] {
      var x := route[0];
      if x in t.properties && x in b.properties {
        assert !ConflictAt(t, b, x);
        MergedPlaces(t.properties[x], b.properties[x], route[1..]);
      }
    }
    hide MergeKeywords;
    assert !TypesDisagree(t.kw.typ, b.kw.typ);
    assert MergeNode(t, b).kw.typ == First(t.kw.typ, b.kw.typ) by { KeywordType(t.kw, b.kw); }
  }

  lemma {:induction false} KeywordType(t: Keywords, b: Keywords)
    ensures MergeKeywords(t, b).typ == First(t.typ, b.typ)
  {
  }

  /** What clashes with the merge clashes with one of the two merged. */
  lemma {:induction false} MergedClash(t: Schema, b: Schema, c: Schema)
    requires !MergeConflicts(t, b)
    ensures Clash(MergeNode(t, b), c) <==> Clash(t, c) || Clash(b, c)
  {
    forall route: seq<string>
      ensures ClashAt(MergeNode(t, b), c, route) <==> ClashAt(t, c, route) || ClashAt(b, c, route)
    {
      MergedPlaces(t, b, route);
      if At(t, route).Some? && At(b, route).Some? {
        assert !ClashAt(t, b, route) by { if ClashAt(t, b, route) { ClashConflicts(t, b, route); } }
      }
      hide MergeNode, MergeConflicts, CarriesRule;
    }
    hide ClashAt, MergeNode, MergeConflicts;
  }

  /** What clashes with a stage clashes with something merged into it. */
  lemma {:induction false} StageClash(h: Schema, branches: seq<Schema>, i: nat, c: Schema)
    requires i <= |branches| && forall j :: 0 <= j < i ==> !ConflictsAt(h, branches, j)
    ensures Clash(Stage(h, branches, i), c) <==> Clash(h, c) || exists k :: 0 <= k < i && Clash(branches[k], c)
    decreases i
  {
    hide Clash, MergeNode, MergeConflicts;
    if i > 0 {
      StageClash(h, branches, i - 1, c);
      assert !ConflictsAt(h, branches, i - 1);
      MergedClash(Stage(h, branches, i - 1), branches[i - 1], c);
    }
  }

  lemma {:induction false} FirstConflict(h: Schema, branches: seq<Schema>, n: nat) returns (i: nat)
    requires n < |branches| && ConflictsAt(h, branches, n)
    ensures i <= n && ConflictsAt(h, branches, i) && forall j :: 0 <= j < i ==> !ConflictsAt(h, branches, j)
  {
    hide ConflictsAt;
    i := 0;
    while !ConflictsAt(h, branches, i)
      invariant i <= n && forall j :: 0 <= j < i ==> !ConflictsAt(h, branches, j)
      decreases n - i
    {
      i := i + 1;
    }
  }

  /** A conflict is recorded exactly when some branch clashes with the host or with a branch before it. */
  lemma {:induction false} ConflictsExactly(h: Schema, branches: seq<Schema>)
    ensures CollapseConflicts(h, branches) <==> AnyClash(h, branches)
  {
    hide Clash, Stage;
    if CollapseConflicts(h, branches) {
      var n :| 0 <= n < |branches| && ConflictsAt(h, branches, n);
      var i := FirstConflict(h, branches, n);
      StageClash(h, branches, i, branches[i]);
      MergeClashes(Stage(h, branches, i), branches[i]);
      assert Clashing(h, branches, i);
    } else {
      forall i | 0 <= i < |branches| ensures !Clashing(h, branches, i) {
        assert !ConflictsAt(h, branches, i);
        StageClash(h, branches, i, branches[i]);
        MergeClashes(Stage(h, branches, i), branches[i]);
      }
    }
  }

  // ------------------------------------------------------------------ canonical forms

  /** The composition of the node is one that cannot be collapsed. */
  ghost predicate Troubled(s: Schema) {
    s.allOf != [] && AnyClash(CanonParts(s).(allOf := []), CanonSeq(s.allOf))
  }

  lemma {:induction false} StageFlat(h: Schema, branches: seq<Schema>, i: nat)
    requires i <= |branches|
    ensures Stage(h, branches, i).allOf == h.allOf
  {
    if i > 0 { StageFlat(h, branches, i - 1); }
  }

  /** The canonical form keeps a composition exactly where two of its parts clash. */
  lemma {:induction false} KeptExactly(s: Schema)
    ensures Canon(s).allOf == [] <==> !Troubled(s)
  {
    var n, branches := CanonParts(s), CanonSeq(s.allOf);
    var h := n.(allOf := []);
    assert n.allOf == s.allOf by { hide CanonOpt, CanonSeq, CanonAdditional, Canon; }
    assert |branches| == |s.allOf| by { hide Canon; }
    ConflictsExactly(h, branches);
    StageFlat(h, branches, |branches|);
    assert |WriteBacks(h, branches)| == |branches| by { hide WriteBack; }
    hide CanonParts, CanonSeq, Stage, CollapseConflicts, WriteBacks, SortKeywords, AnyClash;
  }

  // ------------------------------------------------------------------ every finding

  ghost predicate WithinOpt(n: Schema, o: Option<Schema>)
    decreases o, 0
  {
    o.Some? && Within(n, o.value)
  }

  ghost predicate WithinSeq(n: Schema, ss: seq<Schema>)
    decreases ss, 0
  {
    exists i :: 0 <= i < |ss| && Within(n, ss[i])
  }

  ghost predicate WithinMaps(n: Schema, s: Schema)
    decreases s, 0
  {
    || (exists x :: x in s.properties && Within(n, s.properties[x]))
    || (exists x :: x in s.patternProperties && Within(n, s.patternProperties[x]))
    || (exists x :: x in s.dependentSchemas && Within(n, s.dependentSchemas[x]))
  }

  /** The node itself or a sub-schema at any depth; `not` is not entered. */
  ghost predicate Within(n: Schema, s: Schema)
    decreases s, 1
  {
    || n == s || WithinMaps(n, s) || (s.additional.Described? && Within(n, s.additional.schema))
    || WithinOpt(n, s.items) || WithinSeq(n, s.prefixItems) || WithinOpt(n, s.contains) || WithinOpt(n, s.propertyNames)
    || WithinOpt(n, s.ifSchema) || WithinOpt(n, s.thenSchema) || WithinOpt(n, s.elseSchema)
    || WithinSeq(n, s.oneOf) || WithinSeq(n, s.anyOf) || WithinSeq(n, s.allOf)
  }

  ghost predicate AnyTroubled(s: Schema) {
    exists n :: Within(n, s) && Troubled(n)
  }

  lemma {:induction false} TroubledOpt(o: Option<Schema>)
    ensures ReportsOpt(o) <==> exists n :: WithinOpt(n, o) && Troubled(n)
    decreases o, 0
  {
    hide Reports, Within, Troubled;
    if o.Some? {
      TroubledWithin(o.value);
      if AnyTroubled(o.value) { var n :| Within(n, o.value) && Troubled(n); assert WithinOpt(n, o); }
    }
  }

  lemma {:induction false} TroubledSeq(ss: seq<Schema>)
    ensures ReportsSeq(ss) <==> exists n :: WithinSeq(n, ss) && Troubled(n)
    decreases ss, 0
  {
    hide Reports, Within, Troubled;
    forall i | 0 <= i < |ss| ensures Reports(ss[i]) <==> AnyTroubled(ss[i]) { TroubledWithin(ss[i]); }
    if ReportsSeq(ss) {
      var i :| 0 <= i < |ss| && Reports(ss[i]);
      var n :| Within(n, ss[i]) && Troubled(n);
      assert WithinSeq(n, ss);
    }
    if n :| WithinSeq(n, ss) && Troubled(n) {
      var i :| 0 <= i < |ss| && Within(n, ss[i]);
      assert AnyTroubled(ss[i]);
    }
  }

  lemma {:induction false} TroubledMap(s: Schema, m: map<string, Schema>)
    requires m == s.properties || m == s.patternProperties || m == s.dependentSchemas
    ensures ReportsMap(s, m) <==> exists n, x :: x in m && Within(n, m[x]) && Troubled(n)
    decreases s, 0
  {
    hide Reports, Within, Troubled;
    forall x | x in m ensures Reports(m[x]) <==> AnyTroubled(m[x]) { TroubledWithin(m[x]); }
    if ReportsMap(s, m) {
      var x :| x in m && Reports(m[x]);
      var n :| Within(n, m[x]) && Troubled(n);
    }
    if n, x :| x in m && Within(n, m[x]) && Troubled(n) { assert AnyTroubled(m[x]); }
  }

  lemma {:induction false} TroubledMaps(s: Schema)
    ensures ReportsMap(s, s.properties) || ReportsMap(s, s.patternProperties) || ReportsMap(s, s.dependentSchemas) <==>
      exists n :: WithinMaps(n, s) && Troubled(n)
    decreases s, 1
  {
    hide Reports, Within, Troubled, ReportsMap;
    TroubledMap(s, s.properties);
    TroubledMap(s, s.patternProperties);
    TroubledMap(s, s.dependentSchemas);
    if n, x :| x in s.properties && Within(n, s.properties[x]) && Troubled(n) { assert WithinMaps(n, s); }
    if n, x :| x in s.patternProperties && Within(n, s.patternProperties[x]) && Troubled(n) { assert WithinMaps(n, s); }
    if n, x :| x in s.dependentSchemas && Within(n, s.dependentSchemas[x]) && Troubled(n) { assert WithinMaps(n, s); }
  }

  /** A finding comes from a node, at any depth, two of whose composed parts clash, and every such node gives one. */
  lemma {:induction false} TroubledWithin(s: Schema)
    ensures Reports(s) <==> AnyTroubled(s)
    decreases s, 2
  {
    hide *;
    TroubledMaps(s);
    if s.additional.Described? { TroubledWithin(s.additional.schema); }
    TroubledOpt(s.items);
    TroubledSeq(s.prefixItems);
    TroubledOpt(s.contains);
    TroubledOpt(s.propertyNames);
    TroubledOpt(s.ifSchema);
    TroubledOpt(s.thenSchema);
    TroubledOpt(s.elseSchema);
    TroubledSeq(s.oneOf);
    TroubledSeq(s.anyOf);
    TroubledSeq(s.allOf);
    ConflictsExactly(CanonParts(s).(allOf := []), CanonSeq(s.allOf));
    ReportsMeans(s);
    TroubledMeans(s);
    AnyWithin(s);
  }

  lemma {:induction false} TroubledMeans(s: Schema)
    ensures Troubled(s) <==> s.allOf != [] && AnyClash(CanonParts(s).(allOf := []), CanonSeq(s.allOf))
  {
  }

  lemma {:induction false} ReportsMeans(s: Schema)
    ensures Reports(s) <==>
      || ReportsMap(s, s.properties) || ReportsMap(s, s.patternProperties) || ReportsMap(s, s.dependentSchemas)
      || (s.additional.Described? && Reports(s.additional.schema))
      || ReportsOpt(s.items) || ReportsSeq(s.prefixItems) || ReportsOpt(s.contains) || ReportsOpt(s.propertyNames)
      || ReportsOpt(s.ifSchema) || ReportsOpt(s.thenSchema) || ReportsOpt(s.elseSchema)
      || ReportsSeq(s.oneOf) || ReportsSeq(s.anyOf) || ReportsSeq(s.allOf)
      || (s.allOf != [] && CollapseConflicts(CanonParts(s).(allOf := []), CanonSeq(s.allOf)))
  {
    hide ReportsMap, ReportsOpt, ReportsSeq, CollapseConflicts, CanonParts, CanonSeq;
  }

  lemma {:induction false} AnyWithin(s: Schema)
    ensures AnyTroubled(s) <==>
      || Troubled(s) || (exists n :: WithinMaps(n, s) && Troubled(n)) || (s.additional.Described? && AnyTroubled(s.additional.schema))
      || (exists n :: WithinOpt(n, s.items) && Troubled(n)) || (exists n :: WithinSeq(n, s.prefixItems) && Troubled(n))
      || (exists n :: WithinOpt(n, s.contains) && Troubled(n)) || (exists n :: WithinOpt(n, s.propertyNames) && Troubled(n))
      || (exists n :: WithinOpt(n, s.ifSchema) && Troubled(n)) || (exists n :: WithinOpt(n, s.thenSchema) && Troubled(n))
      || (exists n :: WithinOpt(n, s.elseSchema) && Troubled(n)) || (exists n :: WithinSeq(n, s.oneOf) && Troubled(n))
      || (exists n :: WithinSeq(n, s.anyOf) && Troubled(n)) || (exists n :: WithinSeq(n, s.allOf) && Troubled(n))
  {
    hide Troubled, WithinMaps, WithinOpt, WithinSeq;
    forall n
      ensures Within(n, s) <==>
        || n == s || WithinMaps(n, s) || (s.additional.Described? && Within(n, s.additional.schema))
        || WithinOpt(n, s.items) || WithinSeq(n, s.prefixItems) || WithinOpt(n, s.contains) || WithinOpt(n, s.propertyNames)
        || WithinOpt(n, s.ifSchema) || WithinOpt(n, s.thenSchema) || WithinOpt(n, s.elseSchema)
        || WithinSeq(n, s.oneOf) || WithinSeq(n, s.anyOf) || WithinSeq(n, s.allOf)
    {
    }
  }

  // ------------------------------------------------------------------ schemas as they were written

  /** No composition at the node or at a property below it. */
  ghost predicate Flat(s: Schema) {
    forall route: seq<string> :: At(s, route).Some? ==> At(s, route).value.allOf == []
  }

  lemma {:induction false} FlatBelow(s: Schema, x: string)
    requires Flat(s) && x in s.properties
    ensures Flat(s.properties[x]) && s.allOf == []
  {
    forall route: seq<string> | At(s.properties[x], route).Some? ensures At(s.properties[x], route).value.allOf == [] {
      assert ([x] + route)[1..] == route;
      assert At(s, [x] + route) == At(s.properties[x], route);
    }
    assert At(s, []) == Some(s);
  }

  lemma {:induction false} FlatCanon(s: Schema)
    requires s.allOf == []
    ensures Canon(s).kw.typ == s.kw.typ && Canon(s).properties.Keys == s.properties.Keys
    ensures forall x :: x in s.properties ==> Canon(s).properties[x] == Canon(s.properties[x])
    ensures CarriesRule(Canon(s)) <==> CarriesRule(s)
  {
    hide Canon;
    var c, n := Canon(s), CanonParts(s);
    FlatForm(s);
    hide CanonOpt, CanonAdditional, StableUnique, SortedNames;
    assert |CanonSeq(s.prefixItems)| == |s.prefixItems|;
    assert c.kw.dependentRequired.Keys == s.kw.dependentRequired.Keys && |c.prefixItems| == |s.prefixItems|;
    assert c.dependentSchemas.Keys == s.dependentSchemas.Keys && c.patternProperties.Keys == s.patternProperties.Keys;
    SameSize(c.kw.dependentRequired, s.kw.dependentRequired);
    SameSize(c.dependentSchemas, s.dependentSchemas);
    SameSize(c.patternProperties, s.patternProperties);
    OptKept(s.ifSchema);
    OptKept(s.contains);
    OptKept(s.propertyNames);
  }

  lemma {:induction false} FlatForm(s: Schema)
    requires s.allOf == []
    ensures Canon(s) == CanonParts(s).(kw := SortKeywords(CanonParts(s).kw))
  {
    hide CanonParts, SortKeywords;
  }

  lemma {:induction false} OptKept(o: Option<Schema>)
    ensures CanonOpt(o).Some? == o.Some?
  {
    hide Canon;
  }

  lemma {:induction false} SameSize<K, V, W>(m: map<K, V>, n: map<K, W>)
    requires m.Keys == n.Keys
    ensures |m| == |n|
  {
    assert |m| == |m.Keys| && |n| == |n.Keys|;
  }

  /** A canonical form has the places of what was written, with the types and the rules stated there. */
  lemma {:induction false} FlatPlaces(s: Schema, route: seq<string>)
    requires Flat(s)
    ensures At(Canon(s), route).Some? == At(s, route).Some?
    ensures At(s, route).Some? ==>
      At(Canon(s), route).value.kw.typ == At(s, route).value.kw.typ && CarriesRule(At(Canon(s), route).value) == CarriesRule(At(s, route).value)
    decreases |route|
  {
    assert At(s, []) == Some(s);
    FlatCanon(s);
    hide Canon, CarriesRule, Flat;
    if route != [] && route[0] in s.properties {
      FlatBelow(s, route[0]);
      FlatPlaces(s.properties[route[0]], route[1..]);
    }
  }

  lemma {:induction false} FlatClash(a: Schema, b: Schema)
    requires Flat(a) && Flat(b)
    ensures Clash(Canon(a), Canon(b)) <==> Clash(a, b)
  {
    hide Canon, Flat, CarriesRule;
    forall route: seq<string> ensures ClashAt(Canon(a), Canon(b), route) <==> ClashAt(a, b, route) {
      FlatPlaces(a, route);
      FlatPlaces(b, route);
    }
    hide ClashAt;
  }

  /** Only the node itself holds a composition, and no branch another one. */
  ghost predicate Single(s: Schema) {
    Flat(s.(allOf := [])) && forall i :: 0 <= i < |s.allOf| ==> Flat(s.allOf[i])
  }

  lemma {:induction false} HostCanon(s: Schema)
    ensures Canon(s.(allOf := [])) == CanonParts(s).(allOf := [], kw := SortKeywords(CanonParts(s).kw))
  {
    hide CanonOpt, CanonSeq, CanonAdditional, SortKeywords;
    assert CanonParts(s.(allOf := [])) == CanonParts(s).(allOf := []);
  }

  lemma {:induction false} SortedClash(h: Schema, kw: Keywords, b: Schema)
    requires kw.typ == h.kw.typ
    ensures Clash(h.(kw := kw), b) <==> Clash(h, b)
  {
    forall route: seq<string> ensures ClashAt(h.(kw := kw), b, route) <==> ClashAt(h, b, route) {
      if route != [] { assert At(h.(kw := kw), route) == At(h, route); }
    }
    hide ClashAt;
  }

  /** A composition of schemas without compositions collapses exactly when, as written, no branch states a type another part
      contradicts at the same place, nor carries one of the seven rules at a place an earlier part has. */
  lemma {:induction false} CollapsesExactly(s: Schema)
    requires Single(s)
    ensures Canon(s).allOf == [] <==> s.allOf == [] || !AnyClash(s.(allOf := []), s.allOf)
  {
    KeptExactly(s);
    WrittenClash(s);
    hide Canon, AnyClash, CanonParts, CanonSeq;
  }

  lemma {:induction false} WrittenClash(s: Schema)
    requires Single(s)
    ensures AnyClash(CanonParts(s).(allOf := []), CanonSeq(s.allOf)) <==> AnyClash(s.(allOf := []), s.allOf)
  {
    hide Clash, Flat, Canon;
    var w, h, branches := s.(allOf := []), CanonParts(s).(allOf := []), CanonSeq(s.allOf);
    HostCanon(s);
    assert SortKeywords(CanonParts(s).kw).typ == h.kw.typ by { hide CanonOpt, CanonSeq, CanonAdditional; }
    hide CanonParts, SortKeywords;
    forall i | 0 <= i < |branches| ensures Clashing(h, branches, i) <==> Clashing(w, s.allOf, i) {
      assert branches[i] == Canon(s.allOf[i]) && Flat(s.allOf[i]);
      FlatClash(w, s.allOf[i]);
      SortedClash(h, SortKeywords(CanonParts(s).kw), branches[i]);
      forall k | 0 <= k < i ensures Clash(branches[k], branches[i]) <==> Clash(s.allOf[k], s.allOf[i]) {
        assert branches[k] == Canon(s.allOf[k]) && Flat(s.allOf[k]);
        FlatClash(s.allOf[k], s.allOf[i]);
      }
    }
    hide Clashing;
  }

  /** Where no composition is nested in another, findings come exactly from the nodes whose parts clash as written. */
  lemma {:induction false} FindingsExactly(s: Schema)
    requires forall n :: Within(n, s) ==> Single(n)
    ensures Reports(s) <==> exists n :: Within(n, s) && n.allOf != [] && AnyClash(n.(allOf := []), n.allOf)
  {
    hide Reports, Within, Single, AnyClash;
    TroubledWithin(s);
    forall n | Within(n, s)
      ensures Troubled(n) <==> n.allOf != [] && AnyClash(n.(allOf := []), n.allOf)
    {
      WrittenClash(n);
      TroubledMeans(n);
    }
    hide Troubled;
    if AnyTroubled(s) {
      var n :| Within(n, s) && Troubled(n);
      assert n.allOf != [] && AnyClash(n.(allOf := []), n.allOf);
    }
    if n :| Within(n, s) && n.allOf != [] && AnyClash(n.(allOf := []), n.allOf) { assert Troubled(n); }
  }
}
