/** What a merge that is given up leaves behind in the branches: inputs for which the kept composition does not mean what
    was written, and exactly when it is right about `null`. */
module Leftovers {
  import opened Model
  import opened Validation
  import opened Meaning
  import opened Canonical
  import opened BranchOrder
  import opened CanonicalForm
  import opened Limits

  // ------------------------------------------------------------------ two branches that share a property

  /** A branch with one property, and a keyword about arrays that cannot be merged. */
  function Stuck(x: string, s: Schema): Schema { With(x, s).(contains := Some(ANY)) }

  lemma {:induction false} OneProperty(re: Regex, s: Schema, x: string, v: Value)
    requires x in s.properties && s == ANY.(properties := s.properties, contains := s.contains) && s.properties.Keys == {x}
    ensures Sat(re, s, Obj(map[x := v])) <==> Sat(re, s.properties[x], v)
  {
    var fields := map[x := v];
    SatMeans(re, s, Obj(fields));
    hide Sat;
    assert AllSat(re, s.allOf, Obj(fields)) && InPlaceSat(re, s, Obj(fields)) && KeywordsSat(re, s.kw, Obj(fields));
    assert DependentsSat(re, s, fields) && NamesSat(re, s, fields) && PatternsSat(re, s, fields) && ExtrasSat(re, s, fields);
    assert FieldsSat(re, s, fields) <==> Sat(re, s.properties[x], v);
  }

  lemma {:induction false} TwoBranches(re: Regex, a: Schema, b: Schema, v: Value)
    ensures Sat(re, ANY.(allOf := [a, b]), v) <==> Sat(re, ANY, v) && Sat(re, a, v) && Sat(re, b, v)
  {
    hide Sat;
    HostAndBranches(re, ANY, [a, b], v);
    assert ANY.(allOf := []) == ANY;
    assert AllSat(re, [a, b], v) <==> Sat(re, a, v) && Sat(re, b, v) by {
      assert [a, b][0] == a && [a, b][1] == b;
    }
  }

  lemma {:induction false} StuckStages(a: Schema, b: Schema)
    requires !TypesDisagree(a.kw.typ, b.kw.typ)
    ensures
      var branches := [With("p", a), Stuck("p", b)];
      var m := MergeNode(a, b);
      && CollapseConflicts(ANY, branches)
      && Stage(ANY, branches, 1) == With("p", a) && Stage(ANY, branches, 2).properties == map["p" := m]
  {
    var branches := [With("p", a), Stuck("p", b)];
    hide MergeKeywords;
    NothingAdded();
    MergedShape(ANY, With("p", a));
    MergedAt(ANY, With("p", a), "p");
    MergedShape(With("p", a), Stuck("p", b));
    MergedAt(With("p", a), Stuck("p", b), "p");
    hide MergeNode;
    assert MergeNode(ANY, With("p", a)) == With("p", a);
    assert Stage(ANY, branches, 0) == ANY && Stage(ANY, branches, 1) == MergeNode(ANY, With("p", a));
    assert Stage(ANY, branches, 2) == MergeNode(Stage(ANY, branches, 1), Stuck("p", b));
    assert ConflictsAt(ANY, branches, 1);
  }

  lemma {:induction false} NothingAdded()
    ensures MergeKeywords(NO_KEYWORDS, NO_KEYWORDS) == NO_KEYWORDS
  {
    assert NO_KEYWORDS.required + NO_KEYWORDS.required == [];
  }

  /** The first branch's property has become the merged one; the second's is written through. */
  lemma {:induction false} StuckKept(a: Schema, b: Schema)
    requires !TypesDisagree(a.kw.typ, b.kw.typ)
    ensures
      var branches := [With("p", a), Stuck("p", b)];
      var m := MergeNode(a, b);
      Collapse(ANY, branches) == ANY.(allOf := [With("p", m), Stuck("p", WriteBack(b, a, m))])
  {
    var branches := [With("p", a), Stuck("p", b)];
    var m := MergeNode(a, b);
    StuckStages(a, b);
    var s0, s1, s2 := ANY, With("p", a), Stage(ANY, branches, 2);
    assert Stage(ANY, branches, 0) == s0;
    WrittenShape(branches[0], s0, s2);
    WrittenAt(branches[0], s0, s2, "p");
    WrittenShape(branches[1], s1, s2);
    WrittenAt(branches[1], s1, s2, "p");
    hide MergeNode, WriteBack, Stage, CollapseConflicts;
    assert s2.properties["p"] == m;
    assert WriteBack(branches[0], s0, s2).properties == map["p" := m];
    assert WriteBack(branches[1], s1, s2).properties == map["p" := WriteBack(b, a, m)];
    assert WriteBacks(ANY, branches) == [With("p", m), Stuck("p", WriteBack(b, a, m))];
    assert ANY.(allOf := []) == ANY;
  }

  /** What the composition and what is kept of it state of an object with the one field. */
  lemma {:induction false} StuckMeans(re: Regex, a: Schema, b: Schema, v: Value)
    requires !TypesDisagree(a.kw.typ, b.kw.typ)
    ensures
      var branches := [With("p", a), Stuck("p", b)];
      var m := MergeNode(a, b);
      && (Sat(re, ANY.(allOf := branches), Obj(map["p" := v])) <==> Sat(re, a, v) && Sat(re, b, v))
      && (Sat(re, Collapse(ANY, branches), Obj(map["p" := v])) <==> Sat(re, m, v) && Sat(re, WriteBack(b, a, m), v))
  {
    hide Sat, MergeNode, WriteBack, Collapse;
    var m := MergeNode(a, b);
    StuckKept(a, b);
    AnythingGoes(re, Obj(map["p" := v]));
    TwoBranches(re, With("p", a), Stuck("p", b), Obj(map["p" := v]));
    TwoBranches(re, With("p", m), Stuck("p", WriteBack(b, a, m)), Obj(map["p" := v]));
    OneProperty(re, With("p", a), "p", v);
    OneProperty(re, Stuck("p", b), "p", v);
    OneProperty(re, With("p", m), "p", v);
    OneProperty(re, Stuck("p", WriteBack(b, a, m)), "p", v);
  }

  // ------------------------------------------------------------------ null, closed objects, tuples

  /** The first branch's property takes `nullable` from the second's: `null` becomes acceptable. */
  lemma {:induction false} KeptLetsNullIn(re: Regex)
    ensures
      var branches := [With("p", TEXT), Stuck("p", TEXT.(kw := TEXT.kw.(nullable := true)))];
      && CollapseConflicts(ANY, branches)
      && Sat(re, Collapse(ANY, branches), Obj(map["p" := Null])) && !Sat(re, ANY.(allOf := branches), Obj(map["p" := Null]))
  {
    var a, b := TEXT, TEXT.(kw := TEXT.kw.(nullable := true));
    StuckStages(a, b);
    StuckMeans(re, a, b, Null);
    NullMeans(re, a);
    NullMeans(re, MergeNode(a, b));
    NullMeans(re, WriteBack(b, a, MergeNode(a, b)));
    WrittenShape(b, a, MergeNode(a, b));
    MergedShape(a, b);
    hide Sat, Collapse, CollapseConflicts, WriteBack;
  }

  /** The first branch's property, closed, gains a field the second's declares. */
  lemma {:induction false} KeptOpensClosed(re: Regex)
    ensures
      var closed := ANY.(additional := Allowed(false));
      var branches := [With("p", closed), Stuck("p", With("q", ANY))];
      var v := Obj(map["p" := Obj(map["q" := Int(1)])]);
      && CollapseConflicts(ANY, branches) && Sat(re, Collapse(ANY, branches), v) && !Sat(re, ANY.(allOf := branches), v)
  {
    var a, b, v := ANY.(additional := Allowed(false)), With("q", ANY), Obj(map["q" := Int(1)]);
    hide Sat, Collapse, CollapseConflicts, WriteBack, MergeNode;
    StuckStages(a, b);
    StuckMeans(re, a, b, v);
    ClosedGains(map[], b.properties);
    AnythingGoes(re, Int(1));
    TheirsTells(re, a, b, a.(properties := map[] + b.properties), "q", Int(1));
  }

  /** The first branch's property takes `items` without the tuple it comes after: a value both branches accept is refused. */
  lemma {:induction false} KeptMovesItems(re: Regex)
    ensures
      var tuple := ANY.(prefixItems := [TEXT], items := Some(Typed(TInteger)));
      var branches := [With("p", ANY), Stuck("p", tuple)];
      var v := Obj(map["p" := Arr([Str("a")])]);
      && CollapseConflicts(ANY, branches) && Sat(re, ANY.(allOf := branches), v) && !Sat(re, Collapse(ANY, branches), v)
  {
    var tuple, v := ANY.(prefixItems := [TEXT], items := Some(Typed(TInteger))), Arr([Str("a")]);
    hide Sat, Collapse, CollapseConflicts, WriteBack, MergeNode;
    StuckStages(ANY, tuple);
    StuckMeans(re, ANY, tuple, v);
    ItemsMoved([TEXT], Typed(TInteger));
    AnythingGoes(re, v);
    TextOnly(re);
    MisplacedTells(re, tuple, ANY.(items := Some(Typed(TInteger))), [], Str("a"));
    assert [] + [Str("a")] == [Str("a")];
  }

  lemma {:induction false} TextOnly(re: Regex)
    ensures Sat(re, TEXT, Str("a")) && !Sat(re, Typed(TInteger), Str("a"))
  {
    hide Sat;
    SatMeans(re, TEXT, Str("a"));
    SatMeans(re, Typed(TInteger), Str("a"));
    assert AllSat(re, TEXT.allOf, Str("a")) && InPlaceSat(re, TEXT, Str("a"));
  }

  // ------------------------------------------------------------------ closed objects and tuples, exactly

  /** Of an object with the one field `v`, the kept composition of two branches that share that field states what was
      written. */
  ghost predicate KeptRight(re: Regex, a: Schema, b: Schema, v: Value) {
    var branches := [With("p", a), Stuck("p", b)];
    Sat(re, Collapse(ANY, branches), Obj(map["p" := v])) <==> Sat(re, ANY.(allOf := branches), Obj(map["p" := v]))
  }

  lemma {:induction false} RightMeans(re: Regex, a: Schema, b: Schema, v: Value)
    requires !TypesDisagree(a.kw.typ, b.kw.typ)
    ensures KeptRight(re, a, b, v) <==>
      (Sat(re, MergeNode(a, b), v) && Sat(re, WriteBack(b, a, MergeNode(a, b)), v) <==> Sat(re, a, v) && Sat(re, b, v))
  {
    hide Sat, MergeNode, WriteBack, Collapse;
    StuckMeans(re, a, b, v);
  }

  lemma {:induction false} FieldsOnly(re: Regex, s: Schema, v: Value)
    requires s == ANY.(additional := s.additional, properties := s.properties) && !s.additional.Described?
    ensures Sat(re, s, v) <==>
      !v.Null? && (v.Obj? ==> (s.additional == Allowed(false) ==> v.fields.Keys <= s.properties.Keys) && FieldsSat(re, s, v.fields))
  {
    hide Sat;
    SatMeans(re, s, v);
    assert AllSat(re, s.allOf, v);
    if v.Arr? { assert PrefixSat(re, s, v.elems) && ItemsSat(re, s, v.elems) && ContainsSat(re, s, v.elems); }
    if v.Obj? {
      assert GuardsSat(re, s, v.fields);
      forall k ensures Covered(re, s, k) <==> k in s.properties {}
    }
    if !v.Null? { assert InPlaceSat(re, s, v) && KeywordsSat(re, s.kw, v); }
  }

  lemma {:induction false} ClosedGains(ours: map<string, Schema>, theirs: map<string, Schema>)
    requires ours.Keys !! theirs.Keys
    ensures
      var a, b := ANY.(additional := Allowed(false), properties := ours), ANY.(properties := theirs);
      MergeNode(a, b) == a.(properties := ours + theirs) && WriteBack(b, a, MergeNode(a, b)) == b
  {
    var a, b := ANY.(additional := Allowed(false), properties := ours), ANY.(properties := theirs);
    var m := MergeNode(a, b);
    NothingAdded();
    MergedShape(a, b);
    forall x | x in ours.Keys + theirs.Keys ensures EqualAt(m.properties, ours + theirs, x) { MergedAt(a, b, x); }
    SameMaps(m.properties, ours + theirs, ours.Keys + theirs.Keys);
    WrittenShape(b, a, m);
    forall x | x in theirs ensures EqualAt(WriteBack(b, a, m).properties, theirs, x) { WrittenAt(b, a, m, x); }
    SameMaps(WriteBack(b, a, m).properties, theirs, theirs.Keys);
    hide MergeNode, WriteBack;
  }

  lemma {:induction false} ClosedAt(re: Regex, ours: map<string, Schema>, theirs: map<string, Schema>, v: Value)
    requires ours.Keys !! theirs.Keys
    ensures
      var a, b := ANY.(additional := Allowed(false), properties := ours), ANY.(properties := theirs);
      KeptRight(re, a, b, v) <==> (Sat(re, a.(properties := ours + theirs), v) && Sat(re, b, v) <==> Sat(re, a, v) && Sat(re, b, v))
  {
    hide KeptRight, MergeNode, WriteBack, Sat;
    RightMeans(re, ANY.(additional := Allowed(false), properties := ours), ANY.(properties := theirs), v);
    ClosedGains(ours, theirs);
  }

  lemma {:induction false} TheirsTells(re: Regex, a: Schema, b: Schema, m: Schema, q: string, u: Value)
    requires a == ANY.(additional := Allowed(false), properties := a.properties) && b == ANY.(properties := b.properties)
    requires a.properties.Keys !! b.properties.Keys && m == a.(properties := a.properties + b.properties)
    requires q in b.properties && Sat(re, b.properties[q], u)
    ensures Sat(re, m, Obj(map[q := u])) && Sat(re, b, Obj(map[q := u])) && !Sat(re, a, Obj(map[q := u]))
  {
    hide Sat;
    var fields := map[q := u];
    FieldsOnly(re, m, Obj(fields));
    FieldsOnly(re, b, Obj(fields));
    FieldsOnly(re, a, Obj(fields));
    assert q in fields.Keys;
    assert FieldsSat(re, m, fields) && FieldsSat(re, b, fields);
  }

  lemma {:induction false} ClosedSame(re: Regex, a: Schema, b: Schema, m: Schema, v: Value)
    requires a == ANY.(additional := Allowed(false), properties := a.properties) && b == ANY.(properties := b.properties)
    requires a.properties.Keys !! b.properties.Keys && m == a.(properties := a.properties + b.properties)
    requires forall q, u :: q in b.properties ==> !Sat(re, b.properties[q], u)
    ensures Sat(re, m, v) && Sat(re, b, v) <==> Sat(re, a, v) && Sat(re, b, v)
  {
    hide Sat, FieldsSat;
    FieldsOnly(re, m, v);
    FieldsOnly(re, b, v);
    FieldsOnly(re, a, v);
    if v.Obj? && FieldsSat(re, b, v.fields) { NoneOfTheirs(re, a, b, m, v.fields); }
  }

  /** A closed object merged with fields it does not declare: what is kept is right if and only if no value is acceptable
      for any of those fields. */
  lemma {:induction false} KeptClosedExactly(re: Regex, ours: map<string, Schema>, theirs: map<string, Schema>)
    requires ours.Keys !! theirs.Keys
    ensures (forall v :: KeptRight(re, ANY.(additional := Allowed(false), properties := ours), ANY.(properties := theirs), v)) <==>
      forall q, u :: q in theirs ==> !Sat(re, theirs[q], u)
  {
    hide KeptRight, MergeNode, WriteBack, Sat;
    var a, b := ANY.(additional := Allowed(false), properties := ours), ANY.(properties := theirs);
    var m := a.(properties := ours + theirs);
    if q, u :| q in theirs && Sat(re, theirs[q], u) {
      TheirsTells(re, a, b, m, q, u);
      ClosedAt(re, ours, theirs, Obj(map[q := u]));
    } else {
      forall v ensures KeptRight(re, a, b, v) {
        ClosedSame(re, a, b, m, v);
        ClosedAt(re, ours, theirs, v);
      }
    }
  }

  lemma {:induction false} NoneOfTheirs(re: Regex, a: Schema, b: Schema, m: Schema, fields: map<string, Value>)
    requires a.properties.Keys !! b.properties.Keys && m.properties == a.properties + b.properties
    requires FieldsSat(re, b, fields) && forall q, u :: q in b.properties ==> !Sat(re, b.properties[q], u)
    ensures fields.Keys <= m.properties.Keys <==> fields.Keys <= a.properties.Keys
    ensures FieldsSat(re, m, fields) <==> FieldsSat(re, a, fields)
  {
    hide Sat;
    forall q | q in b.properties ensures q !in fields {}
    if fields.Keys <= m.properties.Keys {
      forall k | k in fields ensures k in a.properties { assert k in m.properties; }
    }
    if FieldsSat(re, m, fields) {
      forall k | k in a.properties && k in fields ensures Sat(re, a.properties[k], fields[k]) { assert m.properties[k] == a.properties[k]; }
    }
    if FieldsSat(re, a, fields) {
      forall k | k in m.properties && k in fields ensures Sat(re, m.properties[k], fields[k]) { assert m.properties[k] == a.properties[k]; }
    }
  }

  lemma {:induction false} ElementsOnly(re: Regex, s: Schema, v: Value)
    requires s == ANY.(prefixItems := s.prefixItems, items := s.items)
    ensures Sat(re, s, v) <==> !v.Null? && (v.Arr? ==> PrefixSat(re, s, v.elems) && ItemsSat(re, s, v.elems))
  {
    hide Sat;
    SatMeans(re, s, v);
    assert AllSat(re, s.allOf, v);
    if v.Arr? { assert ContainsSat(re, s, v.elems); }
    if v.Obj? {
      assert FieldsSat(re, s, v.fields) && ExtrasSat(re, s, v.fields) && GuardsSat(re, s, v.fields);
    }
    if !v.Null? { assert InPlaceSat(re, s, v) && KeywordsSat(re, s.kw, v); }
  }

  ghost predicate Reaches(re: Regex, tuple: seq<Schema>, i: nat)
    requires i <= |tuple|
  {
    forall j :: 0 <= j < i ==> Satisfiable(re, tuple[j])
  }

  ghost predicate Satisfiable(re: Regex, s: Schema) { exists w :: Sat(re, s, w) }

  lemma {:induction false} FilledTuple(re: Regex, tuple: seq<Schema>, i: nat) returns (elems: seq<Value>)
    requires i <= |tuple| && Reaches(re, tuple, i)
    ensures |elems| == i && forall j :: 0 <= j < i ==> Sat(re, tuple[j], elems[j])
  {
    hide Sat;
    elems := [];
    for k := 0 to i
      invariant |elems| == k && forall j :: 0 <= j < k ==> Sat(re, tuple[j], elems[j])
    {
      assert Satisfiable(re, tuple[k]);
      var w :| Sat(re, tuple[k], w);
      elems := elems + [w];
    }
  }

  /** A tuple position reached by some array, and a value acceptable there that `items` refuses. */
  ghost predicate Misplaced(re: Regex, tuple: seq<Schema>, items: Schema, i: nat, u: Value) {
    i < |tuple| && Reaches(re, tuple, i) && Sat(re, tuple[i], u) && !Sat(re, items, u)
  }

  lemma {:induction false} ItemsMoved(tuple: seq<Schema>, items: Schema)
    ensures
      var b := ANY.(prefixItems := tuple, items := Some(items));
      MergeNode(ANY, b) == ANY.(items := Some(items)) && WriteBack(b, ANY, MergeNode(ANY, b)) == b
  {
    var b := ANY.(prefixItems := tuple, items := Some(items));
    NothingAdded();
    MergedShape(ANY, b);
    WrittenShape(b, ANY, MergeNode(ANY, b));
    assert MergeNode(ANY, b).properties == map[];
    hide MergeNode, WriteBack;
    assert WriteBack(b, ANY, MergeNode(ANY, b)).properties == map[];
  }

  lemma {:induction false} ItemsAt(re: Regex, tuple: seq<Schema>, items: Schema, v: Value)
    ensures
      var b, m := ANY.(prefixItems := tuple, items := Some(items)), ANY.(items := Some(items));
      KeptRight(re, ANY, b, v) <==> (Sat(re, m, v) && Sat(re, b, v) <==> Sat(re, ANY, v) && Sat(re, b, v))
  {
    hide KeptRight, MergeNode, WriteBack, Sat;
    RightMeans(re, ANY, ANY.(prefixItems := tuple, items := Some(items)), v);
    ItemsMoved(tuple, items);
  }

  lemma {:induction false} ItemsSame(re: Regex, b: Schema, m: Schema, v: Value)
    requires b == ANY.(prefixItems := b.prefixItems, items := b.items) && m == ANY.(items := b.items) && b.items.Some?
    requires forall i: nat, u :: !Misplaced(re, b.prefixItems, b.items.value, i, u)
    ensures Sat(re, m, v) && Sat(re, b, v) <==> Sat(re, ANY, v) && Sat(re, b, v)
  {
    hide Sat, PrefixSat, ItemsSat, Misplaced;
    ElementsOnly(re, m, v);
    ElementsOnly(re, b, v);
    if !v.Null? { AnythingGoes(re, v); }
    if v.Arr? && PrefixSat(re, b, v.elems) && ItemsSat(re, b, v.elems) { AllItems(re, b, m, v.elems); }
  }

  /** `items` moved off the tuple it comes after: what is kept is right if and only if, at every position of the tuple an
      array can reach, all that is acceptable there is acceptable as an item. */
  lemma {:induction false} KeptItemsExactly(re: Regex, tuple: seq<Schema>, items: Schema)
    ensures (forall v :: KeptRight(re, ANY, ANY.(prefixItems := tuple, items := Some(items)), v)) <==>
      forall i: nat, u :: !Misplaced(re, tuple, items, i, u)
  {
    hide KeptRight, Sat, Reaches;
    var b, m := ANY.(prefixItems := tuple, items := Some(items)), ANY.(items := Some(items));
    if i: nat, u :| Misplaced(re, tuple, items, i, u) {
      var elems := FilledTuple(re, tuple, i);
      MisplacedTells(re, b, m, elems, u);
      AnythingGoes(re, Arr(elems + [u]));
      ItemsAt(re, tuple, items, Arr(elems + [u]));
    } else {
      hide Misplaced;
      forall v ensures KeptRight(re, ANY, b, v) {
        ItemsSame(re, b, m, v);
        ItemsAt(re, tuple, items, v);
      }
    }
  }

  lemma {:induction false} MisplacedTells(re: Regex, b: Schema, m: Schema, elems: seq<Value>, u: Value)
    requires b == ANY.(prefixItems := b.prefixItems, items := b.items) && m == ANY.(items := b.items) && b.items.Some?
    requires |elems| < |b.prefixItems| && forall j :: 0 <= j < |elems| ==> Sat(re, b.prefixItems[j], elems[j])
    requires Sat(re, b.prefixItems[|elems|], u) && !Sat(re, b.items.value, u)
    ensures Sat(re, b, Arr(elems + [u])) && !Sat(re, m, Arr(elems + [u]))
  {
    hide Sat;
    ElementsOnly(re, b, Arr(elems + [u]));
    ElementsOnly(re, m, Arr(elems + [u]));
    assert (elems + [u])[|elems|] == u;
  }

  lemma {:induction false} AllItems(re: Regex, b: Schema, m: Schema, elems: seq<Value>)
    requires b.items.Some? && m == ANY.(items := b.items) && PrefixSat(re, b, elems) && ItemsSat(re, b, elems)
    requires forall i: nat, u :: !Misplaced(re, b.prefixItems, b.items.value, i, u)
    ensures PrefixSat(re, m, elems) && ItemsSat(re, m, elems)
  {
    hide Sat;
    var tuple := b.prefixItems;
    forall i | 0 <= i < |elems| ensures Sat(re, m.items.value, elems[i]) {
      if i < |tuple| {
        forall j | 0 <= j < i ensures Satisfiable(re, tuple[j]) { assert Sat(re, tuple[j], elems[j]); }
        assert Reaches(re, tuple, i);
        assert !Misplaced(re, tuple, b.items.value, i, elems[i]);
      }
    }
  }

  // ------------------------------------------------------------------ null, exactly

  predicate Has(branches: seq<Schema>, j: nat, x: string)
  {
    j < |branches| && x in branches[j].properties
  }

  /** The branch that gives the target its property `x`: it is merged, has `x`, and finds none. */
  predicate Gives(h: Schema, branches: seq<Schema>, i: nat, x: string) {
    Has(branches, i, x) && x !in Stage(h, branches, i).properties && !TypesDisagree(Stage(h, branches, i).kw.typ, branches[i].kw.typ)
  }

  /** The branch's `x` is merged into the one the target has. */
  predicate MergesAt(h: Schema, branches: seq<Schema>, j: nat, x: string) {
    && Has(branches, j, x) && x in Stage(h, branches, j).properties
    && !TypesDisagree(Stage(h, branches, j).kw.typ, branches[j].kw.typ)
    && !TypesDisagree(Stage(h, branches, j).properties[x].kw.typ, branches[j].properties[x].kw.typ)
  }

  ghost predicate AllowNull(re: Regex, branches: seq<Schema>, x: string) {
    forall j: nat :: Has(branches, j, x) ==> Sat(re, branches[j].properties[x], Null)
  }

  lemma {:induction false} StageHas(h: Schema, branches: seq<Schema>, i: nat, k: nat, x: string)
    requires i <= k <= |branches| && x in Stage(h, branches, i).properties
    ensures x in Stage(h, branches, k).properties
    decreases k
  {
    hide MergeNode;
    if i < k {
      StageHas(h, branches, i, k - 1, x);
      var t, b := Stage(h, branches, k - 1), branches[k - 1];
      if TypesDisagree(t.kw.typ, b.kw.typ) { Refused(t, b); } else { MergedShape(t, b); }
    }
  }

  predicate MergedNullable(h: Schema, branches: seq<Schema>, i: nat, k: nat, x: string) {
    exists j: nat :: i <= j < k && MergesAt(h, branches, j, x) && branches[j].properties[x].kw.nullable
  }

  /** The target's property is nullable once one of those merged into it is. */
  lemma {:induction false} StageNullableAt(h: Schema, branches: seq<Schema>, i: nat, k: nat, x: string)
    requires i <= k <= |branches| && x in Stage(h, branches, i).properties
    ensures x in Stage(h, branches, k).properties
    ensures Stage(h, branches, k).properties[x].allOf == Stage(h, branches, i).properties[x].allOf
    ensures Stage(h, branches, k).properties[x].kw.nullable <==>
      Stage(h, branches, i).properties[x].kw.nullable || MergedNullable(h, branches, i, k, x)
    decreases k
  {
    hide MergeNode;
    if i < k {
      StageNullableAt(h, branches, i, k - 1, x);
      var t, b := Stage(h, branches, k - 1), branches[k - 1];
      assert Stage(h, branches, k) == MergeNode(t, b);
      if TypesDisagree(t.kw.typ, b.kw.typ) {
        Refused(t, b);
        assert !MergesAt(h, branches, k - 1, x);
      } else {
        MergedAt(t, b, x);
        if x in b.properties {
          if TypesDisagree(t.properties[x].kw.typ, b.properties[x].kw.typ) {
            Refused(t.properties[x], b.properties[x]);
            assert !MergesAt(h, branches, k - 1, x);
          } else {
            MergedNull(t.properties[x], b.properties[x]);
            assert MergesAt(h, branches, k - 1, x);
          }
        } else {
          assert !MergesAt(h, branches, k - 1, x);
        }
      }
      hide MergesAt, Stage;
      NullableStep(h, branches, i, k, x);
    } else {
      assert !MergedNullable(h, branches, i, k, x);
    }
  }

  lemma {:induction false} MergedNull(t: Schema, b: Schema)
    requires !TypesDisagree(t.kw.typ, b.kw.typ)
    ensures MergeNode(t, b).kw.nullable == (t.kw.nullable || b.kw.nullable) && MergeNode(t, b).allOf == t.allOf
  {
    MergedShape(t, b);
    hide MergeNode;
  }

  lemma {:induction false} NullableStep(h: Schema, branches: seq<Schema>, i: nat, k: nat, x: string)
    requires i < k <= |branches|
    ensures MergedNullable(h, branches, i, k, x) <==>
      MergedNullable(h, branches, i, k - 1, x) || (MergesAt(h, branches, k - 1, x) && branches[k - 1].properties[x].kw.nullable)
  {
    hide Stage;
    if MergedNullable(h, branches, i, k, x) {
      var j: nat :| i <= j < k && MergesAt(h, branches, j, x) && branches[j].properties[x].kw.nullable;
      hide MergesAt;
      assert j < k - 1 ==> MergedNullable(h, branches, i, k - 1, x);
    }
    if MergesAt(h, branches, k - 1, x) && branches[k - 1].properties[x].kw.nullable {
      hide MergesAt;
      assert MergedNullable(h, branches, i, k, x);
    }
  }

  lemma {:induction false} GivenOnce(h: Schema, branches: seq<Schema>, i: nat, x: string)
    requires Gives(h, branches, i, x)
    ensures x in Stage(h, branches, i + 1).properties && Stage(h, branches, i + 1).properties[x] == branches[i].properties[x]
  {
    hide MergeNode;
    MergedAt(Stage(h, branches, i), branches[i], x);
  }

  /** Only the giving branch shares its property with the target; the others keep their own. */
  lemma {:induction false} WrittenNull(h: Schema, branches: seq<Schema>, i: nat, j: nat, x: string)
    requires Gives(h, branches, i, x) && Has(branches, j, x)
    ensures
      var w := WriteBack(branches[j], Stage(h, branches, j), Stage(h, branches, |branches|));
      && x in w.properties && x in Stage(h, branches, |branches|).properties
      && (j == i ==> w.properties[x] == Stage(h, branches, |branches|).properties[x])
      && (j != i ==> w.properties[x].kw == branches[j].properties[x].kw && w.properties[x].allOf == branches[j].properties[x].allOf)
  {
    var n := |branches|;
    var t, b, m := Stage(h, branches, j), branches[j], Stage(h, branches, n);
    GivenOnce(h, branches, i, x);
    StageHas(h, branches, i + 1, n, x);
    WrittenAt(b, t, m, x);
    if j > i { StageHas(h, branches, i + 1, j, x); }
    if j < i && !TypesDisagree(t.kw.typ, b.kw.typ) && x !in t.properties {
      GivenOnce(h, branches, j, x);
      StageHas(h, branches, j + 1, i, x);
    }
    hide Stage, WriteBack;
    if x in t.properties { WrittenShape(b.properties[x], t.properties[x], m.properties[x]); }
  }

  lemma {:induction false} NullOf(re: Regex, s: Schema)
    requires s.allOf == []
    ensures Sat(re, s, Null) <==> s.kw.nullable
  {
    NullMeans(re, s);
  }

  ghost predicate OthersNullable(branches: seq<Schema>, i: nat, x: string) {
    forall j: nat :: Has(branches, j, x) && j != i ==> branches[j].properties[x].kw.nullable
  }

  predicate AnyMerged(h: Schema, branches: seq<Schema>, i: nat, x: string) {
    exists j: nat :: i < j < |branches| && MergesAt(h, branches, j, x)
  }

  lemma {:induction false} NullBefore(re: Regex, branches: seq<Schema>, i: nat, x: string)
    requires Has(branches, i, x) && forall j: nat :: Has(branches, j, x) ==> branches[j].properties[x].allOf == []
    ensures AllowNull(re, branches, x) <==> branches[i].properties[x].kw.nullable && OthersNullable(branches, i, x)
  {
    forall j: nat | Has(branches, j, x)
      ensures Sat(re, branches[j].properties[x], Null) == branches[j].properties[x].kw.nullable
    {
      NullOf(re, branches[j].properties[x]);
    }
    hide Sat;
  }

  lemma {:induction false} KeptNull(re: Regex, h: Schema, branches: seq<Schema>, i: nat, j: nat, x: string)
    requires Gives(h, branches, i, x) && Has(branches, j, x) && forall k: nat :: Has(branches, k, x) ==> branches[k].properties[x].allOf == []
    ensures Has(WriteBacks(h, branches), j, x)
    ensures Sat(re, WriteBacks(h, branches)[j].properties[x], Null) ==
      if j == i then branches[i].properties[x].kw.nullable || MergedNullable(h, branches, i + 1, |branches|, x)
      else branches[j].properties[x].kw.nullable
  {
    hide Sat, WriteBack, Stage, MergedNullable;
    GivesHas(h, branches, i, x);
    WrittenNull(h, branches, i, j, x);
    GivenOnce(h, branches, i, x);
    StageNullableAt(h, branches, i + 1, |branches|, x);
    NullOf(re, WriteBacks(h, branches)[j].properties[x]);
  }

  lemma {:induction false} KeptHas(h: Schema, branches: seq<Schema>, j: nat, x: string)
    ensures Has(WriteBacks(h, branches), j, x) == Has(branches, j, x)
  {
    if j < |branches| { WrittenShape(branches[j], Stage(h, branches, j), Stage(h, branches, |branches|)); }
    hide WriteBack, Stage;
  }

  lemma {:induction false} NullAfter(re: Regex, h: Schema, branches: seq<Schema>, i: nat, x: string)
    requires Gives(h, branches, i, x) && forall j: nat :: Has(branches, j, x) ==> branches[j].properties[x].allOf == []
    ensures AllowNull(re, WriteBacks(h, branches), x) <==>
      (branches[i].properties[x].kw.nullable || MergedNullable(h, branches, i + 1, |branches|, x)) && OthersNullable(branches, i, x)
  {
    hide Sat, WriteBack, Stage, MergedNullable, Gives;
    GivesHas(h, branches, i, x);
    forall j: nat
      ensures Has(WriteBacks(h, branches), j, x) == Has(branches, j, x)
      ensures Has(branches, j, x) ==>
        (Sat(re, WriteBacks(h, branches)[j].properties[x], Null) <==>
          if j == i then branches[i].properties[x].kw.nullable || MergedNullable(h, branches, i + 1, |branches|, x)
          else branches[j].properties[x].kw.nullable)
    {
      KeptHas(h, branches, j, x);
      if Has(branches, j, x) { KeptNull(re, h, branches, i, j, x); }
    }
  }

  lemma {:induction false} GivesHas(h: Schema, branches: seq<Schema>, i: nat, x: string)
    requires Gives(h, branches, i, x)
    ensures Has(branches, i, x)
  {
    hide Stage;
  }

  lemma {:induction false} MergedAmongNullable(h: Schema, branches: seq<Schema>, i: nat, x: string)
    requires OthersNullable(branches, i, x)
    ensures MergedNullable(h, branches, i + 1, |branches|, x) <==> AnyMerged(h, branches, i, x)
  {
    hide MergesAt;
    if AnyMerged(h, branches, i, x) {
      var j: nat :| i < j < |branches| && MergesAt(h, branches, j, x);
      MergesHas(h, branches, j, x);
    }
  }

  /** Of a field one of the branches gave to the target: the kept branches are right about `null` except when the giver
      alone refuses it and another branch's field was merged into the one it gave away. */
  lemma {:induction false} KeptNullExactly(re: Regex, h: Schema, branches: seq<Schema>, i: nat, x: string)
    requires Gives(h, branches, i, x) && forall j: nat :: Has(branches, j, x) ==> branches[j].properties[x].allOf == []
    ensures (AllowNull(re, WriteBacks(h, branches), x) <==> AllowNull(re, branches, x)) <==>
      !(!branches[i].properties[x].kw.nullable && OthersNullable(branches, i, x) && AnyMerged(h, branches, i, x))
  {
    GivesHas(h, branches, i, x);
    NullBefore(re, branches, i, x);
    NullAfter(re, h, branches, i, x);
    hide AllowNull, WriteBacks, OthersNullable, AnyMerged, MergedNullable, Gives;
    if OthersNullable(branches, i, x) { MergedAmongNullable(h, branches, i, x); }
  }

  lemma {:induction false} MergesHas(h: Schema, branches: seq<Schema>, j: nat, x: string)
    requires MergesAt(h, branches, j, x)
    ensures Has(branches, j, x)
  {
    hide Stage;
  }

  /** Of a field the host has itself, they always are: the target merges its own copy. */
  lemma {:induction false} HostNullSame(re: Regex, h: Schema, branches: seq<Schema>, x: string)
    requires x in h.properties && forall j: nat :: Has(branches, j, x) ==> branches[j].properties[x].allOf == []
    ensures AllowNull(re, WriteBacks(h, branches), x) <==> AllowNull(re, branches, x)
  {
    var n := |branches|;
    var ws := WriteBacks(h, branches);
    forall j: nat
      ensures Has(ws, j, x) == Has(branches, j, x)
      ensures Has(branches, j, x) ==> Sat(re, ws[j].properties[x], Null) == Sat(re, branches[j].properties[x], Null)
    {
      if j < n {
        var t, b, m := Stage(h, branches, j), branches[j], Stage(h, branches, n);
        WrittenShape(b, t, m);
        if x in b.properties {
          StageHas(h, branches, 0, j, x);
          StageHas(h, branches, 0, n, x);
          WrittenAt(b, t, m, x);
          WrittenShape(b.properties[x], t.properties[x], m.properties[x]);
          assert Has(branches, j, x);
          hide Sat, WriteBack, Stage;
          NullOf(re, b.properties[x]);
          NullOf(re, WriteBack(b, t, m).properties[x]);
        }
      }
    }
    hide Sat, WriteBack, Stage, WriteBacks, Has;
  }
}
