/** What a composition without clashes collapses to, place by place and keyword by keyword, said of the host and the branches
    alone. */
module Collapsed {
  import opened Model
  import opened Ordering
  import opened Validation
  import opened Canonical
  import opened Clashes

  // ------------------------------------------------------------------ what several parts say together

  /** The first that is stated. */
  ghost predicate FirstStated<T(!new)>(o: Option<T>, stated: seq<Option<T>>) {
    if o.None? then forall i :: 0 <= i < |stated| ==> stated[i].None?
    else exists i :: 0 <= i < |stated| && stated[i] == o && forall j :: 0 <= j < i ==> stated[j].None?
  }

  /** The largest that is stated, or the smallest. */
  ghost predicate Tightest(o: Option<real>, stated: seq<Option<real>>, largest: bool) {
    if o.None? then forall i :: 0 <= i < |stated| ==> stated[i].None?
    else o in stated && forall i :: 0 <= i < |stated| && stated[i].Some? ==> if largest then stated[i].value <= o.value else o.value <= stated[i].value
  }

  function Stated(v: Value): Option<Value> { if v == Null then None else Some(v) }

  function Real(o: Option<int>): Option<real> { if o.None? then None else Some(o.value as real) }

  function Each<T>(f: Schema -> T, parts: seq<Schema>): (r: seq<T>)
    ensures |r| == |parts| && forall i :: 0 <= i < |r| ==> r[i] == f(parts[i])
  {
    seq(|parts|, i requires 0 <= i < |parts| => f(parts[i]))
  }

  ghost predicate SameLimits(m: Schema, parts: seq<Schema>) {
    var b := m.kw.bounds;
    && Tightest(b.minimum, Each((s: Schema) => s.kw.bounds.minimum, parts), true)
    && Tightest(b.exclusiveMinimum, Each((s: Schema) => s.kw.bounds.exclusiveMinimum, parts), true)
    && Tightest(b.maximum, Each((s: Schema) => s.kw.bounds.maximum, parts), false)
    && Tightest(b.exclusiveMaximum, Each((s: Schema) => s.kw.bounds.exclusiveMaximum, parts), false)
    && Tightest(Real(b.minLength), Each((s: Schema) => Real(s.kw.bounds.minLength), parts), true)
    && Tightest(Real(b.minItems), Each((s: Schema) => Real(s.kw.bounds.minItems), parts), true)
    && Tightest(Real(b.minProperties), Each((s: Schema) => Real(s.kw.bounds.minProperties), parts), true)
    && Tightest(Real(b.maxLength), Each((s: Schema) => Real(s.kw.bounds.maxLength), parts), false)
    && Tightest(Real(b.maxItems), Each((s: Schema) => Real(s.kw.bounds.maxItems), parts), false)
    && Tightest(Real(b.maxProperties), Each((s: Schema) => Real(s.kw.bounds.maxProperties), parts), false)
  }

  ghost predicate SameStated(m: Schema, parts: seq<Schema>) {
    && FirstStated(m.kw.typ, Each((s: Schema) => s.kw.typ, parts))
    && FirstStated(m.kw.format, Each((s: Schema) => s.kw.format, parts))
    && FirstStated(m.kw.pattern, Each((s: Schema) => s.kw.pattern, parts))
    && FirstStated(Stated(m.kw.constant), Each((s: Schema) => Stated(s.kw.constant), parts))
    && FirstStated(Stated(m.kw.default), Each((s: Schema) => Stated(s.kw.default), parts))
    && FirstStated(Stated(m.kw.example), Each((s: Schema) => Stated(s.kw.example), parts))
    && FirstStated(m.items, Each((s: Schema) => s.items, parts))
  }

  ghost predicate AllHave(v: Value, enums: seq<Option<seq<Value>>>, from: nat) {
    forall i :: from <= i < |enums| && enums[i].Some? ==> Member(v, enums[i].value)
  }

  /** The values of the first enum that is stated that are equal to a member of every later one. */
  ghost predicate Shared(values: seq<Value>, enums: seq<Option<seq<Value>>>, k: nat) {
    && k < |enums| && enums[k].Some? && (forall j :: 0 <= j < k ==> enums[j].None?)
    && forall v :: v in values <==> v in enums[k].value && AllHave(v, enums, k + 1)
  }

  ghost predicate Meets(o: Option<seq<Value>>, enums: seq<Option<seq<Value>>>) {
    if o.None? then forall i :: 0 <= i < |enums| ==> enums[i].None? else exists k: nat :: Shared(o.value, enums, k)
  }

  ghost predicate SameEnum(m: Schema, parts: seq<Schema>) {
    Meets(m.kw.enum, Each((s: Schema) => s.kw.enum, parts))
  }

  /** What no merge looks at is that of the first part. */
  predicate SameRest(m: Schema, first: Schema) {
    && m.kw.multipleOf == first.kw.multipleOf && m.kw.uniqueItems == first.kw.uniqueItems
    && m.kw.minContains == first.kw.minContains && m.kw.maxContains == first.kw.maxContains
    && m.kw.dependentRequired == first.kw.dependentRequired && m.kw.discriminator == first.kw.discriminator && m.kw.proto == first.kw.proto
    && m.additional == first.additional && m.prefixItems == first.prefixItems && m.contains == first.contains
    && m.patternProperties == first.patternProperties && m.propertyNames == first.propertyNames
    && m.dependentSchemas == first.dependentSchemas && m.ifSchema == first.ifSchema && m.thenSchema == first.thenSchema
    && m.elseSchema == first.elseSchema && m.oneOf == first.oneOf && m.anyOf == first.anyOf && m.allOf == first.allOf && m.not_ == first.not_
  }

  /** The node says what the parts say together. */
  ghost predicate SaysAll(m: Schema, parts: seq<Schema>) {
    && parts != [] && SameStated(m, parts) && SameLimits(m, parts) && SameEnum(m, parts) && SameRest(m, parts[0])
    && (forall x :: x in m.kw.required <==> exists i :: 0 <= i < |parts| && x in parts[i].kw.required)
    && (m.kw.nullable <==> exists i :: 0 <= i < |parts| && parts[i].kw.nullable)
  }

  // ------------------------------------------------------------------ one part more

  lemma {:induction false} FirstOne<T(!new)>(o: Option<T>, stated: seq<Option<T>>)
    requires stated == [o]
    ensures FirstStated(o, stated)
  {
    if o.Some? { assert stated[0] == o; }
  }

  lemma {:induction false} FirstNext<T(!new)>(o: Option<T>, stated: seq<Option<T>>, theirs: Option<T>, longer: seq<Option<T>>)
    requires FirstStated(o, stated) && longer == stated + [theirs]
    ensures FirstStated(First(o, theirs), longer)
  {
    if o.Some? {
      var i :| 0 <= i < |stated| && stated[i] == o && forall j :: 0 <= j < i ==> stated[j].None?;
      assert longer[i] == o;
    } else if theirs.Some? {
      assert longer[|stated|] == theirs;
    }
  }

  lemma {:induction false} TightNext(o: Option<real>, stated: seq<Option<real>>, theirs: Option<real>, longer: seq<Option<real>>, largest: bool)
    requires Tightest(o, stated, largest) && longer == stated + [theirs]
    ensures Tightest(if largest then LargerReal(o, theirs) else SmallerReal(o, theirs), longer, largest)
  {
    var r := if largest then LargerReal(o, theirs) else SmallerReal(o, theirs);
    if r.Some? {
      assert longer[|stated|] == theirs;
      if r != theirs { var i :| 0 <= i < |stated| && stated[i] == r; assert longer[i] == r; }
    }
  }

  lemma {:induction false} EachNext<T>(f: Schema -> T, parts: seq<Schema>, b: Schema)
    ensures Each(f, parts + [b]) == Each(f, parts) + [f(b)]
  {
  }

  lemma {:induction false} WholeBounds(ours: Option<int>, theirs: Option<int>)
    ensures Real(LargerInt(ours, theirs)) == LargerReal(Real(ours), Real(theirs))
    ensures Real(SmallerInt(ours, theirs)) == SmallerReal(Real(ours), Real(theirs))
  {
  }

  lemma {:induction false} LimitNext(f: Schema -> Option<real>, m: Schema, merged: Schema, parts: seq<Schema>, b: Schema, largest: bool)
    requires Tightest(f(m), Each(f, parts), largest)
    requires f(merged) == if largest then LargerReal(f(m), f(b)) else SmallerReal(f(m), f(b))
    ensures Tightest(f(merged), Each(f, parts + [b]), largest)
  {
    EachNext(f, parts, b);
    hide Each, Tightest, LargerReal, SmallerReal;
    TightNext(f(m), Each(f, parts), f(b), Each(f, parts + [b]), largest);
  }

  lemma {:induction false} LimitsNext(m: Schema, parts: seq<Schema>, b: Schema, merged: Schema)
    requires SameLimits(m, parts) && merged.kw.bounds == Tighten(m.kw.bounds, b.kw.bounds)
    ensures SameLimits(merged, parts + [b])
  {
    hide Tightest, Each, LargerReal, SmallerReal, LargerInt, SmallerInt, Real;
    var o, n := m.kw.bounds, b.kw.bounds;
    WholeBounds(o.minLength, n.minLength);
    WholeBounds(o.minItems, n.minItems);
    WholeBounds(o.minProperties, n.minProperties);
    WholeBounds(o.maxLength, n.maxLength);
    WholeBounds(o.maxItems, n.maxItems);
    WholeBounds(o.maxProperties, n.maxProperties);
    LimitNext((s: Schema) => s.kw.bounds.minimum, m, merged, parts, b, true);
    LimitNext((s: Schema) => s.kw.bounds.exclusiveMinimum, m, merged, parts, b, true);
    LimitNext((s: Schema) => s.kw.bounds.maximum, m, merged, parts, b, false);
    LimitNext((s: Schema) => s.kw.bounds.exclusiveMaximum, m, merged, parts, b, false);
    LimitNext((s: Schema) => Real(s.kw.bounds.minLength), m, merged, parts, b, true);
    LimitNext((s: Schema) => Real(s.kw.bounds.minItems), m, merged, parts, b, true);
    LimitNext((s: Schema) => Real(s.kw.bounds.minProperties), m, merged, parts, b, true);
    LimitNext((s: Schema) => Real(s.kw.bounds.maxLength), m, merged, parts, b, false);
    LimitNext((s: Schema) => Real(s.kw.bounds.maxItems), m, merged, parts, b, false);
    LimitNext((s: Schema) => Real(s.kw.bounds.maxProperties), m, merged, parts, b, false);
  }

  lemma {:induction false} PlainNext<T(!new)>(f: Schema -> Option<T>, m: Schema, merged: Schema, parts: seq<Schema>, b: Schema)
    requires FirstStated(f(m), Each(f, parts)) && f(merged) == First(f(m), f(b))
    ensures FirstStated(f(merged), Each(f, parts + [b]))
  {
    EachNext(f, parts, b);
    hide Each, FirstStated, First;
    FirstNext(f(m), Each(f, parts), f(b), Each(f, parts + [b]));
  }

  lemma {:induction false} StatedNext(m: Schema, parts: seq<Schema>, b: Schema, merged: Schema)
    requires SameStated(m, parts) && merged.kw == MergeKeywords(m.kw, b.kw) && merged.items == First(m.items, b.items)
    ensures SameStated(merged, parts + [b])
  {
    hide FirstStated, Each, Tighten, MeetEnums;
    PlainNext((s: Schema) => s.kw.typ, m, merged, parts, b);
    PlainNext((s: Schema) => s.kw.format, m, merged, parts, b);
    PlainNext((s: Schema) => s.kw.pattern, m, merged, parts, b);
    PlainNext((s: Schema) => Stated(s.kw.constant), m, merged, parts, b);
    PlainNext((s: Schema) => Stated(s.kw.default), m, merged, parts, b);
    PlainNext((s: Schema) => Stated(s.kw.example), m, merged, parts, b);
    PlainNext((s: Schema) => s.items, m, merged, parts, b);
  }

  lemma {:induction false} EnumNext(m: Schema, parts: seq<Schema>, b: Schema, merged: Schema)
    requires SameEnum(m, parts) && merged.kw.enum == MeetEnums(m.kw.enum, b.kw.enum)
    ensures SameEnum(merged, parts + [b])
  {
    hide Meets, MeetEnums, Each;
    EachNext((s: Schema) => s.kw.enum, parts, b);
    MeetsNext(m.kw.enum, Each((s: Schema) => s.kw.enum, parts), b.kw.enum);
  }

  lemma {:induction false} AllHaveNext(v: Value, enums: seq<Option<seq<Value>>>, from: nat, theirs: Option<seq<Value>>)
    requires from <= |enums|
    ensures AllHave(v, enums + [theirs], from) == (AllHave(v, enums, from) && (theirs.Some? ==> Member(v, theirs.value)))
  {
    hide Member;
    var longer := enums + [theirs];
    assert longer[|enums|] == theirs && forall i :: 0 <= i < |enums| ==> longer[i] == enums[i];
  }

  lemma {:induction false} MeetsNext(o: Option<seq<Value>>, enums: seq<Option<seq<Value>>>, theirs: Option<seq<Value>>)
    requires Meets(o, enums)
    ensures Meets(MeetEnums(o, theirs), enums + [theirs])
  {
    MeetElements(o, theirs);
    hide MeetEnums, AllHave;
    var longer := enums + [theirs];
    assert longer[|enums|] == theirs && forall i :: 0 <= i < |enums| ==> longer[i] == enums[i];
    var merged := MeetEnums(o, theirs);
    if o.Some? {
      var k: nat :| Shared(o.value, enums, k);
      forall v ensures v in merged.value <==> v in longer[k].value && AllHave(v, longer, k + 1) { AllHaveNext(v, enums, k + 1, theirs); }
      assert Shared(merged.value, longer, k);
    } else if theirs.Some? {
      forall v ensures AllHave(v, longer, |longer|) { AllHaveNone(v, longer); }
      assert Shared(merged.value, longer, |enums|);
    }
  }

  lemma {:induction false} AllHaveNone(v: Value, enums: seq<Option<seq<Value>>>)
    ensures AllHave(v, enums, |enums|)
  {
  }

  lemma {:induction false} MeetElements(ours: Option<seq<Value>>, theirs: Option<seq<Value>>)
    ensures MeetEnums(ours, theirs).None? <==> ours.None? && theirs.None?
    ensures ours.None? && theirs.Some? ==> forall v :: v in MeetEnums(ours, theirs).value <==> v in theirs.value
    ensures ours.Some? ==> forall v :: v in MeetEnums(ours, theirs).value <==> v in ours.value && (theirs.Some? ==> Member(v, theirs.value))
  {
    hide Member, StableUnique;
    if theirs.Some? {
      StableUniqueElements(theirs.value);
      if ours.Some? {
        CommonElements(ours.value, theirs.value);
        StableUniqueElements(Common(ours.value, theirs.value));
      }
    }
  }

  lemma {:induction false} OneSays(m: Schema)
    ensures SaysAll(m, [m])
  {
    hide Each, Tightest, FirstStated, SameEnum;
    OneStated(m);
    OneLimit(m);
    assert [m][0] == m;
    assert SameEnum(m, [m]) by { OneEnum(m); }
  }

  lemma {:induction false} OneEnum(m: Schema)
    ensures SameEnum(m, [m])
  {
    var enums := Each((s: Schema) => s.kw.enum, [m]);
    hide Each;
    if m.kw.enum.Some? {
      forall v ensures AllHave(v, enums, 1) { AllHaveNone(v, enums); }
      assert Shared(m.kw.enum.value, enums, 0);
    }
  }

  lemma {:induction false} OneStated(m: Schema)
    ensures SameStated(m, [m])
  {
    hide FirstStated, Stated;
    FirstOne(m.kw.typ, Each((s: Schema) => s.kw.typ, [m]));
    FirstOne(m.kw.format, Each((s: Schema) => s.kw.format, [m]));
    FirstOne(m.kw.pattern, Each((s: Schema) => s.kw.pattern, [m]));
    FirstOne(Stated(m.kw.constant), Each((s: Schema) => Stated(s.kw.constant), [m]));
    FirstOne(Stated(m.kw.default), Each((s: Schema) => Stated(s.kw.default), [m]));
    FirstOne(Stated(m.kw.example), Each((s: Schema) => Stated(s.kw.example), [m]));
    FirstOne(m.items, Each((s: Schema) => s.items, [m]));
  }

  lemma {:induction false} OneLimit(m: Schema)
    ensures SameLimits(m, [m])
  {
    hide Tightest, Real, Each;
    OneTight((s: Schema) => s.kw.bounds.minimum, m, true);
    OneTight((s: Schema) => s.kw.bounds.exclusiveMinimum, m, true);
    OneTight((s: Schema) => s.kw.bounds.maximum, m, false);
    OneTight((s: Schema) => s.kw.bounds.exclusiveMaximum, m, false);
    OneTight((s: Schema) => Real(s.kw.bounds.minLength), m, true);
    OneTight((s: Schema) => Real(s.kw.bounds.minItems), m, true);
    OneTight((s: Schema) => Real(s.kw.bounds.minProperties), m, true);
    OneTight((s: Schema) => Real(s.kw.bounds.maxLength), m, false);
    OneTight((s: Schema) => Real(s.kw.bounds.maxItems), m, false);
    OneTight((s: Schema) => Real(s.kw.bounds.maxProperties), m, false);
  }

  lemma {:induction false} OneTight(f: Schema -> Option<real>, m: Schema, largest: bool)
    ensures Tightest(f(m), Each(f, [m]), largest)
  {
    assert Each(f, [m])[0] == f(m);
  }

  /** Merging one part more says what it says too. */
  lemma {:induction false} SaysNext(m: Schema, parts: seq<Schema>, b: Schema)
    requires SaysAll(m, parts) && !MergeConflicts(m, b)
    ensures SaysAll(MergeNode(m, b), parts + [b])
  {
    hide SameStated, SameLimits, SameEnum;
    var merged := MergeNode(m, b);
    var longer := parts + [b];
    MergedNode(m, b);
    hide MergeNode, MergeConflicts;
    StatedNext(m, parts, b, merged);
    assert merged.kw.bounds == Tighten(m.kw.bounds, b.kw.bounds) && merged.kw.enum == MeetEnums(m.kw.enum, b.kw.enum);
    LimitsNext(m, parts, b, merged);
    EnumNext(m, parts, b, merged);
    hide SameRest;
    assert SameRest(merged, longer[0]) by { RestStays(m, b, parts); }
    NamesNext(m, parts, b, merged);
  }

  lemma {:induction false} RestStays(m: Schema, b: Schema, parts: seq<Schema>)
    requires !MergeConflicts(m, b) && parts != [] && SameRest(m, parts[0])
    ensures SameRest(MergeNode(m, b), (parts + [b])[0])
  {
    MergedNode(m, b);
    hide MergeNode, MergeConflicts, Tighten, MeetEnums;
  }

  lemma {:induction false} NamesNext(m: Schema, parts: seq<Schema>, b: Schema, merged: Schema)
    requires forall x :: x in m.kw.required <==> exists i :: 0 <= i < |parts| && x in parts[i].kw.required
    requires m.kw.nullable <==> exists i :: 0 <= i < |parts| && parts[i].kw.nullable
    requires merged.kw.required == SortedNames(m.kw.required + b.kw.required) && merged.kw.nullable == (m.kw.nullable || b.kw.nullable)
    ensures forall x :: x in merged.kw.required <==> exists i :: 0 <= i < |parts + [b]| && x in (parts + [b])[i].kw.required
    ensures merged.kw.nullable <==> exists i :: 0 <= i < |parts + [b]| && (parts + [b])[i].kw.nullable
  {
    var longer := parts + [b];
    SortedSetElements(NameLess, m.kw.required + b.kw.required);
    assert longer[|parts|] == b && forall i :: 0 <= i < |parts| ==> longer[i] == parts[i];
    assert (exists i :: 0 <= i < |longer| && longer[i].kw.nullable) == ((exists i :: 0 <= i < |parts| && parts[i].kw.nullable) || b.kw.nullable);
    forall x ensures x in merged.kw.required <==> exists i :: 0 <= i < |longer| && x in longer[i].kw.required {
      assert (exists i :: 0 <= i < |longer| && x in longer[i].kw.required) == ((exists i :: 0 <= i < |parts| && x in parts[i].kw.required) || x in b.kw.required);
    }
  }

  lemma {:induction false} MergedNode(m: Schema, b: Schema)
    requires !MergeConflicts(m, b)
    ensures
      var merged := MergeNode(m, b);
      && merged.kw == MergeKeywords(m.kw, b.kw) && merged.items == First(m.items, b.items)
      && merged == m.(kw := merged.kw, items := merged.items, properties := merged.properties)
  {
    hide MergeKeywords;
  }

  // ------------------------------------------------------------------ every place

  /** What the two have at a place, merged if both have it. */
  lemma {:induction false} MergedAt(t: Schema, b: Schema, route: seq<string>)
    requires !MergeConflicts(t, b)
    ensures
      var o, n := At(t, route), At(b, route);
      && (o.Some? && n.Some? ==> !MergeConflicts(o.value, n.value))
      && At(MergeNode(t, b), route) == if o.Some? && n.Some? then Some(MergeNode(o.value, n.value)) else First(o, n)
    decreases |route|
  {
    if route != [] {
      hide MergeKeywords;
      var x := route[0];
      if x in t.properties && x in b.properties {
        assert !ConflictAt(t, b, x);
        MergedAt(t.properties[x], b.properties[x], route[1..]);
      }
    }
  }

  /** The nodes at a place of the host and of the first branches, in order. */
  function Parts(host: Schema, branches: seq<Schema>, n: nat, route: seq<string>): seq<Schema>
    requires n <= |branches|
  {
    if n == 0 then OneOrNone(At(host, route)) else Parts(host, branches, n - 1, route) + OneOrNone(At(branches[n - 1], route))
  }

  function OneOrNone(o: Option<Schema>): seq<Schema> { if o.Some? then [o.value] else [] }

  lemma {:induction false} StageSays(host: Schema, branches: seq<Schema>, n: nat, route: seq<string>)
    requires n <= |branches| && forall i :: 0 <= i < n ==> !ConflictsAt(host, branches, i)
    ensures
      var parts, r := Parts(host, branches, n, route), At(Stage(host, branches, n), route);
      if parts == [] then r.None? else r.Some? && SaysAll(r.value, parts)
    decreases n
  {
    hide SaysAll, MergeNode, MergeConflicts, At;
    if n == 0 {
      if At(host, route).Some? { OneSays(At(host, route).value); }
    } else {
      StageSays(host, branches, n - 1, route);
      assert !ConflictsAt(host, branches, n - 1);
      MergedAt(Stage(host, branches, n - 1), branches[n - 1], route);
      var o, b := At(Stage(host, branches, n - 1), route), At(branches[n - 1], route);
      if b.Some? {
        if o.Some? {
          SaysNext(o.value, Parts(host, branches, n - 1, route), b.value);
        } else {
          OneSays(b.value);
          assert Parts(host, branches, n - 1, route) == [];
          assert Parts(host, branches, n, route) == [b.value];
        }
      } else {
        assert Parts(host, branches, n, route) == Parts(host, branches, n - 1, route);
      }
    }
  }

  /** At this place the collapsed node says together what the host and the branches say there, and has nothing where none of
      them has. */
  ghost predicate Together(n: Schema, branches: seq<Schema>, collapsed: Schema, route: seq<string>) {
    var parts, r := Parts(n.(allOf := []), branches, |branches|, route), At(collapsed, route);
    if parts == [] then r.None? else r.Some? && SaysAll(r.value, parts)
  }

  /** A composition no two parts of which clash collapses to a node that has, at any depth, the properties of all parts. */
  lemma {:induction false} SaysTogether(n: Schema, branches: seq<Schema>, route: seq<string>)
    requires !AnyClash(n.(allOf := []), branches)
    ensures Together(n, branches, Collapse(n, branches), route)
  {
    var host := n.(allOf := []);
    ConflictsExactly(host, branches);
    forall i | 0 <= i < |branches| ensures !ConflictsAt(host, branches, i) {}
    hide AnyClash, ConflictsAt, Stage, Parts, At, SaysAll;
    StageSays(host, branches, |branches|, route);
  }
}
