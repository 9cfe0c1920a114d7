/** What a silent comparison means: which differences it rules out, and when it rules out every difference in the
    values the two revisions accept. */
module DiffMeaning {
  import opened Model
  import opened Ordering
  import opened Validation
  import opened Diff

  // ------------------------------------------------------------------ silence, without the order of reports

  ghost predicate QuietKeywords(o: Keywords, n: Keywords) {
    && PyEq(o.default, n.default) && o.nullable == n.nullable && o.typ == n.typ && o.format == n.format
    && EnumEq(o.enum, n.enum) && PyEq(o.constant, n.constant)
    && o.bounds == n.bounds && o.multipleOf == n.multipleOf && o.pattern == n.pattern && o.uniqueItems == n.uniqueItems
  }

  /** Once one side numbers its fields: shared numbers keep their names, no number or reservation is dropped, no kept field
      loses explicit presence, and no kept field enters or leaves a group. */
  ghost predicate QuietProto(prev: Schema, next: Schema) {
    Numbering(prev, next) ==>
      && (forall i :: i in prev.kw.proto.fieldNumbers && i in next.kw.proto.fieldNumbers ==>
            prev.kw.proto.fieldNumbers[i] == next.kw.proto.fieldNumbers[i])
      && Unreserved(prev, next) == {} && LostPresence(prev, next) == {}
      && Joined(prev, next) == {} && Joined(next, prev) == {} && Released(prev, next) == {}
  }

  ghost predicate QuietOpt(o: Option<Schema>, n: Option<Schema>)
    decreases o, 0
  {
    o.Some? && n.Some? ==> Quiet(o.value, n.value)
  }

  ghost predicate QuietVariants(o: seq<Schema>, n: seq<Schema>)
    decreases o, 0
  {
    |o| == |n| ==> forall i :: 0 <= i < |o| ==> Quiet(o[i], n[i])
  }

  ghost predicate QuietFields(prev: Schema, next: Schema)
    decreases prev, 0
  {
    && prev.properties.Keys == next.properties.Keys
    && (forall x :: x in prev.properties ==> Quiet(prev.properties[x], next.properties[x]))
    && (forall x :: x in prev.properties ==> (x in prev.kw.required <==> x in next.kw.required))
  }

  ghost predicate QuietMiddle(prev: Schema, next: Schema)
    decreases prev, 0
  {
    && QuietOpt(prev.items, next.items)
    && DiscriminatorNotes(prev.kw.discriminator, next.kw.discriminator) == []
    && QuietVariants(prev.oneOf, next.oneOf) && QuietVariants(prev.anyOf, next.anyOf) && QuietVariants(prev.allOf, next.allOf)
  }

  ghost predicate QuietLater(prev: Schema, next: Schema)
    decreases prev, 0
  {
    && (forall t :: DependentRequiredOf(prev.kw.dependentRequired, t) == DependentRequiredOf(next.kw.dependentRequired, t))
    && prev.dependentSchemas.Keys == next.dependentSchemas.Keys
    && (forall t :: t in prev.dependentSchemas ==> Quiet(prev.dependentSchemas[t], next.dependentSchemas[t]))
    && |prev.prefixItems| == |next.prefixItems|
    && (forall i :: 0 <= i < |prev.prefixItems| ==>
          prev.prefixItems[i].kw.typ == next.prefixItems[i].kw.typ && Quiet(prev.prefixItems[i], next.prefixItems[i]))
    && prev.patternProperties.Keys == next.patternProperties.Keys
    && (forall e :: e in prev.patternProperties ==> Quiet(prev.patternProperties[e], next.patternProperties[e]))
  }

  ghost predicate QuietLoud(o: Option<Schema>, n: Option<Schema>)
    decreases o, 1
  {
    o.Some? == n.Some? && QuietOpt(o, n)
  }

  ghost predicate QuietSingle(prev: Schema, next: Schema)
    decreases prev, 0
  {
    && QuietLoud(prev.propertyNames, next.propertyNames) && QuietLoud(prev.contains, next.contains)
    && prev.kw.minContains == next.kw.minContains && prev.kw.maxContains == next.kw.maxContains
    && QuietLoud(prev.ifSchema, next.ifSchema) && QuietLoud(prev.thenSchema, next.thenSchema) && QuietLoud(prev.elseSchema, next.elseSchema)
  }

  /** What a comparison that reports nothing has established. */
  ghost predicate Quiet(prev: Schema, next: Schema)
    decreases prev, 1
  {
    && QuietProto(prev, next) && QuietKeywords(prev.kw, next.kw)
    && QuietFields(prev, next) && QuietMiddle(prev, next) && QuietLater(prev, next) && QuietSingle(prev, next)
  }

  // ------------------------------------------------------------------ ... is the empty report

  ghost predicate TasksQuiet(tasks: seq<Task>)
  {
    forall i :: 0 <= i < |tasks| ==> tasks[i].Recurse? && Quiet(tasks[i].prev, tasks[i].next)
  }

  lemma {:induction false} QuietConcat(a: seq<Task>, b: seq<Task>)
    ensures TasksQuiet(a + b) <==> TasksQuiet(a) && TasksQuiet(b)
  {
    hide Quiet;
    forall i | 0 <= i < |a| ensures (a + b)[i] == a[i] {}
    forall i | 0 <= i < |b| ensures (a + b)[|a| + i] == b[i] {}
  }

  lemma {:induction false} EmitsQuiet(notes: seq<Note>)
    ensures TasksQuiet(Emits(notes)) <==> notes == []
  {
    hide Quiet;
    if notes != [] { assert Emits(notes)[0].Emit?; }
  }

  lemma {:induction false} ConstraintsQuiet(before: seq<Detail>, after: seq<Detail>, n: nat)
    requires n <= |before| == |after|
    ensures ConstraintNotes(before, after, n) == [] <==> forall i :: 0 <= i < n ==> before[i] == after[i]
  {
    if n > 0 { ConstraintsQuiet(before, after, n - 1); }
  }

  lemma {:induction false} KeywordsQuiet(o: Keywords, n: Keywords)
    ensures KeywordNotes(o, n) == [] <==> QuietKeywords(o, n)
  {
    var a, b := Constraints(o), Constraints(n);
    ConstraintsQuiet(a, b, |a|);
    assert a == b <==> forall i :: 0 <= i < 13 ==> a[i] == b[i];
    assert a == b <==> o.bounds == n.bounds && o.multipleOf == n.multipleOf && o.pattern == n.pattern && o.uniqueItems == n.uniqueItems by {
      assert a == b ==> forall i :: 0 <= i < 13 ==> a[i] == b[i];
      if a == b {
        assert a[0] == b[0] && a[1] == b[1] && a[2] == b[2] && a[3] == b[3] && a[4] == b[4] && a[5] == b[5] && a[6] == b[6];
        assert a[7] == b[7] && a[8] == b[8] && a[9] == b[9] && a[10] == b[10] && a[11] == b[11] && a[12] == b[12];
      }
    }
  }

  lemma {:induction false} SortedEmpty(s: set<string>)
    ensures SortedKeys(s) == [] <==> s == {}
  {
    SortedKeysElements(s);
    if SortedKeys(s) != [] { assert SortedKeys(s)[0] in SortedKeys(s); }
    if s != {} { var x :| x in s; assert x in SortedKeys(s); }
  }

  lemma {:induction false} NumbersQuiet(prev: Schema, next: Schema, numbers: seq<int>)
    requires forall x :: x in numbers ==> x in prev.kw.proto.fieldNumbers && x in next.kw.proto.fieldNumbers
    ensures NumberNotes(prev, next, numbers) == [] <==>
      forall x :: x in numbers ==> prev.kw.proto.fieldNumbers[x] == next.kw.proto.fieldNumbers[x]
  {
    hide WireShape;
    if numbers != [] {
      NumbersQuiet(prev, next, numbers[1..]);
      assert numbers == [numbers[0]] + numbers[1..];
    }
  }

  lemma {:induction false} SharedNumbersQuiet(prev: Schema, next: Schema)
    ensures SharedNumberNotes(prev, next) == [] <==>
      forall i :: i in prev.kw.proto.fieldNumbers && i in next.kw.proto.fieldNumbers ==>
        prev.kw.proto.fieldNumbers[i] == next.kw.proto.fieldNumbers[i]
  {
    var shared := prev.kw.proto.fieldNumbers.Keys * next.kw.proto.fieldNumbers.Keys;
    SortedNumbersElements(shared);
    NumbersQuiet(prev, next, SortedNumbers(shared));
    hide NumberNotes, SortedNumbers;
  }

  lemma {:induction false} FivePieces(a: seq<Note>, b: seq<Note>, c: seq<Note>, d: seq<Note>, e: seq<Note>)
    ensures a + b + c + d + e == [] <==> a == [] && b == [] && c == [] && d == [] && e == []
  {
    assert |a + b + c + d + e| == |a| + |b| + |c| + |d| + |e|;
  }

  lemma {:induction false} DropsQuiet(prev: Schema, next: Schema)
    ensures UnreservedNotes(prev, SortedNumbers(Unreserved(prev, next))) == [] <==> Unreserved(prev, next) == {}
    ensures ReleasedNotes(SortedNumbers(Released(prev, next))) == [] <==> Released(prev, next) == {}
    ensures PresenceNotes(SortedKeys(LostPresence(prev, next))) == [] <==> LostPresence(prev, next) == {}
  {
    hide SortedNumbers, SortedKeys, Unreserved, Released, LostPresence;
    SortedNumbersElements(Unreserved(prev, next));
    SortedNumbersElements(Released(prev, next));
    SortedEmpty(LostPresence(prev, next));
    assert |UnreservedNotes(prev, SortedNumbers(Unreserved(prev, next)))| == |SortedNumbers(Unreserved(prev, next))|;
    assert |ReleasedNotes(SortedNumbers(Released(prev, next)))| == |SortedNumbers(Released(prev, next))|;
    assert |PresenceNotes(SortedKeys(LostPresence(prev, next)))| == |SortedKeys(LostPresence(prev, next))|;
  }

  lemma {:induction false} GroupsQuiet(prev: Schema, next: Schema)
    ensures MembershipNotes(prev, next) == [] <==> Joined(prev, next) == {} && Joined(next, prev) == {}
  {
    hide SortedKeys, Joined, GroupOf;
    SortedEmpty(Joined(prev, next));
    SortedEmpty(Joined(next, prev));
    assert |MembershipNotes(prev, next)| == |SortedKeys(Joined(prev, next))| + |SortedKeys(Joined(next, prev))|;
  }

  lemma {:induction false} ProtoQuiet(prev: Schema, next: Schema)
    ensures ProtoNotes(prev, next) == [] <==> QuietProto(prev, next)
  {
    hide SortedNumbers, SortedKeys, Unreserved, Released, LostPresence, Joined, SharedNumberNotes, MembershipNotes,
      UnreservedNotes, ReleasedNotes, PresenceNotes;
    if Numbering(prev, next) {
      NumberedNotes(prev, next);
      SharedNumbersQuiet(prev, next);
      DropsQuiet(prev, next);
      GroupsQuiet(prev, next);
      FivePieces(SharedNumberNotes(prev, next), UnreservedNotes(prev, SortedNumbers(Unreserved(prev, next))),
                 PresenceNotes(SortedKeys(LostPresence(prev, next))), MembershipNotes(prev, next),
                 ReleasedNotes(SortedNumbers(Released(prev, next))));
    }
  }

  lemma {:induction false} FieldsQuiet(prev: Schema, next: Schema)
    ensures RemovedAdded(prev, next) == [] && TasksQuiet(Shared(prev, next)) && RequiredChanges(prev, next) == [] <==>
      QuietFields(prev, next)
  {
    hide Quiet;
    var o, n := prev.properties.Keys, next.properties.Keys;
    SortedEmpty(o - n);
    SortedEmpty(n - o);
    assert RemovedAdded(prev, next) == [] <==> o == n by {
      assert RemovedAdded(prev, next) == [] <==> o - n == {} && n - o == {};
    }
    SharedQuiet(prev, next);
    var gained, lost := Transitions(prev, next, next.kw.required, prev.kw.required), Transitions(prev, next, prev.kw.required, next.kw.required);
    SortedEmpty(gained);
    SortedEmpty(lost);
    assert RequiredChanges(prev, next) == [] <==> gained == {} && lost == {};
    if o == n {
      forall x | x in o ensures (x in prev.kw.required <==> x in next.kw.required) <==> x !in gained && x !in lost {}
      assert (forall x :: x in o ==> (x in prev.kw.required <==> x in next.kw.required)) <==> gained == {} && lost == {};
    }
  }

  lemma {:induction false} SharedQuiet(prev: Schema, next: Schema)
    ensures TasksQuiet(Shared(prev, next)) <==>
      forall x :: x in prev.properties && x in next.properties ==> Quiet(prev.properties[x], next.properties[x])
  {
    hide Quiet;
    var both := prev.properties.Keys * next.properties.Keys;
    var names := SortedKeys(both);
    SortedKeysElements(both);
    var tasks := Shared(prev, next);
    forall i | 0 <= i < |names| ensures names[i] in both && tasks[i] == Recurse(Prop(names[i]), prev.properties[names[i]], next.properties[names[i]]) {
      assert names[i] in names;
    }
    if TasksQuiet(tasks) {
      forall x | x in both ensures Quiet(prev.properties[x], next.properties[x]) {
        assert x in names;
        var i :| 0 <= i < |names| && names[i] == x;
        assert tasks[i].Recurse?;
      }
    }
  }

  lemma {:induction false} VariantsQuiet(list: Variants, o: seq<Schema>, n: seq<Schema>)
    ensures TasksQuiet(VariantTasks(list, o, n)) <==> QuietVariants(o, n)
  {
    hide Quiet;
    var tasks := VariantTasks(list, o, n);
    if |o| == |n| {
      forall i | 0 <= i < |o| ensures tasks[i] == Recurse(Variant(list, i), o[i], n[i]) {}
    }
  }

  lemma {:induction false} MiddleQuiet(prev: Schema, next: Schema)
    ensures TasksQuiet(MiddleTasks(prev, next)) <==> QuietMiddle(prev, next)
  {
    hide Quiet, TasksQuiet, QuietVariants, VariantTasks, DiscriminatorNotes, QuietTask, Emits;
    var t0, t1 := QuietTask(Items, prev.items, next.items), Emits(DiscriminatorNotes(prev.kw.discriminator, next.kw.discriminator));
    var t2, t3, t4 := VariantTasks(OneOf, prev.oneOf, next.oneOf), VariantTasks(AnyOf, prev.anyOf, next.anyOf), VariantTasks(AllOf, prev.allOf, next.allOf);
    OptQuiet(Items, prev.items, next.items);
    EmitsQuiet(DiscriminatorNotes(prev.kw.discriminator, next.kw.discriminator));
    VariantsQuiet(OneOf, prev.oneOf, next.oneOf);
    VariantsQuiet(AnyOf, prev.anyOf, next.anyOf);
    VariantsQuiet(AllOf, prev.allOf, next.allOf);
    QuietConcat(t0, t1);
    QuietConcat(t0 + t1, t2);
    QuietConcat(t0 + t1 + t2, t3);
    QuietConcat(t0 + t1 + t2 + t3, t4);
  }

  lemma {:induction false} OptQuiet(step: Step, o: Option<Schema>, n: Option<Schema>)
    ensures TasksQuiet(QuietTask(step, o, n)) <==> QuietOpt(o, n)
  {
    hide Quiet;
    if o.Some? && n.Some? { assert QuietTask(step, o, n)[0] == Recurse(step, o.value, n.value); }
  }

  lemma {:induction false} LoudQuiet(step: Step, what: What, o: Option<Schema>, n: Option<Schema>)
    ensures TasksQuiet(LoudTask(step, what, o, n)) <==> QuietLoud(o, n)
  {
    hide Quiet;
    var tasks := LoudTask(step, what, o, n);
    if tasks != [] { assert tasks[0].Recurse? <==> o.Some? && n.Some?; }
  }

  lemma {:induction false} SingleQuiet(prev: Schema, next: Schema)
    ensures TasksQuiet(SingleTasks(prev, next)) <==> QuietSingle(prev, next)
  {
    hide Quiet, TasksQuiet, LoudTask, QuietLoud, Emits;
    var t0 := LoudTask(Names, NamesSchema, prev.propertyNames, next.propertyNames);
    var t1 := LoudTask(Contained, ContainsSchema, prev.contains, next.contains);
    var t2 := Emits(ContainsBounds(prev.kw, next.kw));
    var t3 := LoudTask(Conditional(If), BranchSchema(If), prev.ifSchema, next.ifSchema);
    var t4 := LoudTask(Conditional(Then), BranchSchema(Then), prev.thenSchema, next.thenSchema);
    var t5 := LoudTask(Conditional(Else), BranchSchema(Else), prev.elseSchema, next.elseSchema);
    LoudQuiet(Names, NamesSchema, prev.propertyNames, next.propertyNames);
    LoudQuiet(Contained, ContainsSchema, prev.contains, next.contains);
    EmitsQuiet(ContainsBounds(prev.kw, next.kw));
    LoudQuiet(Conditional(If), BranchSchema(If), prev.ifSchema, next.ifSchema);
    LoudQuiet(Conditional(Then), BranchSchema(Then), prev.thenSchema, next.thenSchema);
    LoudQuiet(Conditional(Else), BranchSchema(Else), prev.elseSchema, next.elseSchema);
    QuietConcat(t0, t1);
    QuietConcat(t0 + t1, t2);
    QuietConcat(t0 + t1 + t2, t3);
    QuietConcat(t0 + t1 + t2 + t3, t4);
    QuietConcat(t0 + t1 + t2 + t3 + t4, t5);
  }

  ghost predicate QuietAt(o: map<string, Schema>, n: map<string, Schema>, x: string) {
    (x in o <==> x in n) && (x in o && x in n ==> Quiet(o[x], n[x]))
  }

  lemma {:induction false} LookupQuiet(o: map<string, Schema>, n: map<string, Schema>, x: string)
    ensures QuietLoud(Lookup(o, x), Lookup(n, x)) <==> QuietAt(o, n, x)
  {
    hide Quiet;
  }

  lemma {:induction false} DependentSchemasQuiet(o: map<string, Schema>, n: map<string, Schema>, names: seq<string>)
    ensures TasksQuiet(DependentSchemaTasks(o, n, names)) <==> forall x :: x in names ==> QuietAt(o, n, x)
  {
    hide Quiet, TasksQuiet, LoudTask, QuietLoud, QuietAt;
    if names == [] {
      EmitsQuiet([]);
      assert DependentSchemaTasks(o, n, names) == Emits([]);
    } else {
      DependentSchemasQuiet(o, n, names[1..]);
      LookupQuiet(o, n, names[0]);
      LoudQuiet(Dependent(names[0]), DependentSchema(names[0]), Lookup(o, names[0]), Lookup(n, names[0]));
      QuietConcat(LoudTask(Dependent(names[0]), DependentSchema(names[0]), Lookup(o, names[0]), Lookup(n, names[0])),
                  DependentSchemaTasks(o, n, names[1..]));
      assert names == [names[0]] + names[1..];
    }
  }

  lemma {:induction false} PatternsQuiet(o: map<string, Schema>, n: map<string, Schema>, names: seq<string>)
    ensures TasksQuiet(PatternTasks(o, n, names)) <==> forall x :: x in names ==> QuietAt(o, n, x)
  {
    hide Quiet, TasksQuiet, LoudTask, QuietLoud, QuietAt;
    if names == [] {
      EmitsQuiet([]);
      assert PatternTasks(o, n, names) == Emits([]);
    } else {
      PatternsQuiet(o, n, names[1..]);
      LookupQuiet(o, n, names[0]);
      LoudQuiet(PatternOf(names[0]), PatternSchema(names[0]), Lookup(o, names[0]), Lookup(n, names[0]));
      QuietConcat(LoudTask(PatternOf(names[0]), PatternSchema(names[0]), Lookup(o, names[0]), Lookup(n, names[0])),
                  PatternTasks(o, n, names[1..]));
      assert names == [names[0]] + names[1..];
    }
  }

  lemma {:induction false} DependentRequiredQuiet(o: map<string, seq<string>>, n: map<string, seq<string>>, names: seq<string>)
    ensures DependentRequiredNotes(o, n, names) == [] <==>
      forall t :: t in names ==> DependentRequiredOf(o, t) == DependentRequiredOf(n, t)
  {
    if names != [] {
      DependentRequiredQuiet(o, n, names[1..]);
      assert names == [names[0]] + names[1..];
    }
  }

  lemma {:induction false} QuietEverywhere(o: map<string, Schema>, n: map<string, Schema>)
    ensures (forall x :: x in o.Keys + n.Keys ==> QuietAt(o, n, x)) <==>
      o.Keys == n.Keys && forall x :: x in o ==> Quiet(o[x], n[x])
  {
    hide Quiet;
    if forall x :: x in o.Keys + n.Keys ==> QuietAt(o, n, x) {
      forall x ensures x in o <==> x in n { assert x in o.Keys + n.Keys ==> QuietAt(o, n, x); }
      forall x | x in o ensures Quiet(o[x], n[x]) { assert QuietAt(o, n, x); }
    }
  }

  lemma {:induction false} DependentsQuiet(prev: Schema, next: Schema)
    ensures TasksQuiet(DependentTasks(prev, next)) <==>
      && (forall t :: DependentRequiredOf(prev.kw.dependentRequired, t) == DependentRequiredOf(next.kw.dependentRequired, t))
      && prev.dependentSchemas.Keys == next.dependentSchemas.Keys
      && (forall t :: t in prev.dependentSchemas ==> Quiet(prev.dependentSchemas[t], next.dependentSchemas[t]))
  {
    hide Quiet, TasksQuiet, QuietAt;
    var o, n := prev.kw.dependentRequired, next.kw.dependentRequired;
    var names := SortedKeys(o.Keys + n.Keys);
    SortedKeysElements(o.Keys + n.Keys);
    DependentRequiredQuiet(o, n, names);
    EmitsQuiet(DependentRequiredNotes(o, n, names));
    var keys := SortedKeys(prev.dependentSchemas.Keys + next.dependentSchemas.Keys);
    SortedKeysElements(prev.dependentSchemas.Keys + next.dependentSchemas.Keys);
    DependentSchemasQuiet(prev.dependentSchemas, next.dependentSchemas, keys);
    QuietEverywhere(prev.dependentSchemas, next.dependentSchemas);
    QuietConcat(Emits(DependentRequiredNotes(o, n, names)), DependentSchemaTasks(prev.dependentSchemas, next.dependentSchemas, keys));
    assert (forall t :: t in names ==> DependentRequiredOf(o, t) == DependentRequiredOf(n, t)) <==>
           (forall t :: DependentRequiredOf(o, t) == DependentRequiredOf(n, t)) by {
      if forall t :: t in names ==> DependentRequiredOf(o, t) == DependentRequiredOf(n, t) {
        forall t ensures DependentRequiredOf(o, t) == DependentRequiredOf(n, t) { assert t in names <==> t in o.Keys + n.Keys; }
      }
    }
  }

  lemma {:induction false} PrefixQuiet(o: seq<Schema>, n: seq<Schema>)
    ensures TasksQuiet(PrefixTasks(o, n)) <==>
      |o| == |n| && forall i :: 0 <= i < |o| ==> o[i].kw.typ == n[i].kw.typ && Quiet(o[i], n[i])
  {
    hide Quiet;
    var tasks := PrefixTasks(o, n);
    if |o| == |n| {
      forall i | 0 <= i < |o| ensures tasks[i] == PrefixTask(i, o[i], n[i]) {}
    } else {
      assert tasks[0].Emit?;
    }
  }

  lemma {:induction false} LaterQuiet(prev: Schema, next: Schema)
    ensures TasksQuiet(DependentTasks(prev, next)) && TasksQuiet(TupleAndPatternTasks(prev, next)) <==> QuietLater(prev, next)
  {
    hide Quiet, TasksQuiet, QuietAt, DependentTasks, PrefixTasks;
    DependentsQuiet(prev, next);
    PrefixQuiet(prev.prefixItems, next.prefixItems);
    var keys := SortedKeys(prev.patternProperties.Keys + next.patternProperties.Keys);
    SortedKeysElements(prev.patternProperties.Keys + next.patternProperties.Keys);
    PatternsQuiet(prev.patternProperties, next.patternProperties, keys);
    QuietEverywhere(prev.patternProperties, next.patternProperties);
    QuietConcat(PrefixTasks(prev.prefixItems, next.prefixItems), PatternTasks(prev.patternProperties, next.patternProperties, keys));
  }

  lemma {:induction false} TasksAreQuiet(prev: Schema, next: Schema)
    ensures TasksQuiet(Tasks(prev, next)) <==> Quiet(prev, next)
  {
    hide TasksQuiet, QuietKeywords, QuietFields, QuietMiddle, QuietLater, QuietSingle, Emits, Shared, MiddleTasks, DependentTasks,
      TupleAndPatternTasks, SingleTasks, ProtoNotes, KeywordNotes, RemovedAdded, RequiredChanges, QuietProto;
    var t0, t1, t2 := Emits(ProtoNotes(prev, next)), Emits(KeywordNotes(prev.kw, next.kw)), Emits(RemovedAdded(prev, next));
    var t3, t4, t5 := Shared(prev, next), Emits(RequiredChanges(prev, next)), MiddleTasks(prev, next);
    var t6, t7, t8 := DependentTasks(prev, next), TupleAndPatternTasks(prev, next), SingleTasks(prev, next);
    EmitsQuiet(ProtoNotes(prev, next));
    ProtoQuiet(prev, next);
    EmitsQuiet(KeywordNotes(prev.kw, next.kw));
    EmitsQuiet(RemovedAdded(prev, next));
    EmitsQuiet(RequiredChanges(prev, next));
    KeywordsQuiet(prev.kw, next.kw);
    FieldsQuiet(prev, next);
    MiddleQuiet(prev, next);
    LaterQuiet(prev, next);
    SingleQuiet(prev, next);
    QuietConcat(t0, t1);
    QuietConcat(t0 + t1, t2);
    QuietConcat(t0 + t1 + t2, t3);
    QuietConcat(t0 + t1 + t2 + t3, t4);
    QuietConcat(t0 + t1 + t2 + t3 + t4, t5);
    QuietConcat(t0 + t1 + t2 + t3 + t4 + t5, t6);
    QuietConcat(t0 + t1 + t2 + t3 + t4 + t5 + t6, t7);
    QuietConcat(t0 + t1 + t2 + t3 + t4 + t5 + t6 + t7, t8);
  }

  lemma {:induction false} FlattenQuiet(parent: Schema, tasks: seq<Task>, path: seq<Step>)
    requires Inside(parent, tasks)
    ensures Flatten(parent, tasks, path) == [] <==> TasksQuiet(tasks)
    decreases parent, 0, |tasks|
  {
    hide Quiet, TasksQuiet, SchemaEntries;
    if tasks == [] {
      EmitsQuiet([]);
      assert tasks == Emits([]);
    } else {
      FlattenQuiet(parent, tasks[1..], path);
      if tasks[0].Recurse? { SilentIsQuiet(tasks[0].prev, tasks[0].next, path + [tasks[0].step]); }
      QuietHead(tasks);
    }
  }

  lemma {:induction false} QuietHead(tasks: seq<Task>)
    requires tasks != []
    ensures TasksQuiet(tasks) <==> tasks[0].Recurse? && Quiet(tasks[0].prev, tasks[0].next) && TasksQuiet(tasks[1..])
  {
    hide Quiet;
    assert tasks == [tasks[0]] + tasks[1..];
    QuietConcat([tasks[0]], tasks[1..]);
    assert [tasks[0]][0] == tasks[0];
  }

  /** An empty report, exactly. */
  lemma {:induction false} SilentIsQuiet(prev: Schema, next: Schema, path: seq<Step>)
    ensures SchemaEntries(prev, next, path) == [] <==> Quiet(prev, next)
    decreases prev, 1
  {
    hide Quiet;
    TasksInside(prev, next);
    FlattenQuiet(prev, Tasks(prev, next), path);
    TasksAreQuiet(prev, next);
  }
}
