/** Comparing two revisions in the other direction reports the same differences with before and after exchanged. */
module DiffMirror {
  import opened Model
  import opened Ordering
  import opened Diff
  import opened DiffMeaning

  function SwapNote(n: Note): Note { Note(n.what, n.after, n.before) }

  function SwapNotes(notes: seq<Note>): (r: seq<Note>)
    ensures |r| == |notes| && forall i :: 0 <= i < |r| ==> r[i] == SwapNote(notes[i])
  {
    seq(|notes|, i requires 0 <= i < |notes| => SwapNote(notes[i]))
  }

  function SwapTask(t: Task): Task {
    match t
    case Emit(note) => Emit(SwapNote(note))
    case Recurse(step, prev, next) => Recurse(step, next, prev)
  }

  function SwapTasks(tasks: seq<Task>): (r: seq<Task>)
    ensures |r| == |tasks| && forall i :: 0 <= i < |r| ==> r[i] == SwapTask(tasks[i])
  {
    seq(|tasks|, i requires 0 <= i < |tasks| => SwapTask(tasks[i]))
  }

  function SwapEntries(entries: seq<Entry>): (r: seq<Entry>)
    ensures |r| == |entries| && forall i :: 0 <= i < |r| ==> r[i] == Entry(entries[i].path, SwapNote(entries[i].note))
  {
    seq(|entries|, i requires 0 <= i < |entries| => Entry(entries[i].path, SwapNote(entries[i].note)))
  }

  /** A number dropped without being reserved, a reservation dropped, or explicit presence lost: the differences that are
      reported in one direction only. */
  predicate Drop(w: What) { w.NumberUnreserved? || w.ReservationDropped? || w.PresenceLost? }

  ghost predicate NoDropNotes(notes: seq<Note>) {
    forall i :: 0 <= i < |notes| ==> !Drop(notes[i].what)
  }

  ghost predicate NoDrops(entries: seq<Entry>) {
    forall e :: e in entries ==> !Drop(e.note.what)
  }

  // ------------------------------------------------------------------ segments in either direction

  /** `b` is `a` seen from the other side, up to order. */
  ghost predicate Mirrored(a: seq<Task>, b: seq<Task>) {
    multiset(b) == multiset(SwapTasks(a))
  }

  lemma {:induction false} MirroredEqual(a: seq<Task>, b: seq<Task>)
    requires b == SwapTasks(a)
    ensures Mirrored(a, b)
  {
  }

  lemma {:induction false} MirroredConcat(a: seq<Task>, b: seq<Task>, c: seq<Task>, d: seq<Task>)
    requires Mirrored(a, b) && Mirrored(c, d)
    ensures Mirrored(a + c, b + d) && Mirrored(a + c, d + b)
  {
    assert SwapTasks(a + c) == SwapTasks(a) + SwapTasks(c);
    assert multiset(d + b) == multiset(d) + multiset(b);
  }

  lemma {:induction false} EmitsSwapped(notes: seq<Note>)
    ensures Emits(SwapNotes(notes)) == SwapTasks(Emits(notes))
  {
  }

  lemma {:induction false} SwapConcat(a: seq<Note>, b: seq<Note>)
    ensures SwapNotes(a + b) == SwapNotes(a) + SwapNotes(b)
  {
  }

  lemma {:induction false} EmitsConcat(a: seq<Note>, b: seq<Note>)
    ensures Emits(a + b) == Emits(a) + Emits(b)
  {
  }

  lemma {:induction false} ChangedSwapped(what: What, before: Detail, after: Detail)
    ensures Changed(what, after, before) == SwapNotes(Changed(what, before, after))
  {
  }

  lemma {:induction false} ConstraintsSwapped(before: seq<Detail>, after: seq<Detail>, n: nat)
    requires n <= |before| == |after|
    ensures ConstraintNotes(after, before, n) == SwapNotes(ConstraintNotes(before, after, n))
  {
    if n > 0 {
      ConstraintsSwapped(before, after, n - 1);
      ChangedSwapped(Constraint(n - 1), before[n - 1], after[n - 1]);
      SwapConcat(ConstraintNotes(before, after, n - 1), Changed(Constraint(n - 1), before[n - 1], after[n - 1]));
    }
  }

  lemma {:induction false} PiecesSwapped(a: seq<Note>, b: seq<Note>, a': seq<Note>, b': seq<Note>)
    requires a' == SwapNotes(a) && b' == SwapNotes(b)
    ensures a' + b' == SwapNotes(a + b)
  {
    SwapConcat(a, b);
  }

  lemma {:induction false} KeywordsSwapped(o: Keywords, n: Keywords)
    ensures Mirrored(Emits(KeywordNotes(o, n)), Emits(KeywordNotes(n, o)))
  {
    assert |Constraints(o)| == 13 == |Constraints(n)|;
    hide Constraints, PyEq, EnumEq;
    assert EnumEq(o.enum, n.enum) == EnumEq(n.enum, o.enum) && PyEq(o.default, n.default) == PyEq(n.default, o.default)
      && PyEq(o.constant, n.constant) == PyEq(n.constant, o.constant) by { EqSymmetric(o, n); }
    var a, a' := When(!PyEq(o.default, n.default), Note(DefaultOf, OfValue(o.default), OfValue(n.default))),
                 When(!PyEq(n.default, o.default), Note(DefaultOf, OfValue(n.default), OfValue(o.default)));
    var b, b' := Changed(Nullability, OfBool(o.nullable), OfBool(n.nullable)), Changed(Nullability, OfBool(n.nullable), OfBool(o.nullable));
    var c, c' := Changed(Type, OfType(o.typ), OfType(n.typ)), Changed(Type, OfType(n.typ), OfType(o.typ));
    var d, d' := Changed(Format, OfText(o.format), OfText(n.format)), Changed(Format, OfText(n.format), OfText(o.format));
    var e, e' := When(!EnumEq(o.enum, n.enum), Note(Enum, OfEnum(o.enum), OfEnum(n.enum))),
                 When(!EnumEq(n.enum, o.enum), Note(Enum, OfEnum(n.enum), OfEnum(o.enum)));
    var f, f' := When(!PyEq(o.constant, n.constant), Note(Const, OfValue(o.constant), OfValue(n.constant))),
                 When(!PyEq(n.constant, o.constant), Note(Const, OfValue(n.constant), OfValue(o.constant)));
    assert a' == SwapNotes(a) && e' == SwapNotes(e) && f' == SwapNotes(f);
    ChangedSwapped(Nullability, OfBool(o.nullable), OfBool(n.nullable));
    ChangedSwapped(Type, OfType(o.typ), OfType(n.typ));
    ChangedSwapped(Format, OfText(o.format), OfText(n.format));
    ConstraintsSwapped(Constraints(o), Constraints(n), |Constraints(o)|);
    hide When, Changed, SwapNotes, ConstraintNotes, Mirrored, SwapTasks, Emits;
    PiecesSwapped(a, b, a', b');
    PiecesSwapped(a + b, c, a' + b', c');
    PiecesSwapped(a + b + c, d, a' + b' + c', d');
    PiecesSwapped(a + b + c + d, e, a' + b' + c' + d', e');
    PiecesSwapped(a + b + c + d + e, f, a' + b' + c' + d' + e', f');
    PiecesSwapped(a + b + c + d + e + f, ConstraintNotes(Constraints(o), Constraints(n), |Constraints(o)|),
                  a' + b' + c' + d' + e' + f', ConstraintNotes(Constraints(n), Constraints(o), |Constraints(o)|));
    EmitsSwapped(KeywordNotes(o, n));
    MirroredEqual(Emits(KeywordNotes(o, n)), Emits(KeywordNotes(n, o)));
  }

  lemma {:induction false} EqSymmetric(o: Keywords, n: Keywords)
    ensures EnumEq(o.enum, n.enum) == EnumEq(n.enum, o.enum) && PyEq(o.default, n.default) == PyEq(n.default, o.default)
    ensures PyEq(o.constant, n.constant) == PyEq(n.constant, o.constant)
  {
    hide Norm;
  }

  lemma {:induction false} FieldsSwapped(names: seq<string>, before: Detail, after: Detail)
    ensures FieldNotes(names, after, before) == SwapNotes(FieldNotes(names, before, after))
  {
  }

  lemma {:induction false} RequiredSwapped(names: seq<string>, before: bool)
    ensures RequiredNotes(names, !before) == SwapNotes(RequiredNotes(names, before))
  {
  }

  /** Two lists of notes reported in the opposite order. */
  lemma {:induction false} CrossedNotes(a: seq<Note>, b: seq<Note>, c: seq<Note>, d: seq<Note>)
    requires c == SwapNotes(b) && d == SwapNotes(a)
    ensures Mirrored(Emits(a + b), Emits(c + d))
  {
    EmitsConcat(a, b);
    EmitsConcat(c, d);
    EmitsSwapped(a);
    EmitsSwapped(b);
    MirroredConcat(Emits(a), Emits(d), Emits(b), Emits(c));
  }

  lemma {:induction false} RemovedAddedSwapped(prev: Schema, next: Schema)
    ensures Mirrored(Emits(RemovedAdded(prev, next)), Emits(RemovedAdded(next, prev)))
  {
    var removed, added := SortedKeys(prev.properties.Keys - next.properties.Keys), SortedKeys(next.properties.Keys - prev.properties.Keys);
    FieldsSwapped(removed, Present, Absent);
    FieldsSwapped(added, Absent, Present);
    CrossedNotes(FieldNotes(removed, Present, Absent), FieldNotes(added, Absent, Present),
                 FieldNotes(added, Present, Absent), FieldNotes(removed, Absent, Present));
    hide SortedKeys, FieldNotes;
  }

  lemma {:induction false} RequiredChangesSwapped(prev: Schema, next: Schema)
    ensures Mirrored(Emits(RequiredChanges(prev, next)), Emits(RequiredChanges(next, prev)))
  {
    var gained, lost := Transitions(prev, next, next.kw.required, prev.kw.required), Transitions(prev, next, prev.kw.required, next.kw.required);
    assert Transitions(next, prev, next.kw.required, prev.kw.required) == gained;
    assert Transitions(next, prev, prev.kw.required, next.kw.required) == lost;
    RequiredSwapped(SortedKeys(gained), false);
    RequiredSwapped(SortedKeys(lost), true);
    CrossedNotes(RequiredNotes(SortedKeys(gained), false), RequiredNotes(SortedKeys(lost), true),
                 RequiredNotes(SortedKeys(lost), false), RequiredNotes(SortedKeys(gained), true));
    hide SortedKeys, RequiredNotes, Transitions;
  }

  lemma {:induction false} SharedSwapped(prev: Schema, next: Schema)
    ensures Mirrored(Shared(prev, next), Shared(next, prev))
  {
    assert prev.properties.Keys * next.properties.Keys == next.properties.Keys * prev.properties.Keys;
    SortedKeysElements(prev.properties.Keys * next.properties.Keys);
    assert Shared(next, prev) == SwapTasks(Shared(prev, next));
    hide SortedKeys;
  }

  lemma {:induction false} MappingSwapped(o: map<string, string>, n: map<string, string>, keys: seq<string>)
    ensures MappingNotes(n, o, keys) == SwapNotes(MappingNotes(o, n, keys))
  {
    if keys != [] {
      MappingSwapped(o, n, keys[1..]);
      SwapConcat(MappingNote(o, n, keys[0]), MappingNotes(o, n, keys[1..]));
    }
  }

  lemma {:induction false} DiscriminatorSwapped(o: Option<Discriminator>, n: Option<Discriminator>)
    ensures Mirrored(Emits(DiscriminatorNotes(o, n)), Emits(DiscriminatorNotes(n, o)))
  {
    hide *;
    var oMap, nMap := MappingOf(o), MappingOf(n);
    var gone, added, both := SortedKeys(oMap.Keys - nMap.Keys), SortedKeys(nMap.Keys - oMap.Keys), SortedKeys(oMap.Keys * nMap.Keys);
    assert nMap.Keys * oMap.Keys == oMap.Keys * nMap.Keys;
    DiscriminatorShape(o, n);
    DiscriminatorShape(n, o);
    MappingSwapped(oMap, nMap, gone);
    MappingSwapped(oMap, nMap, added);
    MappingSwapped(oMap, nMap, both);
    ChangedSwapped(DiscriminatorProperty, OfText(PropertyOf(o)), OfText(PropertyOf(n)));
    CrossedNotes(MappingNotes(oMap, nMap, gone), MappingNotes(oMap, nMap, added), MappingNotes(nMap, oMap, added), MappingNotes(nMap, oMap, gone));
    ThreePieces(Changed(DiscriminatorProperty, OfText(PropertyOf(o)), OfText(PropertyOf(n))),
                MappingNotes(oMap, nMap, gone) + MappingNotes(oMap, nMap, added), MappingNotes(oMap, nMap, both),
                MappingNotes(nMap, oMap, added) + MappingNotes(nMap, oMap, gone));
  }

  lemma {:induction false} ThreePieces(a: seq<Note>, b: seq<Note>, c: seq<Note>, d: seq<Note>)
    requires Mirrored(Emits(b), Emits(d))
    ensures Mirrored(Emits(a + b + c), Emits(SwapNotes(a) + d + SwapNotes(c)))
  {
    EmitsConcat(a + b, c);
    EmitsConcat(a, b);
    EmitsConcat(SwapNotes(a) + d, SwapNotes(c));
    EmitsConcat(SwapNotes(a), d);
    EmitsSwapped(a);
    EmitsSwapped(c);
    hide SwapNotes, Emits, SwapTasks;
    MirroredEqual(Emits(a), Emits(SwapNotes(a)));
    MirroredEqual(Emits(c), Emits(SwapNotes(c)));
    hide Mirrored;
    MirroredConcat(Emits(a), Emits(SwapNotes(a)), Emits(b), Emits(d));
    MirroredConcat(Emits(a) + Emits(b), Emits(SwapNotes(a)) + Emits(d), Emits(c), Emits(SwapNotes(c)));
  }

  lemma {:induction false} VariantsSwapped(list: Variants, o: seq<Schema>, n: seq<Schema>)
    ensures Mirrored(VariantTasks(list, o, n), VariantTasks(list, n, o))
  {
    assert VariantTasks(list, n, o) == SwapTasks(VariantTasks(list, o, n));
  }

  lemma {:induction false} LoudSwapped(step: Step, what: What, o: Option<Schema>, n: Option<Schema>)
    ensures Mirrored(LoudTask(step, what, o, n), LoudTask(step, what, n, o))
  {
    assert LoudTask(step, what, n, o) == SwapTasks(LoudTask(step, what, o, n));
  }

  lemma {:induction false} MiddleSwapped(prev: Schema, next: Schema)
    ensures Mirrored(MiddleTasks(prev, next), MiddleTasks(next, prev))
  {
    var a, a' := QuietTask(Items, prev.items, next.items), QuietTask(Items, next.items, prev.items);
    assert a' == SwapTasks(a);
    MirroredEqual(a, a');
    DiscriminatorSwapped(prev.kw.discriminator, next.kw.discriminator);
    VariantsSwapped(OneOf, prev.oneOf, next.oneOf);
    VariantsSwapped(AnyOf, prev.anyOf, next.anyOf);
    VariantsSwapped(AllOf, prev.allOf, next.allOf);
    hide Mirrored, SwapTasks, VariantTasks, QuietTask, DiscriminatorNotes, Emits;
    var b, b' := Emits(DiscriminatorNotes(prev.kw.discriminator, next.kw.discriminator)), Emits(DiscriminatorNotes(next.kw.discriminator, prev.kw.discriminator));
    var c, c' := VariantTasks(OneOf, prev.oneOf, next.oneOf), VariantTasks(OneOf, next.oneOf, prev.oneOf);
    var d, d' := VariantTasks(AnyOf, prev.anyOf, next.anyOf), VariantTasks(AnyOf, next.anyOf, prev.anyOf);
    MirroredConcat(a, a', b, b');
    MirroredConcat(a + b, a' + b', c, c');
    MirroredConcat(a + b + c, a' + b' + c', d, d');
    MirroredConcat(a + b + c + d, a' + b' + c' + d', VariantTasks(AllOf, prev.allOf, next.allOf), VariantTasks(AllOf, next.allOf, prev.allOf));
  }

  lemma {:induction false} DependentRequiredSwapped(o: map<string, seq<string>>, n: map<string, seq<string>>, names: seq<string>)
    ensures DependentRequiredNotes(n, o, names) == SwapNotes(DependentRequiredNotes(o, n, names))
  {
    if names != [] {
      DependentRequiredSwapped(o, n, names[1..]);
      SwapConcat(Changed(DependentRequired(names[0]), OfNames(DependentRequiredOf(o, names[0])), OfNames(DependentRequiredOf(n, names[0]))),
                 DependentRequiredNotes(o, n, names[1..]));
    }
  }

  lemma {:induction false} KeyedSwapped(o: map<string, Schema>, n: map<string, Schema>, names: seq<string>)
    ensures Mirrored(DependentSchemaTasks(o, n, names), DependentSchemaTasks(n, o, names))
    ensures Mirrored(PatternTasks(o, n, names), PatternTasks(n, o, names))
  {
    if names != [] {
      KeyedSwapped(o, n, names[1..]);
      hide Mirrored, LoudTask;
      LoudSwapped(Dependent(names[0]), DependentSchema(names[0]), Lookup(o, names[0]), Lookup(n, names[0]));
      LoudSwapped(PatternOf(names[0]), PatternSchema(names[0]), Lookup(o, names[0]), Lookup(n, names[0]));
      MirroredConcat(LoudTask(Dependent(names[0]), DependentSchema(names[0]), Lookup(o, names[0]), Lookup(n, names[0])),
                     LoudTask(Dependent(names[0]), DependentSchema(names[0]), Lookup(n, names[0]), Lookup(o, names[0])),
                     DependentSchemaTasks(o, n, names[1..]), DependentSchemaTasks(n, o, names[1..]));
      MirroredConcat(LoudTask(PatternOf(names[0]), PatternSchema(names[0]), Lookup(o, names[0]), Lookup(n, names[0])),
                     LoudTask(PatternOf(names[0]), PatternSchema(names[0]), Lookup(n, names[0]), Lookup(o, names[0])),
                     PatternTasks(o, n, names[1..]), PatternTasks(n, o, names[1..]));
    } else {
      assert SwapTasks([]) == [];
    }
  }

  lemma {:induction false} DependentsSwapped(prev: Schema, next: Schema)
    ensures Mirrored(DependentTasks(prev, next), DependentTasks(next, prev))
  {
    var o, n := prev.kw.dependentRequired, next.kw.dependentRequired;
    assert n.Keys + o.Keys == o.Keys + n.Keys && next.dependentSchemas.Keys + prev.dependentSchemas.Keys == prev.dependentSchemas.Keys + next.dependentSchemas.Keys;
    var names, keys := SortedKeys(o.Keys + n.Keys), SortedKeys(prev.dependentSchemas.Keys + next.dependentSchemas.Keys);
    DependentRequiredSwapped(o, n, names);
    EmitsSwapped(DependentRequiredNotes(o, n, names));
    MirroredEqual(Emits(DependentRequiredNotes(o, n, names)), Emits(DependentRequiredNotes(n, o, names)));
    KeyedSwapped(prev.dependentSchemas, next.dependentSchemas, keys);
    hide Mirrored, SortedKeys, SwapTasks, SwapNotes, Emits;
    MirroredConcat(Emits(DependentRequiredNotes(o, n, names)), Emits(DependentRequiredNotes(n, o, names)),
                   DependentSchemaTasks(prev.dependentSchemas, next.dependentSchemas, keys),
                   DependentSchemaTasks(next.dependentSchemas, prev.dependentSchemas, keys));
  }

  lemma {:induction false} TuplesSwapped(prev: Schema, next: Schema)
    ensures Mirrored(TupleAndPatternTasks(prev, next), TupleAndPatternTasks(next, prev))
  {
    var a, b := PrefixTasks(prev.prefixItems, next.prefixItems), PrefixTasks(next.prefixItems, prev.prefixItems);
    assert b == SwapTasks(a);
    MirroredEqual(a, b);
    assert next.patternProperties.Keys + prev.patternProperties.Keys == prev.patternProperties.Keys + next.patternProperties.Keys;
    var keys := SortedKeys(prev.patternProperties.Keys + next.patternProperties.Keys);
    KeyedSwapped(prev.patternProperties, next.patternProperties, keys);
    hide Mirrored, SortedKeys, SwapTasks, PrefixTasks;
    MirroredConcat(a, b, PatternTasks(prev.patternProperties, next.patternProperties, keys), PatternTasks(next.patternProperties, prev.patternProperties, keys));
  }

  lemma {:induction false} SingleSwapped(prev: Schema, next: Schema)
    ensures Mirrored(SingleTasks(prev, next), SingleTasks(next, prev))
  {
    assert ContainsBounds(next.kw, prev.kw) == SwapNotes(ContainsBounds(prev.kw, next.kw));
    EmitsSwapped(ContainsBounds(prev.kw, next.kw));
    MirroredEqual(Emits(ContainsBounds(prev.kw, next.kw)), Emits(ContainsBounds(next.kw, prev.kw)));
    LoudSwapped(Names, NamesSchema, prev.propertyNames, next.propertyNames);
    LoudSwapped(Contained, ContainsSchema, prev.contains, next.contains);
    LoudSwapped(Conditional(If), BranchSchema(If), prev.ifSchema, next.ifSchema);
    LoudSwapped(Conditional(Then), BranchSchema(Then), prev.thenSchema, next.thenSchema);
    LoudSwapped(Conditional(Else), BranchSchema(Else), prev.elseSchema, next.elseSchema);
    hide Mirrored, SwapTasks, SwapNotes, LoudTask, ContainsBounds, Emits;
    var a, a' := LoudTask(Names, NamesSchema, prev.propertyNames, next.propertyNames), LoudTask(Names, NamesSchema, next.propertyNames, prev.propertyNames);
    var b, b' := LoudTask(Contained, ContainsSchema, prev.contains, next.contains), LoudTask(Contained, ContainsSchema, next.contains, prev.contains);
    var c, c' := Emits(ContainsBounds(prev.kw, next.kw)), Emits(ContainsBounds(next.kw, prev.kw));
    var d, d' := LoudTask(Conditional(If), BranchSchema(If), prev.ifSchema, next.ifSchema), LoudTask(Conditional(If), BranchSchema(If), next.ifSchema, prev.ifSchema);
    var e, e' := LoudTask(Conditional(Then), BranchSchema(Then), prev.thenSchema, next.thenSchema), LoudTask(Conditional(Then), BranchSchema(Then), next.thenSchema, prev.thenSchema);
    MirroredConcat(a, a', b, b');
    MirroredConcat(a + b, a' + b', c, c');
    MirroredConcat(a + b + c, a' + b' + c', d, d');
    MirroredConcat(a + b + c + d, a' + b' + c' + d', e, e');
    MirroredConcat(a + b + c + d + e, a' + b' + c' + d' + e', LoudTask(Conditional(Else), BranchSchema(Else), prev.elseSchema, next.elseSchema),
                   LoudTask(Conditional(Else), BranchSchema(Else), next.elseSchema, prev.elseSchema));
  }

  // ------------------------------------------------------------------ whole nodes

  lemma {:induction false} NumbersSwapped(prev: Schema, next: Schema, numbers: seq<int>)
    requires forall x :: x in numbers ==> x in prev.kw.proto.fieldNumbers && x in next.kw.proto.fieldNumbers
    ensures NumberNotes(next, prev, numbers) == SwapNotes(NumberNotes(prev, next, numbers))
  {
    hide WireShape;
    if numbers != [] { NumbersSwapped(prev, next, numbers[1..]); }
  }

  lemma {:induction false} SharedNumbersSwapped(prev: Schema, next: Schema)
    ensures SharedNumberNotes(next, prev) == SwapNotes(SharedNumberNotes(prev, next))
  {
    var keys := prev.kw.proto.fieldNumbers.Keys * next.kw.proto.fieldNumbers.Keys;
    assert next.kw.proto.fieldNumbers.Keys * prev.kw.proto.fieldNumbers.Keys == keys;
    SortedNumbersElements(keys);
    NumbersSwapped(prev, next, SortedNumbers(keys));
    hide NumberNotes, SortedNumbers;
  }

  lemma {:induction false} GroupsSwapped(o: Proto, n: Proto, names: seq<string>)
    ensures GroupNotes(n, o, names) == SwapNotes(GroupNotes(o, n, names))
  {
    hide GroupOf;
  }

  /** What moved into a group moves out of it on the way back. */
  lemma {:induction false} MembershipSwapped(prev: Schema, next: Schema)
    ensures Mirrored(Emits(MembershipNotes(prev, next)), Emits(MembershipNotes(next, prev)))
  {
    var o, n := prev.kw.proto, next.kw.proto;
    var moved, left := SortedKeys(Joined(prev, next)), SortedKeys(Joined(next, prev));
    GroupsSwapped(o, n, moved);
    GroupsSwapped(o, n, left);
    hide GroupNotes, SortedKeys, Joined;
    CrossedNotes(GroupNotes(o, n, moved), GroupNotes(o, n, left), GroupNotes(n, o, left), GroupNotes(n, o, moved));
  }

  /** Nothing is lost at the node: a number only the old side has is reserved on the new side, a reservation stays unless
      its number is used, and a kept field keeps its explicit presence. */
  ghost predicate HeldNode(prev: Schema, next: Schema) {
    Numbering(prev, next) ==> Unreserved(prev, next) == {} && Released(prev, next) == {} && LostPresence(prev, next) == {}
  }

  lemma {:induction false} NoneLost(prev: Schema, next: Schema)
    requires HeldNode(prev, next)
    ensures ProtoNotes(prev, next) ==
      if Numbering(prev, next) then SharedNumberNotes(prev, next) + MembershipNotes(prev, next) else []
  {
    DropsQuiet(prev, next);
    hide SharedNumberNotes, MembershipNotes, UnreservedNotes, ReleasedNotes, PresenceNotes, SortedNumbers, SortedKeys,
      Unreserved, Released, LostPresence;
  }

  lemma {:induction false} ProtoSwapped(prev: Schema, next: Schema)
    requires HeldNode(prev, next) && HeldNode(next, prev)
    ensures Mirrored(Emits(ProtoNotes(prev, next)), Emits(ProtoNotes(next, prev)))
  {
    NoneLost(prev, next);
    NoneLost(next, prev);
    SharedNumbersSwapped(prev, next);
    MembershipSwapped(prev, next);
    hide SharedNumberNotes, MembershipNotes, ProtoNotes, HeldNode, Mirrored, SwapNotes, SwapTasks, Emits;
    var a, b := SharedNumberNotes(prev, next), MembershipNotes(prev, next);
    var a', b' := SharedNumberNotes(next, prev), MembershipNotes(next, prev);
    EmitsSwapped(a);
    MirroredEqual(Emits(a), Emits(a'));
    MirroredConcat(Emits(a), Emits(a'), Emits(b), Emits(b'));
    EmitsConcat(a, b);
    EmitsConcat(a', b');
    if !Numbering(prev, next) {
      EmitsSwapped([]);
      assert SwapNotes([]) == [];
      MirroredEqual(Emits([]), Emits([]));
    }
  }

  lemma {:induction false} TasksSwapped(prev: Schema, next: Schema)
    requires HeldNode(prev, next) && HeldNode(next, prev)
    ensures Mirrored(Tasks(prev, next), Tasks(next, prev))
  {
    hide *;
    var p, p' := Emits(ProtoNotes(prev, next)), Emits(ProtoNotes(next, prev));
    ProtoSwapped(prev, next);
    var a, a' := Emits(KeywordNotes(prev.kw, next.kw)), Emits(KeywordNotes(next.kw, prev.kw));
    var b, b' := Emits(RemovedAdded(prev, next)), Emits(RemovedAdded(next, prev));
    var c, c' := Shared(prev, next), Shared(next, prev);
    var d, d' := Emits(RequiredChanges(prev, next)), Emits(RequiredChanges(next, prev));
    var e, e' := MiddleTasks(prev, next), MiddleTasks(next, prev);
    var f, f' := DependentTasks(prev, next), DependentTasks(next, prev);
    var g, g' := TupleAndPatternTasks(prev, next), TupleAndPatternTasks(next, prev);
    KeywordsSwapped(prev.kw, next.kw);
    RemovedAddedSwapped(prev, next);
    SharedSwapped(prev, next);
    RequiredChangesSwapped(prev, next);
    MiddleSwapped(prev, next);
    DependentsSwapped(prev, next);
    TuplesSwapped(prev, next);
    SingleSwapped(prev, next);
    MirroredConcat(p, p', a, a');
    MirroredConcat(p + a, p' + a', b, b');
    MirroredConcat(p + a + b, p' + a' + b', c, c');
    MirroredConcat(p + a + b + c, p' + a' + b' + c', d, d');
    MirroredConcat(p + a + b + c + d, p' + a' + b' + c' + d', e, e');
    MirroredConcat(p + a + b + c + d + e, p' + a' + b' + c' + d' + e', f, f');
    MirroredConcat(p + a + b + c + d + e + f, p' + a' + b' + c' + d' + e' + f', g, g');
    MirroredConcat(p + a + b + c + d + e + f + g, p' + a' + b' + c' + d' + e' + f' + g', SingleTasks(prev, next), SingleTasks(next, prev));
    TasksPieces(prev, next);
    TasksPieces(next, prev);
  }

  // ------------------------------------------------------------------ what is reported in one direction only

  ghost predicate NoDropTasks(tasks: seq<Task>) {
    forall i :: 0 <= i < |tasks| && tasks[i].Emit? ==> !Drop(tasks[i].note.what)
  }

  lemma {:induction false} NoDropConcat(a: seq<Task>, b: seq<Task>)
    ensures NoDropTasks(a + b) <==> NoDropTasks(a) && NoDropTasks(b)
  {
    forall i | 0 <= i < |a| ensures (a + b)[i] == a[i] {}
    forall i | 0 <= i < |b| ensures (a + b)[|a| + i] == b[i] {}
  }

  lemma {:induction false} EmitsNoDrops(notes: seq<Note>)
    ensures NoDropTasks(Emits(notes)) <==> NoDropNotes(notes)
  {
    forall i | 0 <= i < |notes| ensures Emits(notes)[i] == Emit(notes[i]) {}
  }

  lemma {:induction false} NotesConcat(a: seq<Note>, b: seq<Note>)
    ensures NoDropNotes(a + b) <==> NoDropNotes(a) && NoDropNotes(b)
  {
    forall i | 0 <= i < |a| ensures (a + b)[i] == a[i] {}
    forall i | 0 <= i < |b| ensures (a + b)[|a| + i] == b[i] {}
  }

  lemma {:induction false} NumbersDropNothing(prev: Schema, next: Schema, numbers: seq<int>)
    requires forall x :: x in numbers ==> x in prev.kw.proto.fieldNumbers && x in next.kw.proto.fieldNumbers
    ensures NoDropNotes(NumberNotes(prev, next, numbers))
  {
    hide WireShape;
    if numbers != [] { NumbersDropNothing(prev, next, numbers[1..]); }
  }

  lemma {:induction false} SharedDropNothing(prev: Schema, next: Schema)
    ensures NoDropNotes(SharedNumberNotes(prev, next)) && NoDropNotes(MembershipNotes(prev, next))
  {
    var keys := prev.kw.proto.fieldNumbers.Keys * next.kw.proto.fieldNumbers.Keys;
    SortedNumbersElements(keys);
    NumbersDropNothing(prev, next, SortedNumbers(keys));
    hide NumberNotes, SortedNumbers, SortedKeys, Joined, GroupOf;
  }

  lemma {:induction false} DropListsShow(prev: Schema, numbers: seq<int>, names: seq<string>)
    ensures NoDropNotes(UnreservedNotes(prev, numbers)) <==> numbers == []
    ensures NoDropNotes(ReleasedNotes(numbers)) <==> numbers == []
    ensures NoDropNotes(PresenceNotes(names)) <==> names == []
  {
    if numbers != [] {
      assert UnreservedNotes(prev, numbers)[0].what == NumberUnreserved(numbers[0]);
      assert ReleasedNotes(numbers)[0] == Note(ReservationDropped(numbers[0]), Present, Absent);
    }
    if names != [] { assert PresenceNotes(names)[0] == Note(PresenceLost(names[0]), OfBool(true), OfBool(false)); }
  }

  /** The node reports no loss exactly when there is none. */
  lemma {:induction false} ProtoDrops(prev: Schema, next: Schema)
    ensures NoDropTasks(Emits(ProtoNotes(prev, next))) <==> HeldNode(prev, next)
  {
    EmitsNoDrops(ProtoNotes(prev, next));
    if Numbering(prev, next) {
      NumberedNotes(prev, next);
      NumberedDrops(prev, next);
    }
    hide NoDropTasks, Emits, SharedNumberNotes, MembershipNotes, UnreservedNotes, ReleasedNotes, PresenceNotes, SortedNumbers, SortedKeys,
      Unreserved, Released, LostPresence;
  }

  lemma {:induction false} NumberedDrops(prev: Schema, next: Schema)
    ensures NoDropNotes(SharedNumberNotes(prev, next) + UnreservedNotes(prev, SortedNumbers(Unreserved(prev, next)))
                        + PresenceNotes(SortedKeys(LostPresence(prev, next))) + MembershipNotes(prev, next)
                        + ReleasedNotes(SortedNumbers(Released(prev, next)))) <==>
      Unreserved(prev, next) == {} && Released(prev, next) == {} && LostPresence(prev, next) == {}
  {
    hide *;
    var a, b := SharedNumberNotes(prev, next), UnreservedNotes(prev, SortedNumbers(Unreserved(prev, next)));
    var c, d := PresenceNotes(SortedKeys(LostPresence(prev, next))), MembershipNotes(prev, next);
    SharedDropNothing(prev, next);
    DropListsShow(prev, SortedNumbers(Unreserved(prev, next)), SortedKeys(LostPresence(prev, next)));
    DropListsShow(prev, SortedNumbers(Released(prev, next)), []);
    SortedNumbersElements(Unreserved(prev, next));
    SortedNumbersElements(Released(prev, next));
    SortedEmpty(LostPresence(prev, next));
    NotesConcat(a, b);
    NotesConcat(a + b, c);
    NotesConcat(a + b + c, d);
    NotesConcat(a + b + c + d, ReleasedNotes(SortedNumbers(Released(prev, next))));
  }

  lemma {:induction false} ConstraintsDropNothing(before: seq<Detail>, after: seq<Detail>, n: nat)
    requires n <= |before| == |after|
    ensures NoDropNotes(ConstraintNotes(before, after, n))
  {
    if n > 0 { ConstraintsDropNothing(before, after, n - 1); }
  }

  lemma {:induction false} KeywordsDropNothing(o: Keywords, n: Keywords)
    ensures NoDropTasks(Emits(KeywordNotes(o, n)))
  {
    ThirteenConstraints(o);
    ThirteenConstraints(n);
    hide Constraints, ConstraintNotes, PyEq, EnumEq;
    ConstraintsDropNothing(Constraints(o), Constraints(n), |Constraints(o)|);
    var own := When(!PyEq(o.default, n.default), Note(DefaultOf, OfValue(o.default), OfValue(n.default)))
      + Changed(Nullability, OfBool(o.nullable), OfBool(n.nullable)) + Changed(Type, OfType(o.typ), OfType(n.typ))
      + Changed(Format, OfText(o.format), OfText(n.format)) + When(!EnumEq(o.enum, n.enum), Note(Enum, OfEnum(o.enum), OfEnum(n.enum)))
      + When(!PyEq(o.constant, n.constant), Note(Const, OfValue(o.constant), OfValue(n.constant)));
    assert NoDropNotes(own);
    assert KeywordNotes(o, n) == own + ConstraintNotes(Constraints(o), Constraints(n), |Constraints(o)|);
    hide KeywordNotes;
    EmitsNoDrops(KeywordNotes(o, n));
  }

  lemma {:induction false} FieldsDropNothing(prev: Schema, next: Schema)
    ensures NoDropTasks(Emits(RemovedAdded(prev, next))) && NoDropTasks(Shared(prev, next)) && NoDropTasks(Emits(RequiredChanges(prev, next)))
  {
    SortedKeysElements(prev.properties.Keys * next.properties.Keys);
    hide SortedKeys;
  }

  lemma {:induction false} MappingDropNothing(o: map<string, string>, n: map<string, string>, keys: seq<string>)
    ensures NoDropNotes(MappingNotes(o, n, keys))
  {
    if keys != [] { MappingDropNothing(o, n, keys[1..]); }
  }

  lemma {:induction false} DiscriminatorDropNothing(o: Option<Discriminator>, n: Option<Discriminator>)
    ensures NoDropTasks(Emits(DiscriminatorNotes(o, n)))
  {
    var oMap, nMap := MappingOf(o), MappingOf(n);
    hide MappingNotes, SortedKeys, DiscriminatorNotes, MappingOf, PropertyOf;
    DiscriminatorShape(o, n);
    MappingDropNothing(oMap, nMap, SortedKeys(oMap.Keys - nMap.Keys));
    MappingDropNothing(oMap, nMap, SortedKeys(nMap.Keys - oMap.Keys));
    MappingDropNothing(oMap, nMap, SortedKeys(oMap.Keys * nMap.Keys));
    EmitsNoDrops(DiscriminatorNotes(o, n));
  }

  lemma {:induction false} ItemsDropNothing(o: Option<Schema>, n: Option<Schema>)
    ensures NoDropTasks(QuietTask(Items, o, n))
  {
  }

  lemma {:induction false} VariantsDropNothing(list: Variants, o: seq<Schema>, n: seq<Schema>)
    ensures NoDropTasks(VariantTasks(list, o, n))
  {
  }

  lemma {:induction false} MiddleDropNothing(prev: Schema, next: Schema)
    ensures NoDropTasks(MiddleTasks(prev, next))
  {
    hide NoDropTasks, VariantTasks, QuietTask, Emits, DiscriminatorNotes;
    var q, d := QuietTask(Items, prev.items, next.items), Emits(DiscriminatorNotes(prev.kw.discriminator, next.kw.discriminator));
    ItemsDropNothing(prev.items, next.items);
    DiscriminatorDropNothing(prev.kw.discriminator, next.kw.discriminator);
    var one, any, all := VariantTasks(OneOf, prev.oneOf, next.oneOf), VariantTasks(AnyOf, prev.anyOf, next.anyOf), VariantTasks(AllOf, prev.allOf, next.allOf);
    VariantsDropNothing(OneOf, prev.oneOf, next.oneOf);
    VariantsDropNothing(AnyOf, prev.anyOf, next.anyOf);
    VariantsDropNothing(AllOf, prev.allOf, next.allOf);
    NoDropConcat(q, d);
    NoDropConcat(q + d, one);
    NoDropConcat(q + d + one, any);
    NoDropConcat(q + d + one + any, all);
  }

  lemma {:induction false} KeyedDropNothing(o: map<string, Schema>, n: map<string, Schema>, names: seq<string>)
    ensures NoDropTasks(DependentSchemaTasks(o, n, names)) && NoDropTasks(PatternTasks(o, n, names))
  {
    if names != [] { KeyedDropNothing(o, n, names[1..]); }
  }

  lemma {:induction false} DependentDropNothing(o: map<string, seq<string>>, n: map<string, seq<string>>, keys: seq<string>)
    ensures NoDropNotes(DependentRequiredNotes(o, n, keys))
  {
    if keys != [] { DependentDropNothing(o, n, keys[1..]); }
  }

  lemma {:induction false} LaterDropNothing(prev: Schema, next: Schema)
    ensures NoDropTasks(DependentTasks(prev, next)) && NoDropTasks(TupleAndPatternTasks(prev, next))
  {
    var keys, patterns := SortedKeys(prev.dependentSchemas.Keys + next.dependentSchemas.Keys), SortedKeys(prev.patternProperties.Keys + next.patternProperties.Keys);
    KeyedDropNothing(prev.dependentSchemas, next.dependentSchemas, keys);
    KeyedDropNothing(prev.patternProperties, next.patternProperties, patterns);
    assert NoDropTasks(PrefixTasks(prev.prefixItems, next.prefixItems));
    var triggers := SortedKeys(prev.kw.dependentRequired.Keys + next.kw.dependentRequired.Keys);
    DependentDropNothing(prev.kw.dependentRequired, next.kw.dependentRequired, triggers);
    var notes := DependentRequiredNotes(prev.kw.dependentRequired, next.kw.dependentRequired, triggers);
    EmitsNoDrops(notes);
    hide NoDropTasks, Emits, DependentSchemaTasks, PatternTasks, PrefixTasks, SortedKeys, DependentRequiredNotes;
    NoDropConcat(Emits(notes), DependentSchemaTasks(prev.dependentSchemas, next.dependentSchemas, keys));
    NoDropConcat(PrefixTasks(prev.prefixItems, next.prefixItems), PatternTasks(prev.patternProperties, next.patternProperties, patterns));
  }

  lemma {:induction false} SingleDropNothing(prev: Schema, next: Schema)
    ensures NoDropTasks(SingleTasks(prev, next))
  {
    var a := LoudTask(Names, NamesSchema, prev.propertyNames, next.propertyNames);
    var b := LoudTask(Contained, ContainsSchema, prev.contains, next.contains);
    var c := Emits(ContainsBounds(prev.kw, next.kw));
    var d := LoudTask(Conditional(If), BranchSchema(If), prev.ifSchema, next.ifSchema);
    var e := LoudTask(Conditional(Then), BranchSchema(Then), prev.thenSchema, next.thenSchema);
    var f := LoudTask(Conditional(Else), BranchSchema(Else), prev.elseSchema, next.elseSchema);
    assert NoDropTasks(a) && NoDropTasks(b) && NoDropTasks(c) && NoDropTasks(d) && NoDropTasks(e) && NoDropTasks(f);
    hide NoDropTasks, Emits, LoudTask;
    NoDropConcat(a, b);
    NoDropConcat(a + b, c);
    NoDropConcat(a + b + c, d);
    NoDropConcat(a + b + c + d, e);
    NoDropConcat(a + b + c + d + e, f);
  }

  /** Everything a node contributes after its protobuf part. */
  ghost function Rest(prev: Schema, next: Schema): seq<Task> {
    Emits(KeywordNotes(prev.kw, next.kw)) + Emits(RemovedAdded(prev, next)) + Shared(prev, next) + Emits(RequiredChanges(prev, next))
    + MiddleTasks(prev, next) + DependentTasks(prev, next) + TupleAndPatternTasks(prev, next) + SingleTasks(prev, next)
  }

  lemma {:induction false} RestPieces(prev: Schema, next: Schema)
    ensures Tasks(prev, next) == Emits(ProtoNotes(prev, next)) + Rest(prev, next)
  {
    TasksPieces(prev, next);
    hide Tasks, ProtoNotes, KeywordNotes, RemovedAdded, Shared, RequiredChanges, MiddleTasks, DependentTasks, TupleAndPatternTasks, SingleTasks, Emits;
  }

  lemma {:induction false} RestDropsNothing(prev: Schema, next: Schema)
    ensures NoDropTasks(Rest(prev, next))
  {
    hide *;
    KeywordsDropNothing(prev.kw, next.kw);
    FieldsDropNothing(prev, next);
    MiddleDropNothing(prev, next);
    LaterDropNothing(prev, next);
    SingleDropNothing(prev, next);
    var a, b, c := Emits(KeywordNotes(prev.kw, next.kw)), Emits(RemovedAdded(prev, next)), Shared(prev, next);
    var d, e, f := Emits(RequiredChanges(prev, next)), MiddleTasks(prev, next), DependentTasks(prev, next);
    var g, h := TupleAndPatternTasks(prev, next), SingleTasks(prev, next);
    NoDropConcat(a, b);
    NoDropConcat(a + b, c);
    NoDropConcat(a + b + c, d);
    NoDropConcat(a + b + c + d, e);
    NoDropConcat(a + b + c + d + e, f);
    NoDropConcat(a + b + c + d + e + f, g);
    NoDropConcat(a + b + c + d + e + f + g, h);
    RestMeans(prev, next);
  }

  lemma {:induction false} RestMeans(prev: Schema, next: Schema)
    ensures Rest(prev, next) ==
      Emits(KeywordNotes(prev.kw, next.kw)) + Emits(RemovedAdded(prev, next)) + Shared(prev, next) + Emits(RequiredChanges(prev, next))
      + MiddleTasks(prev, next) + DependentTasks(prev, next) + TupleAndPatternTasks(prev, next) + SingleTasks(prev, next)
  {
    hide KeywordNotes, RemovedAdded, Shared, RequiredChanges, MiddleTasks, DependentTasks, TupleAndPatternTasks, SingleTasks, Emits;
  }

  lemma {:induction false} TasksDrops(prev: Schema, next: Schema)
    ensures NoDropTasks(Tasks(prev, next)) <==> HeldNode(prev, next)
  {
    hide *;
    ProtoDrops(prev, next);
    RestDropsNothing(prev, next);
    RestPieces(prev, next);
    NoDropConcat(Emits(ProtoNotes(prev, next)), Rest(prev, next));
  }

  // ------------------------------------------------------------------ the condition on two schemas

  ghost predicate HeldOpt(o: Option<Schema>, n: Option<Schema>)
    decreases o, 0
  {
    o.Some? && n.Some? ==> Held(o.value, n.value)
  }

  ghost predicate HeldList(o: seq<Schema>, n: seq<Schema>)
    decreases o, 0
  {
    |o| == |n| ==> forall i :: 0 <= i < |o| ==> Held(o[i], n[i])
  }

  ghost predicate HeldTuple(o: seq<Schema>, n: seq<Schema>)
    decreases o, 0
  {
    |o| == |n| ==> forall i :: 0 <= i < |o| && o[i].kw.typ == n[i].kw.typ ==> Held(o[i], n[i])
  }

  ghost predicate HeldKeyed(prev: Schema, next: Schema)
    decreases prev, 0
  {
    && (forall x :: x in prev.properties && x in next.properties ==> Held(prev.properties[x], next.properties[x]))
    && (forall x :: x in prev.dependentSchemas && x in next.dependentSchemas ==> Held(prev.dependentSchemas[x], next.dependentSchemas[x]))
    && (forall x :: x in prev.patternProperties && x in next.patternProperties ==> Held(prev.patternProperties[x], next.patternProperties[x]))
  }

  ghost predicate HeldMiddle(prev: Schema, next: Schema)
    decreases prev, 0
  {
    HeldOpt(prev.items, next.items) && HeldList(prev.oneOf, next.oneOf) && HeldList(prev.anyOf, next.anyOf) && HeldList(prev.allOf, next.allOf)
  }

  ghost predicate HeldSingle(prev: Schema, next: Schema)
    decreases prev, 0
  {
    && HeldOpt(prev.propertyNames, next.propertyNames) && HeldOpt(prev.contains, next.contains)
    && HeldOpt(prev.ifSchema, next.ifSchema) && HeldOpt(prev.thenSchema, next.thenSchema) && HeldOpt(prev.elseSchema, next.elseSchema)
  }

  /** At no pair of nodes that are compared is a number dropped without being reserved, a reservation dropped, or explicit
      presence lost. */
  ghost predicate Held(prev: Schema, next: Schema)
    decreases prev, 1
  {
    && HeldNode(prev, next) && HeldKeyed(prev, next) && HeldMiddle(prev, next)
    && HeldTuple(prev.prefixItems, next.prefixItems) && HeldSingle(prev, next)
  }

  // ------------------------------------------------------------------ ... is what the report is free of

  ghost predicate TasksHeld(tasks: seq<Task>) {
    forall i :: 0 <= i < |tasks| && tasks[i].Recurse? ==> Held(tasks[i].prev, tasks[i].next)
  }

  lemma {:induction false} HeldConcat(a: seq<Task>, b: seq<Task>)
    ensures TasksHeld(a + b) <==> TasksHeld(a) && TasksHeld(b)
  {
    hide Held;
    forall i | 0 <= i < |a| ensures (a + b)[i] == a[i] {}
    forall i | 0 <= i < |b| ensures (a + b)[|a| + i] == b[i] {}
  }

  lemma {:induction false} EmitsHeld(notes: seq<Note>)
    ensures TasksHeld(Emits(notes))
  {
    hide Held;
  }

  lemma {:induction false} SharedHeld(prev: Schema, next: Schema)
    ensures TasksHeld(Shared(prev, next)) <==>
      forall x :: x in prev.properties && x in next.properties ==> Held(prev.properties[x], next.properties[x])
  {
    hide Held;
    var both := prev.properties.Keys * next.properties.Keys;
    var names := SortedKeys(both);
    SortedKeysElements(both);
    var tasks := Shared(prev, next);
    forall i | 0 <= i < |names| ensures names[i] in both && tasks[i] == Recurse(Prop(names[i]), prev.properties[names[i]], next.properties[names[i]]) {
      assert names[i] in names;
    }
    if TasksHeld(tasks) {
      forall x | x in both ensures Held(prev.properties[x], next.properties[x]) {
        assert x in names;
        var i :| 0 <= i < |names| && names[i] == x;
        assert tasks[i].Recurse?;
      }
    }
  }

  lemma {:induction false} OptHeld(step: Step, what: What, o: Option<Schema>, n: Option<Schema>)
    ensures TasksHeld(QuietTask(step, o, n)) <==> HeldOpt(o, n)
    ensures TasksHeld(LoudTask(step, what, o, n)) <==> HeldOpt(o, n)
  {
    hide Held;
    if o.Some? && n.Some? {
      assert QuietTask(step, o, n)[0] == Recurse(step, o.value, n.value) == LoudTask(step, what, o, n)[0];
    }
  }

  lemma {:induction false} VariantsHeld(list: Variants, o: seq<Schema>, n: seq<Schema>)
    ensures TasksHeld(VariantTasks(list, o, n)) <==> HeldList(o, n)
  {
    hide Held;
    var tasks := VariantTasks(list, o, n);
    if |o| == |n| {
      forall i | 0 <= i < |o| ensures tasks[i] == Recurse(Variant(list, i), o[i], n[i]) {}
    }
  }

  lemma {:induction false} TupleHeld(o: seq<Schema>, n: seq<Schema>)
    ensures TasksHeld(PrefixTasks(o, n)) <==> HeldTuple(o, n)
  {
    hide Held;
    var tasks := PrefixTasks(o, n);
    if |o| == |n| {
      forall i | 0 <= i < |o| ensures tasks[i] == PrefixTask(i, o[i], n[i]) {}
    } else {
      assert tasks[0].Emit?;
    }
  }

  lemma {:induction false} KeyedHeld(o: map<string, Schema>, n: map<string, Schema>, names: seq<string>)
    ensures TasksHeld(DependentSchemaTasks(o, n, names)) <==> forall x :: x in names && x in o && x in n ==> Held(o[x], n[x])
    ensures TasksHeld(PatternTasks(o, n, names)) <==> forall x :: x in names && x in o && x in n ==> Held(o[x], n[x])
  {
    hide Held, TasksHeld, LoudTask;
    if names == [] {
      EmitsHeld([]);
      assert DependentSchemaTasks(o, n, names) == Emits([]) == PatternTasks(o, n, names);
    } else {
      var x := names[0];
      KeyedHeld(o, n, names[1..]);
      OptHeld(Dependent(x), DependentSchema(x), Lookup(o, x), Lookup(n, x));
      OptHeld(PatternOf(x), PatternSchema(x), Lookup(o, x), Lookup(n, x));
      assert HeldOpt(Lookup(o, x), Lookup(n, x)) <==> (x in o && x in n ==> Held(o[x], n[x]));
      HeldConcat(LoudTask(Dependent(x), DependentSchema(x), Lookup(o, x), Lookup(n, x)), DependentSchemaTasks(o, n, names[1..]));
      HeldConcat(LoudTask(PatternOf(x), PatternSchema(x), Lookup(o, x), Lookup(n, x)), PatternTasks(o, n, names[1..]));
      assert names == [x] + names[1..];
    }
  }

  lemma {:induction false} MiddleHeld(prev: Schema, next: Schema)
    ensures TasksHeld(MiddleTasks(prev, next)) <==> HeldMiddle(prev, next)
  {
    hide Held, TasksHeld, HeldList, VariantTasks, DiscriminatorNotes, QuietTask, HeldOpt, Emits;
    var t0, t1 := QuietTask(Items, prev.items, next.items), Emits(DiscriminatorNotes(prev.kw.discriminator, next.kw.discriminator));
    var t2, t3, t4 := VariantTasks(OneOf, prev.oneOf, next.oneOf), VariantTasks(AnyOf, prev.anyOf, next.anyOf), VariantTasks(AllOf, prev.allOf, next.allOf);
    OptHeld(Items, NamesSchema, prev.items, next.items);
    EmitsHeld(DiscriminatorNotes(prev.kw.discriminator, next.kw.discriminator));
    VariantsHeld(OneOf, prev.oneOf, next.oneOf);
    VariantsHeld(AnyOf, prev.anyOf, next.anyOf);
    VariantsHeld(AllOf, prev.allOf, next.allOf);
    HeldConcat(t0, t1);
    HeldConcat(t0 + t1, t2);
    HeldConcat(t0 + t1 + t2, t3);
    HeldConcat(t0 + t1 + t2 + t3, t4);
  }

  lemma {:induction false} LaterHeld(prev: Schema, next: Schema)
    ensures TasksHeld(DependentTasks(prev, next)) <==>
      forall x :: x in prev.dependentSchemas && x in next.dependentSchemas ==> Held(prev.dependentSchemas[x], next.dependentSchemas[x])
    ensures TasksHeld(TupleAndPatternTasks(prev, next)) <==>
      && HeldTuple(prev.prefixItems, next.prefixItems)
      && forall x :: x in prev.patternProperties && x in next.patternProperties ==> Held(prev.patternProperties[x], next.patternProperties[x])
  {
    hide Held, TasksHeld, HeldTuple, PrefixTasks, DependentRequiredNotes, DependentSchemaTasks, PatternTasks, SortedKeys, Emits;
    var names := SortedKeys(prev.kw.dependentRequired.Keys + next.kw.dependentRequired.Keys);
    var notes := DependentRequiredNotes(prev.kw.dependentRequired, next.kw.dependentRequired, names);
    var keys := SortedKeys(prev.dependentSchemas.Keys + next.dependentSchemas.Keys);
    var patterns := SortedKeys(prev.patternProperties.Keys + next.patternProperties.Keys);
    SortedKeysElements(prev.dependentSchemas.Keys + next.dependentSchemas.Keys);
    SortedKeysElements(prev.patternProperties.Keys + next.patternProperties.Keys);
    EmitsHeld(notes);
    KeyedHeld(prev.dependentSchemas, next.dependentSchemas, keys);
    HeldConcat(Emits(notes), DependentSchemaTasks(prev.dependentSchemas, next.dependentSchemas, keys));
    TupleHeld(prev.prefixItems, next.prefixItems);
    KeyedHeld(prev.patternProperties, next.patternProperties, patterns);
    HeldConcat(PrefixTasks(prev.prefixItems, next.prefixItems), PatternTasks(prev.patternProperties, next.patternProperties, patterns));
  }

  lemma {:induction false} SingleHeld(prev: Schema, next: Schema)
    ensures TasksHeld(SingleTasks(prev, next)) <==> HeldSingle(prev, next)
  {
    hide Held, TasksHeld, LoudTask, HeldOpt, Emits;
    var t0 := LoudTask(Names, NamesSchema, prev.propertyNames, next.propertyNames);
    var t1 := LoudTask(Contained, ContainsSchema, prev.contains, next.contains);
    var t2 := Emits(ContainsBounds(prev.kw, next.kw));
    var t3 := LoudTask(Conditional(If), BranchSchema(If), prev.ifSchema, next.ifSchema);
    var t4 := LoudTask(Conditional(Then), BranchSchema(Then), prev.thenSchema, next.thenSchema);
    var t5 := LoudTask(Conditional(Else), BranchSchema(Else), prev.elseSchema, next.elseSchema);
    OptHeld(Names, NamesSchema, prev.propertyNames, next.propertyNames);
    OptHeld(Contained, ContainsSchema, prev.contains, next.contains);
    EmitsHeld(ContainsBounds(prev.kw, next.kw));
    OptHeld(Conditional(If), BranchSchema(If), prev.ifSchema, next.ifSchema);
    OptHeld(Conditional(Then), BranchSchema(Then), prev.thenSchema, next.thenSchema);
    OptHeld(Conditional(Else), BranchSchema(Else), prev.elseSchema, next.elseSchema);
    HeldConcat(t0, t1);
    HeldConcat(t0 + t1, t2);
    HeldConcat(t0 + t1 + t2, t3);
    HeldConcat(t0 + t1 + t2 + t3, t4);
    HeldConcat(t0 + t1 + t2 + t3 + t4, t5);
  }

  lemma {:induction false} TasksAreHeld(prev: Schema, next: Schema)
    ensures NoDropTasks(Tasks(prev, next)) && TasksHeld(Tasks(prev, next)) <==> Held(prev, next)
  {
    hide *;
    var p, a, b := Emits(ProtoNotes(prev, next)), Emits(KeywordNotes(prev.kw, next.kw)), Emits(RemovedAdded(prev, next));
    var c, d, e := Shared(prev, next), Emits(RequiredChanges(prev, next)), MiddleTasks(prev, next);
    var f, g := DependentTasks(prev, next), TupleAndPatternTasks(prev, next);
    EmitsHeld(ProtoNotes(prev, next));
    EmitsHeld(KeywordNotes(prev.kw, next.kw));
    EmitsHeld(RemovedAdded(prev, next));
    EmitsHeld(RequiredChanges(prev, next));
    SharedHeld(prev, next);
    MiddleHeld(prev, next);
    LaterHeld(prev, next);
    SingleHeld(prev, next);
    HeldConcat(p, a);
    HeldConcat(p + a, b);
    HeldConcat(p + a + b, c);
    HeldConcat(p + a + b + c, d);
    HeldConcat(p + a + b + c + d, e);
    HeldConcat(p + a + b + c + d + e, f);
    HeldConcat(p + a + b + c + d + e + f, g);
    HeldConcat(p + a + b + c + d + e + f + g, SingleTasks(prev, next));
    TasksPieces(prev, next);
    TasksDrops(prev, next);
    HeldMeans(prev, next);
  }

  lemma {:induction false} HeldMeans(prev: Schema, next: Schema)
    ensures Held(prev, next) <==>
      && HeldNode(prev, next) && HeldMiddle(prev, next) && HeldTuple(prev.prefixItems, next.prefixItems) && HeldSingle(prev, next)
      && (forall x :: x in prev.properties && x in next.properties ==> Held(prev.properties[x], next.properties[x]))
      && (forall x :: x in prev.dependentSchemas && x in next.dependentSchemas ==> Held(prev.dependentSchemas[x], next.dependentSchemas[x]))
      && (forall x :: x in prev.patternProperties && x in next.patternProperties ==> Held(prev.patternProperties[x], next.patternProperties[x]))
  {
    hide HeldNode, HeldMiddle, HeldTuple, HeldSingle;
  }

  ghost predicate TaskHeld(task: Task) {
    if task.Emit? then !Drop(task.note.what) else Held(task.prev, task.next)
  }

  lemma {:induction false} HeldHead(tasks: seq<Task>)
    requires tasks != []
    ensures NoDropTasks(tasks) && TasksHeld(tasks) <==> TaskHeld(tasks[0]) && NoDropTasks(tasks[1..]) && TasksHeld(tasks[1..])
  {
    hide Held;
    assert tasks == [tasks[0]] + tasks[1..];
    HeldConcat([tasks[0]], tasks[1..]);
    NoDropConcat([tasks[0]], tasks[1..]);
    assert [tasks[0]][0] == tasks[0];
  }

  lemma {:induction false} NoDropsConcat(a: seq<Entry>, b: seq<Entry>)
    ensures NoDrops(a + b) <==> NoDrops(a) && NoDrops(b)
  {
    assert forall e :: e in a + b <==> e in a || e in b;
  }

  lemma {:induction false} FlattenHeld(parent: Schema, tasks: seq<Task>, path: seq<Step>)
    requires Inside(parent, tasks)
    ensures NoDrops(Flatten(parent, tasks, path)) <==> NoDropTasks(tasks) && TasksHeld(tasks)
    decreases parent, 0, |tasks|
  {
    hide Held, TasksHeld, NoDropTasks, SchemaEntries, Flatten, NoDrops;
    if tasks == [] {
      FlattenNone(parent, path);
      EmitsHeld([]);
      EmitsNoDrops([]);
      assert tasks == Emits([]);
      assert NoDrops([]) by { NoDropsNone(); }
    } else {
      FlattenStep(parent, tasks, path);
      FlattenHeld(parent, tasks[1..], path);
      NoDropsConcat(TaskEntries(tasks[0], path), Flatten(parent, tasks[1..], path));
      HeldHead(tasks);
      if tasks[0].Recurse? { HeldExactly(tasks[0].prev, tasks[0].next, path + [tasks[0].step]); }
      else { NoDropsOne(Entry(path, tasks[0].note)); }
    }
  }

  lemma {:induction false} NoDropsNone()
    ensures NoDrops([])
  {
  }

  lemma {:induction false} NoDropsOne(e: Entry)
    ensures NoDrops([e]) <==> !Drop(e.note.what)
  {
    assert [e][0] in [e];
  }

  /** The report of a comparison is free of losses exactly when the two schemas are. */
  lemma {:induction false} HeldExactly(prev: Schema, next: Schema, path: seq<Step>)
    ensures NoDrops(SchemaEntries(prev, next, path)) <==> Held(prev, next)
    decreases prev, 1
  {
    hide Held, Tasks, NoDrops, NoDropTasks, TasksHeld;
    TasksInside(prev, next);
    FlattenHeld(prev, Tasks(prev, next), path);
    TasksAreHeld(prev, next);
  }

  // ------------------------------------------------------------------ losses are reported forwards

  /** What is lost was there before and is not after. */
  predicate Forwards(n: Note) { Drop(n.what) ==> !Nothing(n.before) && Nothing(n.after) }

  predicate Nothing(d: Detail) { d == Absent || d == OfBool(false) || d == OfText(None) }

  ghost predicate AllForwards(tasks: seq<Task>) {
    forall i :: 0 <= i < |tasks| && tasks[i].Emit? ==> Forwards(tasks[i].note)
  }

  lemma {:induction false} ProtoForwards(prev: Schema, next: Schema)
    ensures forall i :: 0 <= i < |ProtoNotes(prev, next)| ==> Forwards(ProtoNotes(prev, next)[i])
  {
    if Numbering(prev, next) {
      NumberedNotes(prev, next);
      SharedDropNothing(prev, next);
      var a, b := SharedNumberNotes(prev, next), UnreservedNotes(prev, SortedNumbers(Unreserved(prev, next)));
      var c, d := PresenceNotes(SortedKeys(LostPresence(prev, next))), MembershipNotes(prev, next);
      var e := ReleasedNotes(SortedNumbers(Released(prev, next)));
      SortedNumbersElements(Unreserved(prev, next));
      UnreservedForwards(prev, SortedNumbers(Unreserved(prev, next)));
      LossesForwards(SortedNumbers(Released(prev, next)), SortedKeys(LostPresence(prev, next)));
      hide *;
      assert forall note :: note in a + b + c + d + e ==> note in a || note in b || note in c || note in d || note in e;
      KeptForwards(a);
      KeptForwards(d);
    }
  }

  lemma {:induction false} KeptForwards(notes: seq<Note>)
    requires NoDropNotes(notes)
    ensures forall n :: n in notes ==> Forwards(n)
  {
  }

  lemma {:induction false} LossesForwards(numbers: seq<int>, names: seq<string>)
    ensures forall n :: n in ReleasedNotes(numbers) + PresenceNotes(names) ==> Forwards(n)
  {
  }

  lemma {:induction false} UnreservedForwards(prev: Schema, numbers: seq<int>)
    requires forall k :: k in numbers ==> k in prev.kw.proto.fieldNumbers
    ensures forall n :: n in UnreservedNotes(prev, numbers) ==> Forwards(n)
  {
    forall i | 0 <= i < |numbers| ensures Forwards(UnreservedNotes(prev, numbers)[i]) { assert numbers[i] in numbers; }
  }

  lemma {:induction false} TasksForwards(prev: Schema, next: Schema)
    ensures AllForwards(Tasks(prev, next))
  {
    ProtoForwards(prev, next);
    RestPieces(prev, next);
    RestDropsNothing(prev, next);
    hide Tasks, Rest, ProtoNotes;
  }

  lemma {:induction false} FlattenForwards(parent: Schema, tasks: seq<Task>, path: seq<Step>)
    requires Inside(parent, tasks) && AllForwards(tasks)
    ensures forall e :: e in Flatten(parent, tasks, path) ==> Forwards(e.note)
    decreases parent, 0, |tasks|
  {
    hide Flatten, SchemaEntries;
    if tasks == [] {
      FlattenNone(parent, path);
    } else {
      FlattenStep(parent, tasks, path);
      FlattenForwards(parent, tasks[1..], path);
      if tasks[0].Recurse? { ReportedForwards(tasks[0].prev, tasks[0].next, path + [tasks[0].step]); }
    }
  }

  lemma {:induction false} ReportedForwards(prev: Schema, next: Schema, path: seq<Step>)
    ensures forall e :: e in SchemaEntries(prev, next, path) ==> Forwards(e.note)
    decreases prev, 1
  {
    TasksInside(prev, next);
    TasksForwards(prev, next);
    hide Tasks;
    FlattenForwards(prev, Tasks(prev, next), path);
    hide Flatten;
  }

  // ------------------------------------------------------------------ whole comparisons

  ghost predicate HeldBoth(t: Task) { t.Recurse? ==> Held(t.prev, t.next) && Held(t.next, t.prev) }

  ghost predicate AllHeldBoth(tasks: seq<Task>) {
    forall i :: 0 <= i < |tasks| ==> HeldBoth(tasks[i])
  }

  lemma {:induction false} HeldBothWays(there: seq<Task>, back: seq<Task>)
    requires TasksHeld(there) && TasksHeld(back) && Mirrored(there, back)
    ensures AllHeldBoth(there)
  {
    hide Held;
    forall i | 0 <= i < |there| ensures HeldBoth(there[i]) {
      if there[i].Recurse? {
        assert SwapTasks(there)[i] in multiset(back);
        var j :| 0 <= j < |back| && back[j] == SwapTask(there[i]);
      }
    }
  }


  lemma {:induction false} FlattenSplit(parent: Schema, tasks: seq<Task>, k: nat, path: seq<Step>)
    requires Inside(parent, tasks) && k < |tasks|
    ensures Inside(parent, tasks[..k] + tasks[k + 1..]) && Inside(parent, [tasks[k]])
    ensures multiset(Flatten(parent, tasks, path)) ==
      multiset(Flatten(parent, [tasks[k]], path)) + multiset(Flatten(parent, tasks[..k] + tasks[k + 1..], path))
  {
    assert Inside(parent, tasks[..k]) && Inside(parent, [tasks[k]]) && Inside(parent, tasks[k + 1..]);
    hide *;
    assert tasks == tasks[..k] + ([tasks[k]] + tasks[k + 1..]);
    FlattenConcat(parent, [tasks[k]], tasks[k + 1..], path);
    FlattenConcat(parent, tasks[..k], [tasks[k]] + tasks[k + 1..], path);
    FlattenConcat(parent, tasks[..k], tasks[k + 1..], path);
  }

  /** The order of tasks decides only the order of entries. */
  lemma {:induction false} FlattenPermuted(parent: Schema, a: seq<Task>, b: seq<Task>, path: seq<Step>)
    requires Inside(parent, a) && Inside(parent, b) && multiset(a) == multiset(b)
    ensures multiset(Flatten(parent, a, path)) == multiset(Flatten(parent, b, path))
    decreases |b|
  {
    hide *;
    SameLength(a, b);
    if b == [] {
      assert a == b;
    } else {
      var k := TakeOut(a, b);
      FlattenSplit(parent, a, k, path);
      FlattenSplit(parent, b, 0, path);
      assert b[..0] + b[1..] == b[1..];
      FlattenPermuted(parent, a[..k] + a[k + 1..], b[1..], path);
    }
  }

  lemma {:induction false} SwapEntriesConcat(a: seq<Entry>, b: seq<Entry>)
    ensures SwapEntries(a + b) == SwapEntries(a) + SwapEntries(b)
  {
  }

  lemma {:induction false} FlattenMirror(prev: Schema, next: Schema, tasks: seq<Task>, path: seq<Step>)
    requires Inside(prev, tasks) && Inside(next, SwapTasks(tasks)) && AllHeldBoth(tasks)
    ensures multiset(Flatten(next, SwapTasks(tasks), path)) == multiset(SwapEntries(Flatten(prev, tasks, path)))
    decreases prev, 0, |tasks|
  {
    hide *;
    if tasks == [] {
      NothingMirrored(prev, next, path);
    } else {
      SwapTasksHead(tasks);
      FlattenStep(prev, tasks, path);
      FlattenStep(next, SwapTasks(tasks), path);
      HeldBothHead(tasks);
      FlattenMirror(prev, next, tasks[1..], path);
      if tasks[0].Recurse? {
        InsideHead(prev, tasks);
        HeldBothMeans(tasks[0]);
        Mirror(tasks[0].prev, tasks[0].next, path + [tasks[0].step]);
      }
      HeadMirrored(tasks[0], path);
      SwapEntriesConcat(TaskEntries(tasks[0], path), Flatten(prev, tasks[1..], path));
    }
  }

  lemma {:induction false} NothingMirrored(prev: Schema, next: Schema, path: seq<Step>)
    ensures SwapTasks([]) == [] && Flatten(next, [], path) == [] && SwapEntries(Flatten(prev, [], path)) == []
  {
  }

  lemma {:induction false} SwapTasksHead(tasks: seq<Task>)
    requires tasks != []
    ensures SwapTasks(tasks) != [] && SwapTasks(tasks)[0] == SwapTask(tasks[0]) && SwapTasks(tasks)[1..] == SwapTasks(tasks[1..])
  {
  }

  lemma {:induction false} HeldBothHead(tasks: seq<Task>)
    requires AllHeldBoth(tasks) && tasks != []
    ensures AllHeldBoth(tasks[1..]) && HeldBoth(tasks[0])
  {
    hide HeldBoth;
  }

  lemma {:induction false} InsideHead(parent: Schema, tasks: seq<Task>)
    requires Inside(parent, tasks) && tasks != [] && tasks[0].Recurse?
    ensures tasks[0].prev < parent
  {
  }

  lemma {:induction false} HeadMirrored(task: Task, path: seq<Step>)
    requires task.Recurse? ==>
      multiset(SchemaEntries(task.next, task.prev, path + [task.step])) == multiset(SwapEntries(SchemaEntries(task.prev, task.next, path + [task.step])))
    ensures multiset(TaskEntries(SwapTask(task), path)) == multiset(SwapEntries(TaskEntries(task, path)))
  {
    hide SchemaEntries;
    if task.Emit? { assert SwapEntries([Entry(path, task.note)]) == [Entry(path, SwapNote(task.note))]; }
  }

  lemma {:induction false} HeldBothMeans(t: Task)
    requires HeldBoth(t) && t.Recurse?
    ensures Held(t.prev, t.next) && Held(t.next, t.prev)
  {
    hide Held;
  }

  /** The two directions of a comparison report the same differences, each with its before and after exchanged: what one
      adds the other removes, a field number renamed or reused is renamed or reused back, and a field that moved into a group
      moves out of it. */
  lemma {:induction false} Mirror(prev: Schema, next: Schema, path: seq<Step>)
    requires Held(prev, next) && Held(next, prev)
    ensures multiset(SchemaEntries(next, prev, path)) == multiset(SwapEntries(SchemaEntries(prev, next, path)))
    decreases prev, 1
  {
    hide Tasks, Held, Flatten, TasksHeld, NoDropTasks, HeldNode;
    var there, back := Tasks(prev, next), Tasks(next, prev);
    TasksAreHeld(prev, next);
    TasksAreHeld(next, prev);
    TasksDrops(prev, next);
    TasksDrops(next, prev);
    TasksSwapped(prev, next);
    HeldBothWays(there, back);
    TasksInside(prev, next);
    TasksInside(next, prev);
    InsidePermuted(next, back, SwapTasks(there));
    FlattenMirror(prev, next, there, path);
    FlattenPermuted(next, back, SwapTasks(there), path);
  }

  /** They do so if and only if neither direction loses anything. */
  lemma {:induction false} MirrorExactly(prev: Schema, next: Schema, path: seq<Step>)
    ensures multiset(SchemaEntries(next, prev, path)) == multiset(SwapEntries(SchemaEntries(prev, next, path))) <==>
      Held(prev, next) && Held(next, prev)
  {
    hide SchemaEntries, Held;
    var there, back := SchemaEntries(prev, next, path), SchemaEntries(next, prev, path);
    ReportedForwards(prev, next, path);
    ReportedForwards(next, prev, path);
    HeldExactly(prev, next, path);
    HeldExactly(next, prev, path);
    if Held(prev, next) && Held(next, prev) { Mirror(prev, next, path); }
    if multiset(back) == multiset(SwapEntries(there)) {
      forall e | e in there ensures !Drop(e.note.what) {
        var i :| 0 <= i < |there| && there[i] == e;
        assert SwapEntries(there)[i] in multiset(back);
        assert Forwards(SwapEntries(there)[i].note);
      }
      forall e | e in back ensures !Drop(e.note.what) {
        assert e in multiset(SwapEntries(there));
        var i :| 0 <= i < |there| && SwapEntries(there)[i] == e;
        assert Forwards(there[i].note) by { assert there[i] in there; }
      }
    }
  }

  // ------------------------------------------------------------------ schemas without numbers

  ghost predicate UnnumberedAll(ss: seq<Schema>)
    decreases ss, 0
  {
    forall i :: 0 <= i < |ss| ==> Unnumbered(ss[i])
  }

  ghost predicate UnnumberedOpt(o: Option<Schema>)
    decreases o, 0
  {
    o.Some? ==> Unnumbered(o.value)
  }

  /** No message below the node numbers its fields. */
  ghost predicate Unnumbered(s: Schema)
    decreases s, 1
  {
    && s.kw.proto.fieldNumbers == map[]
    && (forall x :: x in s.properties ==> Unnumbered(s.properties[x]))
    && (forall x :: x in s.dependentSchemas ==> Unnumbered(s.dependentSchemas[x]))
    && (forall x :: x in s.patternProperties ==> Unnumbered(s.patternProperties[x]))
    && UnnumberedOpt(s.items) && UnnumberedAll(s.prefixItems)
    && UnnumberedAll(s.oneOf) && UnnumberedAll(s.anyOf) && UnnumberedAll(s.allOf)
    && UnnumberedOpt(s.propertyNames) && UnnumberedOpt(s.contains)
    && UnnumberedOpt(s.ifSchema) && UnnumberedOpt(s.thenSchema) && UnnumberedOpt(s.elseSchema)
  }

  lemma {:induction false} UnnumberedOptHeld(o: Option<Schema>, n: Option<Schema>)
    requires UnnumberedOpt(o) && UnnumberedOpt(n)
    ensures HeldOpt(o, n)
    decreases o, 0
  {
    hide Held, Unnumbered;
    if o.Some? && n.Some? { UnnumberedHeld(o.value, n.value); }
  }

  lemma {:induction false} UnnumberedAllHeld(o: seq<Schema>, n: seq<Schema>)
    requires UnnumberedAll(o) && UnnumberedAll(n)
    ensures HeldList(o, n) && HeldTuple(o, n)
    decreases o, 0
  {
    hide Held, Unnumbered;
    if |o| == |n| {
      forall i | 0 <= i < |o| ensures Held(o[i], n[i]) { UnnumberedHeld(o[i], n[i]); }
    }
  }

  lemma {:induction false} UnnumberedKeyedHeld(prev: Schema, next: Schema)
    requires Unnumbered(prev) && Unnumbered(next)
    ensures HeldKeyed(prev, next)
    decreases prev, 0
  {
    hide Held, Unnumbered, UnnumberedOpt, UnnumberedAll;
    UnnumberedMeans(prev);
    UnnumberedMeans(next);
    forall x | x in prev.properties && x in next.properties ensures Held(prev.properties[x], next.properties[x]) {
      UnnumberedHeld(prev.properties[x], next.properties[x]);
    }
    forall x | x in prev.dependentSchemas && x in next.dependentSchemas ensures Held(prev.dependentSchemas[x], next.dependentSchemas[x]) {
      UnnumberedHeld(prev.dependentSchemas[x], next.dependentSchemas[x]);
    }
    forall x | x in prev.patternProperties && x in next.patternProperties ensures Held(prev.patternProperties[x], next.patternProperties[x]) {
      UnnumberedHeld(prev.patternProperties[x], next.patternProperties[x]);
    }
  }

  lemma {:induction false} UnnumberedMeans(s: Schema)
    requires Unnumbered(s)
    ensures forall x :: x in s.properties ==> Unnumbered(s.properties[x])
    ensures forall x :: x in s.dependentSchemas ==> Unnumbered(s.dependentSchemas[x])
    ensures forall x :: x in s.patternProperties ==> Unnumbered(s.patternProperties[x])
  {
    hide UnnumberedOpt, UnnumberedAll;
  }

  lemma {:induction false} UnnumberedHeld(prev: Schema, next: Schema)
    requires Unnumbered(prev) && Unnumbered(next)
    ensures Held(prev, next)
    decreases prev, 1
  {
    UnnumberedKeyedHeld(prev, next);
    UnnumberedOptHeld(prev.items, next.items);
    UnnumberedAllHeld(prev.prefixItems, next.prefixItems);
    UnnumberedAllHeld(prev.oneOf, next.oneOf);
    UnnumberedAllHeld(prev.anyOf, next.anyOf);
    UnnumberedAllHeld(prev.allOf, next.allOf);
    UnnumberedOptHeld(prev.propertyNames, next.propertyNames);
    UnnumberedOptHeld(prev.contains, next.contains);
    UnnumberedOptHeld(prev.ifSchema, next.ifSchema);
    UnnumberedOptHeld(prev.thenSchema, next.thenSchema);
    UnnumberedOptHeld(prev.elseSchema, next.elseSchema);
    hide HeldKeyed, HeldOpt, HeldList, HeldTuple, UnnumberedOpt, UnnumberedAll, Unreserved, Released, LostPresence;
  }

  /** Outside protobuf the two directions always mirror each other. */
  lemma {:induction false} UnnumberedMirror(prev: Schema, next: Schema, path: seq<Step>)
    requires Unnumbered(prev) && Unnumbered(next)
    ensures multiset(SchemaEntries(next, prev, path)) == multiset(SwapEntries(SchemaEntries(prev, next, path)))
  {
    hide Unnumbered, Held, SchemaEntries;
    UnnumberedHeld(prev, next);
    UnnumberedHeld(next, prev);
    Mirror(prev, next, path);
  }

  lemma {:induction false} InsidePermuted(parent: Schema, a: seq<Task>, b: seq<Task>)
    requires Inside(parent, a) && multiset(a) == multiset(b)
    ensures Inside(parent, b)
  {
    forall i | 0 <= i < |b| && b[i].Recurse? ensures b[i].prev < parent {
      assert b[i] in multiset(a);
      var j :| 0 <= j < |a| && a[j] == b[i];
    }
  }
}
