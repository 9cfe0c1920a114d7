/** The order of a report: at each node kind of difference by kind of difference, and within a kind by name or number, each
    difference once. */
module DiffOnce {
  import opened Model
  import opened Ordering
  import opened Diff
  import opened DiffExact

  // ------------------------------------------------------------------ the order of tasks

  datatype Key = Alone | Numbered(n: int) | Named(s: string)

  datatype Place = Place(rank: int, key: Key)

  /** Where a note belongs: what is about protobuf, keywords, properties, then the rest of the node; what goes comes before
      what comes. */
  function NotePlace(note: Note): Place {
    match note.what
    case NumberRenamed(k) => Place(0, Numbered(k))
    case NumberReused(k) => Place(0, Numbered(k))
    case NumberUnreserved(k) => Place(1, Numbered(k))
    case PresenceLost(x) => Place(2, Named(x))
    case OneofMember(x) => Place(if note.before == OfText(None) then 3 else 4, Named(x))
    case ReservationDropped(k) => Place(5, Numbered(k))
    case DefaultOf => Place(6, Alone)
    case Nullability => Place(7, Alone)
    case Type => Place(8, Alone)
    case Format => Place(9, Alone)
    case Enum => Place(10, Alone)
    case Const => Place(11, Alone)
    case Constraint(i) => Place(12, Numbered(i))
    case Field(x) => Place(if note.before == Present then 13 else 14, Named(x))
    case Requiredness(x) => Place(if note.before == OfBool(false) then 16 else 17, Named(x))
    case DiscriminatorProperty => Place(19, Alone)
    case DiscriminatorMapping(key) =>
      Place(if note.after == OfText(None) then 20 else if note.before == OfText(None) then 21 else 22, Named(key))
    case DependentRequired(t) => Place(26, Named(t))
    case DependentSchema(t) => Place(27, Named(t))
    case TupleLength => Place(28, Alone)
    case TupleType(i) => Place(28, Numbered(i))
    case PatternSchema(e) => Place(29, Named(e))
    case NamesSchema => Place(30, Alone)
    case ContainsSchema => Place(31, Alone)
    case MinContains => Place(32, Alone)
    case MaxContains => Place(33, Alone)
    case BranchSchema(branch) => Place(match branch case If => 34 case Then => 35 case Else => 36, Alone)
  }

  /** Where the comparison of two sub-schemas belongs. */
  function StepPlace(step: Step): Place {
    match step
    case Prop(x) => Place(15, Named(x))
    case Items => Place(18, Alone)
    case Variant(list, i) => Place(match list case OneOf => 23 case AnyOf => 24 case AllOf => 25, Numbered(i))
    case Dependent(t) => Place(27, Named(t))
    case Prefix(i) => Place(28, Numbered(i))
    case PatternOf(e) => Place(29, Named(e))
    case Names => Place(30, Alone)
    case Contained => Place(31, Alone)
    case Conditional(branch) => Place(match branch case If => 34 case Then => 35 case Else => 36, Alone)
  }

  function TaskPlace(t: Task): Place {
    match t
    case Emit(note) => NotePlace(note)
    case Recurse(step, _, _) => StepPlace(step)
  }

  predicate KeyLess(a: Key, b: Key) {
    (a.Numbered? && b.Numbered? && a.n < b.n) || (a.Named? && b.Named? && NameLess(a.s, b.s))
  }

  predicate Before(a: Place, b: Place) { a.rank < b.rank || (a.rank == b.rank && KeyLess(a.key, b.key)) }

  lemma {:induction false} NotBeforeItself(a: Place)
    ensures !Before(a, a)
  {
    if a.key.Named? { NameLessTotal(a.key.s, a.key.s); }
  }

  ghost predicate Ordered(tasks: seq<Task>) {
    forall i, j :: 0 <= i < j < |tasks| ==> Before(TaskPlace(tasks[i]), TaskPlace(tasks[j]))
  }

  /** All ranks lie in the interval. */
  ghost predicate Ranked(tasks: seq<Task>, low: int, high: int) {
    forall i :: 0 <= i < |tasks| ==> low <= TaskPlace(tasks[i]).rank < high
  }

  ghost predicate Filed(tasks: seq<Task>, low: int, high: int) { Ordered(tasks) && Ranked(tasks, low, high) }

  lemma {:induction false} FiledConcat(a: seq<Task>, b: seq<Task>, low: int, mid: int, high: int)
    requires Filed(a, low, mid) && Filed(b, mid, high) && low <= mid <= high
    ensures Filed(a + b, low, high)
  {
    hide TaskPlace, KeyLess;
  }

  lemma {:induction false} FiledNone(low: int, high: int)
    ensures Filed([], low, high) && Emits([]) == []
  {
  }

  lemma {:induction false} EmitsAppend(a: seq<Note>, b: seq<Note>)
    ensures Emits(a + b) == Emits(a) + Emits(b)
  {
  }

  lemma {:induction false} NotesConcat(a: seq<Note>, b: seq<Note>, low: int, mid: int, high: int)
    requires Filed(Emits(a), low, mid) && Filed(Emits(b), mid, high) && low <= mid <= high
    ensures Filed(Emits(a + b), low, high)
  {
    hide Filed, Emits;
    FiledConcat(Emits(a), Emits(b), low, mid, high);
    EmitsAppend(a, b);
  }

  // ------------------------------------------------------------------ lists by name and by number

  /** Tasks of one rank about some of the names. */
  ghost predicate About(tasks: seq<Task>, rank: int, names: seq<string>) {
    forall i :: 0 <= i < |tasks| ==> TaskPlace(tasks[i]).rank == rank && TaskPlace(tasks[i]).key.Named? && TaskPlace(tasks[i]).key.s in names
  }

  lemma {:induction false} AboutRanked(tasks: seq<Task>, rank: int, names: seq<string>)
    requires About(tasks, rank, names) && Ordered(tasks)
    ensures Filed(tasks, rank, rank + 1)
  {
  }

  /** A list thinned out of a sorted one is sorted. */
  lemma {:induction false} AboutNext(head: seq<Task>, rest: seq<Task>, rank: int, names: seq<string>)
    requires names != [] && Ascending(NameLess, names) && |head| <= 1 && About(head, rank, [names[0]])
    requires About(rest, rank, names[1..]) && Ordered(rest)
    ensures About(head + rest, rank, names) && Ordered(head + rest)
  {
    hide TaskPlace;
    forall x | x in names[1..] ensures NameLess(names[0], x) && x in names {
      var i :| 0 <= i < |names[1..]| && names[1..][i] == x;
      assert names[i + 1] == x;
    }
  }

  ghost predicate AboutNumbers(tasks: seq<Task>, rank: int, numbers: seq<int>) {
    forall i :: 0 <= i < |tasks| ==> TaskPlace(tasks[i]).rank == rank && TaskPlace(tasks[i]).key.Numbered? && TaskPlace(tasks[i]).key.n in numbers
  }

  lemma {:induction false} NumbersNext(head: seq<Task>, rest: seq<Task>, rank: int, numbers: seq<int>)
    requires numbers != [] && Ascending(NumberLess, numbers) && |head| <= 1 && AboutNumbers(head, rank, [numbers[0]])
    requires AboutNumbers(rest, rank, numbers[1..]) && Ordered(rest)
    ensures AboutNumbers(head + rest, rank, numbers) && Ordered(head + rest)
  {
    hide TaskPlace;
    forall k | k in numbers[1..] ensures numbers[0] < k && k in numbers {
      var i :| 0 <= i < |numbers[1..]| && numbers[1..][i] == k;
      assert NumberLess(numbers[0], numbers[i + 1]);
    }
  }

  lemma {:induction false} TailAscending<T>(less: (T, T) -> bool, xs: seq<T>)
    requires Ascending(less, xs) && xs != []
    ensures Ascending(less, xs[1..])
  {
  }

  // ------------------------------------------------------------------ protobuf

  lemma {:induction false} SharedFiled(prev: Schema, next: Schema, numbers: seq<int>)
    requires forall x :: x in numbers ==> x in prev.kw.proto.fieldNumbers && x in next.kw.proto.fieldNumbers
    requires Ascending(NumberLess, numbers)
    ensures AboutNumbers(Emits(NumberNotes(prev, next, numbers)), 0, numbers) && Ordered(Emits(NumberNotes(prev, next, numbers)))
  {
    hide WireShape, Ordered, AboutNumbers;
    if numbers == [] {
      assert Ordered([]) && AboutNumbers([], 0, []) by { NoneFiled(); }
      assert Emits([]) == [];
    } else {
      TailAscending(NumberLess, numbers);
      SharedFiled(prev, next, numbers[1..]);
      OneFiled(prev, next, numbers[0]);
      NumbersNext(Emits(NumberNote(prev, next, numbers[0])), Emits(NumberNotes(prev, next, numbers[1..])), 0, numbers);
      EmitsAppend(NumberNote(prev, next, numbers[0]), NumberNotes(prev, next, numbers[1..]));
    }
  }

  lemma {:induction false} NoneFiled()
    ensures Ordered([]) && AboutNumbers([], 0, [])
  {
  }

  lemma {:induction false} OneFiled(prev: Schema, next: Schema, k: int)
    requires k in prev.kw.proto.fieldNumbers && k in next.kw.proto.fieldNumbers
    ensures |Emits(NumberNote(prev, next, k))| <= 1 && AboutNumbers(Emits(NumberNote(prev, next, k)), 0, [k])
  {
    hide WireShape;
  }

  lemma {:induction false} SharedNumbersFiled(prev: Schema, next: Schema)
    ensures Filed(Emits(SharedNumberNotes(prev, next)), 0, 1)
  {
    var both := prev.kw.proto.fieldNumbers.Keys * next.kw.proto.fieldNumbers.Keys;
    SortedNumbersElements(both);
    SortedNumbersAscending(both);
    SharedFiled(prev, next, SortedNumbers(both));
    hide SortedNumbers, NumberNotes, TaskPlace;
  }

  lemma {:induction false} LossesFiled(prev: Schema, numbers: seq<int>, names: seq<string>)
    requires Ascending(NumberLess, numbers) && Ascending(NameLess, names)
    ensures Filed(Emits(UnreservedNotes(prev, numbers)), 1, 2) && Filed(Emits(ReleasedNotes(numbers)), 5, 6)
    ensures Filed(Emits(PresenceNotes(names)), 2, 3)
  {
    hide NameLess;
  }

  lemma {:induction false} GroupsFiled(o: Proto, n: Proto, names: seq<string>, rank: int)
    requires Ascending(NameLess, names)
    requires forall x :: x in names ==> rank == if GroupOf(o, x).None? then 3 else 4
    ensures Filed(Emits(GroupNotes(o, n, names)), rank, rank + 1)
  {
    hide NameLess, GroupOf;
    forall i | 0 <= i < |names| ensures TaskPlace(Emits(GroupNotes(o, n, names))[i]) == Place(rank, Named(names[i])) { assert names[i] in names; }
  }

  lemma {:induction false} MembershipFiled(prev: Schema, next: Schema)
    ensures Filed(Emits(MembershipNotes(prev, next)), 3, 5)
  {
    var o, n := prev.kw.proto, next.kw.proto;
    SortedKeysElements(Joined(prev, next));
    SortedKeysElements(Joined(next, prev));
    SortedKeysAscending(Joined(prev, next));
    SortedKeysAscending(Joined(next, prev));
    GroupsFiled(o, n, SortedKeys(Joined(prev, next)), 3);
    GroupsFiled(o, n, SortedKeys(Joined(next, prev)), 4);
    hide SortedKeys, GroupNotes, Filed;
    NotesConcat(GroupNotes(o, n, SortedKeys(Joined(prev, next))), GroupNotes(o, n, SortedKeys(Joined(next, prev))), 3, 4, 5);
  }

  lemma {:induction false} ProtoFiled(prev: Schema, next: Schema)
    ensures Filed(Emits(ProtoNotes(prev, next)), 0, 6)
  {
    hide *;
    if Numbering(prev, next) {
      NumberedNotes(prev, next);
      SortedNumbersAscending(Unreserved(prev, next));
      SortedNumbersAscending(Released(prev, next));
      SortedKeysAscending(LostPresence(prev, next));
      NoNames();
      var a, b := SharedNumberNotes(prev, next), UnreservedNotes(prev, SortedNumbers(Unreserved(prev, next)));
      var c, d := PresenceNotes(SortedKeys(LostPresence(prev, next))), MembershipNotes(prev, next);
      SharedNumbersFiled(prev, next);
      LossesFiled(prev, SortedNumbers(Unreserved(prev, next)), SortedKeys(LostPresence(prev, next)));
      LossesFiled(prev, SortedNumbers(Released(prev, next)), []);
      MembershipFiled(prev, next);
      NotesConcat(a, b, 0, 1, 2);
      NotesConcat(a + b, c, 0, 2, 3);
      NotesConcat(a + b + c, d, 0, 3, 5);
      NotesConcat(a + b + c + d, ReleasedNotes(SortedNumbers(Released(prev, next))), 0, 5, 6);
    } else {
      Unnumbered(prev, next);
      FiledNone(0, 6);
    }
  }

  lemma {:induction false} NoNames()
    ensures Ascending(NameLess, [])
  {
  }

  lemma {:induction false} Unnumbered(prev: Schema, next: Schema)
    requires !Numbering(prev, next)
    ensures ProtoNotes(prev, next) == []
  {
  }

  // ------------------------------------------------------------------ keywords

  lemma {:induction false} OneChange(condition: bool, note: Note, rank: int)
    requires NotePlace(note).rank == rank
    ensures Filed(Emits(When(condition, note)), rank, rank + 1)
  {
  }

  lemma {:induction false} ChangeFiled(what: What, before: Detail, after: Detail, rank: int)
    requires NotePlace(Note(what, before, after)).rank == rank
    ensures Filed(Emits(Changed(what, before, after)), rank, rank + 1)
  {
    OneChange(before != after, Note(what, before, after), rank);
    hide Filed, NotePlace, Emits;
  }

  lemma {:induction false} ConstraintsFiled(before: seq<Detail>, after: seq<Detail>, n: nat)
    requires n <= |before| == |after|
    ensures Filed(Emits(ConstraintNotes(before, after, n)), 12, 13)
    ensures forall i :: 0 <= i < |ConstraintNotes(before, after, n)| ==>
      ConstraintNotes(before, after, n)[i].what.Constraint? && ConstraintNotes(before, after, n)[i].what.i < n
  {
    if n > 0 {
      ConstraintsFiled(before, after, n - 1);
      var front, last := ConstraintNotes(before, after, n - 1), Changed(Constraint(n - 1), before[n - 1], after[n - 1]);
      EmitsAppend(front, last);
      forall i | 0 <= i < |front| ensures TaskPlace(Emits(front)[i]) == Place(12, Numbered(front[i].what.i)) {}
      assert forall i :: 0 <= i < |last| ==> TaskPlace(Emits(last)[i]) == Place(12, Numbered(n - 1));
    }
  }

  lemma {:induction false} KeywordsFiled(o: Keywords, n: Keywords)
    ensures Filed(Emits(KeywordNotes(o, n)), 6, 13)
  {
    ThirteenConstraints(o);
    ThirteenConstraints(n);
    hide Constraints, ConstraintNotes, PyEq, EnumEq, When, Changed, Emits, Filed;
    var a := When(!PyEq(o.default, n.default), Note(DefaultOf, OfValue(o.default), OfValue(n.default)));
    var b := Changed(Nullability, OfBool(o.nullable), OfBool(n.nullable));
    var c := Changed(Type, OfType(o.typ), OfType(n.typ));
    var d := Changed(Format, OfText(o.format), OfText(n.format));
    var e := When(!EnumEq(o.enum, n.enum), Note(Enum, OfEnum(o.enum), OfEnum(n.enum)));
    var f := When(!PyEq(o.constant, n.constant), Note(Const, OfValue(o.constant), OfValue(n.constant)));
    OneChange(!PyEq(o.default, n.default), Note(DefaultOf, OfValue(o.default), OfValue(n.default)), 6);
    ChangeFiled(Nullability, OfBool(o.nullable), OfBool(n.nullable), 7);
    ChangeFiled(Type, OfType(o.typ), OfType(n.typ), 8);
    ChangeFiled(Format, OfText(o.format), OfText(n.format), 9);
    OneChange(!EnumEq(o.enum, n.enum), Note(Enum, OfEnum(o.enum), OfEnum(n.enum)), 10);
    OneChange(!PyEq(o.constant, n.constant), Note(Const, OfValue(o.constant), OfValue(n.constant)), 11);
    ConstraintsFiled(Constraints(o), Constraints(n), 13);
    hide NotePlace;
    NotesConcat(a, b, 6, 7, 8);
    NotesConcat(a + b, c, 6, 8, 9);
    NotesConcat(a + b + c, d, 6, 9, 10);
    NotesConcat(a + b + c + d, e, 6, 10, 11);
    NotesConcat(a + b + c + d + e, f, 6, 11, 12);
    NotesConcat(a + b + c + d + e + f, ConstraintNotes(Constraints(o), Constraints(n), 13), 6, 12, 13);
  }

  // ------------------------------------------------------------------ properties

  lemma {:induction false} NamedFiled(names: seq<string>, removed: bool, was: bool)
    requires Ascending(NameLess, names)
    ensures Filed(Emits(if removed then FieldNotes(names, Present, Absent) else FieldNotes(names, Absent, Present)), if removed then 13 else 14, if removed then 14 else 15)
    ensures Filed(Emits(RequiredNotes(names, was)), if was then 17 else 16, if was then 18 else 17)
  {
    hide NameLess;
  }

  lemma {:induction false} FieldsFiled(prev: Schema, next: Schema)
    ensures Filed(Emits(RemovedAdded(prev, next)), 13, 15)
  {
    var o, n := prev.properties.Keys, next.properties.Keys;
    SortedKeysAscending(o - n);
    SortedKeysAscending(n - o);
    hide SortedKeys, FieldNotes, Filed;
    NamedFiled(SortedKeys(o - n), true, true);
    NamedFiled(SortedKeys(n - o), false, true);
    NotesConcat(FieldNotes(SortedKeys(o - n), Present, Absent), FieldNotes(SortedKeys(n - o), Absent, Present), 13, 14, 15);
  }

  lemma {:induction false} SharedTasksFiled(prev: Schema, next: Schema)
    ensures Filed(Shared(prev, next), 15, 16)
  {
    var both := prev.properties.Keys * next.properties.Keys;
    SortedKeysAscending(both);
    SortedKeysElements(both);
    hide SortedKeys, NameLess;
  }

  lemma {:induction false} RequiredFiled(prev: Schema, next: Schema)
    ensures Filed(Emits(RequiredChanges(prev, next)), 16, 18)
  {
    var gained, lost := Transitions(prev, next, next.kw.required, prev.kw.required), Transitions(prev, next, prev.kw.required, next.kw.required);
    SortedKeysAscending(gained);
    SortedKeysAscending(lost);
    hide SortedKeys, RequiredNotes, Filed, Transitions;
    NamedFiled(SortedKeys(gained), true, false);
    NamedFiled(SortedKeys(lost), true, true);
    NotesConcat(RequiredNotes(SortedKeys(gained), false), RequiredNotes(SortedKeys(lost), true), 16, 17, 18);
  }

  // ------------------------------------------------------------------ the rest of a node

  lemma {:induction false} MappingFiled(o: map<string, string>, n: map<string, string>, keys: seq<string>, rank: int)
    requires Ascending(NameLess, keys)
    requires forall k :: k in keys ==> rank == if k !in n then 20 else if k !in o then 21 else 22
    ensures About(Emits(MappingNotes(o, n, keys)), rank, keys) && Ordered(Emits(MappingNotes(o, n, keys)))
  {
    hide Ordered, About;
    if keys == [] {
      NoneAbout(rank);
    } else {
      TailAscending(NameLess, keys);
      assert keys == [keys[0]] + keys[1..];
      MappingFiled(o, n, keys[1..], rank);
      OneMapping(o, n, keys[0], rank);
      AboutNext(Emits(MappingNote(o, n, keys[0])), Emits(MappingNotes(o, n, keys[1..])), rank, keys);
      EmitsAppend(MappingNote(o, n, keys[0]), MappingNotes(o, n, keys[1..]));
    }
  }

  lemma {:induction false} NoneAbout(rank: int)
    ensures Emits([]) == [] && About([], rank, []) && Ordered([])
  {
  }

  lemma {:induction false} OneMapping(o: map<string, string>, n: map<string, string>, key: string, rank: int)
    requires rank == if key !in n then 20 else if key !in o then 21 else 22
    ensures |Emits(MappingNote(o, n, key))| <= 1 && About(Emits(MappingNote(o, n, key)), rank, [key])
  {
  }

  lemma {:induction false} DiscriminatorFiled(o: Option<Discriminator>, n: Option<Discriminator>)
    ensures Filed(Emits(DiscriminatorNotes(o, n)), 19, 23)
  {
    hide MappingNotes, SortedKeys, Changed, DiscriminatorNotes, Filed, About, Ordered, Emits;
    var oMap, nMap := MappingOf(o), MappingOf(n);
    var gone, added, both := SortedKeys(oMap.Keys - nMap.Keys), SortedKeys(nMap.Keys - oMap.Keys), SortedKeys(oMap.Keys * nMap.Keys);
    DiscriminatorShape(o, n);
    SortedKeysAscending(oMap.Keys - nMap.Keys);
    SortedKeysAscending(nMap.Keys - oMap.Keys);
    SortedKeysAscending(oMap.Keys * nMap.Keys);
    SortedKeysElements(oMap.Keys - nMap.Keys);
    SortedKeysElements(nMap.Keys - oMap.Keys);
    SortedKeysElements(oMap.Keys * nMap.Keys);
    MappingFiled(oMap, nMap, gone, 20);
    MappingFiled(oMap, nMap, added, 21);
    MappingFiled(oMap, nMap, both, 22);
    hide MappingOf;
    AboutRanked(Emits(MappingNotes(oMap, nMap, gone)), 20, gone);
    AboutRanked(Emits(MappingNotes(oMap, nMap, added)), 21, added);
    AboutRanked(Emits(MappingNotes(oMap, nMap, both)), 22, both);
    ChangeFiled(DiscriminatorProperty, OfText(PropertyOf(o)), OfText(PropertyOf(n)), 19);
    var first := Changed(DiscriminatorProperty, OfText(PropertyOf(o)), OfText(PropertyOf(n)));
    NotesConcat(MappingNotes(oMap, nMap, gone), MappingNotes(oMap, nMap, added), 20, 21, 22);
    NotesConcat(first, MappingNotes(oMap, nMap, gone) + MappingNotes(oMap, nMap, added), 19, 20, 22);
    NotesConcat(first + (MappingNotes(oMap, nMap, gone) + MappingNotes(oMap, nMap, added)), MappingNotes(oMap, nMap, both), 19, 22, 23);
  }

  lemma {:induction false} VariantsFiled(list: Variants, o: seq<Schema>, n: seq<Schema>, rank: int)
    requires rank == (match list case OneOf => 23 case AnyOf => 24 case AllOf => 25)
    ensures Filed(VariantTasks(list, o, n), rank, rank + 1)
  {
  }

  lemma {:induction false} ItemsFiled(o: Option<Schema>, n: Option<Schema>)
    ensures Filed(QuietTask(Items, o, n), 18, 19)
  {
  }

  lemma {:induction false} MiddleFiled(prev: Schema, next: Schema)
    ensures Filed(MiddleTasks(prev, next), 18, 26)
  {
    hide Filed, VariantTasks, QuietTask, DiscriminatorNotes, Emits;
    var q, d := QuietTask(Items, prev.items, next.items), Emits(DiscriminatorNotes(prev.kw.discriminator, next.kw.discriminator));
    var one, any, all := VariantTasks(OneOf, prev.oneOf, next.oneOf), VariantTasks(AnyOf, prev.anyOf, next.anyOf), VariantTasks(AllOf, prev.allOf, next.allOf);
    ItemsFiled(prev.items, next.items);
    DiscriminatorFiled(prev.kw.discriminator, next.kw.discriminator);
    VariantsFiled(OneOf, prev.oneOf, next.oneOf, 23);
    VariantsFiled(AnyOf, prev.anyOf, next.anyOf, 24);
    VariantsFiled(AllOf, prev.allOf, next.allOf, 25);
    FiledConcat(q, d, 18, 19, 23);
    FiledConcat(q + d, one, 18, 23, 24);
    FiledConcat(q + d + one, any, 18, 24, 25);
    FiledConcat(q + d + one + any, all, 18, 25, 26);
  }

  lemma {:induction false} DependentRequiredFiled(o: map<string, seq<string>>, n: map<string, seq<string>>, names: seq<string>)
    requires Ascending(NameLess, names)
    ensures About(Emits(DependentRequiredNotes(o, n, names)), 26, names) && Ordered(Emits(DependentRequiredNotes(o, n, names)))
  {
    hide Ordered, About;
    if names == [] {
      NoneAbout(26);
    } else {
      var first := Changed(DependentRequired(names[0]), OfNames(DependentRequiredOf(o, names[0])), OfNames(DependentRequiredOf(n, names[0])));
      TailAscending(NameLess, names);
      DependentRequiredFiled(o, n, names[1..]);
      OneDependent(first, names[0], OfNames(DependentRequiredOf(o, names[0])), OfNames(DependentRequiredOf(n, names[0])));
      AboutNext(Emits(first), Emits(DependentRequiredNotes(o, n, names[1..])), 26, names);
      EmitsAppend(first, DependentRequiredNotes(o, n, names[1..]));
    }
  }

  lemma {:induction false} OneDependent(notes: seq<Note>, name: string, before: Detail, after: Detail)
    requires notes == Changed(DependentRequired(name), before, after)
    ensures |Emits(notes)| <= 1 && About(Emits(notes), 26, [name])
  {
  }

  lemma {:induction false} LoudAbout(o: Option<Schema>, n: Option<Schema>, x: string)
    ensures |LoudTask(Dependent(x), DependentSchema(x), o, n)| <= 1 && About(LoudTask(Dependent(x), DependentSchema(x), o, n), 27, [x])
    ensures |LoudTask(PatternOf(x), PatternSchema(x), o, n)| <= 1 && About(LoudTask(PatternOf(x), PatternSchema(x), o, n), 29, [x])
  {
  }

  lemma {:induction false} KeyedFiled(o: map<string, Schema>, n: map<string, Schema>, names: seq<string>)
    requires Ascending(NameLess, names)
    ensures About(DependentSchemaTasks(o, n, names), 27, names) && Ordered(DependentSchemaTasks(o, n, names))
    ensures About(PatternTasks(o, n, names), 29, names) && Ordered(PatternTasks(o, n, names))
  {
    hide Ordered, About, LoudTask;
    if names == [] {
      NoneAbout(27);
      NoneAbout(29);
    } else {
      var x := names[0];
      TailAscending(NameLess, names);
      KeyedFiled(o, n, names[1..]);
      LoudAbout(Lookup(o, x), Lookup(n, x), x);
      AboutNext(LoudTask(Dependent(x), DependentSchema(x), Lookup(o, x), Lookup(n, x)), DependentSchemaTasks(o, n, names[1..]), 27, names);
      AboutNext(LoudTask(PatternOf(x), PatternSchema(x), Lookup(o, x), Lookup(n, x)), PatternTasks(o, n, names[1..]), 29, names);
    }
  }

  lemma {:induction false} TuplesFiled(o: seq<Schema>, n: seq<Schema>)
    ensures Filed(PrefixTasks(o, n), 28, 29)
  {
  }

  lemma {:induction false} LaterFiled(prev: Schema, next: Schema)
    ensures Filed(DependentTasks(prev, next), 26, 28) && Filed(TupleAndPatternTasks(prev, next), 28, 30)
  {
    hide *;
    var required := SortedKeys(prev.kw.dependentRequired.Keys + next.kw.dependentRequired.Keys);
    var dependents, patterns := SortedKeys(prev.dependentSchemas.Keys + next.dependentSchemas.Keys), SortedKeys(prev.patternProperties.Keys + next.patternProperties.Keys);
    SortedKeysAscending(prev.kw.dependentRequired.Keys + next.kw.dependentRequired.Keys);
    SortedKeysAscending(prev.dependentSchemas.Keys + next.dependentSchemas.Keys);
    SortedKeysAscending(prev.patternProperties.Keys + next.patternProperties.Keys);
    var notes := DependentRequiredNotes(prev.kw.dependentRequired, next.kw.dependentRequired, required);
    DependentRequiredFiled(prev.kw.dependentRequired, next.kw.dependentRequired, required);
    AboutRanked(Emits(notes), 26, required);
    KeyedFiled(prev.dependentSchemas, next.dependentSchemas, dependents);
    KeyedFiled(prev.patternProperties, next.patternProperties, patterns);
    AboutRanked(DependentSchemaTasks(prev.dependentSchemas, next.dependentSchemas, dependents), 27, dependents);
    AboutRanked(PatternTasks(prev.patternProperties, next.patternProperties, patterns), 29, patterns);
    TuplesFiled(prev.prefixItems, next.prefixItems);
    FiledConcat(Emits(notes), DependentSchemaTasks(prev.dependentSchemas, next.dependentSchemas, dependents), 26, 27, 28);
    FiledConcat(PrefixTasks(prev.prefixItems, next.prefixItems), PatternTasks(prev.patternProperties, next.patternProperties, patterns), 28, 29, 30);
    LaterPieces(prev, next);
  }

  lemma {:induction false} LaterPieces(prev: Schema, next: Schema)
    ensures DependentTasks(prev, next) ==
      Emits(DependentRequiredNotes(prev.kw.dependentRequired, next.kw.dependentRequired,
                                   SortedKeys(prev.kw.dependentRequired.Keys + next.kw.dependentRequired.Keys)))
      + DependentSchemaTasks(prev.dependentSchemas, next.dependentSchemas, SortedKeys(prev.dependentSchemas.Keys + next.dependentSchemas.Keys))
    ensures TupleAndPatternTasks(prev, next) ==
      PrefixTasks(prev.prefixItems, next.prefixItems)
      + PatternTasks(prev.patternProperties, next.patternProperties, SortedKeys(prev.patternProperties.Keys + next.patternProperties.Keys))
  {
    hide Emits, DependentRequiredNotes, SortedKeys, DependentSchemaTasks, PrefixTasks, PatternTasks;
  }

  lemma {:induction false} LoudFiled(step: Step, what: What, o: Option<Schema>, n: Option<Schema>, rank: int)
    requires StepPlace(step).rank == rank && forall before, after :: NotePlace(Note(what, before, after)).rank == rank
    ensures Filed(LoudTask(step, what, o, n), rank, rank + 1)
  {
  }

  lemma {:induction false} SingleFiled(prev: Schema, next: Schema)
    ensures Filed(SingleTasks(prev, next), 30, 37)
  {
    var a := LoudTask(Names, NamesSchema, prev.propertyNames, next.propertyNames);
    var b := LoudTask(Contained, ContainsSchema, prev.contains, next.contains);
    var c := Emits(ContainsBounds(prev.kw, next.kw));
    var d := LoudTask(Conditional(If), BranchSchema(If), prev.ifSchema, next.ifSchema);
    var e := LoudTask(Conditional(Then), BranchSchema(Then), prev.thenSchema, next.thenSchema);
    var f := LoudTask(Conditional(Else), BranchSchema(Else), prev.elseSchema, next.elseSchema);
    hide Filed, LoudTask, Emits, Changed;
    LoudFiled(Names, NamesSchema, prev.propertyNames, next.propertyNames, 30);
    LoudFiled(Contained, ContainsSchema, prev.contains, next.contains, 31);
    ChangeFiled(MinContains, OfInt(prev.kw.minContains), OfInt(next.kw.minContains), 32);
    ChangeFiled(MaxContains, OfInt(prev.kw.maxContains), OfInt(next.kw.maxContains), 33);
    NotesConcat(Changed(MinContains, OfInt(prev.kw.minContains), OfInt(next.kw.minContains)),
                Changed(MaxContains, OfInt(prev.kw.maxContains), OfInt(next.kw.maxContains)), 32, 33, 34);
    LoudFiled(Conditional(If), BranchSchema(If), prev.ifSchema, next.ifSchema, 34);
    LoudFiled(Conditional(Then), BranchSchema(Then), prev.thenSchema, next.thenSchema, 35);
    LoudFiled(Conditional(Else), BranchSchema(Else), prev.elseSchema, next.elseSchema, 36);
    hide NotePlace, StepPlace;
    FiledConcat(a, b, 30, 31, 32);
    FiledConcat(a + b, c, 30, 32, 34);
    FiledConcat(a + b + c, d, 30, 34, 35);
    FiledConcat(a + b + c + d, e, 30, 35, 36);
    FiledConcat(a + b + c + d + e, f, 30, 36, 37);
  }

  lemma {:induction false} TasksOrdered(prev: Schema, next: Schema)
    ensures Ordered(Tasks(prev, next))
  {
    hide *;
    var p, k := Emits(ProtoNotes(prev, next)), Emits(KeywordNotes(prev.kw, next.kw));
    var a, b, c := Emits(RemovedAdded(prev, next)), Shared(prev, next), Emits(RequiredChanges(prev, next));
    var m, d, t := MiddleTasks(prev, next), DependentTasks(prev, next), TupleAndPatternTasks(prev, next);
    ProtoFiled(prev, next);
    KeywordsFiled(prev.kw, next.kw);
    FieldsFiled(prev, next);
    SharedTasksFiled(prev, next);
    RequiredFiled(prev, next);
    MiddleFiled(prev, next);
    LaterFiled(prev, next);
    SingleFiled(prev, next);
    FiledConcat(p, k, 0, 6, 13);
    FiledConcat(p + k, a, 0, 13, 15);
    FiledConcat(p + k + a, b, 0, 15, 16);
    FiledConcat(p + k + a + b, c, 0, 16, 18);
    FiledConcat(p + k + a + b + c, m, 0, 18, 26);
    FiledConcat(p + k + a + b + c + m, d, 0, 26, 28);
    FiledConcat(p + k + a + b + c + m + d, t, 0, 28, 30);
    FiledConcat(p + k + a + b + c + m + d + t, SingleTasks(prev, next), 0, 30, 37);
    TasksPieces(prev, next);
    FiledOrdered(Tasks(prev, next), 0, 37);
  }

  lemma {:induction false} FiledOrdered(tasks: seq<Task>, low: int, high: int)
    requires Filed(tasks, low, high)
    ensures Ordered(tasks)
  {
    hide Ordered;
  }

  // ------------------------------------------------------------------ the order of entries

  /** Where an entry belongs at a node on its path: by its note if it is about that node, else by the step it takes there. */
  function PlaceAt(e: Entry, node: seq<Step>): Place
    requires node <= e.path
  {
    if |node| == |e.path| then NotePlace(e.note) else StepPlace(e.path[|node|])
  }

  /** At some node on the way to both, the one comes first. */
  ghost predicate Earlier(d: Entry, e: Entry, node: seq<Step>) {
    node <= d.path && node <= e.path && Before(PlaceAt(d, node), PlaceAt(e, node))
  }

  ghost predicate First(d: Entry, e: Entry) { exists node: seq<Step> :: Earlier(d, e, node) }

  ghost predicate InOrder(entries: seq<Entry>) {
    forall i, j :: 0 <= i < j < |entries| ==> First(entries[i], entries[j])
  }

  /** An entry of the task: placed, at the node, where the task is. */
  ghost predicate From(t: Task, path: seq<Step>, e: Entry) {
    path <= e.path && PlaceAt(e, path) == TaskPlace(t)
  }

  lemma {:induction false} EntriesFrom(t: Task, path: seq<Step>, e: Entry)
    requires e in TaskEntries(t, path)
    ensures From(t, path, e)
  {
    if t.Recurse? {
      ReportExactly(t.prev, t.next, path + [t.step], e);
      SaysBelow(t.prev, t.next, path + [t.step], e);
      hide SchemaEntries, SaysWhatDiffers;
      assert e.path[|path|] == (path + [t.step])[|path|];
      assert path <= e.path;
    }
  }

  lemma {:induction false} SaysBelow(prev: Schema, next: Schema, path: seq<Step>, e: Entry)
    requires SaysWhatDiffers(prev, next, path, e)
    ensures path <= e.path
  {
    hide Differs;
  }

  lemma {:induction false} FlattenOrdered(parent: Schema, tasks: seq<Task>, path: seq<Step>)
    requires Inside(parent, tasks) && Ordered(tasks)
    ensures InOrder(Flatten(parent, tasks, path))
    decreases parent, 0, |tasks|
  {
    hide *;
    if tasks == [] {
      FlattenNone(parent, path);
      NothingInOrder();
    } else {
      var head, rest := tasks[0], tasks[1..];
      FlattenStep(parent, tasks, path);
      OrderedTail(tasks);
      FlattenOrdered(parent, rest, path);
      HeadInOrder(parent, tasks, path);
      forall d, e | d in TaskEntries(head, path) && e in Flatten(parent, rest, path)
        ensures First(d, e)
      {
        FlattenedExactly(parent, rest, path, e);
        var u :| u in rest && e in TaskEntries(u, path);
        EntriesFrom(head, path, d);
        EntriesFrom(u, path, e);
        HeadFirst(tasks, u);
        FromEarlier(head, u, path, d, e);
        FirstAt(d, e, path);
      }
      InOrderConcat(TaskEntries(head, path), Flatten(parent, rest, path));
    }
  }

  lemma {:induction false} NothingInOrder()
    ensures InOrder([])
  {
  }

  lemma {:induction false} OrderedTail(tasks: seq<Task>)
    requires Ordered(tasks) && tasks != []
    ensures Ordered(tasks[1..])
  {
    hide Before;
  }

  lemma {:induction false} HeadFirst(tasks: seq<Task>, u: Task)
    requires Ordered(tasks) && tasks != [] && u in tasks[1..]
    ensures Before(TaskPlace(tasks[0]), TaskPlace(u))
  {
    hide Before;
    var i :| 0 <= i < |tasks[1..]| && tasks[1..][i] == u;
    assert tasks[i + 1] == u;
  }

  lemma {:induction false} FromEarlier(t: Task, u: Task, path: seq<Step>, d: Entry, e: Entry)
    requires From(t, path, d) && From(u, path, e) && Before(TaskPlace(t), TaskPlace(u))
    ensures Earlier(d, e, path)
  {
    hide Before, TaskPlace;
  }

  lemma {:induction false} FirstAt(d: Entry, e: Entry, node: seq<Step>)
    requires Earlier(d, e, node)
    ensures First(d, e)
  {
    hide Earlier;
  }

  lemma {:induction false} HeadInOrder(parent: Schema, tasks: seq<Task>, path: seq<Step>)
    requires Inside(parent, tasks) && tasks != []
    ensures InOrder(TaskEntries(tasks[0], path))
    decreases parent, 0, 0
  {
    hide SchemaEntries, First;
    if tasks[0].Recurse? { EntriesInOrder(tasks[0].prev, tasks[0].next, path + [tasks[0].step]); }
  }

  lemma {:induction false} InOrderConcat(a: seq<Entry>, b: seq<Entry>)
    requires InOrder(a) && InOrder(b) && forall d, e :: d in a && e in b ==> First(d, e)
    ensures InOrder(a + b)
  {
    hide First;
    forall i, j | 0 <= i < j < |a + b| ensures First((a + b)[i], (a + b)[j]) {
      if i < |a| <= j { assert a[i] in a && b[j - |a|] in b; }
    }
  }

  /** Of any two entries of a report, the one that is listed first comes first at some node on the way to both: by the kind
      of difference, and within a kind by name or number. */
  lemma {:induction false} EntriesInOrder(prev: Schema, next: Schema, path: seq<Step>)
    ensures InOrder(SchemaEntries(prev, next, path))
    decreases prev, 1
  {
    TasksInside(prev, next);
    TasksOrdered(prev, next);
    hide Tasks, InOrder;
    FlattenOrdered(prev, Tasks(prev, next), path);
    hide Flatten;
  }

  /** Nothing is reported twice. */
  lemma {:induction false} EntriesOnce(prev: Schema, next: Schema, path: seq<Step>, i: nat, j: nat)
    requires i < j < |SchemaEntries(prev, next, path)|
    ensures SchemaEntries(prev, next, path)[i] != SchemaEntries(prev, next, path)[j]
  {
    EntriesInOrder(prev, next, path);
    hide SchemaEntries, Before;
    var entries := SchemaEntries(prev, next, path);
    assert First(entries[i], entries[j]);
    var node: seq<Step> :| Earlier(entries[i], entries[j], node);
    NotBeforeItself(PlaceAt(entries[i], node));
  }

  // ------------------------------------------------------------------ each field once

  function FieldOf(what: What): Option<string> {
    match what
    case Field(name) => Some(name)
    case Requiredness(name) => Some(name)
    case _ => None
  }

  predicate SameField(d: Entry, e: Entry) {
    d.path == e.path && FieldOf(d.note.what).Some? && FieldOf(d.note.what) == FieldOf(e.note.what)
  }

  ghost predicate Once(entries: seq<Entry>) {
    forall i, j :: 0 <= i < j < |entries| ==> !SameField(entries[i], entries[j])
  }

  lemma {:induction false} OneNote(o: Schema, n: Schema, a: Note, b: Note)
    requires Differs(o, n, a) && Differs(o, n, b) && FieldOf(a.what).Some? && FieldOf(a.what) == FieldOf(b.what)
    ensures a == b
  {
  }

  /** At each node, a property yields at most one of added, removed, became required and became optional. */
  lemma {:induction false} EachFieldOnce(prev: Schema, next: Schema, path: seq<Step>)
    ensures Once(SchemaEntries(prev, next, path))
  {
    hide SchemaEntries, Differs, FieldOf;
    var entries := SchemaEntries(prev, next, path);
    forall i, j | 0 <= i < j < |entries| ensures !SameField(entries[i], entries[j]) {
      var d, e := entries[i], entries[j];
      EntriesOnce(prev, next, path, i, j);
      ReportExactly(prev, next, path, d);
      ReportExactly(prev, next, path, e);
      assert d in entries && e in entries;
      if SameField(d, e) {
        var pair := Reach(prev, next, d.path[|path|..]).value;
        OneNote(pair.prev, pair.next, d.note, e.note);
      }
    }
  }
}
