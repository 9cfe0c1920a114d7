/** `DiffEngine`: the object that appends changes and counts them, walking two services side by side. Its list of changes
    is, at every moment, the numbered list of what has been recorded; a run records exactly `ServiceRecords`. */
module Engine {
  import opened Model
  import opened Ordering
  import opened Diff
  import opened Changes
  import opened ChangeIds

  /** The records of some tasks of a node. */
  ghost function Raised(c: Context, parent: Schema, tasks: seq<Task>, path: seq<Step>): seq<Record>
    requires Inside(parent, tasks)
  {
    RecordsOf(c, Flatten(parent, tasks, path))
  }

  lemma {:induction false} RecordsConcat(c: Context, a: seq<Entry>, b: seq<Entry>)
    ensures RecordsOf(c, a + b) == RecordsOf(c, a) + RecordsOf(c, b)
  {
  }

  lemma {:induction false} RaisedOne(c: Context, parent: Schema, tasks: seq<Task>, task: Task, path: seq<Step>)
    requires Inside(parent, tasks) && Inside(parent, [task])
    ensures Inside(parent, tasks + [task])
    ensures Raised(c, parent, tasks + [task], path) == Raised(c, parent, tasks, path) + RecordsOf(c, TaskEntries(task, path))
  {
    hide Inside, TaskEntries, Flatten, RecordsOf;
    FlattenConcat(parent, tasks, [task], path);
    FlattenStep(parent, [task], path);
    assert [task][1..] == [];
    FlattenNone(parent, path);
    assert TaskEntries(task, path) + [] == TaskEntries(task, path);
    RecordsConcat(c, Flatten(parent, tasks, path), TaskEntries(task, path));
  }

  lemma {:induction false} RaisedNone(c: Context, parent: Schema, path: seq<Step>)
    ensures Inside(parent, []) && Raised(c, parent, [], path) == []
  {
    FlattenNone(parent, path);
  }

  lemma {:induction false} RaisedAll(c: Context, prev: Schema, next: Schema, path: seq<Step>)
    ensures Inside(prev, Tasks(prev, next)) && Raised(c, prev, Tasks(prev, next), path) == RecordsOf(c, SchemaEntries(prev, next, path))
  {
    TasksInside(prev, next);
    hide Tasks;
  }

  function CounterOf(counters: map<Scope, nat>, scope: Scope): nat {
    if scope in counters then counters[scope] else 0
  }

  /** Each counter is how often its scope has occurred. */
  ghost predicate Counted(d: Digest, counters: map<Scope, nat>, records: seq<Record>) {
    forall scope :: CounterOf(counters, scope) == Count(d, records, scope)
  }

  lemma {:induction false} OneMore(d: Digest, counters: map<Scope, nat>, records: seq<Record>, r: Record)
    requires Counted(d, counters, records)
    ensures
      var scope := ScopeOf(d, r);
      var ordinal := CounterOf(counters, scope) + 1;
      && Counted(d, counters[scope := ordinal], records + [r])
      && Numbered(d, records + [r]) == Numbered(d, records) + [Change(IdOf(scope, ordinal), r)]
  {
    hide Numbered, IdOf, Count, ScopeOf;
    NumberedNext(d, records, r);
    var after := counters[ScopeOf(d, r) := CounterOf(counters, ScopeOf(d, r)) + 1];
    forall scope ensures CounterOf(after, scope) == Count(d, records + [r], scope) {
      assert CounterOf(counters, scope) == Count(d, records, scope);
    }
  }

  lemma {:induction false} NothingCounted(d: Digest)
    ensures Counted(d, map[], []) && Numbered(d, []) == []
  {
  }

  /** One task more. */
  lemma {:induction false} DoneStep(c: Context, parent: Schema, path: seq<Step>, start: seq<Record>, done: seq<Task>, task: Task, was: seq<Record>)
    requires Inside(parent, done) && Inside(parent, [task]) && was == start + Raised(c, parent, done, path)
    ensures Inside(parent, done + [task])
    ensures was + RecordsOf(c, TaskEntries(task, path)) == start + Raised(c, parent, done + [task], path)
  {
    hide *;
    RaisedOne(c, parent, done, task, path);
  }

  lemma {:induction false} RecurseEntries(step: Step, prev: Schema, next: Schema, path: seq<Step>, parent: Schema)
    requires prev < parent
    ensures Inside(parent, [Recurse(step, prev, next)])
    ensures TaskEntries(Recurse(step, prev, next), path) == SchemaEntries(prev, next, path + [step])
  {
  }

  lemma {:induction false} EmitRecords(c: Context, note: Note, path: seq<Step>, parent: Schema)
    ensures Inside(parent, [Emit(note)]) && RecordsOf(c, TaskEntries(Emit(note), path)) == [RecordOf(c, Entry(path, note))]
  {
  }

  class DiffEngine {
    const digest: Digest
    var changes: seq<Change>
    var counters: map<Scope, nat>
    ghost var records: seq<Record>

    /** The list is the records numbered, and the counters are what the numbering has come to. */
    ghost predicate Valid()
      reads this
    {
      changes == Numbered(digest, records) && Counted(digest, counters, records)
    }

    constructor (digest: Digest)
      ensures Valid() && records == [] && this.digest == digest
    {
      this.digest := digest;
      changes, counters, records := [], map[], [];
      new;
      NothingCounted(digest);
    }

    /** `_add`. */
    method Add(r: Record)
      requires Valid()
      modifies this
      ensures Valid() && records == old(records) + [r]
    {
      hide Numbered, Counted, IdOf, Count;
      var scope := ScopeOf(digest, r);
      var ordinal := CounterOf(counters, scope) + 1;
      OneMore(digest, counters, records, r);
      counters := counters[scope := ordinal];
      changes := changes + [Change(IdOf(scope, ordinal), r)];
      records := records + [r];
    }

    method AddIf(condition: bool, r: Record)
      requires Valid()
      modifies this
      ensures Valid() && records == old(records) + Only(condition, r)
    {
      if condition { Add(r); }
    }

    // ---------------------------------------------------------------- schemas

    /** Since `start`, exactly these tasks of the node have been carried out. */
    ghost predicate Done(c: Context, parent: Schema, path: seq<Step>, start: seq<Record>, tasks: seq<Task>)
      reads this
    {
      Valid() && Inside(parent, tasks) && records == start + Raised(c, parent, tasks, path)
    }

    lemma {:induction false} StartDone(c: Context, parent: Schema, path: seq<Step>)
      requires Valid()
      ensures Done(c, parent, path, records, [])
    {
      RaisedNone(c, parent, path);
      assert records + [] == records;
    }

    lemma {:induction false} AllDone(c: Context, prev: Schema, next: Schema, path: seq<Step>, start: seq<Record>)
      requires Done(c, prev, path, start, Tasks(prev, next))
      ensures Valid() && records == start + RecordsOf(c, SchemaEntries(prev, next, path))
    {
      RaisedAll(c, prev, next, path);
      hide Tasks, SchemaEntries, Raised;
    }

    /** Report a difference of the node itself. */
    method Report(c: Context, path: seq<Step>, condition: bool, note: Note, ghost parent: Schema, ghost start: seq<Record>, ghost done: seq<Task>)
      returns (ghost more: seq<Task>)
      requires Done(c, parent, path, start, done)
      modifies this
      ensures more == done + Emits(When(condition, note)) && Done(c, parent, path, start, more)
    {
      hide Flatten, KindOf, Raised, Inside, RecordsOf, TaskEntries, Valid;
      more := done;
      assert Emits(When(condition, note)) == if condition then [Emit(note)] else [];
      if condition {
        EmitRecords(c, note, path, parent);
        DoneStep(c, parent, path, start, done, Emit(note), records);
        Add(RecordOf(c, Entry(path, note)));
        more := done + [Emit(note)];
      }
    }

    /** Compare two sub-schemas. */
    method Compare(c: Context, path: seq<Step>, step: Step, prev: Schema, next: Schema, ghost parent: Schema, ghost start: seq<Record>, ghost done: seq<Task>)
      returns (ghost more: seq<Task>)
      requires Done(c, parent, path, start, done) && prev < parent
      modifies this
      ensures more == done + [Recurse(step, prev, next)] && Done(c, parent, path, start, more)
      decreases prev, 9
    {
      hide Flatten, Raised, Inside, RecordsOf, TaskEntries, Valid, SchemaEntries;
      RecurseEntries(step, prev, next, path, parent);
      DoneStep(c, parent, path, start, done, Recurse(step, prev, next), records);
      DiffSchema(c, prev, next, path + [step]);
      more := done + [Recurse(step, prev, next)];
    }

    /** `_diff_schema`. */
    method DiffSchema(c: Context, prev: Schema, next: Schema, path: seq<Step>)
      requires Valid()
      modifies this
      ensures Valid() && records == old(records) + RecordsOf(c, SchemaEntries(prev, next, path))
      decreases prev, 8
    {
      hide *;
      ghost var start, done := records, [];
      StartDone(c, prev, path);
      done := DiffNumbers(c, prev, next, path, start, done);
      done := DiffKeywords(c, prev, next, path, start, done);
      done := DiffFields(c, prev, next, path, start, done);
      done := DiffRequired(c, prev, next, path, start, done);
      done := DiffMiddle(c, prev, next, path, start, done);
      done := DiffDependents(c, prev, next, path, start, done);
      done := DiffTuples(c, prev, next, path, start, done);
      done := DiffPatterns(c, prev, next, path, start, done);
      done := DiffSingles(c, prev, next, path, start, done);
      assert done == Tasks(prev, next) by { EnginePieces(prev, next); }
      AllDone(c, prev, next, path, start);
    }

    /** A loop of reports. */
    method ReportEach(c: Context, path: seq<Step>, notes: seq<Note>, ghost parent: Schema, ghost start: seq<Record>, ghost done: seq<Task>)
      returns (ghost more: seq<Task>)
      requires Done(c, parent, path, start, done)
      modifies this
      ensures more == done + Emits(notes) && Done(c, parent, path, start, more)
    {
      more := done;
      hide Done;
      for i := 0 to |notes|
        invariant more == done + Emits(notes[..i]) && Done(c, parent, path, start, more)
      {
        more := Report(c, path, true, notes[i], parent, start, more);
        assert Emits(notes[..i + 1]) == Emits(notes[..i]) + Emits([notes[i]]);
      }
      assert notes[..|notes|] == notes;
    }

    /** `_diff_protobuf_schema`. */
    method DiffNumbers(c: Context, prev: Schema, next: Schema, path: seq<Step>, ghost start: seq<Record>, ghost done: seq<Task>)
      returns (ghost more: seq<Task>)
      requires Done(c, prev, path, start, done)
      modifies this
      ensures more == done + Emits(ProtoNotes(prev, next)) && Done(c, prev, path, start, more)
    {
      hide Done, Flatten, NumberNotes, SortedNumbers, SortedKeys, Emits, Unreserved, LostPresence, Joined, Released;
      more := done;
      if prev.kw.proto.fieldNumbers == map[] && next.kw.proto.fieldNumbers == map[] {
        NothingEmitted();
        return;
      }
      var shared := SortNumbers(prev.kw.proto.fieldNumbers.Keys * next.kw.proto.fieldNumbers.Keys);
      SortedNumbersElements(prev.kw.proto.fieldNumbers.Keys * next.kw.proto.fieldNumbers.Keys);
      more := DiffShared(c, prev, next, shared, path, start, more);
      var unreserved := SortNumbers(Unreserved(prev, next));
      more := ReportEach(c, path, UnreservedNotes(prev, unreserved), prev, start, more);
      var lost := SortKeys(LostPresence(prev, next));
      more := ReportEach(c, path, PresenceNotes(lost), prev, start, more);
      more := DiffGroups(c, prev, next, path, start, more);
      var free := SortNumbers(Released(prev, next));
      more := ReportEach(c, path, ReleasedNotes(free), prev, start, more);
      ProtoPieces(prev, next);
    }

    /** Fields that moved into a `oneof`, and fields that moved out of one. */
    method DiffGroups(c: Context, prev: Schema, next: Schema, path: seq<Step>, ghost start: seq<Record>, ghost done: seq<Task>)
      returns (ghost more: seq<Task>)
      requires Done(c, prev, path, start, done)
      modifies this
      ensures more == done + Emits(MembershipNotes(prev, next)) && Done(c, prev, path, start, more)
    {
      hide Done, Flatten, SortedKeys, Emits, Joined, GroupNotes;
      var o, n := prev.kw.proto, next.kw.proto;
      var moved := SortKeys(Joined(prev, next));
      more := ReportEach(c, path, GroupNotes(o, n, moved), prev, start, done);
      var left := SortKeys(Joined(next, prev));
      more := ReportEach(c, path, GroupNotes(o, n, left), prev, start, more);
      EmitsSplit(GroupNotes(o, n, moved), GroupNotes(o, n, left));
    }

    /** Numbers both messages have: a rename, or a reuse, where the name changed. */
    method DiffShared(c: Context, prev: Schema, next: Schema, numbers: seq<int>, path: seq<Step>, ghost start: seq<Record>, ghost done: seq<Task>)
      returns (ghost more: seq<Task>)
      requires Done(c, prev, path, start, done)
      requires forall x :: x in numbers ==> x in prev.kw.proto.fieldNumbers && x in next.kw.proto.fieldNumbers
      modifies this
      ensures more == done + Emits(NumberNotes(prev, next, numbers)) && Done(c, prev, path, start, more)
    {
      hide Done, Flatten, WireShape, Emits;
      more := done;
      assert numbers[0..] == numbers;
      for i := 0 to |numbers|
        invariant forall x :: x in numbers[i..] ==> x in prev.kw.proto.fieldNumbers && x in next.kw.proto.fieldNumbers
        invariant more + Emits(NumberNotes(prev, next, numbers[i..])) == done + Emits(NumberNotes(prev, next, numbers))
        invariant Done(c, prev, path, start, more)
      {
        assert numbers[i] in numbers && numbers[i..] == [numbers[i]] + numbers[i + 1..];
        NextNumber(prev, next, numbers[i], numbers[i + 1..]);
        hide NumberNote, NumberNotes;
        more := DiffNumber(c, prev, next, numbers[i], path, start, more);
      }
      assert numbers[|numbers|..] == [];
      NothingEmitted();
    }

    method DiffNumber(c: Context, prev: Schema, next: Schema, number: int, path: seq<Step>, ghost start: seq<Record>, ghost done: seq<Task>)
      returns (ghost more: seq<Task>)
      requires Done(c, prev, path, start, done)
      requires number in prev.kw.proto.fieldNumbers && number in next.kw.proto.fieldNumbers
      modifies this
      ensures more == done + Emits(NumberNote(prev, next, number)) && Done(c, prev, path, start, more)
    {
      hide Done, Flatten, WireShape, Emits;
      more := done;
      var was, now := prev.kw.proto.fieldNumbers[number], next.kw.proto.fieldNumbers[number];
      if was == now {
        NothingEmitted();
      } else if WireShape(Lookup(prev.properties, was)) == WireShape(Lookup(next.properties, now)) {
        more := Report(c, path, true, Note(NumberRenamed(number), OfText(Some(was)), OfText(Some(now))), prev, start, more);
      } else {
        more := Report(c, path, true, Note(NumberReused(number), OfText(Some(was)), OfText(Some(now))), prev, start, more);
      }
    }

    method DiffKeywords(c: Context, prev: Schema, next: Schema, path: seq<Step>, ghost start: seq<Record>, ghost done: seq<Task>)
      returns (ghost more: seq<Task>)
      requires Done(c, prev, path, start, done)
      modifies this
      ensures more == done + Emits(KeywordNotes(prev.kw, next.kw)) && Done(c, prev, path, start, more)
    {
      hide Done, Flatten, PyEq, EnumEq, Emits, Constraints, KeywordNotes, ConstraintNotes, When;
      var o, n := prev.kw, next.kw;
      more := done;
      more := Report(c, path, !PyEq(o.default, n.default), Note(DefaultOf, OfValue(o.default), OfValue(n.default)), prev, start, more);
      more := Report(c, path, OfBool(o.nullable) != OfBool(n.nullable), Note(Nullability, OfBool(o.nullable), OfBool(n.nullable)), prev, start, more);
      more := Report(c, path, OfType(o.typ) != OfType(n.typ), Note(Type, OfType(o.typ), OfType(n.typ)), prev, start, more);
      more := Report(c, path, OfText(o.format) != OfText(n.format), Note(Format, OfText(o.format), OfText(n.format)), prev, start, more);
      more := Report(c, path, !EnumEq(o.enum, n.enum), Note(Enum, OfEnum(o.enum), OfEnum(n.enum)), prev, start, more);
      more := Report(c, path, !PyEq(o.constant, n.constant), Note(Const, OfValue(o.constant), OfValue(n.constant)), prev, start, more);
      ThirteenConstraints(o);
      ThirteenConstraints(n);
      more := DiffConstraints(c, Constraints(o), Constraints(n), path, prev, start, more);
      SevenPieces(prev.kw, next.kw, done);
    }

    /** The table of compared constraints. */
    method DiffConstraints(c: Context, before: seq<Detail>, after: seq<Detail>, path: seq<Step>, ghost parent: Schema, ghost start: seq<Record>, ghost done: seq<Task>)
      returns (ghost more: seq<Task>)
      requires Done(c, parent, path, start, done) && |before| == |after|
      modifies this
      ensures more == done + Emits(ConstraintNotes(before, after, |before|)) && Done(c, parent, path, start, more)
    {
      hide Done, Flatten, Emits;
      more := done;
      NothingEmitted();
      for i := 0 to |before|
        invariant more == done + Emits(ConstraintNotes(before, after, i)) && Done(c, parent, path, start, more)
      {
        more := Report(c, path, before[i] != after[i], Note(Constraint(i), before[i], after[i]), parent, start, more);
        EmitsSplit(ConstraintNotes(before, after, i), Changed(Constraint(i), before[i], after[i]));
      }
    }

    method DiffFields(c: Context, prev: Schema, next: Schema, path: seq<Step>, ghost start: seq<Record>, ghost done: seq<Task>)
      returns (ghost more: seq<Task>)
      requires Done(c, prev, path, start, done)
      modifies this
      ensures more == done + Emits(RemovedAdded(prev, next)) + Shared(prev, next) && Done(c, prev, path, start, more)
      decreases prev, 7
    {
      hide Done, Flatten, SortedKeys;
      var removed := SortKeys(prev.properties.Keys - next.properties.Keys);
      more := ReportEach(c, path, FieldNotes(removed, Present, Absent), prev, start, done);
      var added := SortKeys(next.properties.Keys - prev.properties.Keys);
      more := ReportEach(c, path, FieldNotes(added, Absent, Present), prev, start, more);
      EmitsSplit(FieldNotes(removed, Present, Absent), FieldNotes(added, Absent, Present));
      var shared := SortKeys(prev.properties.Keys * next.properties.Keys);
      SortedKeysElements(prev.properties.Keys * next.properties.Keys);
      more := DiffProperties(c, prev, next, shared, path, start, more);
    }

    method DiffProperties(c: Context, prev: Schema, next: Schema, names: seq<string>, path: seq<Step>, ghost start: seq<Record>, ghost done: seq<Task>)
      returns (ghost more: seq<Task>)
      requires Done(c, prev, path, start, done) && forall x :: x in names ==> x in prev.properties && x in next.properties
      modifies this
      ensures more == done + SharedTasks(prev, next, names) && Done(c, prev, path, start, more)
      decreases prev, 6
    {
      hide Done, Flatten;
      more := done;
      ghost var all := SharedTasks(prev, next, names);
      for i := 0 to |names|
        invariant more == done + all[..i] && Done(c, prev, path, start, more)
      {
        var name := names[i];
        assert name in names;
        more := Compare(c, path, Prop(name), prev.properties[name], next.properties[name], prev, start, more);
        assert all[..i + 1] == all[..i] + [all[i]];
      }
      assert all[..|names|] == all;
    }

    method DiffRequired(c: Context, prev: Schema, next: Schema, path: seq<Step>, ghost start: seq<Record>, ghost done: seq<Task>)
      returns (ghost more: seq<Task>)
      requires Done(c, prev, path, start, done)
      modifies this
      ensures more == done + Emits(RequiredChanges(prev, next)) && Done(c, prev, path, start, more)
    {
      hide Done, Flatten, SortedKeys, Transitions;
      var gained := SortKeys(Transitions(prev, next, next.kw.required, prev.kw.required));
      more := ReportEach(c, path, RequiredNotes(gained, false), prev, start, done);
      var lost := SortKeys(Transitions(prev, next, prev.kw.required, next.kw.required));
      more := ReportEach(c, path, RequiredNotes(lost, true), prev, start, more);
      EmitsSplit(RequiredNotes(gained, false), RequiredNotes(lost, true));
    }

    method DiffVariants(c: Context, list: Variants, o: seq<Schema>, n: seq<Schema>, path: seq<Step>, ghost parent: Schema, ghost start: seq<Record>, ghost done: seq<Task>)
      returns (ghost more: seq<Task>)
      requires Done(c, parent, path, start, done) && forall i :: 0 <= i < |o| ==> o[i] < parent
      modifies this
      ensures more == done + VariantTasks(list, o, n) && Done(c, parent, path, start, more)
      decreases parent, 6
    {
      hide Done, Flatten;
      more := done;
      ghost var all := VariantTasks(list, o, n);
      if |o| != |n| { return; }
      for i := 0 to |o|
        invariant more == done + all[..i] && Done(c, parent, path, start, more)
      {
        more := Compare(c, path, Variant(list, i), o[i], n[i], parent, start, more);
        assert all[..i + 1] == all[..i] + [all[i]];
      }
      assert all[..|o|] == all;
    }

    method DiffDiscriminator(c: Context, o: Option<Discriminator>, n: Option<Discriminator>, path: seq<Step>, ghost parent: Schema, ghost start: seq<Record>, ghost done: seq<Task>)
      returns (ghost more: seq<Task>)
      requires Done(c, parent, path, start, done)
      modifies this
      ensures more == done + Emits(DiscriminatorNotes(o, n)) && Done(c, parent, path, start, more)
    {
      hide Done, Flatten, SortedKeys, MappingNotes, Emits;
      var oMap, nMap := MappingOf(o), MappingOf(n);
      more := Report(c, path, OfText(PropertyOf(o)) != OfText(PropertyOf(n)),
                     Note(DiscriminatorProperty, OfText(PropertyOf(o)), OfText(PropertyOf(n))), parent, start, done);
      var gone := SortKeys(oMap.Keys - nMap.Keys);
      more := ReportEach(c, path, MappingNotes(oMap, nMap, gone), parent, start, more);
      var added := SortKeys(nMap.Keys - oMap.Keys);
      more := ReportEach(c, path, MappingNotes(oMap, nMap, added), parent, start, more);
      var both := SortKeys(oMap.Keys * nMap.Keys);
      more := ReportEach(c, path, MappingNotes(oMap, nMap, both), parent, start, more);
      hide DiscriminatorNotes, MappingOf, PropertyOf;
      DiscriminatorShape(o, n);
      var first := Changed(DiscriminatorProperty, OfText(PropertyOf(o)), OfText(PropertyOf(n)));
      EmitsSplit(MappingNotes(oMap, nMap, gone), MappingNotes(oMap, nMap, added));
      EmitsSplit(first, MappingNotes(oMap, nMap, gone) + MappingNotes(oMap, nMap, added));
      EmitsSplit(first + (MappingNotes(oMap, nMap, gone) + MappingNotes(oMap, nMap, added)), MappingNotes(oMap, nMap, both));
    }

    method DiffMiddle(c: Context, prev: Schema, next: Schema, path: seq<Step>, ghost start: seq<Record>, ghost done: seq<Task>)
      returns (ghost more: seq<Task>)
      requires Done(c, prev, path, start, done)
      modifies this
      ensures more == done + MiddleTasks(prev, next) && Done(c, prev, path, start, more)
      decreases prev, 7
    {
      hide Done, Flatten, DiscriminatorNotes, VariantTasks, Emits;
      more := done;
      if prev.items.Some? && next.items.Some? { more := Compare(c, path, Items, prev.items.value, next.items.value, prev, start, more); }
      more := DiffDiscriminator(c, prev.kw.discriminator, next.kw.discriminator, path, prev, start, more);
      more := DiffVariants(c, OneOf, prev.oneOf, next.oneOf, path, prev, start, more);
      more := DiffVariants(c, AnyOf, prev.anyOf, next.anyOf, path, prev, start, more);
      more := DiffVariants(c, AllOf, prev.allOf, next.allOf, path, prev, start, more);
    }

    /** Compared when both sides have it, reported when one has. */
    method DiffLoud(c: Context, step: Step, what: What, o: Option<Schema>, n: Option<Schema>, path: seq<Step>, ghost parent: Schema, ghost start: seq<Record>, ghost done: seq<Task>)
      returns (ghost more: seq<Task>)
      requires Done(c, parent, path, start, done) && (o.Some? ==> o.value < parent)
      modifies this
      ensures more == done + LoudTask(step, what, o, n) && Done(c, parent, path, start, more)
      decreases parent, 6
    {
      hide Done, Flatten;
      more := done;
      if o.Some? && n.Some? {
        more := Compare(c, path, step, o.value, n.value, parent, start, more);
      } else if o.Some? {
        more := Report(c, path, true, Note(what, Present, Absent), parent, start, more);
      } else if n.Some? {
        more := Report(c, path, true, Note(what, Absent, Present), parent, start, more);
      }
    }

    method DiffDependents(c: Context, prev: Schema, next: Schema, path: seq<Step>, ghost start: seq<Record>, ghost done: seq<Task>)
      returns (ghost more: seq<Task>)
      requires Done(c, prev, path, start, done)
      modifies this
      ensures more == done + DependentTasks(prev, next) && Done(c, prev, path, start, more)
      decreases prev, 7
    {
      hide Done, Flatten, SortedKeys, DependentRequiredNotes, Emits, LoudTask;
      var names := SortKeys(prev.kw.dependentRequired.Keys + next.kw.dependentRequired.Keys);
      more := ReportEach(c, path, DependentRequiredNotes(prev.kw.dependentRequired, next.kw.dependentRequired, names), prev, start, done);
      var keys := SortKeys(prev.dependentSchemas.Keys + next.dependentSchemas.Keys);
      ghost var goal := more + DependentSchemaTasks(prev.dependentSchemas, next.dependentSchemas, keys);
      assert goal == done + DependentTasks(prev, next);
      assert keys[0..] == keys;
      for i := 0 to |keys|
        invariant more + DependentSchemaTasks(prev.dependentSchemas, next.dependentSchemas, keys[i..]) == goal && Done(c, prev, path, start, more)
      {
        var name := keys[i];
        assert keys[i..][0] == name && keys[i..][1..] == keys[i + 1..];
        more := DiffLoud(c, Dependent(name), DependentSchema(name), Lookup(prev.dependentSchemas, name), Lookup(next.dependentSchemas, name),
                         path, prev, start, more);
      }
      assert keys[|keys|..] == [];
    }

    method DiffTuples(c: Context, prev: Schema, next: Schema, path: seq<Step>, ghost start: seq<Record>, ghost done: seq<Task>)
      returns (ghost more: seq<Task>)
      requires Done(c, prev, path, start, done)
      modifies this
      ensures more == done + PrefixTasks(prev.prefixItems, next.prefixItems) && Done(c, prev, path, start, more)
      decreases prev, 7
    {
      hide Done, Flatten;
      more := done;
      var o, n := prev.prefixItems, next.prefixItems;
      if |o| != |n| {
        more := Report(c, path, true, Note(TupleLength, OfInt(Some(|o|)), OfInt(Some(|n|))), prev, start, more);
        return;
      }
      ghost var all := PrefixTasks(o, n);
      for i := 0 to |o|
        invariant more == done + all[..i] && Done(c, prev, path, start, more)
      {
        if o[i].kw.typ != n[i].kw.typ {
          more := Report(c, path, true, Note(TupleType(i), OfType(o[i].kw.typ), OfType(n[i].kw.typ)), prev, start, more);
        } else {
          more := Compare(c, path, Prefix(i), o[i], n[i], prev, start, more);
        }
        assert all[..i + 1] == all[..i] + [all[i]];
      }
      assert all[..|o|] == all;
    }

    method DiffPatterns(c: Context, prev: Schema, next: Schema, path: seq<Step>, ghost start: seq<Record>, ghost done: seq<Task>)
      returns (ghost more: seq<Task>)
      requires Done(c, prev, path, start, done)
      modifies this
      ensures more == done + PatternTasks(prev.patternProperties, next.patternProperties, SortedKeys(prev.patternProperties.Keys + next.patternProperties.Keys))
      ensures Done(c, prev, path, start, more)
      decreases prev, 7
    {
      hide Done, Flatten, SortedKeys, LoudTask;
      more := done;
      var keys := SortKeys(prev.patternProperties.Keys + next.patternProperties.Keys);
      ghost var goal := more + PatternTasks(prev.patternProperties, next.patternProperties, keys);
      assert keys[0..] == keys;
      for i := 0 to |keys|
        invariant more + PatternTasks(prev.patternProperties, next.patternProperties, keys[i..]) == goal && Done(c, prev, path, start, more)
      {
        var pattern := keys[i];
        assert keys[i..][0] == pattern && keys[i..][1..] == keys[i + 1..];
        more := DiffLoud(c, PatternOf(pattern), PatternSchema(pattern), Lookup(prev.patternProperties, pattern), Lookup(next.patternProperties, pattern),
                         path, prev, start, more);
      }
      assert keys[|keys|..] == [];
    }

    method DiffSingles(c: Context, prev: Schema, next: Schema, path: seq<Step>, ghost start: seq<Record>, ghost done: seq<Task>)
      returns (ghost more: seq<Task>)
      requires Done(c, prev, path, start, done)
      modifies this
      ensures more == done + SingleTasks(prev, next) && Done(c, prev, path, start, more)
      decreases prev, 7
    {
      hide Done, Flatten, LoudTask, Emits;
      more := DiffLoud(c, Names, NamesSchema, prev.propertyNames, next.propertyNames, path, prev, start, done);
      more := DiffLoud(c, Contained, ContainsSchema, prev.contains, next.contains, path, prev, start, more);
      var o, n := prev.kw, next.kw;
      more := Report(c, path, OfInt(o.minContains) != OfInt(n.minContains), Note(MinContains, OfInt(o.minContains), OfInt(n.minContains)), prev, start, more);
      more := Report(c, path, OfInt(o.maxContains) != OfInt(n.maxContains), Note(MaxContains, OfInt(o.maxContains), OfInt(n.maxContains)), prev, start, more);
      EmitsSplit(Changed(MinContains, OfInt(o.minContains), OfInt(n.minContains)), Changed(MaxContains, OfInt(o.maxContains), OfInt(n.maxContains)));
      more := DiffLoud(c, Conditional(If), BranchSchema(If), prev.ifSchema, next.ifSchema, path, prev, start, more);
      more := DiffLoud(c, Conditional(Then), BranchSchema(Then), prev.thenSchema, next.thenSchema, path, prev, start, more);
      more := DiffLoud(c, Conditional(Else), BranchSchema(Else), prev.elseSchema, next.elseSchema, path, prev, start, more);
    }

    // ---------------------------------------------------------------- operations

    method AddEach(more: seq<Record>)
      requires Valid()
      modifies this
      ensures Valid() && records == old(records) + more
    {
      hide Valid;
      for i := 0 to |more|
        invariant Valid() && records == old(records) + more[..i]
      {
        Add(more[i]);
      }
      assert more[..|more|] == more;
    }

    method DiffParameters(old_: Operation, new_: Operation, key: string)
      requires Valid()
      modifies this
      ensures Valid() && records == old(records) + ParameterRecords(old_, new_, key)
    {
      hide Valid, SortedIdents, ParameterNotes, SummaryOf, SchemaRecords, SharedParameters, ParametersOf;
      var o, n := ParametersOf(old_), ParametersOf(new_);
      var removed := SortIdents(o.Keys - n.Keys);
      AddEach(ParameterNotes("PARAMETER_REMOVED", key, removed));
      var added := SortIdents(n.Keys - o.Keys);
      AddEach(ParameterNotes("PARAMETER_ADDED", key, added));
      var shared := SortIdents(o.Keys * n.Keys);
      SortedIdentsElements(o.Keys * n.Keys);
      DiffSharedParameters(o, n, key, shared);
    }

    method DiffSharedParameters(o: map<(string, string), Parameter>, n: map<(string, string), Parameter>, key: string, idents: seq<(string, string)>)
      requires Valid() && forall x :: x in idents ==> x in o && x in n
      modifies this
      ensures Valid() && records == old(records) + SharedParameters(key, o, n, idents)
    {
      hide Valid, SharedParameterRecords;
      for i := 0 to |idents|
        invariant Valid() && (forall x :: x in idents[..i] ==> x in o && x in n)
        invariant records == old(records) + SharedParameters(key, o, n, idents[..i])
      {
        var ident := idents[i];
        assert ident in idents && idents[..i + 1][..i] == idents[..i];
        DiffParameter(key, ident, o[ident], n[ident]);
      }
      assert idents[..|idents|] == idents;
    }

    method DiffParameter(key: string, ident: (string, string), o: Parameter, n: Parameter)
      requires Valid()
      modifies this
      ensures Valid() && records == old(records) + SharedParameterRecords(key, ident, o, n)
    {
      hide Valid, SummaryOf, SchemaEntries;
      AddIf(o.required != n.required, Record("PARAMETER_REQUIREDNESS", key, Request, ParameterRequired(ident, n.required)));
      if SummaryOf(o.schema) != SummaryOf(n.schema) {
        Add(Record("PARAMETER_TYPE_CHANGED", key, Request, ParameterSummary(ident, SummaryOf(o.schema), SummaryOf(n.schema))));
      } else if o.schema.Some? && n.schema.Some? {
        DiffSchema(Context(key, InParameter(ident.0), Request), o.schema.value, n.schema.value, []);
      }
    }

    method DiffMedia(carrier: Carrier, key: string, o: map<string, Schema>, n: map<string, Schema>, media: seq<string>)
      requires Valid() && forall m :: m in media ==> m in o && m in n
      modifies this
      ensures Valid() && records == old(records) + MediaRecords(carrier, key, o, n, media)
    {
      hide Valid, ContextOf, SchemaEntries;
      for i := 0 to |media|
        invariant Valid() && (forall m :: m in media[..i] ==> m in o && m in n)
        invariant records == old(records) + MediaRecords(carrier, key, o, n, media[..i])
      {
        assert media[i] in media && media[..i + 1][..i] == media[..i];
        DiffSchema(ContextOf(carrier, key, media[i]), o[media[i]], n[media[i]], []);
      }
      assert media[..|media|] == media;
    }

    method DiffBody(o: Operation, n: Operation, key: string)
      requires Valid()
      modifies this
      ensures Valid() && records == old(records) + BodyRecords(o, n, key)
    {
      hide Valid, SortedKeys, MediaRecords, BodyMediaNotes;
      if o.body.None? && n.body.None? { return; }
      if o.body.None? || n.body.None? {
        Add(Record("REQUEST_SCHEMA_CHANGED", key, Request, BodyItself(n.body.Some?)));
        return;
      }
      var was, now := o.body.value, n.body.value;
      var shared := SortKeys(was.content.Keys * now.content.Keys);
      SortedKeysElements(was.content.Keys * now.content.Keys);
      DiffMedia(InRequest(n.sends), key, was.content, now.content, shared);
      var gone := SortKeys(was.content.Keys - now.content.Keys);
      AddEach(BodyMediaNotes(key, gone, false));
      var added := SortKeys(now.content.Keys - was.content.Keys);
      AddEach(BodyMediaNotes(key, added, true));
      AddIf(was.required != now.required, Record("REQUEST_SCHEMA_CHANGED", key, Request, BodyRequired(now.required)));
    }

    method DiffReply(key: string, status: string, o: Reply, n: Reply)
      requires Valid()
      modifies this
      ensures Valid() && records == old(records) + SharedReplyRecords(key, status, o, n)
    {
      hide Valid, SortedKeys, MediaRecords, HeaderNotes, ReplyMediaNotes;
      var gone := SortKeys(o.headers - n.headers);
      AddEach(HeaderNotes("HEADER_REMOVED", key, status, gone));
      var added := SortKeys(n.headers - o.headers);
      AddEach(HeaderNotes("HEADER_ADDED", key, status, added));
      var shared := SortKeys(o.content.Keys * n.content.Keys);
      SortedKeysElements(o.content.Keys * n.content.Keys);
      DiffMedia(InResponse(status), key, o.content, n.content, shared);
      var changed := SortKeys((o.content.Keys - n.content.Keys) + (n.content.Keys - o.content.Keys));
      AddEach(ReplyMediaNotes(key, status, o.content, changed));
    }

    method DiffReplies(old_: Operation, new_: Operation, key: string)
      requires Valid()
      modifies this
      ensures Valid() && records == old(records) + ReplyRecords(old_, new_, key)
    {
      hide Valid, SortedKeys, ReplyNotes, SharedReplies, RepliesOf;
      var o, n := RepliesOf(old_), RepliesOf(new_);
      var removed := SortKeys(o.Keys - n.Keys);
      AddEach(ReplyNotes("RESPONSE_REMOVED", key, removed));
      var added := SortKeys(n.Keys - o.Keys);
      AddEach(ReplyNotes("RESPONSE_ADDED", key, added));
      var shared := SortKeys(o.Keys * n.Keys);
      SortedKeysElements(o.Keys * n.Keys);
      DiffSharedReplies(o, n, key, shared);
    }

    method DiffSharedReplies(o: map<string, Reply>, n: map<string, Reply>, key: string, statuses: seq<string>)
      requires Valid() && forall x :: x in statuses ==> x in o && x in n
      modifies this
      ensures Valid() && records == old(records) + SharedReplies(key, o, n, statuses)
    {
      hide Valid, SharedReplyRecords;
      for i := 0 to |statuses|
        invariant Valid() && (forall x :: x in statuses[..i] ==> x in o && x in n)
        invariant records == old(records) + SharedReplies(key, o, n, statuses[..i])
      {
        assert statuses[i] in statuses && statuses[..i + 1][..i] == statuses[..i];
        DiffReply(key, statuses[i], o[statuses[i]], n[statuses[i]]);
      }
      assert statuses[..|statuses|] == statuses;
    }

    /** `_diff_operation`. */
    method DiffOperation(o: Operation, n: Operation, was: seq<string>, now: seq<string>)
      requires Valid()
      modifies this
      ensures Valid() && records == old(records) + OperationRecords(o, n, was, now)
    {
      hide Valid, ParameterRecords, ReplyRecords, BodyRecords, StreamingRecords, SecurityRecords, DeprecationRecords;
      DiffParameters(o, n, o.key);
      DiffStreaming(o, n, o.key);
      DiffBody(o, n, o.key);
      DiffReplies(o, n, o.key);
      DiffSecurity(o, n, o.key, was, now);
      DiffDeprecation(o, n, o.key);
    }

    method DiffStreaming(o: Operation, n: Operation, key: string)
      requires Valid()
      modifies this
      ensures Valid() && records == old(records) + StreamingRecords(o, n, key)
    {
      if !o.grpc || !n.grpc { return; }
      var before, after := (o.clientStreaming, o.serverStreaming), (n.clientStreaming, n.serverStreaming);
      AddIf(before != after, Record("RPC_STREAMING_CHANGED", key, Meta, Cardinality(before, after)));
    }

    method DiffSecurity(o: Operation, n: Operation, key: string, was: seq<string>, now: seq<string>)
      requires Valid()
      modifies this
      ensures Valid() && records == old(records) + SecurityRecords(o, n, key, was, now)
    {
      var before, after := SchemesOf(o, was), SchemesOf(n, now);
      AddIf(before != after, Record("SECURITY_CHANGED", key, Security, Schemes(before, after)));
    }

    method DiffDeprecation(o: Operation, n: Operation, key: string)
      requires Valid()
      modifies this
      ensures Valid() && records == old(records) + DeprecationRecords(o, n, key)
    {
      if !o.deprecated && n.deprecated {
        Add(Record("DEPRECATION_ADDED", key, Meta, Deprecation));
      } else if o.deprecated && !n.deprecated {
        Add(Record("DEPRECATION_REMOVED", key, Meta, Deprecation));
      }
    }

    method DiffSharedOperations(o: map<string, Operation>, n: map<string, Operation>, was: seq<string>, now: seq<string>, keys: seq<string>)
      requires Valid() && forall k :: k in keys ==> k in o && k in n
      modifies this
      ensures Valid() && records == old(records) + SharedOperations(o, n, was, now, keys)
    {
      hide Valid, OperationRecords;
      for i := 0 to |keys|
        invariant Valid() && (forall k :: k in keys[..i] ==> k in o && k in n)
        invariant records == old(records) + SharedOperations(o, n, was, now, keys[..i])
      {
        assert keys[i] in keys && keys[..i + 1][..i] == keys[..i];
        DiffOperation(o[keys[i]], n[keys[i]], was, now);
      }
      assert keys[..|keys|] == keys;
    }

    /** `run`: the changes are the numbered records of the two services. */
    method Run(old_: Service, new_: Service) returns (result: seq<Change>)
      requires Valid() && records == []
      modifies this
      ensures Valid() && records == ServiceRecords(old_, new_) && result == Numbered(digest, ServiceRecords(old_, new_))
    {
      hide OperationsOf, SortedKeys, WholeRecords, SharedOperations, Numbered, Counted;
      var o, n := OperationsOf(old_), OperationsOf(new_);
      var gone := SortKeys(o.Keys - n.Keys);
      SortedKeysElements(o.Keys - n.Keys);
      AddEach(WholeRecords(o, gone, false));
      var added := SortKeys(n.Keys - o.Keys);
      SortedKeysElements(n.Keys - o.Keys);
      AddEach(WholeRecords(n, added, true));
      var both := SortKeys(o.Keys * n.Keys);
      SortedKeysElements(o.Keys * n.Keys);
      DiffSharedOperations(o, n, old_.security, new_.security, both);
      AddIf(old_.version != new_.version, Record("DESCRIPTION_CHANGED", SERVICE, Meta, Version(old_.version, new_.version)));
      AddIf(old_.servers != new_.servers, Record("SERVER_CHANGED", SERVICE, Meta, Servers(old_.servers, new_.servers)));
      result := changes;
    }
  }

  method SortIdents(s: set<(string, string)>) returns (idents: seq<(string, string)>)
    ensures idents == SortedIdents(s)
  {
    var xs: seq<(string, string)> := [];
    var todo := s;
    while todo != {}
      invariant todo <= s && forall x :: x in xs <==> x in s - todo
    {
      var x :| x in todo;
      xs := xs + [x];
      todo := todo - {x};
    }
    IdentsTotal();
    SortedSetSame(IdentLess, xs, Listing(s), (x: (string, string)) => true);
    idents := SortedSet(IdentLess, xs);
  }

  lemma {:induction false} EmitsSplit(a: seq<Note>, b: seq<Note>)
    ensures Emits(a + b) == Emits(a) + Emits(b)
  {
  }

  lemma {:induction false} NothingEmitted()
    ensures Emits([]) == []
  {
  }

  lemma {:induction false} ProtoPieces(prev: Schema, next: Schema)
    requires Numbering(prev, next)
    ensures Emits(ProtoNotes(prev, next)) ==
      Emits(SharedNumberNotes(prev, next)) + Emits(UnreservedNotes(prev, SortedNumbers(Unreserved(prev, next))))
      + Emits(PresenceNotes(SortedKeys(LostPresence(prev, next)))) + Emits(MembershipNotes(prev, next))
      + Emits(ReleasedNotes(SortedNumbers(Released(prev, next))))
  {
    hide *;
    var a, b := SharedNumberNotes(prev, next), UnreservedNotes(prev, SortedNumbers(Unreserved(prev, next)));
    var c, d := PresenceNotes(SortedKeys(LostPresence(prev, next))), MembershipNotes(prev, next);
    NumberedNotes(prev, next);
    EmitsSplit(a, b);
    EmitsSplit(a + b, c);
    EmitsSplit(a + b + c, d);
    EmitsSplit(a + b + c + d, ReleasedNotes(SortedNumbers(Released(prev, next))));
  }

  lemma {:induction false} NextNumber(prev: Schema, next: Schema, number: int, rest: seq<int>)
    requires forall x :: x in [number] + rest ==> x in prev.kw.proto.fieldNumbers && x in next.kw.proto.fieldNumbers
    ensures number in prev.kw.proto.fieldNumbers && number in next.kw.proto.fieldNumbers
    ensures forall x :: x in rest ==> x in prev.kw.proto.fieldNumbers && x in next.kw.proto.fieldNumbers
    ensures Emits(NumberNotes(prev, next, [number] + rest)) == Emits(NumberNote(prev, next, number)) + Emits(NumberNotes(prev, next, rest))
  {
    hide NumberNote, Emits;
    assert number in [number] + rest && forall x :: x in rest ==> x in [number] + rest;
    assert ([number] + rest)[1..] == rest;
    EmitsSplit(NumberNote(prev, next, number), NumberNotes(prev, next, rest));
  }

  lemma {:induction false} EmitsAfter(done: seq<Task>, a: seq<Note>, b: seq<Note>)
    ensures done + Emits(a + b) == done + Emits(a) + Emits(b)
  {
    EmitsSplit(a, b);
  }

  lemma {:induction false} SevenPieces(o: Keywords, n: Keywords, done: seq<Task>)
    ensures |Constraints(o)| == 13 == |Constraints(n)|
    ensures done + Emits(KeywordNotes(o, n)) ==
      done + Emits(When(!PyEq(o.default, n.default), Note(DefaultOf, OfValue(o.default), OfValue(n.default))))
      + Emits(Changed(Nullability, OfBool(o.nullable), OfBool(n.nullable)))
      + Emits(Changed(Type, OfType(o.typ), OfType(n.typ)))
      + Emits(Changed(Format, OfText(o.format), OfText(n.format)))
      + Emits(When(!EnumEq(o.enum, n.enum), Note(Enum, OfEnum(o.enum), OfEnum(n.enum))))
      + Emits(When(!PyEq(o.constant, n.constant), Note(Const, OfValue(o.constant), OfValue(n.constant))))
      + Emits(ConstraintNotes(Constraints(o), Constraints(n), 13))
  {
    ThirteenConstraints(o);
    ThirteenConstraints(n);
    hide Constraints, ConstraintNotes, PyEq, EnumEq, When, Changed, Emits;
    var a := When(!PyEq(o.default, n.default), Note(DefaultOf, OfValue(o.default), OfValue(n.default)));
    var b := Changed(Nullability, OfBool(o.nullable), OfBool(n.nullable));
    var c := Changed(Type, OfType(o.typ), OfType(n.typ));
    var d := Changed(Format, OfText(o.format), OfText(n.format));
    var e := When(!EnumEq(o.enum, n.enum), Note(Enum, OfEnum(o.enum), OfEnum(n.enum)));
    var f := When(!PyEq(o.constant, n.constant), Note(Const, OfValue(o.constant), OfValue(n.constant)));
    EmitsAfter(done, a, b);
    EmitsAfter(done, a + b, c);
    EmitsAfter(done, a + b + c, d);
    EmitsAfter(done, a + b + c + d, e);
    EmitsAfter(done, a + b + c + d + e, f);
    EmitsAfter(done, a + b + c + d + e + f, ConstraintNotes(Constraints(o), Constraints(n), 13));
  }

  /** The segments in the order the engine carries them out. */
  lemma {:induction false} EnginePieces(prev: Schema, next: Schema)
    ensures [] + Emits(ProtoNotes(prev, next)) + Emits(KeywordNotes(prev.kw, next.kw)) + Emits(RemovedAdded(prev, next)) + Shared(prev, next)
      + Emits(RequiredChanges(prev, next)) + MiddleTasks(prev, next) + DependentTasks(prev, next)
      + PrefixTasks(prev.prefixItems, next.prefixItems)
      + PatternTasks(prev.patternProperties, next.patternProperties, SortedKeys(prev.patternProperties.Keys + next.patternProperties.Keys))
      + SingleTasks(prev, next) == Tasks(prev, next)
  {
    hide Emits, ProtoNotes, KeywordNotes, RemovedAdded, Shared, RequiredChanges, MiddleTasks, DependentTasks, PrefixTasks, PatternTasks, SortedKeys, SingleTasks;
  }
}
