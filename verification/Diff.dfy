/** What `_diff_schema` reports about two revisions of a schema, in order. Each node yields a list of tasks: report a
    difference of its own, or compare two sub-schemas. */
module Diff {
  import opened Model
  import opened Ordering

  datatype Variants = OneOf | AnyOf | AllOf
  datatype Branch = If | Then | Else

  datatype Step =
    | Prop(name: string) | Items | Variant(list: Variants, i: nat) | Dependent(name: string) | Prefix(i: nat)
    | PatternOf(pattern: string) | Names | Contained | Conditional(branch: Branch)

  /** What a difference is about. */
  datatype What =
    | DefaultOf | Nullability | Type | Format | Enum | Const | Constraint(i: nat)
    | Field(name: string) | Requiredness(name: string)
    | DiscriminatorProperty | DiscriminatorMapping(key: string)
    | DependentRequired(name: string) | DependentSchema(name: string)
    | TupleLength | TupleType(i: nat) | PatternSchema(pattern: string) | NamesSchema
    | ContainsSchema | MinContains | MaxContains | BranchSchema(branch: Branch)
    | NumberRenamed(number: int) | NumberReused(number: int) | NumberUnreserved(number: int) | ReservationDropped(number: int)
    | PresenceLost(name: string) | OneofMember(name: string)

  /** The two values a change carries. */
  datatype Detail =
    | Absent | Present
    | OfValue(v: Value) | OfEnum(e: Option<seq<Value>>) | OfType(t: Option<JType>) | OfText(s: Option<string>)
    | OfBool(b: bool) | OfFlag(f: Option<bool>) | OfInt(n: Option<int>) | OfReal(r: Option<real>) | OfNames(names: seq<string>)

  datatype Note = Note(what: What, before: Detail, after: Detail)

  datatype Task =
    | Emit(note: Note)
    | Recurse(step: Step, prev: Schema, next: Schema)

  datatype Entry = Entry(path: seq<Step>, note: Note)

  function When(condition: bool, n: Note): seq<Note> {
    if condition then [n] else []
  }

  function Changed(what: What, before: Detail, after: Detail): seq<Note> {
    When(before != after, Note(what, before, after))
  }

  function Emits(notes: seq<Note>): seq<Task> {
    seq(|notes|, i requires 0 <= i < |notes| => Emit(notes[i]))
  }

  // ------------------------------------------------------------------ keywords

  predicate EnumEq(a: Option<seq<Value>>, b: Option<seq<Value>>) {
    a.Some? == b.Some? && (a.Some? ==> ListEq(a.value, b.value))
  }

  /** The compared constraints other than `const`, in the order of the source's table. */
  function Constraints(kw: Keywords): seq<Detail> {
    var b := kw.bounds;
    [OfReal(b.minimum), OfReal(b.maximum), OfReal(b.exclusiveMinimum), OfReal(b.exclusiveMaximum), OfReal(kw.multipleOf),
     OfInt(b.minLength), OfInt(b.maxLength), OfText(kw.pattern), OfInt(b.minItems), OfInt(b.maxItems), OfFlag(kw.uniqueItems),
     OfInt(b.minProperties), OfInt(b.maxProperties)]
  }

  lemma {:induction false} ThirteenConstraints(kw: Keywords)
    ensures |Constraints(kw)| == 13
  {
  }

  function ConstraintNotes(before: seq<Detail>, after: seq<Detail>, n: nat): seq<Note>
    requires n <= |before| == |after|
  {
    if n == 0 then [] else ConstraintNotes(before, after, n - 1) + Changed(Constraint(n - 1), before[n - 1], after[n - 1])
  }

  function KeywordNotes(o: Keywords, n: Keywords): seq<Note> {
    When(!PyEq(o.default, n.default), Note(DefaultOf, OfValue(o.default), OfValue(n.default)))
    + Changed(Nullability, OfBool(o.nullable), OfBool(n.nullable))
    + Changed(Type, OfType(o.typ), OfType(n.typ))
    + Changed(Format, OfText(o.format), OfText(n.format))
    + When(!EnumEq(o.enum, n.enum), Note(Enum, OfEnum(o.enum), OfEnum(n.enum)))
    + When(!PyEq(o.constant, n.constant), Note(Const, OfValue(o.constant), OfValue(n.constant)))
    + ConstraintNotes(Constraints(o), Constraints(n), |Constraints(o)|)
  }

  // ------------------------------------------------------------------ protobuf numbering

  function TypeName(t: JType): string {
    match t
    case TObject => "object"
    case TArray => "array"
    case TString => "string"
    case TBoolean => "boolean"
    case TInteger => "integer"
    case TNumber => "number"
    case TNull => "null"
    case TUnion(members) => JoinNames(members)
    case TOther(name) => name
  }

  function JoinNames(members: seq<JType>): string {
    if members == [] then "" else if |members| == 1 then TypeName(members[0])
    else TypeName(members[0]) + "|" + JoinNames(members[1..])
  }

  /** `_wire_shape`; an empty format or type name counts as missing. */
  function WireShape(node: Option<Schema>): string
    decreases node
  {
    if node.None? then "unknown"
    else if node.value.kw.typ == Some(TArray) && node.value.items.Some? then "repeated " + WireShape(node.value.items)
    else if node.value.kw.format.Some? && node.value.kw.format.value != "" then node.value.kw.format.value
    else if node.value.kw.typ.Some? && TypeName(node.value.kw.typ.value) != "" then TypeName(node.value.kw.typ.value)
    else "unknown"
  }

  function Lookup(m: map<string, Schema>, x: string): Option<Schema> {
    if x in m then Some(m[x]) else None
  }

  /** A number whose name changed: a rename when the wire shape is the same, a reuse when it is not. */
  function NumberNote(prev: Schema, next: Schema, number: int): seq<Note>
    requires number in prev.kw.proto.fieldNumbers && number in next.kw.proto.fieldNumbers
  {
    var was, now := prev.kw.proto.fieldNumbers[number], next.kw.proto.fieldNumbers[number];
    if was == now then []
    else if WireShape(Lookup(prev.properties, was)) == WireShape(Lookup(next.properties, now))
    then [Note(NumberRenamed(number), OfText(Some(was)), OfText(Some(now)))]
    else [Note(NumberReused(number), OfText(Some(was)), OfText(Some(now)))]
  }

  function NumberNotes(prev: Schema, next: Schema, numbers: seq<int>): seq<Note>
    requires forall x :: x in numbers ==> x in prev.kw.proto.fieldNumbers && x in next.kw.proto.fieldNumbers
  {
    if numbers == [] then [] else NumberNote(prev, next, numbers[0]) + NumberNotes(prev, next, numbers[1..])
  }

  /** The comparison of messages is made as soon as one side numbers its fields. */
  predicate Numbering(prev: Schema, next: Schema) {
    prev.kw.proto.fieldNumbers != map[] || next.kw.proto.fieldNumbers != map[]
  }

  /** The group of every field that is in one; of two groups listing a field the later counts. */
  function Groups(oneofs: seq<Oneof>): map<string, string> {
    if oneofs == [] then map[]
    else
      var last := oneofs[|oneofs| - 1];
      Groups(oneofs[..|oneofs| - 1]) + map x | x in last.fields :: last.name
  }

  function GroupOf(p: Proto, name: string): Option<string> {
    var groups := Groups(p.oneofs);
    if name in groups then Some(groups[name]) else None
  }

  /** The numbers that are gone and not reserved. */
  function Unreserved(prev: Schema, next: Schema): set<int> {
    prev.kw.proto.fieldNumbers.Keys - next.kw.proto.fieldNumbers.Keys - next.kw.proto.reservedNumbers
  }

  /** The reservations that are gone while the number stays unused. */
  function Released(prev: Schema, next: Schema): set<int> {
    prev.kw.proto.reservedNumbers - next.kw.proto.reservedNumbers - next.kw.proto.fieldNumbers.Keys
  }

  /** The fields kept that no longer tell unset from default. */
  function LostPresence(prev: Schema, next: Schema): set<string> {
    set x | x in prev.kw.proto.explicitPresence && x !in next.kw.proto.explicitPresence && x in next.properties
  }

  /** The fields that were in no group and are in one now. */
  function Joined(prev: Schema, next: Schema): set<string> {
    set x | x in Groups(next.kw.proto.oneofs) && x !in Groups(prev.kw.proto.oneofs) && x in prev.properties
  }

  function NameAt(numbers: map<int, string>, number: int): Option<string> {
    if number in numbers then Some(numbers[number]) else None
  }

  function UnreservedNotes(prev: Schema, numbers: seq<int>): seq<Note> {
    seq(|numbers|, i requires 0 <= i < |numbers| =>
      Note(NumberUnreserved(numbers[i]), OfText(NameAt(prev.kw.proto.fieldNumbers, numbers[i])), OfText(None)))
  }

  function ReleasedNotes(numbers: seq<int>): seq<Note> {
    seq(|numbers|, i requires 0 <= i < |numbers| => Note(ReservationDropped(numbers[i]), Present, Absent))
  }

  function PresenceNotes(names: seq<string>): seq<Note> {
    seq(|names|, i requires 0 <= i < |names| => Note(PresenceLost(names[i]), OfBool(true), OfBool(false)))
  }

  function GroupNotes(o: Proto, n: Proto, names: seq<string>): seq<Note> {
    seq(|names|, i requires 0 <= i < |names| => Note(OneofMember(names[i]), OfText(GroupOf(o, names[i])), OfText(GroupOf(n, names[i]))))
  }

  ghost function SharedNumberNotes(prev: Schema, next: Schema): seq<Note> {
    SortedNumbersElements(prev.kw.proto.fieldNumbers.Keys * next.kw.proto.fieldNumbers.Keys);
    NumberNotes(prev, next, SortedNumbers(prev.kw.proto.fieldNumbers.Keys * next.kw.proto.fieldNumbers.Keys))
  }

  /** Fields that moved into a group, then fields that moved out of one. */
  ghost function MembershipNotes(prev: Schema, next: Schema): seq<Note> {
    GroupNotes(prev.kw.proto, next.kw.proto, SortedKeys(Joined(prev, next)))
    + GroupNotes(prev.kw.proto, next.kw.proto, SortedKeys(Joined(next, prev)))
  }

  ghost function ProtoNotes(prev: Schema, next: Schema): seq<Note> {
    if !Numbering(prev, next) then []
    else
      SharedNumberNotes(prev, next)
      + UnreservedNotes(prev, SortedNumbers(Unreserved(prev, next)))
      + PresenceNotes(SortedKeys(LostPresence(prev, next)))
      + MembershipNotes(prev, next)
      + ReleasedNotes(SortedNumbers(Released(prev, next)))
  }

  lemma {:induction false} NumberedNotes(prev: Schema, next: Schema)
    requires Numbering(prev, next)
    ensures ProtoNotes(prev, next) ==
      SharedNumberNotes(prev, next) + UnreservedNotes(prev, SortedNumbers(Unreserved(prev, next)))
      + PresenceNotes(SortedKeys(LostPresence(prev, next))) + MembershipNotes(prev, next)
      + ReleasedNotes(SortedNumbers(Released(prev, next)))
  {
    hide SharedNumberNotes, UnreservedNotes, PresenceNotes, MembershipNotes, ReleasedNotes, SortedNumbers, SortedKeys;
  }

  // ------------------------------------------------------------------ properties

  function FieldNotes(names: seq<string>, before: Detail, after: Detail): seq<Note> {
    seq(|names|, i requires 0 <= i < |names| => Note(Field(names[i]), before, after))
  }

  function SharedTasks(prev: Schema, next: Schema, names: seq<string>): seq<Task>
    requires forall x :: x in names ==> x in prev.properties && x in next.properties
  {
    seq(|names|, i requires 0 <= i < |names| => Recurse(Prop(names[i]), prev.properties[names[i]], next.properties[names[i]]))
  }

  /** The fields on both sides that the first list of required names has and the second has not. */
  function Transitions(prev: Schema, next: Schema, has: seq<string>, hasNot: seq<string>): set<string> {
    set x | x in has && x !in hasNot && x in prev.properties && x in next.properties
  }

  function RequiredNotes(names: seq<string>, before: bool): seq<Note> {
    seq(|names|, i requires 0 <= i < |names| => Note(Requiredness(names[i]), OfBool(before), OfBool(!before)))
  }

  ghost function RemovedAdded(prev: Schema, next: Schema): seq<Note> {
    FieldNotes(SortedKeys(prev.properties.Keys - next.properties.Keys), Present, Absent)
    + FieldNotes(SortedKeys(next.properties.Keys - prev.properties.Keys), Absent, Present)
  }

  ghost function Shared(prev: Schema, next: Schema): seq<Task> {
    SortedKeysElements(prev.properties.Keys * next.properties.Keys);
    SharedTasks(prev, next, SortedKeys(prev.properties.Keys * next.properties.Keys))
  }

  ghost function RequiredChanges(prev: Schema, next: Schema): seq<Note> {
    RequiredNotes(SortedKeys(Transitions(prev, next, next.kw.required, prev.kw.required)), false)
    + RequiredNotes(SortedKeys(Transitions(prev, next, prev.kw.required, next.kw.required)), true)
  }

  // ------------------------------------------------------------------ sub-schemas

  /** Compared only when both sides have one. */
  function QuietTask(step: Step, o: Option<Schema>, n: Option<Schema>): seq<Task> {
    if o.Some? && n.Some? then [Recurse(step, o.value, n.value)] else []
  }

  /** Compared when both sides have one, reported when one has and the other has not. */
  function LoudTask(step: Step, what: What, o: Option<Schema>, n: Option<Schema>): seq<Task> {
    if o.Some? && n.Some? then [Recurse(step, o.value, n.value)]
    else if o.Some? then [Emit(Note(what, Present, Absent))]
    else if n.Some? then [Emit(Note(what, Absent, Present))]
    else []
  }

  /** Variant lists are compared position by position, and only when both are present and equally long. */
  function VariantTasks(list: Variants, o: seq<Schema>, n: seq<Schema>): seq<Task> {
    if |o| == |n| then seq(|o|, i requires 0 <= i < |o| => Recurse(Variant(list, i), o[i], n[i])) else []
  }

  function MappingNote(o: map<string, string>, n: map<string, string>, key: string): seq<Note> {
    Changed(DiscriminatorMapping(key), OfText(if key in o then Some(o[key]) else None), OfText(if key in n then Some(n[key]) else None))
  }

  function MappingNotes(o: map<string, string>, n: map<string, string>, keys: seq<string>): seq<Note> {
    if keys == [] then [] else MappingNote(o, n, keys[0]) + MappingNotes(o, n, keys[1..])
  }

  /** Removed, then added, then re-pointed mapping keys. */
  ghost function DiscriminatorNotes(o: Option<Discriminator>, n: Option<Discriminator>): seq<Note> {
    var oProperty, nProperty := if o.Some? then o.value.propertyName else None, if n.Some? then n.value.propertyName else None;
    var oMap, nMap := if o.Some? then o.value.mapping else map[], if n.Some? then n.value.mapping else map[];
    Changed(DiscriminatorProperty, OfText(oProperty), OfText(nProperty))
    + MappingNotes(oMap, nMap, SortedKeys(oMap.Keys - nMap.Keys))
    + MappingNotes(oMap, nMap, SortedKeys(nMap.Keys - oMap.Keys))
    + MappingNotes(oMap, nMap, SortedKeys(oMap.Keys * nMap.Keys))
  }

  function PropertyOf(d: Option<Discriminator>): Option<string> { if d.Some? then d.value.propertyName else None }
  function MappingOf(d: Option<Discriminator>): map<string, string> { if d.Some? then d.value.mapping else map[] }

  lemma {:induction false} DiscriminatorShape(o: Option<Discriminator>, n: Option<Discriminator>)
    ensures DiscriminatorNotes(o, n) ==
      Changed(DiscriminatorProperty, OfText(PropertyOf(o)), OfText(PropertyOf(n)))
      + (MappingNotes(MappingOf(o), MappingOf(n), SortedKeys(MappingOf(o).Keys - MappingOf(n).Keys))
         + MappingNotes(MappingOf(o), MappingOf(n), SortedKeys(MappingOf(n).Keys - MappingOf(o).Keys)))
      + MappingNotes(MappingOf(o), MappingOf(n), SortedKeys(MappingOf(o).Keys * MappingOf(n).Keys))
  {
    hide MappingNotes, SortedKeys, Changed;
  }

  function DependentRequiredOf(m: map<string, seq<string>>, name: string): seq<string> {
    if name in m then m[name] else []
  }

  function DependentRequiredNotes(o: map<string, seq<string>>, n: map<string, seq<string>>, names: seq<string>): seq<Note> {
    if names == [] then []
    else Changed(DependentRequired(names[0]), OfNames(DependentRequiredOf(o, names[0])), OfNames(DependentRequiredOf(n, names[0])))
         + DependentRequiredNotes(o, n, names[1..])
  }

  function DependentSchemaTasks(o: map<string, Schema>, n: map<string, Schema>, names: seq<string>): seq<Task> {
    if names == [] then []
    else LoudTask(Dependent(names[0]), DependentSchema(names[0]), Lookup(o, names[0]), Lookup(n, names[0]))
         + DependentSchemaTasks(o, n, names[1..])
  }

  function PatternTasks(o: map<string, Schema>, n: map<string, Schema>, patterns: seq<string>): seq<Task> {
    if patterns == [] then []
    else LoudTask(PatternOf(patterns[0]), PatternSchema(patterns[0]), Lookup(o, patterns[0]), Lookup(n, patterns[0]))
         + PatternTasks(o, n, patterns[1..])
  }

  /** A tuple position whose type changed is reported once, and not compared further. */
  function PrefixTasks(o: seq<Schema>, n: seq<Schema>): seq<Task> {
    if |o| == |n| then seq(|o|, i requires 0 <= i < |o| => PrefixTask(i, o[i], n[i]))
    else [Emit(Note(TupleLength, OfInt(Some(|o|)), OfInt(Some(|n|))))]
  }

  function PrefixTask(i: nat, o: Schema, n: Schema): Task {
    if o.kw.typ != n.kw.typ then Emit(Note(TupleType(i), OfType(o.kw.typ), OfType(n.kw.typ))) else Recurse(Prefix(i), o, n)
  }

  ghost function MiddleTasks(prev: Schema, next: Schema): seq<Task> {
    QuietTask(Items, prev.items, next.items)
    + Emits(DiscriminatorNotes(prev.kw.discriminator, next.kw.discriminator))
    + VariantTasks(OneOf, prev.oneOf, next.oneOf)
    + VariantTasks(AnyOf, prev.anyOf, next.anyOf)
    + VariantTasks(AllOf, prev.allOf, next.allOf)
  }

  ghost function DependentTasks(prev: Schema, next: Schema): seq<Task> {
    Emits(DependentRequiredNotes(prev.kw.dependentRequired, next.kw.dependentRequired,
                                 SortedKeys(prev.kw.dependentRequired.Keys + next.kw.dependentRequired.Keys)))
    + DependentSchemaTasks(prev.dependentSchemas, next.dependentSchemas,
                           SortedKeys(prev.dependentSchemas.Keys + next.dependentSchemas.Keys))
  }

  ghost function TupleAndPatternTasks(prev: Schema, next: Schema): seq<Task> {
    PrefixTasks(prev.prefixItems, next.prefixItems)
    + PatternTasks(prev.patternProperties, next.patternProperties,
                   SortedKeys(prev.patternProperties.Keys + next.patternProperties.Keys))
  }

  function ContainsBounds(o: Keywords, n: Keywords): seq<Note> {
    Changed(MinContains, OfInt(o.minContains), OfInt(n.minContains)) + Changed(MaxContains, OfInt(o.maxContains), OfInt(n.maxContains))
  }

  function SingleTasks(prev: Schema, next: Schema): seq<Task> {
    LoudTask(Names, NamesSchema, prev.propertyNames, next.propertyNames)
    + LoudTask(Contained, ContainsSchema, prev.contains, next.contains)
    + Emits(ContainsBounds(prev.kw, next.kw))
    + LoudTask(Conditional(If), BranchSchema(If), prev.ifSchema, next.ifSchema)
    + LoudTask(Conditional(Then), BranchSchema(Then), prev.thenSchema, next.thenSchema)
    + LoudTask(Conditional(Else), BranchSchema(Else), prev.elseSchema, next.elseSchema)
  }

  /** Everything one node contributes, in order. */
  ghost function Tasks(prev: Schema, next: Schema): seq<Task> {
    Emits(ProtoNotes(prev, next)) + Emits(KeywordNotes(prev.kw, next.kw))
    + Emits(RemovedAdded(prev, next)) + Shared(prev, next) + Emits(RequiredChanges(prev, next))
    + MiddleTasks(prev, next)
    + DependentTasks(prev, next) + TupleAndPatternTasks(prev, next) + SingleTasks(prev, next)
  }

  lemma {:induction false} TasksPieces(prev: Schema, next: Schema)
    ensures Tasks(prev, next) ==
      Emits(ProtoNotes(prev, next)) + Emits(KeywordNotes(prev.kw, next.kw)) + Emits(RemovedAdded(prev, next)) + Shared(prev, next)
      + Emits(RequiredChanges(prev, next)) + MiddleTasks(prev, next) + DependentTasks(prev, next) + TupleAndPatternTasks(prev, next)
      + SingleTasks(prev, next)
  {
    hide ProtoNotes, KeywordNotes, RemovedAdded, Shared, RequiredChanges, MiddleTasks, DependentTasks, TupleAndPatternTasks, SingleTasks, Emits;
  }

  // ------------------------------------------------------------------ the whole comparison

  /** Comparisons go to smaller schemas. */
  ghost predicate Inside(parent: Schema, tasks: seq<Task>) {
    forall i :: 0 <= i < |tasks| && tasks[i].Recurse? ==> tasks[i].prev < parent
  }

  lemma {:induction false} InsideConcat(parent: Schema, a: seq<Task>, b: seq<Task>)
    requires Inside(parent, a) && Inside(parent, b)
    ensures Inside(parent, a + b)
  {
  }

  lemma {:induction false} KeyedInside(parent: Schema, n: map<string, Schema>, names: seq<string>)
    ensures Inside(parent, DependentSchemaTasks(parent.dependentSchemas, n, names))
    ensures Inside(parent, PatternTasks(parent.patternProperties, n, names))
  {
    if names != [] {
      KeyedInside(parent, n, names[1..]);
    }
  }

  lemma {:induction false} SharedInside(prev: Schema, next: Schema)
    ensures Inside(prev, Shared(prev, next))
  {
    var names := SortedKeys(prev.properties.Keys * next.properties.Keys);
    SortedKeysElements(prev.properties.Keys * next.properties.Keys);
    forall i | 0 <= i < |names| ensures names[i] in prev.properties { assert names[i] in names; }
  }

  lemma {:induction false} MiddleInside(prev: Schema, next: Schema)
    ensures Inside(prev, MiddleTasks(prev, next))
  {
    var q, d := QuietTask(Items, prev.items, next.items), Emits(DiscriminatorNotes(prev.kw.discriminator, next.kw.discriminator));
    var one, any, all := VariantTasks(OneOf, prev.oneOf, next.oneOf), VariantTasks(AnyOf, prev.anyOf, next.anyOf), VariantTasks(AllOf, prev.allOf, next.allOf);
    assert Inside(prev, q) && Inside(prev, d);
    assert Inside(prev, one);
    assert Inside(prev, any);
    assert Inside(prev, all);
    hide Inside, QuietTask, Emits, VariantTasks, DiscriminatorNotes;
    InsideConcat(prev, q, d);
    InsideConcat(prev, q + d, one);
    InsideConcat(prev, q + d + one, any);
    InsideConcat(prev, q + d + one + any, all);
  }

  lemma {:induction false} LaterInside(prev: Schema, next: Schema)
    ensures Inside(prev, DependentTasks(prev, next)) && Inside(prev, TupleAndPatternTasks(prev, next))
  {
    KeyedInside(prev, next.dependentSchemas, SortedKeys(prev.dependentSchemas.Keys + next.dependentSchemas.Keys));
    KeyedInside(prev, next.patternProperties, SortedKeys(prev.patternProperties.Keys + next.patternProperties.Keys));
    hide SortedKeys, DependentSchemaTasks, PatternTasks, DependentRequiredNotes;
  }

  lemma {:induction false} SingleInside(prev: Schema, next: Schema)
    ensures Inside(prev, SingleTasks(prev, next))
  {
  }

  lemma {:induction false} TasksInside(prev: Schema, next: Schema)
    ensures Inside(prev, Tasks(prev, next))
  {
    hide Shared, MiddleTasks, DependentTasks, TupleAndPatternTasks, SingleTasks, ProtoNotes, KeywordNotes, RemovedAdded, RequiredChanges;
    SharedInside(prev, next);
    MiddleInside(prev, next);
    LaterInside(prev, next);
    SingleInside(prev, next);
  }

  /** `_diff_schema`: every difference below `path`, in the order it is reported. */
  ghost function SchemaEntries(prev: Schema, next: Schema, path: seq<Step>): seq<Entry>
    decreases prev, 1
  {
    TasksInside(prev, next);
    Flatten(prev, Tasks(prev, next), path)
  }

  ghost function Flatten(parent: Schema, tasks: seq<Task>, path: seq<Step>): seq<Entry>
    requires Inside(parent, tasks)
    decreases parent, 0, |tasks|
  {
    if tasks == [] then []
    else
      (match tasks[0]
       case Emit(note) => [Entry(path, note)]
       case Recurse(step, prev, next) => SchemaEntries(prev, next, path + [step]))
      + Flatten(parent, tasks[1..], path)
  }

  // ------------------------------------------------------------------ comparisons task by task

  /** The entries of one task. */
  ghost function TaskEntries(task: Task, path: seq<Step>): seq<Entry> {
    match task
    case Emit(note) => [Entry(path, note)]
    case Recurse(step, prev, next) => SchemaEntries(prev, next, path + [step])
  }

  lemma {:induction false} FlattenStep(parent: Schema, tasks: seq<Task>, path: seq<Step>)
    requires Inside(parent, tasks) && tasks != []
    ensures Inside(parent, tasks[1..])
    ensures Flatten(parent, tasks, path) == TaskEntries(tasks[0], path) + Flatten(parent, tasks[1..], path)
  {
    hide SchemaEntries;
  }

  lemma {:induction false} FlattenNone(parent: Schema, path: seq<Step>)
    ensures Inside(parent, []) && Flatten(parent, [], path) == []
  {
  }

  lemma {:induction false} FlattenConcat(parent: Schema, a: seq<Task>, b: seq<Task>, path: seq<Step>)
    requires Inside(parent, a) && Inside(parent, b)
    ensures Inside(parent, a + b) && Flatten(parent, a + b, path) == Flatten(parent, a, path) + Flatten(parent, b, path)
    decreases |a|
  {
    hide *;
    InsideConcat(parent, a, b);
    if a == [] {
      FlattenNone(parent, path);
      assert a + b == b;
    } else {
      FlattenStep(parent, a, path);
      FlattenStep(parent, a + b, path);
      assert (a + b)[0] == a[0] && (a + b)[1..] == a[1..] + b;
      FlattenConcat(parent, a[1..], b, path);
    }
  }

  lemma {:induction false} TaskReported(parent: Schema, tasks: seq<Task>, task: Task, path: seq<Step>)
    requires Inside(parent, tasks) && task in tasks
    ensures forall e :: e in TaskEntries(task, path) ==> e in Flatten(parent, tasks, path)
    decreases |tasks|
  {
    hide Inside, TaskEntries, Flatten;
    FlattenStep(parent, tasks, path);
    if task != tasks[0] {
      assert tasks == [tasks[0]] + tasks[1..];
      TaskReported(parent, tasks[1..], task, path);
    }
  }

  /** Everything a task of the node yields is in the report. */
  lemma {:induction false} Reported(prev: Schema, next: Schema, task: Task, path: seq<Step>)
    requires task in Tasks(prev, next)
    ensures forall e :: e in TaskEntries(task, path) ==> e in SchemaEntries(prev, next, path)
  {
    TasksInside(prev, next);
    TaskReported(prev, Tasks(prev, next), task, path);
    hide Tasks, Inside, Flatten, TaskEntries;
  }
}
