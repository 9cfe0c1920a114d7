/** The report of a comparison, said outright: at every pair of nodes that are compared, exactly the differences there are,
    each with what was there before and what is there now. */
module DiffExact {
  import opened Model
  import opened Ordering
  import opened Diff

  // ------------------------------------------------------------------ which nodes are compared

  function ListOf(s: Schema, list: Variants): seq<Schema> {
    match list
    case OneOf => s.oneOf
    case AnyOf => s.anyOf
    case AllOf => s.allOf
  }

  function BranchOf(s: Schema, branch: Branch): Option<Schema> {
    match branch
    case If => s.ifSchema
    case Then => s.thenSchema
    case Else => s.elseSchema
  }

  datatype Pair = Pair(prev: Schema, next: Schema)

  function Both(o: Option<Schema>, n: Option<Schema>): Option<Pair> {
    if o.Some? && n.Some? then Some(Pair(o.value, n.value)) else None
  }

  function Keyed(o: map<string, Schema>, n: map<string, Schema>, x: string): Option<Pair> {
    if x in o && x in n then Some(Pair(o[x], n[x])) else None
  }

  /** The two sub-schemas at a step: what both sides have; variants and tuple positions only in lists of one length, and
      positions only where the type is the same. */
  function Child(prev: Schema, next: Schema, step: Step): Option<Pair> {
    match step
    case Prop(x) => Keyed(prev.properties, next.properties, x)
    case Items => Both(prev.items, next.items)
    case Variant(list, i) =>
      var o, n := ListOf(prev, list), ListOf(next, list);
      if |o| == |n| && i < |o| then Some(Pair(o[i], n[i])) else None
    case Dependent(t) => Keyed(prev.dependentSchemas, next.dependentSchemas, t)
    case Prefix(i) =>
      var o, n := prev.prefixItems, next.prefixItems;
      if |o| == |n| && i < |o| && o[i].kw.typ == n[i].kw.typ then Some(Pair(o[i], n[i])) else None
    case PatternOf(e) => Keyed(prev.patternProperties, next.patternProperties, e)
    case Names => Both(prev.propertyNames, next.propertyNames)
    case Contained => Both(prev.contains, next.contains)
    case Conditional(branch) => Both(BranchOf(prev, branch), BranchOf(next, branch))
  }

  /** The pair of nodes the comparison comes to along a route. */
  function Reach(prev: Schema, next: Schema, route: seq<Step>): Option<Pair>
    decreases |route|
  {
    if route == [] then Some(Pair(prev, next))
    else
      match Child(prev, next, route[0])
      case None => None
      case Some(pair) => Reach(pair.prev, pair.next, route[1..])
  }

  // ------------------------------------------------------------------ what differs at a node

  predicate SameEnums(a: Option<seq<Value>>, b: Option<seq<Value>>) {
    if a.None? || b.None? then a.None? && b.None?
    else |a.value| == |b.value| && forall i :: 0 <= i < |a.value| ==> PyEq(a.value[i], b.value[i])
  }

  /** The compared constraints by their place in the source's table; `const` comes before them. */
  function ConstraintAt(kw: Keywords, i: nat): Detail {
    var b := kw.bounds;
    match i
    case 0 => OfReal(b.minimum)
    case 1 => OfReal(b.maximum)
    case 2 => OfReal(b.exclusiveMinimum)
    case 3 => OfReal(b.exclusiveMaximum)
    case 4 => OfReal(kw.multipleOf)
    case 5 => OfInt(b.minLength)
    case 6 => OfInt(b.maxLength)
    case 7 => OfText(kw.pattern)
    case 8 => OfInt(b.minItems)
    case 9 => OfInt(b.maxItems)
    case 10 => OfFlag(kw.uniqueItems)
    case 11 => OfInt(b.minProperties)
    case 12 => OfInt(b.maxProperties)
    case _ => Absent
  }

  /** The note carries these two, and they are not the same. */
  predicate Turned(note: Note, before: Detail, after: Detail) {
    note.before == before && note.after == after && before != after
  }

  /** There on one side only. */
  predicate CameOrWent(note: Note, before: bool, after: bool) {
    before != after && note.before == (if before then Present else Absent) && note.after == (if after then Present else Absent)
  }

  predicate KeywordDiffers(o: Keywords, n: Keywords, note: Note) {
    match note.what
    case DefaultOf => note.before == OfValue(o.default) && note.after == OfValue(n.default) && !PyEq(o.default, n.default)
    case Nullability => Turned(note, OfBool(o.nullable), OfBool(n.nullable))
    case Type => Turned(note, OfType(o.typ), OfType(n.typ))
    case Format => Turned(note, OfText(o.format), OfText(n.format))
    case Enum => note.before == OfEnum(o.enum) && note.after == OfEnum(n.enum) && !SameEnums(o.enum, n.enum)
    case Const => note.before == OfValue(o.constant) && note.after == OfValue(n.constant) && !PyEq(o.constant, n.constant)
    case Constraint(i) => i < 13 && Turned(note, ConstraintAt(o, i), ConstraintAt(n, i))
    case _ => false
  }

  /** The field is in this group: of two groups listing it, the later. */
  predicate InGroup(oneofs: seq<Oneof>, x: string, group: string) {
    exists i :: 0 <= i < |oneofs| && x in oneofs[i].fields && oneofs[i].name == group && forall j :: i < j < |oneofs| ==> x !in oneofs[j].fields
  }

  predicate InNoGroup(oneofs: seq<Oneof>, x: string) {
    forall i :: 0 <= i < |oneofs| ==> x !in oneofs[i].fields
  }

  /** A shared number whose name changed, with the wire shapes the fields have on either side. */
  predicate NameTurned(prev: Schema, next: Schema, k: int, note: Note, alike: bool) {
    var o, n := prev.kw.proto.fieldNumbers, next.kw.proto.fieldNumbers;
    && k in o && k in n && Turned(note, OfText(Some(o[k])), OfText(Some(n[k])))
    && (WireShape(Lookup(prev.properties, o[k])) == WireShape(Lookup(next.properties, n[k])) <==> alike)
  }

  predicate ProtoDiffers(prev: Schema, next: Schema, note: Note) {
    var o, n := prev.kw.proto, next.kw.proto;
    (o.fieldNumbers != map[] || n.fieldNumbers != map[]) &&
    match note.what
    case NumberRenamed(k) => NameTurned(prev, next, k, note, true)
    case NumberReused(k) => NameTurned(prev, next, k, note, false)
    case NumberUnreserved(k) =>
      && k in o.fieldNumbers && k !in n.fieldNumbers && k !in n.reservedNumbers
      && note.before == OfText(Some(o.fieldNumbers[k])) && note.after == OfText(None)
    case ReservationDropped(k) =>
      && k in o.reservedNumbers && k !in n.reservedNumbers && k !in n.fieldNumbers
      && note.before == Present && note.after == Absent
    case PresenceLost(x) =>
      && x in o.explicitPresence && x !in n.explicitPresence && x in next.properties
      && note.before == OfBool(true) && note.after == OfBool(false)
    case OneofMember(x) =>
      || (note.before == OfText(None) && note.after.OfText? && note.after.s.Some?
          && InNoGroup(o.oneofs, x) && InGroup(n.oneofs, x, note.after.s.value) && x in prev.properties)
      || (note.after == OfText(None) && note.before.OfText? && note.before.s.Some?
          && InNoGroup(n.oneofs, x) && InGroup(o.oneofs, x, note.before.s.value) && x in next.properties)
    case _ => false
  }

  predicate FieldDiffers(prev: Schema, next: Schema, note: Note) {
    match note.what
    case Field(x) => CameOrWent(note, x in prev.properties, x in next.properties)
    case Requiredness(x) =>
      && x in prev.properties && x in next.properties
      && Turned(note, OfBool(x in prev.kw.required), OfBool(x in next.kw.required))
    case _ => false
  }

  function MappedTo(d: Option<Discriminator>, key: string): Option<string> {
    if d.Some? && key in d.value.mapping then Some(d.value.mapping[key]) else None
  }

  function Requires(m: map<string, seq<string>>, t: string): seq<string> { if t in m then m[t] else [] }

  predicate OtherDiffers(prev: Schema, next: Schema, note: Note) {
    var o, n := prev.kw, next.kw;
    match note.what
    case DiscriminatorProperty =>
      Turned(note, OfText(if o.discriminator.Some? then o.discriminator.value.propertyName else None),
                   OfText(if n.discriminator.Some? then n.discriminator.value.propertyName else None))
    case DiscriminatorMapping(key) => Turned(note, OfText(MappedTo(o.discriminator, key)), OfText(MappedTo(n.discriminator, key)))
    case DependentRequired(t) => Turned(note, OfNames(Requires(o.dependentRequired, t)), OfNames(Requires(n.dependentRequired, t)))
    case DependentSchema(t) => CameOrWent(note, t in prev.dependentSchemas, t in next.dependentSchemas)
    case TupleLength => Turned(note, OfInt(Some(|prev.prefixItems|)), OfInt(Some(|next.prefixItems|)))
    case TupleType(i) =>
      && |prev.prefixItems| == |next.prefixItems| && i < |prev.prefixItems|
      && Turned(note, OfType(prev.prefixItems[i].kw.typ), OfType(next.prefixItems[i].kw.typ))
    case PatternSchema(e) => CameOrWent(note, e in prev.patternProperties, e in next.patternProperties)
    case NamesSchema => CameOrWent(note, prev.propertyNames.Some?, next.propertyNames.Some?)
    case ContainsSchema => CameOrWent(note, prev.contains.Some?, next.contains.Some?)
    case MinContains => Turned(note, OfInt(o.minContains), OfInt(n.minContains))
    case MaxContains => Turned(note, OfInt(o.maxContains), OfInt(n.maxContains))
    case BranchSchema(branch) => CameOrWent(note, BranchOf(prev, branch).Some?, BranchOf(next, branch).Some?)
    case _ => false
  }

  /** The note says what differs between the two nodes themselves. */
  predicate Differs(prev: Schema, next: Schema, note: Note) {
    ProtoDiffers(prev, next, note) || KeywordDiffers(prev.kw, next.kw, note) || FieldDiffers(prev, next, note) || OtherDiffers(prev, next, note)
  }

  // ------------------------------------------------------------------ lists of notes

  lemma {:induction false} EmitIn(notes: seq<Note>, note: Note)
    ensures Emit(note) in Emits(notes) <==> note in notes
  {
    if note in notes {
      var i :| 0 <= i < |notes| && notes[i] == note;
      assert Emits(notes)[i] == Emit(note);
    }
  }

  lemma {:induction false} RecurseNotIn(notes: seq<Note>, step: Step, o: Schema, n: Schema)
    ensures Recurse(step, o, n) !in Emits(notes)
  {
  }

  lemma {:induction false} ChangedIn(what: What, before: Detail, after: Detail, note: Note)
    ensures note in Changed(what, before, after) <==> note.what == what && Turned(note, before, after)
  {
  }

  lemma {:induction false} ConstraintIn(before: seq<Detail>, after: seq<Detail>, n: nat, note: Note)
    requires n <= |before| == |after|
    ensures note in ConstraintNotes(before, after, n) <==>
      note.what.Constraint? && note.what.i < n && Turned(note, before[note.what.i], after[note.what.i])
  {
    if n > 0 {
      ConstraintIn(before, after, n - 1, note);
      ChangedIn(Constraint(n - 1), before[n - 1], after[n - 1], note);
      hide Changed, Turned;
    }
  }

  lemma {:induction false} EnumsSame(a: Option<seq<Value>>, b: Option<seq<Value>>)
    ensures EnumEq(a, b) <==> SameEnums(a, b)
  {
    hide PyEq;
    if a.Some? && b.Some? { ListsSame(a.value, b.value); }
  }

  lemma {:induction false} ListsSame(a: seq<Value>, b: seq<Value>)
    ensures ListEq(a, b) <==> |a| == |b| && forall i :: 0 <= i < |a| ==> PyEq(a[i], b[i])
  {
  }

  lemma {:induction false} TableAt(kw: Keywords)
    ensures |Constraints(kw)| == 13 && forall i :: 0 <= i < 13 ==> Constraints(kw)[i] == ConstraintAt(kw, i)
  {
    var c := Constraints(kw);
    assert c[0] == ConstraintAt(kw, 0) && c[1] == ConstraintAt(kw, 1) && c[2] == ConstraintAt(kw, 2) && c[3] == ConstraintAt(kw, 3);
    assert c[4] == ConstraintAt(kw, 4) && c[5] == ConstraintAt(kw, 5) && c[6] == ConstraintAt(kw, 6) && c[7] == ConstraintAt(kw, 7);
    assert c[8] == ConstraintAt(kw, 8) && c[9] == ConstraintAt(kw, 9) && c[10] == ConstraintAt(kw, 10) && c[11] == ConstraintAt(kw, 11);
    assert c[12] == ConstraintAt(kw, 12);
  }

  lemma {:induction false} KeywordIn(o: Keywords, n: Keywords, note: Note)
    ensures note in KeywordNotes(o, n) <==> KeywordDiffers(o, n, note)
  {
    hide Constraints, ConstraintAt, ConstraintNotes, Changed, PyEq, EnumEq, SameEnums, Turned;
    TableAt(o);
    TableAt(n);
    EnumsSame(o.enum, n.enum);
    ConstraintIn(Constraints(o), Constraints(n), 13, note);
    ChangedIn(Nullability, OfBool(o.nullable), OfBool(n.nullable), note);
    ChangedIn(Type, OfType(o.typ), OfType(n.typ), note);
    ChangedIn(Format, OfText(o.format), OfText(n.format), note);
  }

  // ------------------------------------------------------------------ protobuf

  lemma {:induction false} GroupsExactly(oneofs: seq<Oneof>, x: string, group: string)
    ensures x in Groups(oneofs) <==> !InNoGroup(oneofs, x)
    ensures x in Groups(oneofs) && Groups(oneofs)[x] == group <==> InGroup(oneofs, x, group)
    decreases |oneofs|
  {
    if oneofs != [] {
      var front, last := oneofs[..|oneofs| - 1], oneofs[|oneofs| - 1];
      GroupsExactly(front, x, group);
      if x in last.fields {
        assert oneofs[|oneofs| - 1] == last;
        if last.name == group { assert InGroup(oneofs, x, group); }
        if InGroup(oneofs, x, group) {
          var i :| 0 <= i < |oneofs| && x in oneofs[i].fields && oneofs[i].name == group && forall j :: i < j < |oneofs| ==> x !in oneofs[j].fields;
          assert i == |oneofs| - 1;
        }
      } else {
        if InGroup(front, x, group) {
          var i :| 0 <= i < |front| && x in front[i].fields && front[i].name == group && forall j :: i < j < |front| ==> x !in front[j].fields;
          assert oneofs[i] == front[i];
          forall j | i < j < |oneofs| ensures x !in oneofs[j].fields { if j < |front| { assert front[j] == oneofs[j]; } }
          assert InGroup(oneofs, x, group);
        }
        if InGroup(oneofs, x, group) {
          var i :| 0 <= i < |oneofs| && x in oneofs[i].fields && oneofs[i].name == group && forall j :: i < j < |oneofs| ==> x !in oneofs[j].fields;
          assert i < |front| && front[i] == oneofs[i];
          forall j | i < j < |front| ensures x !in front[j].fields { assert front[j] == oneofs[j]; }
          assert InGroup(front, x, group);
        }
        assert InNoGroup(oneofs, x) <==> InNoGroup(front, x) by {
          if InNoGroup(front, x) { forall i | 0 <= i < |oneofs| ensures x !in oneofs[i].fields { if i < |front| { assert front[i] == oneofs[i]; } } }
          if InNoGroup(oneofs, x) { forall i | 0 <= i < |front| ensures x !in front[i].fields { assert front[i] == oneofs[i]; } }
        }
      }
    }
  }

  lemma {:induction false} NumberIn(prev: Schema, next: Schema, numbers: seq<int>, note: Note)
    requires forall k :: k in numbers ==> k in prev.kw.proto.fieldNumbers && k in next.kw.proto.fieldNumbers
    ensures note in NumberNotes(prev, next, numbers) <==> exists k :: k in numbers && note in NumberNote(prev, next, k)
  {
    hide NumberNote;
    if numbers != [] {
      NumberIn(prev, next, numbers[1..], note);
      assert numbers == [numbers[0]] + numbers[1..];
    }
  }

  lemma {:induction false} OneNumberIn(prev: Schema, next: Schema, k: int, note: Note)
    requires k in prev.kw.proto.fieldNumbers && k in next.kw.proto.fieldNumbers
    ensures note in NumberNote(prev, next, k) <==>
      (note.what == NumberRenamed(k) && NameTurned(prev, next, k, note, true)) || (note.what == NumberReused(k) && NameTurned(prev, next, k, note, false))
  {
    hide WireShape;
  }

  lemma {:induction false} SharedIn(prev: Schema, next: Schema, note: Note)
    ensures note in SharedNumberNotes(prev, next) <==>
      || (note.what.NumberRenamed? && NameTurned(prev, next, note.what.number, note, true))
      || (note.what.NumberReused? && NameTurned(prev, next, note.what.number, note, false))
  {
    var both := prev.kw.proto.fieldNumbers.Keys * next.kw.proto.fieldNumbers.Keys;
    SortedNumbersElements(both);
    NumberIn(prev, next, SortedNumbers(both), note);
    forall k | k in both
      ensures note in NumberNote(prev, next, k) <==>
        (note.what == NumberRenamed(k) && NameTurned(prev, next, k, note, true)) || (note.what == NumberReused(k) && NameTurned(prev, next, k, note, false))
    {
      OneNumberIn(prev, next, k, note);
    }
    assert forall k, alike :: NameTurned(prev, next, k, note, alike) ==> k in both by { hide WireShape; }
    hide SortedNumbers, NumberNotes, NumberNote, NameTurned;
  }

  lemma {:induction false} LossIn(prev: Schema, numbers: seq<int>, names: seq<string>, note: Note)
    ensures note in UnreservedNotes(prev, numbers) <==>
      && note.what.NumberUnreserved? && note.what.number in numbers
      && note.before == OfText(NameAt(prev.kw.proto.fieldNumbers, note.what.number)) && note.after == OfText(None)
    ensures note in ReleasedNotes(numbers) <==>
      note.what.ReservationDropped? && note.what.number in numbers && note.before == Present && note.after == Absent
    ensures note in PresenceNotes(names) <==>
      note.what.PresenceLost? && note.what.name in names && note.before == OfBool(true) && note.after == OfBool(false)
  {
    if note.what.NumberUnreserved? && note.what.number in numbers {
      var i :| 0 <= i < |numbers| && numbers[i] == note.what.number;
      assert UnreservedNotes(prev, numbers)[i].what == note.what;
    }
    if note.what.ReservationDropped? && note.what.number in numbers {
      var i :| 0 <= i < |numbers| && numbers[i] == note.what.number;
      assert ReleasedNotes(numbers)[i].what == note.what;
    }
    if note.what.PresenceLost? && note.what.name in names {
      var i :| 0 <= i < |names| && names[i] == note.what.name;
      assert PresenceNotes(names)[i].what == note.what;
    }
  }

  lemma {:induction false} GroupIn(o: Proto, n: Proto, names: seq<string>, note: Note)
    ensures note in GroupNotes(o, n, names) <==>
      note.what.OneofMember? && note.what.name in names && note.before == OfText(GroupOf(o, note.what.name)) && note.after == OfText(GroupOf(n, note.what.name))
  {
    hide GroupOf;
    if note.what.OneofMember? && note.what.name in names {
      var i :| 0 <= i < |names| && names[i] == note.what.name;
      assert GroupNotes(o, n, names)[i].what == note.what;
    }
  }

  /** Moved into a group, or out of one. */
  predicate Moved(prev: Schema, next: Schema, note: Note, x: string) {
    var o, n := prev.kw.proto, next.kw.proto;
    || (note.before == OfText(None) && note.after.OfText? && note.after.s.Some?
        && InNoGroup(o.oneofs, x) && InGroup(n.oneofs, x, note.after.s.value) && x in prev.properties)
    || (note.after == OfText(None) && note.before.OfText? && note.before.s.Some?
        && InNoGroup(n.oneofs, x) && InGroup(o.oneofs, x, note.before.s.value) && x in next.properties)
  }

  lemma {:induction false} GroupAt(p: Proto, x: string, d: Detail)
    ensures d == OfText(GroupOf(p, x)) <==>
      d.OfText? && if d.s.None? then InNoGroup(p.oneofs, x) else InGroup(p.oneofs, x, d.s.value)
    ensures x in Groups(p.oneofs) <==> !InNoGroup(p.oneofs, x)
  {
    hide InNoGroup, InGroup, Groups;
    GroupsExactly(p.oneofs, x, if d.OfText? && d.s.Some? then d.s.value else "");
  }

  lemma {:induction false} MembershipIn(prev: Schema, next: Schema, note: Note)
    ensures note in MembershipNotes(prev, next) <==> note.what.OneofMember? && Moved(prev, next, note, note.what.name)
  {
    var o, n := prev.kw.proto, next.kw.proto;
    SortedKeysElements(Joined(prev, next));
    SortedKeysElements(Joined(next, prev));
    GroupIn(o, n, SortedKeys(Joined(prev, next)), note);
    GroupIn(o, n, SortedKeys(Joined(next, prev)), note);
    if note.what.OneofMember? {
      GroupAt(o, note.what.name, note.before);
      GroupAt(n, note.what.name, note.after);
      NoTwoGroups(o.oneofs, note.what.name, if note.before.OfText? && note.before.s.Some? then note.before.s.value else "");
      NoTwoGroups(n.oneofs, note.what.name, if note.after.OfText? && note.after.s.Some? then note.after.s.value else "");
    }
    hide SortedKeys, GroupNotes, GroupOf, Groups, InGroup, InNoGroup;
  }

  lemma {:induction false} NoTwoGroups(oneofs: seq<Oneof>, x: string, group: string)
    ensures !(InGroup(oneofs, x, group) && InNoGroup(oneofs, x))
  {
  }

  lemma {:induction false} InFive(a: seq<Note>, b: seq<Note>, c: seq<Note>, d: seq<Note>, e: seq<Note>, note: Note)
    ensures note in a + b + c + d + e <==> note in a || note in b || note in c || note in d || note in e
  {
  }

  lemma {:induction false} NumberedIn(prev: Schema, next: Schema, note: Note)
    requires Numbering(prev, next)
    ensures note in ProtoNotes(prev, next) <==>
      || note in SharedNumberNotes(prev, next) || note in UnreservedNotes(prev, SortedNumbers(Unreserved(prev, next)))
      || note in PresenceNotes(SortedKeys(LostPresence(prev, next))) || note in MembershipNotes(prev, next)
      || note in ReleasedNotes(SortedNumbers(Released(prev, next)))
  {
    hide *;
    NumberedNotes(prev, next);
    InFive(SharedNumberNotes(prev, next), UnreservedNotes(prev, SortedNumbers(Unreserved(prev, next))),
           PresenceNotes(SortedKeys(LostPresence(prev, next))), MembershipNotes(prev, next), ReleasedNotes(SortedNumbers(Released(prev, next))), note);
  }

  lemma {:induction false} LossesIn(prev: Schema, next: Schema, note: Note)
    ensures note in UnreservedNotes(prev, SortedNumbers(Unreserved(prev, next))) <==>
      note.what.NumberUnreserved? && note.what.number in Unreserved(prev, next)
      && note.before == OfText(NameAt(prev.kw.proto.fieldNumbers, note.what.number)) && note.after == OfText(None)
    ensures note in ReleasedNotes(SortedNumbers(Released(prev, next))) <==>
      note.what.ReservationDropped? && note.what.number in Released(prev, next) && note.before == Present && note.after == Absent
    ensures note in PresenceNotes(SortedKeys(LostPresence(prev, next))) <==>
      note.what.PresenceLost? && note.what.name in LostPresence(prev, next) && note.before == OfBool(true) && note.after == OfBool(false)
  {
    hide *;
    LossIn(prev, SortedNumbers(Unreserved(prev, next)), SortedKeys(LostPresence(prev, next)), note);
    LossIn(prev, SortedNumbers(Released(prev, next)), [], note);
    SortedNumbersElements(Unreserved(prev, next));
    SortedNumbersElements(Released(prev, next));
    SortedKeysElements(LostPresence(prev, next));
  }

  lemma {:induction false} ProtoIn(prev: Schema, next: Schema, note: Note)
    ensures note in ProtoNotes(prev, next) <==> ProtoDiffers(prev, next, note)
  {
    hide SortedNumbers, SortedKeys, SharedNumberNotes, MembershipNotes, UnreservedNotes, ReleasedNotes, PresenceNotes, NameTurned, InGroup, InNoGroup;
    if Numbering(prev, next) {
      NumberedIn(prev, next, note);
      hide ProtoNotes;
      SharedIn(prev, next, note);
      LossesIn(prev, next, note);
      MembershipIn(prev, next, note);
    }
  }

  // ------------------------------------------------------------------ properties

  lemma {:induction false} NamedIn(names: seq<string>, before: Detail, after: Detail, was: bool, note: Note)
    ensures note in FieldNotes(names, before, after) <==>
      note.what.Field? && note.what.name in names && note.before == before && note.after == after
    ensures note in RequiredNotes(names, was) <==>
      note.what.Requiredness? && note.what.name in names && note.before == OfBool(was) && note.after == OfBool(!was)
  {
    if note.what.Field? && note.what.name in names {
      var i :| 0 <= i < |names| && names[i] == note.what.name;
      assert FieldNotes(names, before, after)[i].what == note.what;
    }
    if note.what.Requiredness? && note.what.name in names {
      var i :| 0 <= i < |names| && names[i] == note.what.name;
      assert RequiredNotes(names, was)[i].what == note.what;
    }
  }

  lemma {:induction false} FieldIn(prev: Schema, next: Schema, note: Note)
    ensures note in RemovedAdded(prev, next) || note in RequiredChanges(prev, next) <==> FieldDiffers(prev, next, note)
  {
    hide SortedKeys, FieldNotes, RequiredNotes;
    var o, n := prev.properties.Keys, next.properties.Keys;
    var gained, lost := Transitions(prev, next, next.kw.required, prev.kw.required), Transitions(prev, next, prev.kw.required, next.kw.required);
    SortedKeysElements(o - n);
    SortedKeysElements(n - o);
    SortedKeysElements(gained);
    SortedKeysElements(lost);
    NamedIn(SortedKeys(o - n), Present, Absent, true, note);
    NamedIn(SortedKeys(n - o), Absent, Present, true, note);
    NamedIn(SortedKeys(gained), Present, Absent, false, note);
    NamedIn(SortedKeys(lost), Present, Absent, true, note);
  }

  // ------------------------------------------------------------------ the rest of a node

  lemma {:induction false} MappingIn(o: map<string, string>, n: map<string, string>, keys: seq<string>, note: Note)
    ensures note in MappingNotes(o, n, keys) <==>
      && note.what.DiscriminatorMapping? && note.what.key in keys
      && Turned(note, OfText(if note.what.key in o then Some(o[note.what.key]) else None), OfText(if note.what.key in n then Some(n[note.what.key]) else None))
  {
    if keys != [] {
      MappingIn(o, n, keys[1..], note);
      assert keys == [keys[0]] + keys[1..];
    }
  }

  lemma {:induction false} DiscriminatorIn(o: Option<Discriminator>, n: Option<Discriminator>, note: Note)
    ensures note in DiscriminatorNotes(o, n) <==>
      || (note.what.DiscriminatorProperty? && Turned(note, OfText(PropertyOf(o)), OfText(PropertyOf(n))))
      || (note.what.DiscriminatorMapping? && Turned(note, OfText(MappedTo(o, note.what.key)), OfText(MappedTo(n, note.what.key))))
  {
    hide MappingNotes, SortedKeys, Changed, DiscriminatorNotes, PropertyOf;
    var oMap, nMap := MappingOf(o), MappingOf(n);
    DiscriminatorShape(o, n);
    MappingIn(oMap, nMap, SortedKeys(oMap.Keys - nMap.Keys), note);
    MappingIn(oMap, nMap, SortedKeys(nMap.Keys - oMap.Keys), note);
    MappingIn(oMap, nMap, SortedKeys(oMap.Keys * nMap.Keys), note);
    SortedKeysElements(oMap.Keys - nMap.Keys);
    SortedKeysElements(nMap.Keys - oMap.Keys);
    SortedKeysElements(oMap.Keys * nMap.Keys);
    ChangedIn(DiscriminatorProperty, OfText(PropertyOf(o)), OfText(PropertyOf(n)), note);
  }

  lemma {:induction false} DependentIn(o: map<string, seq<string>>, n: map<string, seq<string>>, names: seq<string>, note: Note)
    ensures note in DependentRequiredNotes(o, n, names) <==>
      && note.what.DependentRequired? && note.what.name in names
      && Turned(note, OfNames(Requires(o, note.what.name)), OfNames(Requires(n, note.what.name)))
  {
    if names != [] {
      DependentIn(o, n, names[1..], note);
      assert names == [names[0]] + names[1..];
      ChangedIn(DependentRequired(names[0]), OfNames(Requires(o, names[0])), OfNames(Requires(n, names[0])), note);
      hide Changed;
    }
  }

  /** A task that reports this note, or compares these two. */
  predicate Loud(task: Task, step: Step, what: What, o: Option<Schema>, n: Option<Schema>) {
    match task
    case Emit(note) => note.what == what && CameOrWent(note, o.Some?, n.Some?)
    case Recurse(s, prev, next) => s == step && Both(o, n) == Some(Pair(prev, next))
  }

  lemma {:induction false} LoudIn(step: Step, what: What, o: Option<Schema>, n: Option<Schema>, task: Task)
    ensures task in LoudTask(step, what, o, n) <==> Loud(task, step, what, o, n)
  {
  }

  lemma {:induction false} KeyedIn(o: map<string, Schema>, n: map<string, Schema>, names: seq<string>, task: Task)
    ensures task in DependentSchemaTasks(o, n, names) <==>
      exists t :: t in names && Loud(task, Dependent(t), DependentSchema(t), Lookup(o, t), Lookup(n, t))
    ensures task in PatternTasks(o, n, names) <==>
      exists e :: e in names && Loud(task, PatternOf(e), PatternSchema(e), Lookup(o, e), Lookup(n, e))
  {
    hide Loud, LoudTask;
    if names != [] {
      var x := names[0];
      KeyedIn(o, n, names[1..], task);
      LoudIn(Dependent(x), DependentSchema(x), Lookup(o, x), Lookup(n, x), task);
      LoudIn(PatternOf(x), PatternSchema(x), Lookup(o, x), Lookup(n, x), task);
      assert names == [x] + names[1..];
    }
  }

  predicate KeyedTask(task: Task, o: map<string, Schema>, n: map<string, Schema>, pattern: bool) {
    match task
    case Emit(note) =>
      if pattern then note.what.PatternSchema? && CameOrWent(note, note.what.pattern in o, note.what.pattern in n)
      else note.what.DependentSchema? && CameOrWent(note, note.what.name in o, note.what.name in n)
    case Recurse(step, prev, next) =>
      if pattern then step.PatternOf? && Keyed(o, n, step.pattern) == Some(Pair(prev, next))
      else step.Dependent? && Keyed(o, n, step.name) == Some(Pair(prev, next))
  }

  /** The key a task is about. */
  function KeyOf(task: Task, pattern: bool): Option<string> {
    match task
    case Emit(note) =>
      if pattern then (if note.what.PatternSchema? then Some(note.what.pattern) else None)
      else (if note.what.DependentSchema? then Some(note.what.name) else None)
    case Recurse(step, _, _) =>
      if pattern then (if step.PatternOf? then Some(step.pattern) else None) else (if step.Dependent? then Some(step.name) else None)
  }

  lemma {:induction false} LoudAt(task: Task, o: map<string, Schema>, n: map<string, Schema>, x: string)
    ensures Loud(task, Dependent(x), DependentSchema(x), Lookup(o, x), Lookup(n, x)) <==> KeyOf(task, false) == Some(x) && KeyedTask(task, o, n, false)
    ensures Loud(task, PatternOf(x), PatternSchema(x), Lookup(o, x), Lookup(n, x)) <==> KeyOf(task, true) == Some(x) && KeyedTask(task, o, n, true)
  {
  }

  lemma {:induction false} KeyedWhere(task: Task, o: map<string, Schema>, n: map<string, Schema>, pattern: bool)
    requires KeyedTask(task, o, n, pattern)
    ensures KeyOf(task, pattern).Some? && KeyOf(task, pattern).value in o.Keys + n.Keys
  {
  }

  lemma {:induction false} AllKeyedIn(o: map<string, Schema>, n: map<string, Schema>, task: Task)
    ensures task in DependentSchemaTasks(o, n, SortedKeys(o.Keys + n.Keys)) <==> KeyedTask(task, o, n, false)
    ensures task in PatternTasks(o, n, SortedKeys(o.Keys + n.Keys)) <==> KeyedTask(task, o, n, true)
  {
    hide *;
    var names := SortedKeys(o.Keys + n.Keys);
    SortedKeysElements(o.Keys + n.Keys);
    KeyedIn(o, n, names, task);
    forall x
      ensures Loud(task, Dependent(x), DependentSchema(x), Lookup(o, x), Lookup(n, x)) <==> KeyOf(task, false) == Some(x) && KeyedTask(task, o, n, false)
      ensures Loud(task, PatternOf(x), PatternSchema(x), Lookup(o, x), Lookup(n, x)) <==> KeyOf(task, true) == Some(x) && KeyedTask(task, o, n, true)
    {
      LoudAt(task, o, n, x);
    }
    if KeyedTask(task, o, n, false) {
      KeyedWhere(task, o, n, false);
      var x := KeyOf(task, false).value;
      assert x in names && Loud(task, Dependent(x), DependentSchema(x), Lookup(o, x), Lookup(n, x));
    }
    if KeyedTask(task, o, n, true) {
      KeyedWhere(task, o, n, true);
      var x := KeyOf(task, true).value;
      assert x in names && Loud(task, PatternOf(x), PatternSchema(x), Lookup(o, x), Lookup(n, x));
    }
  }

  predicate TupleTask(task: Task, o: seq<Schema>, n: seq<Schema>) {
    match task
    case Emit(note) =>
      || (note.what.TupleLength? && Turned(note, OfInt(Some(|o|)), OfInt(Some(|n|))))
      || (note.what.TupleType? && |o| == |n| && note.what.i < |o| && Turned(note, OfType(o[note.what.i].kw.typ), OfType(n[note.what.i].kw.typ)))
    case Recurse(step, prev, next) =>
      step.Prefix? && |o| == |n| && step.i < |o| && o[step.i].kw.typ == n[step.i].kw.typ && prev == o[step.i] && next == n[step.i]
  }

  lemma {:induction false} TupleIn(o: seq<Schema>, n: seq<Schema>, task: Task)
    ensures task in PrefixTasks(o, n) <==> TupleTask(task, o, n)
  {
    var tasks := PrefixTasks(o, n);
    if |o| == |n| {
      forall i | 0 <= i < |o| ensures tasks[i] == PrefixTask(i, o[i], n[i]) {}
      if task.Emit? && task.note.what.TupleType? && task.note.what.i < |o| { assert tasks[task.note.what.i] in tasks; }
      if task.Recurse? && task.step.Prefix? && task.step.i < |o| { assert tasks[task.step.i] in tasks; }
    }
  }

  lemma {:induction false} VariantIn(list: Variants, o: seq<Schema>, n: seq<Schema>, task: Task)
    ensures task in VariantTasks(list, o, n) <==>
      && task.Recurse? && task.step.Variant? && task.step.list == list && |o| == |n| && task.step.i < |o|
      && task.prev == o[task.step.i] && task.next == n[task.step.i]
  {
    var tasks := VariantTasks(list, o, n);
    if |o| == |n| {
      forall i | 0 <= i < |o| ensures tasks[i] == Recurse(Variant(list, i), o[i], n[i]) {}
      if task.Recurse? && task.step.Variant? && task.step.i < |o| { assert tasks[task.step.i] in tasks; }
    }
  }

  lemma {:induction false} PropertyIn(prev: Schema, next: Schema, task: Task)
    ensures task in Shared(prev, next) <==>
      task.Recurse? && task.step.Prop? && Keyed(prev.properties, next.properties, task.step.name) == Some(Pair(task.prev, task.next))
  {
    var both := prev.properties.Keys * next.properties.Keys;
    var names := SortedKeys(both);
    SortedKeysElements(both);
    var tasks := Shared(prev, next);
    forall i | 0 <= i < |names| ensures names[i] in both && tasks[i] == Recurse(Prop(names[i]), prev.properties[names[i]], next.properties[names[i]]) {
      assert names[i] in names;
    }
    if task.Recurse? && task.step.Prop? && task.step.name in both {
      assert task.step.name in names;
      var i :| 0 <= i < |names| && names[i] == task.step.name;
      assert tasks[i] in tasks;
    }
    hide SortedKeys;
  }

  // ------------------------------------------------------------------ whole nodes

  lemma {:induction false} NoteIn(notes: seq<Note>, task: Task)
    ensures task in Emits(notes) <==> task.Emit? && task.note in notes
  {
    if task.Emit? { EmitIn(notes, task.note); } else { RecurseNotIn(notes, task.step, task.prev, task.next); }
    hide Emits;
  }

  lemma {:induction false} MiddleIn(prev: Schema, next: Schema, task: Task)
    ensures task in MiddleTasks(prev, next) <==>
      || task in QuietTask(Items, prev.items, next.items)
      || (task.Emit? && task.note in DiscriminatorNotes(prev.kw.discriminator, next.kw.discriminator))
      || task in VariantTasks(OneOf, prev.oneOf, next.oneOf) || task in VariantTasks(AnyOf, prev.anyOf, next.anyOf)
      || task in VariantTasks(AllOf, prev.allOf, next.allOf)
  {
    NoteIn(DiscriminatorNotes(prev.kw.discriminator, next.kw.discriminator), task);
    hide QuietTask, Emits, DiscriminatorNotes, VariantTasks;
  }

  lemma {:induction false} LaterIn(prev: Schema, next: Schema, task: Task)
    ensures task in DependentTasks(prev, next) || task in TupleAndPatternTasks(prev, next) <==>
      || (task.Emit? && task.note in DependentRequiredNotes(prev.kw.dependentRequired, next.kw.dependentRequired,
                                                            SortedKeys(prev.kw.dependentRequired.Keys + next.kw.dependentRequired.Keys)))
      || KeyedTask(task, prev.dependentSchemas, next.dependentSchemas, false)
      || task in PrefixTasks(prev.prefixItems, next.prefixItems)
      || KeyedTask(task, prev.patternProperties, next.patternProperties, true)
  {
    AllKeyedIn(prev.dependentSchemas, next.dependentSchemas, task);
    AllKeyedIn(prev.patternProperties, next.patternProperties, task);
    NoteIn(DependentRequiredNotes(prev.kw.dependentRequired, next.kw.dependentRequired,
                                  SortedKeys(prev.kw.dependentRequired.Keys + next.kw.dependentRequired.Keys)), task);
    hide KeyedTask, PrefixTasks, Emits, DependentRequiredNotes, DependentSchemaTasks, PatternTasks, SortedKeys;
  }

  lemma {:induction false} SingleIn(prev: Schema, next: Schema, task: Task)
    ensures task in SingleTasks(prev, next) <==>
      || Loud(task, Names, NamesSchema, prev.propertyNames, next.propertyNames)
      || Loud(task, Contained, ContainsSchema, prev.contains, next.contains)
      || (task.Emit? && task.note in ContainsBounds(prev.kw, next.kw))
      || Loud(task, Conditional(If), BranchSchema(If), prev.ifSchema, next.ifSchema)
      || Loud(task, Conditional(Then), BranchSchema(Then), prev.thenSchema, next.thenSchema)
      || Loud(task, Conditional(Else), BranchSchema(Else), prev.elseSchema, next.elseSchema)
  {
    LoudIn(Names, NamesSchema, prev.propertyNames, next.propertyNames, task);
    LoudIn(Contained, ContainsSchema, prev.contains, next.contains, task);
    NoteIn(ContainsBounds(prev.kw, next.kw), task);
    LoudIn(Conditional(If), BranchSchema(If), prev.ifSchema, next.ifSchema, task);
    LoudIn(Conditional(Then), BranchSchema(Then), prev.thenSchema, next.thenSchema, task);
    LoudIn(Conditional(Else), BranchSchema(Else), prev.elseSchema, next.elseSchema, task);
    hide Loud, LoudTask, Emits, ContainsBounds;
  }

  lemma {:induction false} SegmentsIn(prev: Schema, next: Schema, task: Task)
    ensures task in Tasks(prev, next) <==>
      || (task.Emit? && (task.note in ProtoNotes(prev, next) || task.note in KeywordNotes(prev.kw, next.kw)
                         || task.note in RemovedAdded(prev, next) || task.note in RequiredChanges(prev, next)))
      || task in Shared(prev, next) || task in MiddleTasks(prev, next)
      || task in DependentTasks(prev, next) || task in TupleAndPatternTasks(prev, next) || task in SingleTasks(prev, next)
  {
    hide *;
    TasksPieces(prev, next);
    NoteIn(ProtoNotes(prev, next), task);
    NoteIn(KeywordNotes(prev.kw, next.kw), task);
    NoteIn(RemovedAdded(prev, next), task);
    NoteIn(RequiredChanges(prev, next), task);
  }

  lemma {:induction false} OtherCases(prev: Schema, next: Schema, note: Note)
    ensures OtherDiffers(prev, next, note) <==>
      || (note.what.DiscriminatorProperty? && Turned(note, OfText(PropertyOf(prev.kw.discriminator)), OfText(PropertyOf(next.kw.discriminator))))
      || (note.what.DiscriminatorMapping?
          && Turned(note, OfText(MappedTo(prev.kw.discriminator, note.what.key)), OfText(MappedTo(next.kw.discriminator, note.what.key))))
      || (note.what.DependentRequired?
          && Turned(note, OfNames(Requires(prev.kw.dependentRequired, note.what.name)), OfNames(Requires(next.kw.dependentRequired, note.what.name))))
      || KeyedTask(Emit(note), prev.dependentSchemas, next.dependentSchemas, false)
      || TupleTask(Emit(note), prev.prefixItems, next.prefixItems)
      || KeyedTask(Emit(note), prev.patternProperties, next.patternProperties, true)
      || Loud(Emit(note), Names, NamesSchema, prev.propertyNames, next.propertyNames)
      || Loud(Emit(note), Contained, ContainsSchema, prev.contains, next.contains)
      || (note.what.MinContains? && Turned(note, OfInt(prev.kw.minContains), OfInt(next.kw.minContains)))
      || (note.what.MaxContains? && Turned(note, OfInt(prev.kw.maxContains), OfInt(next.kw.maxContains)))
      || Loud(Emit(note), Conditional(If), BranchSchema(If), prev.ifSchema, next.ifSchema)
      || Loud(Emit(note), Conditional(Then), BranchSchema(Then), prev.thenSchema, next.thenSchema)
      || Loud(Emit(note), Conditional(Else), BranchSchema(Else), prev.elseSchema, next.elseSchema)
  {
    hide Turned, CameOrWent, MappedTo, Requires;
  }

  lemma {:induction false} RequiresIn(prev: Schema, next: Schema, note: Note)
    ensures note in DependentRequiredNotes(prev.kw.dependentRequired, next.kw.dependentRequired,
                                           SortedKeys(prev.kw.dependentRequired.Keys + next.kw.dependentRequired.Keys)) <==>
      note.what.DependentRequired?
      && Turned(note, OfNames(Requires(prev.kw.dependentRequired, note.what.name)), OfNames(Requires(next.kw.dependentRequired, note.what.name)))
  {
    hide SortedKeys, DependentRequiredNotes, Turned;
    var keys := prev.kw.dependentRequired.Keys + next.kw.dependentRequired.Keys;
    SortedKeysElements(keys);
    DependentIn(prev.kw.dependentRequired, next.kw.dependentRequired, SortedKeys(keys), note);
    if note.what.DependentRequired? && note.what.name !in keys { NotTurned(note, OfNames([])); }
  }

  lemma {:induction false} BoundsIn(o: Keywords, n: Keywords, note: Note)
    ensures note in ContainsBounds(o, n) <==>
      || (note.what.MinContains? && Turned(note, OfInt(o.minContains), OfInt(n.minContains)))
      || (note.what.MaxContains? && Turned(note, OfInt(o.maxContains), OfInt(n.maxContains)))
  {
    ChangedIn(MinContains, OfInt(o.minContains), OfInt(n.minContains), note);
    ChangedIn(MaxContains, OfInt(o.maxContains), OfInt(n.maxContains), note);
    hide Changed, Turned;
  }

  lemma {:induction false} OtherIn(prev: Schema, next: Schema, note: Note)
    ensures OtherDiffers(prev, next, note) <==>
      || Emit(note) in MiddleTasks(prev, next) || Emit(note) in DependentTasks(prev, next)
      || Emit(note) in TupleAndPatternTasks(prev, next) || Emit(note) in SingleTasks(prev, next)
  {
    hide *;
    OtherCases(prev, next, note);
    MiddleIn(prev, next, Emit(note));
    NotQuiet(prev, next, note);
    VariantIn(OneOf, prev.oneOf, next.oneOf, Emit(note));
    VariantIn(AnyOf, prev.anyOf, next.anyOf, Emit(note));
    VariantIn(AllOf, prev.allOf, next.allOf, Emit(note));
    DiscriminatorIn(prev.kw.discriminator, next.kw.discriminator, note);
    LaterIn(prev, next, Emit(note));
    RequiresIn(prev, next, note);
    TupleIn(prev.prefixItems, next.prefixItems, Emit(note));
    SingleIn(prev, next, Emit(note));
    BoundsIn(prev.kw, next.kw, note);
  }

  lemma {:induction false} NotQuiet(prev: Schema, next: Schema, note: Note)
    ensures Emit(note) !in QuietTask(Items, prev.items, next.items)
  {
  }

  lemma {:induction false} NotTurned(note: Note, d: Detail)
    ensures !Turned(note, d, d)
  {
  }

  /** A node reports exactly what differs at it. */
  lemma {:induction false} NotesExactly(prev: Schema, next: Schema, note: Note)
    ensures Emit(note) in Tasks(prev, next) <==> Differs(prev, next, note)
  {
    hide *;
    SegmentsIn(prev, next, Emit(note));
    ProtoIn(prev, next, note);
    KeywordIn(prev.kw, next.kw, note);
    FieldIn(prev, next, note);
    PropertyIn(prev, next, Emit(note));
    OtherIn(prev, next, note);
    DiffersMeans(prev, next, note);
  }

  lemma {:induction false} DiffersMeans(prev: Schema, next: Schema, note: Note)
    ensures Differs(prev, next, note) <==>
      ProtoDiffers(prev, next, note) || KeywordDiffers(prev.kw, next.kw, note) || FieldDiffers(prev, next, note) || OtherDiffers(prev, next, note)
  {
    hide ProtoDiffers, KeywordDiffers, FieldDiffers, OtherDiffers;
  }

  /** ... and goes on to exactly the pairs there are below it. */
  lemma {:induction false} ChildrenExactly(prev: Schema, next: Schema, step: Step, o: Schema, n: Schema)
    ensures Recurse(step, o, n) in Tasks(prev, next) <==> Child(prev, next, step) == Some(Pair(o, n))
  {
    var task := Recurse(step, o, n);
    SegmentsIn(prev, next, task);
    hide Tasks, Shared, MiddleTasks, DependentTasks, TupleAndPatternTasks, SingleTasks, SortedKeys, DiscriminatorNotes, DependentRequiredNotes,
      PrefixTasks, VariantTasks, ProtoNotes, KeywordNotes, RemovedAdded, RequiredChanges, ContainsBounds;
    PropertyIn(prev, next, task);
    MiddleIn(prev, next, task);
    VariantIn(OneOf, prev.oneOf, next.oneOf, task);
    VariantIn(AnyOf, prev.anyOf, next.anyOf, task);
    VariantIn(AllOf, prev.allOf, next.allOf, task);
    LaterIn(prev, next, task);
    TupleIn(prev.prefixItems, next.prefixItems, task);
    SingleIn(prev, next, task);
  }

  // ------------------------------------------------------------------ the whole report

  lemma {:induction false} FlattenedExactly(parent: Schema, tasks: seq<Task>, path: seq<Step>, e: Entry)
    requires Inside(parent, tasks)
    ensures e in Flatten(parent, tasks, path) <==> exists t :: t in tasks && e in TaskEntries(t, path)
    decreases |tasks|
  {
    hide *;
    if tasks == [] {
      FlattenNone(parent, path);
    } else {
      FlattenStep(parent, tasks, path);
      FlattenedExactly(parent, tasks[1..], path, e);
      assert tasks == [tasks[0]] + tasks[1..];
    }
  }

  lemma {:induction false} TasksExactly(prev: Schema, next: Schema, path: seq<Step>, e: Entry)
    ensures e in SchemaEntries(prev, next, path) <==> exists t :: t in Tasks(prev, next) && e in TaskEntries(t, path)
  {
    TasksInside(prev, next);
    FlattenedExactly(prev, Tasks(prev, next), path, e);
    hide Tasks, Flatten, TaskEntries;
  }

  /** The entry is about a pair of nodes that is reached, and says what differs there. */
  ghost predicate SaysWhatDiffers(prev: Schema, next: Schema, path: seq<Step>, e: Entry) {
    && path <= e.path
    && var pair := Reach(prev, next, e.path[|path|..]);
       pair.Some? && Differs(pair.value.prev, pair.value.next, e.note)
  }

  lemma {:induction false} BelowSays(prev: Schema, next: Schema, path: seq<Step>, step: Step, pair: Pair, e: Entry)
    requires Child(prev, next, step) == Some(pair)
    ensures SaysWhatDiffers(pair.prev, pair.next, path + [step], e) <==> SaysWhatDiffers(prev, next, path, e) && path + [step] <= e.path
  {
    hide Child, Differs;
    if path + [step] <= e.path {
      var route := e.path[|path|..];
      assert e.path[|path|] == (path + [step])[|path|] == step;
      assert route[0] == step && route[1..] == e.path[|path + [step]|..];
      assert path <= e.path;
    }
  }

  /** The report holds an entry if and only if it is about two nodes that are compared, reached along the entry's path, and
      says what differs between them: what the one has and what the other has. */
  lemma {:induction false} ReportExactly(prev: Schema, next: Schema, path: seq<Step>, e: Entry)
    ensures e in SchemaEntries(prev, next, path) <==> SaysWhatDiffers(prev, next, path, e)
    decreases prev
  {
    hide *;
    TasksExactly(prev, next, path, e);
    if e in SchemaEntries(prev, next, path) {
      var t :| t in Tasks(prev, next) && e in TaskEntries(t, path);
      TaskMeans(t, path, e);
      if t.Emit? {
        NotesExactly(prev, next, t.note);
        HereSays(prev, next, path, e);
      } else {
        ChildrenExactly(prev, next, t.step, t.prev, t.next);
        TaskSmaller(prev, next, t);
        ReportExactly(t.prev, t.next, path + [t.step], e);
        BelowSays(prev, next, path, t.step, Pair(t.prev, t.next), e);
      }
    }
    if SaysWhatDiffers(prev, next, path, e) {
      if e.path == path {
        NotesExactly(prev, next, e.note);
        HereSays(prev, next, path, e);
        TaskMeans(Emit(e.note), path, e);
        assert Entry(path, e.note) == e;
      } else {
        SaysMeans(prev, next, path, e);
        var step := e.path[|path|];
        var pair := Child(prev, next, step).value;
        ChildrenExactly(prev, next, step, pair.prev, pair.next);
        var t := Recurse(step, pair.prev, pair.next);
        TaskSmaller(prev, next, t);
        BelowSays(prev, next, path, step, pair, e);
        ReportExactly(pair.prev, pair.next, path + [step], e);
        TaskMeans(t, path, e);
      }
    }
  }

  lemma {:induction false} TaskMeans(t: Task, path: seq<Step>, e: Entry)
    ensures t.Emit? ==> (e in TaskEntries(t, path) <==> e == Entry(path, t.note))
    ensures t.Recurse? ==> (e in TaskEntries(t, path) <==> e in SchemaEntries(t.prev, t.next, path + [t.step]))
  {
    hide SchemaEntries;
  }

  lemma {:induction false} TaskSmaller(prev: Schema, next: Schema, t: Task)
    requires t in Tasks(prev, next) && t.Recurse?
    ensures t.prev < prev
  {
    TasksInside(prev, next);
    hide Tasks;
  }

  lemma {:induction false} HereSays(prev: Schema, next: Schema, path: seq<Step>, e: Entry)
    requires e.path == path
    ensures SaysWhatDiffers(prev, next, path, e) <==> Differs(prev, next, e.note)
  {
    hide Differs;
    assert e.path[|path|..] == [];
  }

  lemma {:induction false} SaysMeans(prev: Schema, next: Schema, path: seq<Step>, e: Entry)
    requires SaysWhatDiffers(prev, next, path, e) && e.path != path
    ensures path <= e.path && |path| < |e.path| && Child(prev, next, e.path[|path|]).Some? && path + [e.path[|path|]] <= e.path
  {
    hide Differs, Child;
    assert e.path == path + e.path[|path|..];
    var route := e.path[|path|..];
    assert route != [] && route[0] == e.path[|path|];
  }
}
