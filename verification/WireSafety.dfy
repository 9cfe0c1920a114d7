/** What a clean comparison of protobuf messages promises about the wire: a field number that stays keeps its encoding. */
module WireSafety {
  import opened Model
  import opened Ordering
  import opened Diff

  /** Changes that are about the wire: a number reused, a type or a format that is not what it was. */
  predicate OnTheWire(n: Note) { n.what.NumberReused? || n.what.Type? || n.what.Format? }

  ghost predicate Clean(entries: seq<Entry>) {
    forall e :: e in entries ==> !OnTheWire(e.note)
  }

  function ShapeOf(s: Schema, number: int): string
    requires number in s.kw.proto.fieldNumbers
  {
    WireShape(Lookup(s.properties, s.kw.proto.fieldNumbers[number]))
  }

  /** Every number both messages have is encoded alike, here and in every field they share by name, and in the items of
      such fields. */
  ghost predicate WireSafe(prev: Schema, next: Schema)
    decreases prev
  {
    && (forall number :: number in prev.kw.proto.fieldNumbers && number in next.kw.proto.fieldNumbers ==>
          ShapeOf(prev, number) == ShapeOf(next, number))
    && (forall x :: x in prev.properties && x in next.properties ==> WireSafe(prev.properties[x], next.properties[x]))
    && (prev.items.Some? && next.items.Some? ==> WireSafe(prev.items.value, next.items.value))
  }

  /** How a node is named on the wire that does not say what it holds: its format, else its type. */
  function Label(s: Schema): string {
    if s.kw.format.Some? && s.kw.format.value != "" then s.kw.format.value
    else if s.kw.typ.Some? && TypeName(s.kw.typ.value) != "" then TypeName(s.kw.typ.value)
    else "unknown"
  }

  const REPEATED := "repeated "

  /** The text is how the wire names the node: `repeated` once for every array that says what it holds, then the format,
      else the type, of what is held. */
  predicate SpelledAs(text: string, node: Option<Schema>)
    decreases node
  {
    if node.None? then text == "unknown"
    else if node.value.kw.typ == Some(TArray) && node.value.items.Some?
    then REPEATED <= text && SpelledAs(text[|REPEATED|..], node.value.items)
    else text == Label(node.value)
  }

  /** The node has a format that reads as if it held these items. */
  predicate ReadsAsRepeated(s: Schema, items: Option<Schema>) {
    s.kw.format.Some? && REPEATED <= s.kw.format.value && SpelledAs(s.kw.format.value[|REPEATED|..], items)
  }

  /** Along a chain of arrays, both sides say what they hold or neither does; or one that does not has a format that
      reads as if it did. */
  predicate SpelledAlike(prev: Schema, next: Schema)
    decreases prev
  {
    prev.kw.typ == Some(TArray) ==>
      if prev.items.Some? && next.items.Some? then SpelledAlike(prev.items.value, next.items.value)
      else if prev.items.Some? then ReadsAsRepeated(next, prev.items)
      else next.items.Some? ==> ReadsAsRepeated(prev, next.items)
  }

  /** A field that says nothing of itself is encoded like one that is missing. */
  predicate Unnamed(s: Schema) {
    !(s.kw.typ == Some(TArray) && s.items.Some?) && Label(s) == "unknown"
  }

  predicate FieldsAlike(prev: Option<Schema>, next: Option<Schema>) {
    if prev.Some? && next.Some? then SpelledAlike(prev.value, next.value)
    else (prev.Some? ==> Unnamed(prev.value)) && (next.Some? ==> Unnamed(next.value))
  }

  /** The fields of numbers that keep their names are spelled alike, at every level reached. */
  predicate NumbersAlike(prev: Schema, next: Schema)
    decreases prev
  {
    && (forall number :: number in prev.kw.proto.fieldNumbers && number in next.kw.proto.fieldNumbers ==> NumberAlike(prev, next, number))
    && (forall x :: x in prev.properties && x in next.properties ==> NumbersAlike(prev.properties[x], next.properties[x]))
    && (prev.items.Some? && next.items.Some? ==> NumbersAlike(prev.items.value, next.items.value))
  }

  predicate NumberAlike(prev: Schema, next: Schema, number: int)
    requires number in prev.kw.proto.fieldNumbers && number in next.kw.proto.fieldNumbers
  {
    var x := prev.kw.proto.fieldNumbers[number];
    x == next.kw.proto.fieldNumbers[number] ==> FieldsAlike(Lookup(prev.properties, x), Lookup(next.properties, x))
  }

  // ------------------------------------------------------------------ what a clean report has seen

  lemma {:induction false} NumberNoteListed(prev: Schema, next: Schema, numbers: seq<int>, number: int)
    requires forall x :: x in numbers ==> x in prev.kw.proto.fieldNumbers && x in next.kw.proto.fieldNumbers
    requires number in numbers
    ensures forall n :: n in NumberNote(prev, next, number) ==> n in NumberNotes(prev, next, numbers)
  {
    assert numbers == [numbers[0]] + numbers[1..];
    if number != numbers[0] { NumberNoteListed(prev, next, numbers[1..], number); }
    hide NumberNote;
  }

  lemma {:induction false} EmittedListed(notes: seq<Note>, n: Note)
    requires n in notes
    ensures Emit(n) in Emits(notes)
  {
    var i :| 0 <= i < |notes| && notes[i] == n;
    assert Emits(notes)[i] == Emit(n);
  }

  lemma {:induction false} NumbersSeen(prev: Schema, next: Schema, number: int, n: Note)
    requires number in prev.kw.proto.fieldNumbers && number in next.kw.proto.fieldNumbers && n in NumberNote(prev, next, number)
    ensures Emit(n) in Tasks(prev, next)
  {
    var shared := SortedNumbers(prev.kw.proto.fieldNumbers.Keys * next.kw.proto.fieldNumbers.Keys);
    SortedNumbersElements(prev.kw.proto.fieldNumbers.Keys * next.kw.proto.fieldNumbers.Keys);
    NumberNoteListed(prev, next, shared, number);
    assert n in ProtoNotes(prev, next);
    EmittedListed(ProtoNotes(prev, next), n);
    hide ProtoNotes, NumberNote, NumberNotes, SortedNumbers, Emits, Tasks;
    TasksPieces(prev, next);
  }

  lemma {:induction false} TypesSeen(prev: Schema, next: Schema)
    ensures prev.kw.typ != next.kw.typ ==> Emit(Note(Type, OfType(prev.kw.typ), OfType(next.kw.typ))) in Tasks(prev, next)
    ensures prev.kw.format != next.kw.format ==> Emit(Note(Format, OfText(prev.kw.format), OfText(next.kw.format))) in Tasks(prev, next)
  {
    hide Constraints, ConstraintNotes, PyEq, EnumEq;
    var notes := KeywordNotes(prev.kw, next.kw);
    var t, f := Note(Type, OfType(prev.kw.typ), OfType(next.kw.typ)), Note(Format, OfText(prev.kw.format), OfText(next.kw.format));
    if prev.kw.typ != next.kw.typ {
      assert t in Changed(Type, OfType(prev.kw.typ), OfType(next.kw.typ));
      EmittedListed(notes, t);
    }
    if prev.kw.format != next.kw.format {
      assert f in Changed(Format, OfText(prev.kw.format), OfText(next.kw.format));
      EmittedListed(notes, f);
    }
    hide KeywordNotes, Emits, Tasks;
    TasksPieces(prev, next);
  }

  lemma {:induction false} FieldsSeen(prev: Schema, next: Schema, x: string)
    requires x in prev.properties && x in next.properties
    ensures Recurse(Prop(x), prev.properties[x], next.properties[x]) in Tasks(prev, next)
  {
    var names := SortedKeys(prev.properties.Keys * next.properties.Keys);
    SortedKeysElements(prev.properties.Keys * next.properties.Keys);
    assert x in names;
    var i :| 0 <= i < |names| && names[i] == x;
    assert Shared(prev, next)[i] == Recurse(Prop(x), prev.properties[x], next.properties[x]);
    hide Shared, SortedKeys, Tasks;
    TasksPieces(prev, next);
  }

  lemma {:induction false} ItemsSeen(prev: Schema, next: Schema)
    requires prev.items.Some? && next.items.Some?
    ensures Recurse(Items, prev.items.value, next.items.value) in Tasks(prev, next)
  {
    hide DiscriminatorNotes, VariantTasks, Emits;
    assert QuietTask(Items, prev.items, next.items)[0] == Recurse(Items, prev.items.value, next.items.value);
    assert Recurse(Items, prev.items.value, next.items.value) in MiddleTasks(prev, next);
    hide MiddleTasks, Tasks;
    TasksPieces(prev, next);
  }

  lemma {:induction false} CleanChild(prev: Schema, next: Schema, task: Task, path: seq<Step>)
    requires Clean(SchemaEntries(prev, next, path)) && task in Tasks(prev, next)
    ensures Clean(TaskEntries(task, path))
  {
    Reported(prev, next, task, path);
    hide SchemaEntries, TaskEntries, Tasks;
  }

  lemma {:induction false} CleanNode(prev: Schema, next: Schema, path: seq<Step>)
    requires Clean(SchemaEntries(prev, next, path))
    ensures prev.kw.typ == next.kw.typ && prev.kw.format == next.kw.format
  {
    TypesSeen(prev, next);
    hide SchemaEntries, Tasks;
    var t, f := Note(Type, OfType(prev.kw.typ), OfType(next.kw.typ)), Note(Format, OfText(prev.kw.format), OfText(next.kw.format));
    if prev.kw.typ != next.kw.typ { CleanChild(prev, next, Emit(t), path); }
    if prev.kw.format != next.kw.format { CleanChild(prev, next, Emit(f), path); }
    assert Entry(path, t) in TaskEntries(Emit(t), path) && Entry(path, f) in TaskEntries(Emit(f), path);
  }

  lemma {:induction false} ShapeMeans(s: Schema)
    ensures WireShape(Some(s)) == if s.kw.typ == Some(TArray) && s.items.Some? then "repeated " + WireShape(s.items) else Label(s)
    ensures WireShape(Some(s)) == "unknown" <==> Unnamed(s)
  {
    hide TypeName;
    if s.kw.typ == Some(TArray) && s.items.Some? { assert WireShape(Some(s))[0] == 'r'; }
  }

  lemma {:induction false} SamePrefix(prefix: string, a: string, b: string)
    requires prefix + a == prefix + b
    ensures a == b
  {
    assert (prefix + a)[|prefix|..] == a && (prefix + b)[|prefix|..] == b;
  }

  lemma {:induction false} SpelledMeans(prev: Schema, next: Schema)
    ensures SpelledAlike(prev, next) <==>
      (prev.kw.typ == Some(TArray) ==>
        if prev.items.Some? && next.items.Some? then SpelledAlike(prev.items.value, next.items.value)
        else if prev.items.Some? then ReadsAsRepeated(next, prev.items)
        else next.items.Some? ==> ReadsAsRepeated(prev, next.items))
  {
    hide ReadsAsRepeated;
  }

  /** The spelling is the wire shape. */
  lemma {:induction false} SpelledExactly(text: string, node: Option<Schema>)
    ensures SpelledAs(text, node) <==> text == WireShape(node)
    decreases node
  {
    hide Label;
    if node.Some? {
      var s := node.value;
      ShapeMeans(s);
      if s.kw.typ == Some(TArray) && s.items.Some? {
        hide WireShape;
        if REPEATED <= text {
          SpelledExactly(text[|REPEATED|..], s.items);
          assert text == REPEATED + text[|REPEATED|..];
          if REPEATED + text[|REPEATED|..] == REPEATED + WireShape(s.items) { SamePrefix(REPEATED, text[|REPEATED|..], WireShape(s.items)); }
        }
      }
    }
  }

  /** An array is named by its format or by its kind, and the kind does not read as a repetition. */
  lemma {:induction false} RepeatedExactly(s: Schema, items: Option<Schema>)
    requires s.kw.typ == Some(TArray)
    ensures Label(s) == REPEATED + WireShape(items) <==> ReadsAsRepeated(s, items)
  {
    hide WireShape, SpelledAs;
    assert TypeName(TArray) == "array" && "array"[0] != REPEATED[0];
    assert (REPEATED + WireShape(items))[0] == REPEATED[0];
    if s.kw.format.Some? && s.kw.format.value != "" {
      var f := s.kw.format.value;
      if REPEATED <= f {
        SpelledExactly(f[|REPEATED|..], items);
        assert f == REPEATED + f[|REPEATED|..];
        if f == REPEATED + WireShape(items) { SamePrefix(REPEATED, f[|REPEATED|..], WireShape(items)); }
      }
    }
  }

  /** Two revisions of a field of which a clean report was made are encoded alike exactly when they are spelled alike. */
  lemma {:induction false} CleanShape(prev: Schema, next: Schema, path: seq<Step>)
    requires Clean(SchemaEntries(prev, next, path))
    ensures WireShape(Some(prev)) == WireShape(Some(next)) <==> SpelledAlike(prev, next)
    decreases prev
  {
    hide SchemaEntries, Tasks, Clean, WireShape, SpelledAlike, ReadsAsRepeated, Label;
    CleanNode(prev, next, path);
    ShapeMeans(prev);
    ShapeMeans(next);
    SpelledMeans(prev, next);
    LabelsAgree(prev, next);
    if prev.items.Some? && next.items.Some? {
      ItemsSeen(prev, next);
      CleanChild(prev, next, Recurse(Items, prev.items.value, next.items.value), path);
      CleanShape(prev.items.value, next.items.value, path + [Items]);
      assert prev.items == Some(prev.items.value) && next.items == Some(next.items.value);
      if "repeated " + WireShape(prev.items) == "repeated " + WireShape(next.items) {
        SamePrefix("repeated ", WireShape(prev.items), WireShape(next.items));
      }
    } else if prev.kw.typ == Some(TArray) {
      RepeatedExactly(next, prev.items);
      RepeatedExactly(prev, next.items);
    }
  }

  lemma {:induction false} LabelsAgree(prev: Schema, next: Schema)
    requires prev.kw.typ == next.kw.typ && prev.kw.format == next.kw.format
    ensures Label(prev) == Label(next)
  {
    hide TypeName;
  }

  lemma {:induction false} CleanReuse(prev: Schema, next: Schema, path: seq<Step>, number: int)
    requires Clean(SchemaEntries(prev, next, path))
    requires number in prev.kw.proto.fieldNumbers && number in next.kw.proto.fieldNumbers
    requires prev.kw.proto.fieldNumbers[number] != next.kw.proto.fieldNumbers[number]
    ensures ShapeOf(prev, number) == ShapeOf(next, number)
  {
    hide SchemaEntries, Tasks;
    var was, now := prev.kw.proto.fieldNumbers[number], next.kw.proto.fieldNumbers[number];
    var reused := Note(NumberReused(number), OfText(Some(was)), OfText(Some(now)));
    if ShapeOf(prev, number) != ShapeOf(next, number) {
      assert reused in NumberNote(prev, next, number);
      assert Entry(path, reused) in TaskEntries(Emit(reused), path);
      NumbersSeen(prev, next, number, reused);
      CleanChild(prev, next, Emit(reused), path);
    }
    hide WireShape;
  }

  lemma {:induction false} CleanNumber(prev: Schema, next: Schema, path: seq<Step>, number: int)
    requires Clean(SchemaEntries(prev, next, path))
    requires number in prev.kw.proto.fieldNumbers && number in next.kw.proto.fieldNumbers
    ensures ShapeOf(prev, number) == ShapeOf(next, number) <==> NumberAlike(prev, next, number)
  {
    hide SchemaEntries, Tasks, WireShape, SpelledAlike, Unnamed;
    var x := prev.kw.proto.fieldNumbers[number];
    if x != next.kw.proto.fieldNumbers[number] {
      CleanReuse(prev, next, path, number);
    } else {
      if x in prev.properties { ShapeMeans(prev.properties[x]); }
      if x in next.properties { ShapeMeans(next.properties[x]); }
      assert WireShape(None) == "unknown" by { MissingShape(); }
      if x in prev.properties && x in next.properties {
        FieldsSeen(prev, next, x);
        CleanChild(prev, next, Recurse(Prop(x), prev.properties[x], next.properties[x]), path);
        CleanShape(prev.properties[x], next.properties[x], path + [Prop(x)]);
      }
    }
  }

  lemma {:induction false} MissingShape()
    ensures WireShape(None) == "unknown"
  {
  }

  /** Where a comparison reports no reused number and no change of type or format, every shared number keeps its wire
      shape if and only if the fields of numbers that keep their names are spelled alike. */
  lemma {:induction false} CleanExactly(prev: Schema, next: Schema, path: seq<Step>)
    requires Clean(SchemaEntries(prev, next, path))
    ensures WireSafe(prev, next) <==> NumbersAlike(prev, next)
    decreases prev
  {
    hide SchemaEntries, Tasks, Clean, WireShape, NumberAlike;
    forall number | number in prev.kw.proto.fieldNumbers && number in next.kw.proto.fieldNumbers
      ensures ShapeOf(prev, number) == ShapeOf(next, number) <==> NumberAlike(prev, next, number)
    {
      CleanNumber(prev, next, path, number);
    }
    forall x | x in prev.properties && x in next.properties
      ensures WireSafe(prev.properties[x], next.properties[x]) <==> NumbersAlike(prev.properties[x], next.properties[x])
    {
      FieldsSeen(prev, next, x);
      CleanChild(prev, next, Recurse(Prop(x), prev.properties[x], next.properties[x]), path);
      CleanExactly(prev.properties[x], next.properties[x], path + [Prop(x)]);
    }
    if prev.items.Some? && next.items.Some? {
      ItemsSeen(prev, next);
      CleanChild(prev, next, Recurse(Items, prev.items.value, next.items.value), path);
      CleanExactly(prev.items.value, next.items.value, path + [Items]);
    }
  }
}
