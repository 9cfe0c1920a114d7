/** What the comparison of two services records, said outright: exactly the differences there are, each with its kind and what
    was there before and is there now; and when it records nothing. */
module ServiceExact {
  import opened Model
  import opened Ordering
  import opened Canonical
  import opened Diff
  import opened DiffExact
  import opened DiffMeaning
  import opened Changes
  import opened ChangeIds
  import opened ServiceDiff

  // ------------------------------------------------------------------ indexes

  /** The last of the elements with the key. */
  ghost predicate LastWith<K, V(!new)>(key: V -> K, xs: seq<V>, k: K, x: V) {
    exists i :: 0 <= i < |xs| && xs[i] == x && key(x) == k && forall j :: i < j < |xs| ==> key(xs[j]) != k
  }

  /** A dictionary comprehension keeps the last element of each key. */
  lemma {:induction false} IndexExactly<K, V(!new)>(key: V -> K, xs: seq<V>, k: K, x: V)
    ensures k in Index(key, xs) && Index(key, xs)[k] == x <==> LastWith(key, xs, k, x)
    ensures k in Index(key, xs) <==> exists i :: 0 <= i < |xs| && key(xs[i]) == k
    decreases |xs|
  {
    if xs != [] {
      var front, last := xs[..|xs| - 1], xs[|xs| - 1];
      IndexExactly(key, front, k, x);
      if key(last) == k {
        if LastWith(key, xs, k, x) {
          var i :| 0 <= i < |xs| && xs[i] == x && key(x) == k && forall j :: i < j < |xs| ==> key(xs[j]) != k;
          assert i == |xs| - 1;
        }
        if last == x { assert LastWith(key, xs, k, x); }
      } else {
        if LastWith(key, front, k, x) {
          var i :| 0 <= i < |front| && front[i] == x && key(x) == k && forall j :: i < j < |front| ==> key(front[j]) != k;
          assert xs[i] == x && forall j :: i < j < |front| ==> xs[j] == front[j];
          assert LastWith(key, xs, k, x);
        }
        if LastWith(key, xs, k, x) {
          var i :| 0 <= i < |xs| && xs[i] == x && key(x) == k && forall j :: i < j < |xs| ==> key(xs[j]) != k;
          assert i < |front| && front[i] == x && forall j :: i < j < |front| ==> xs[j] == front[j];
          assert LastWith(key, front, k, x);
        }
        if i :| 0 <= i < |xs| && key(xs[i]) == k { assert front[i] == xs[i]; }
        if i :| 0 <= i < |front| && key(front[i]) == k { assert front[i] == xs[i]; }
      }
    }
  }

  // ------------------------------------------------------------------ sorted lists of schemes

  predicate AscendingNames(xs: seq<string>) {
    forall i, j :: 0 <= i < j < |xs| ==> !NameLess(xs[j], xs[i])
  }

  lemma {:induction false} NotLess(a: string, b: string, c: string)
    requires !NameLess(b, a) && !NameLess(c, b)
    ensures !NameLess(c, a)
  {
    NameLessTotal(a, b);
    NameLessTotal(b, c);
    if NameLess(c, a) {
      if a != b { NameLessTransitive(c, a, b); }
    }
  }

  lemma {:induction false} InsertSorted(x: string, xs: seq<string>)
    requires AscendingNames(xs)
    ensures AscendingNames(InsertName(x, xs)) && multiset(InsertName(x, xs)) == multiset{x} + multiset(xs)
  {
    NameLessTotal(x, x);
    if xs == [] {
    } else if !NameLess(xs[0], x) {
      forall j | 0 <= j < |xs| ensures !NameLess(xs[j], x) { if j > 0 { NotLess(x, xs[0], xs[j]); } }
    } else {
      var rest := InsertName(x, xs[1..]);
      InsertSorted(x, xs[1..]);
      assert xs == [xs[0]] + xs[1..];
      NameLessTotal(xs[0], x);
      forall y | y in rest ensures !NameLess(y, xs[0]) {
        assert y in multiset(rest);
        if y != x {
          assert y in multiset(xs[1..]);
          var j :| 0 <= j < |xs[1..]| && xs[1..][j] == y;
          assert xs[j + 1] == y;
        } else if NameLess(x, xs[0]) {
          NameLessTransitive(x, xs[0], x);
        }
      }
      assert InsertName(x, xs) == [xs[0]] + rest;
    }
  }

  lemma {:induction false} SortedSchemes(xs: seq<string>)
    ensures AscendingNames(SortedWithRepeats(xs)) && multiset(SortedWithRepeats(xs)) == multiset(xs)
  {
    if xs != [] {
      SortedSchemes(xs[1..]);
      InsertSorted(xs[0], SortedWithRepeats(xs[1..]));
      assert xs == [xs[0]] + xs[1..];
    }
  }

  lemma {:induction false} SameHead(a: seq<string>, b: seq<string>)
    requires AscendingNames(a) && AscendingNames(b) && multiset(a) == multiset(b) && a != [] && b != []
    ensures a[0] == b[0]
  {
    assert a[0] in multiset(b) && b[0] in multiset(a);
    var i :| 0 <= i < |b| && b[i] == a[0];
    var j :| 0 <= j < |a| && a[j] == b[0];
    NameLessTotal(a[0], b[0]);
    hide NameLess;
  }

  lemma {:induction false} SameTail(a: seq<string>, b: seq<string>)
    requires multiset(a) == multiset(b) && a != [] && b != [] && a[0] == b[0]
    ensures multiset(a[1..]) == multiset(b[1..])
  {
    assert a == [a[0]] + a[1..] && b == [b[0]] + b[1..];
    assert multiset(a) == multiset{a[0]} + multiset(a[1..]) && multiset(b) == multiset{b[0]} + multiset(b[1..]);
    assert multiset(a[1..]) == multiset(a) - multiset{a[0]};
  }

  lemma {:induction false} OneListing(a: seq<string>, b: seq<string>)
    requires AscendingNames(a) && AscendingNames(b) && multiset(a) == multiset(b)
    ensures a == b
    decreases |a|
  {
    SameLength(a, b);
    if a != [] {
      SameHead(a, b);
      SameTail(a, b);
      hide NameLess;
      OneListing(a[1..], b[1..]);
      assert a == [a[0]] + a[1..] && b == [b[0]] + b[1..];
    }
  }

  /** The schemes in force: the operation's own list where it has one, the service's otherwise. */
  function InForce(op: Operation, inherited: seq<string>): seq<string> {
    match op.security
    case Some(own) => own
    case None => inherited
  }

  lemma {:induction false} SchemesExactly(op: Operation, inherited: seq<string>, listed: seq<string>)
    ensures listed == SchemesOf(op, inherited) <==> AscendingNames(listed) && multiset(listed) == multiset(InForce(op, inherited))
  {
    SortedSchemes(InForce(op, inherited));
    if AscendingNames(listed) && multiset(listed) == multiset(InForce(op, inherited)) { OneListing(listed, SchemesOf(op, inherited)); }
    hide AscendingNames, SortedWithRepeats;
  }

  lemma {:induction false} SchemesSame(o: Operation, n: Operation, was: seq<string>, now: seq<string>)
    ensures SchemesOf(o, was) == SchemesOf(n, now) <==> multiset(InForce(o, was)) == multiset(InForce(n, now))
  {
    SchemesExactly(o, was, SchemesOf(o, was));
    SchemesExactly(n, now, SchemesOf(n, now));
    SchemesExactly(n, now, SchemesOf(o, was));
    hide SchemesOf, AscendingNames, InForce;
  }

  // ------------------------------------------------------------------ what is recorded of an operation

  /** Removed or added, by where it is. */
  predicate GoneOrNew(r: Record, removed: string, added: string, was: bool, is_: bool) {
    (was && !is_ && r.kind == removed) || (!was && is_ && r.kind == added)
  }

  /** Which notes go by a kind, for payloads that travel this way. What has no kind of its own is a change of the payload. */
  predicate GoesBy(kind: string, note: Note, direction: Direction) {
    match note.what
    case Nullability => kind == "NULLABILITY_CHANGED"
    case Enum => kind == "ENUM_CHANGED"
    case Format | Const | Constraint(_) => kind == "PARAMETER_CONSTRAINT_CHANGED"
    case Type => (direction == Request && kind == "PARAMETER_TYPE_CHANGED") || (direction != Request && kind == "RESPONSE_SCHEMA_CHANGED")
    case Field(_) =>
      || (direction == Request && note.before == Present && kind == "PARAMETER_REMOVED")
      || (direction == Request && note.before != Present && kind == "PARAMETER_ADDED")
      || (direction != Request && kind == "RESPONSE_SCHEMA_CHANGED")
    case Requiredness(_) => kind == "PARAMETER_REQUIREDNESS"
    case DependentRequired(_) => kind == "DEPENDENT_REQUIRED_CHANGED"
    case DependentSchema(_) => kind == "DEPENDENT_SCHEMA_CHANGED"
    case TupleLength | TupleType(_) => kind == "TUPLE_SHAPE_CHANGED"
    case PatternSchema(_) => kind == "PATTERN_PROPERTIES_CHANGED"
    case NamesSchema => kind == "PROPERTY_NAMES_CHANGED"
    case ContainsSchema | MinContains | MaxContains => kind == "CONTAINS_CHANGED"
    case BranchSchema(_) => kind == "CONDITIONAL_SCHEMA_CHANGED"
    case NumberReused(_) => kind == "FIELD_NUMBER_REUSED"
    case ReservationDropped(_) => kind == "RESERVATION_CHANGED"
    case PresenceLost(_) => kind == "FIELD_PRESENCE_CHANGED"
    case OneofMember(_) => kind == "ONEOF_MEMBERSHIP_CHANGED"
    case DefaultOf | DiscriminatorProperty | DiscriminatorMapping(_) | NumberRenamed(_) | NumberUnreserved(_) =>
      (direction == Request && kind == "REQUEST_SCHEMA_CHANGED") || (direction != Request && kind == "RESPONSE_SCHEMA_CHANGED")
  }

  lemma {:induction false} KindsExactly(kind: string, note: Note, direction: Direction)
    ensures kind == KindOf(note, direction) <==> GoesBy(kind, note, direction)
  {
    KindGoes(note, direction);
    OneKind(kind, KindOf(note, direction), note, direction);
    hide KindOf, GoesBy;
  }

  lemma {:induction false} KindGoes(note: Note, direction: Direction)
    ensures GoesBy(KindOf(note, direction), note, direction)
  {
  }

  lemma {:induction false} OneKind(a: string, b: string, note: Note, direction: Direction)
    requires GoesBy(b, note, direction)
    ensures GoesBy(a, note, direction) <==> a == b
  {
  }

  /** How a report shows a parameter's schema. */
  function Shown(s: Option<Schema>): Summary {
    match s
    case None => NoSchema
    case Some(node) => Summary(TypeShown(node), FormatShown(node), node.kw.enum, node.kw.constant)
  }

  function TypeShown(s: Schema): string {
    if s.kw.typ.None? || TypeName(s.kw.typ.value) == "" then "any" else TypeName(s.kw.typ.value)
  }

  function FormatShown(s: Schema): string { if s.kw.format.None? then "" else s.kw.format.value }

  /** A difference between two schemas that are compared, with the kind it has for payloads that travel this way. */
  ghost predicate SchemaDiffers(prev: Schema, next: Schema, e: Entry, r: Record, direction: Direction) {
    SaysWhatDiffers(prev, next, [], e) && r.direction == direction && GoesBy(r.kind, e.note, direction)
  }

  ghost predicate ParameterReports(o: Operation, n: Operation, r: Record) {
    var p, q := ParametersOf(o), ParametersOf(n);
    match r.subject
    case ParameterItself(id) => r.direction == Request && GoneOrNew(r, "PARAMETER_REMOVED", "PARAMETER_ADDED", id in p, id in q)
    case ParameterRequired(id, required) =>
      && r.kind == "PARAMETER_REQUIREDNESS" && r.direction == Request && id in p && id in q
      && p[id].required != q[id].required && required == q[id].required
    case ParameterSummary(id, was, now) =>
      && r.kind == "PARAMETER_TYPE_CHANGED" && r.direction == Request && id in p && id in q
      && was == Shown(p[id].schema) && now == Shown(q[id].schema) && was != now
    case SchemaPart(InParameter(name), e) =>
      exists id :: id in p && id in q && id.0 == name && Shown(p[id].schema) == Shown(q[id].schema)
        && p[id].schema.Some? && q[id].schema.Some? && SchemaDiffers(p[id].schema.value, q[id].schema.value, e, r, Request)
    case _ => false
  }

  ghost predicate BodyReports(o: Operation, n: Operation, r: Record) {
    match r.subject
    case BodyItself(added) =>
      r.kind == "REQUEST_SCHEMA_CHANGED" && r.direction == Request && o.body.Some? != n.body.Some? && added == n.body.Some?
    case BodyMedia(media, added) =>
      && r.kind == "REQUEST_SCHEMA_CHANGED" && r.direction == Request && o.body.Some? && n.body.Some?
      && (media in o.body.value.content) != (media in n.body.value.content) && added == (media in n.body.value.content)
    case BodyRequired(required) =>
      && r.kind == "REQUEST_SCHEMA_CHANGED" && r.direction == Request && o.body.Some? && n.body.Some?
      && o.body.value.required != n.body.value.required && required == n.body.value.required
    case SchemaPart(InBody(media), e) =>
      && !n.sends && o.body.Some? && n.body.Some? && media in o.body.value.content && media in n.body.value.content
      && SchemaDiffers(o.body.value.content[media], n.body.value.content[media], e, r, Request)
    case SchemaPart(InPayload(media), e) =>
      && n.sends && o.body.Some? && n.body.Some? && media in o.body.value.content && media in n.body.value.content
      && SchemaDiffers(o.body.value.content[media], n.body.value.content[media], e, r, Response)
    case _ => false
  }

  ghost predicate ReplyReports(o: Operation, n: Operation, r: Record) {
    var p, q := RepliesOf(o), RepliesOf(n);
    match r.subject
    case ReplyItself(status) => r.direction == Response && GoneOrNew(r, "RESPONSE_REMOVED", "RESPONSE_ADDED", status in p, status in q)
    case ReplyHeader(status, header) =>
      && r.direction == Response && status in p && status in q
      && GoneOrNew(r, "HEADER_REMOVED", "HEADER_ADDED", header in p[status].headers, header in q[status].headers)
    case ReplyMedia(status, media, added) =>
      && r.kind == "RESPONSE_SCHEMA_CHANGED" && r.direction == Response && status in p && status in q
      && (media in p[status].content) != (media in q[status].content) && added == (media in q[status].content)
    case SchemaPart(InReply(status, media), e) =>
      && status in p && status in q && media in p[status].content && media in q[status].content
      && SchemaDiffers(p[status].content[media], q[status].content[media], e, r, Response)
    case _ => false
  }

  ghost predicate FlagReports(o: Operation, n: Operation, was: seq<string>, now: seq<string>, r: Record) {
    match r.subject
    case Cardinality(before, after) =>
      && r.kind == "RPC_STREAMING_CHANGED" && r.direction == Meta && o.grpc && n.grpc && before != after
      && before == (o.clientStreaming, o.serverStreaming) && after == (n.clientStreaming, n.serverStreaming)
    case Schemes(before, after) =>
      && r.kind == "SECURITY_CHANGED" && r.direction == Security && before != after
      && AscendingNames(before) && multiset(before) == multiset(InForce(o, was))
      && AscendingNames(after) && multiset(after) == multiset(InForce(n, now))
    case Deprecation => r.direction == Meta && GoneOrNew(r, "DEPRECATION_REMOVED", "DEPRECATION_ADDED", o.deprecated, n.deprecated)
    case _ => false
  }

  /** The record says something that differs between two revisions of an operation. */
  ghost predicate OperationReports(o: Operation, n: Operation, was: seq<string>, now: seq<string>, r: Record) {
    r.key == o.key && (ParameterReports(o, n, r) || BodyReports(o, n, r) || ReplyReports(o, n, r) || FlagReports(o, n, was, now, r))
  }

  // ------------------------------------------------------------------ ... is what is recorded

  lemma {:induction false} OnlyIn(condition: bool, x: Record, r: Record)
    ensures r in Only(condition, x) <==> condition && r == x
  {
  }

  lemma {:induction false} SchemaIn(c: Context, prev: Schema, next: Schema, r: Record)
    ensures r in SchemaRecords(c, prev, next) <==>
      r.key == c.key && r.subject.SchemaPart? && r.subject.where == c.where && SchemaDiffers(prev, next, r.subject.entry, r, c.direction)
  {
    hide SchemaEntries, KindOf, GoesBy;
    var entries := SchemaEntries(prev, next, []);
    if r.subject.SchemaPart? {
      var e := r.subject.entry;
      ReportExactly(prev, next, [], e);
      if e in entries {
        var i :| 0 <= i < |entries| && entries[i] == e;
        assert RecordsOf(c, entries)[i] == RecordOf(c, e);
      }
      KindsExactly(r.kind, e.note, c.direction);
      if r in RecordsOf(c, entries) {
        var i :| 0 <= i < |entries| && RecordsOf(c, entries)[i] == r;
        assert r == RecordOf(c, entries[i]) && entries[i] in entries;
      }
    }
    hide SaysWhatDiffers;
  }

  lemma {:induction false} NamedIn(kind: string, key: string, idents: seq<(string, string)>, r: Record)
    ensures r in ParameterNotes(kind, key, idents) <==>
      r.kind == kind && r.key == key && r.direction == Request && r.subject.ParameterItself? && r.subject.ident in idents
  {
    if r.subject.ParameterItself? && r.subject.ident in idents {
      var i :| 0 <= i < |idents| && idents[i] == r.subject.ident;
      assert ParameterNotes(kind, key, idents)[i].subject == r.subject;
    }
  }

  /** What one shared parameter contributes. */
  ghost predicate SharedReports(p: Parameter, q: Parameter, id: (string, string), key: string, r: Record) {
    r.key == key &&
    match r.subject
    case ParameterRequired(i, required) =>
      i == id && r.kind == "PARAMETER_REQUIREDNESS" && r.direction == Request && p.required != q.required && required == q.required
    case ParameterSummary(i, was, now) =>
      i == id && r.kind == "PARAMETER_TYPE_CHANGED" && r.direction == Request && was == Shown(p.schema) && now == Shown(q.schema) && was != now
    case SchemaPart(where, e) =>
      where == InParameter(id.0) && Shown(p.schema) == Shown(q.schema) && p.schema.Some? && q.schema.Some?
      && SchemaDiffers(p.schema.value, q.schema.value, e, r, Request)
    case _ => false
  }

  lemma {:induction false} ShownSame(s: Option<Schema>)
    ensures SummaryOf(s) == Shown(s)
  {
    hide TypeName;
  }

  lemma {:induction false} OneParameterIn(key: string, id: (string, string), p: Parameter, q: Parameter, r: Record)
    ensures r in SharedParameterRecords(key, id, p, q) <==> SharedReports(p, q, id, key, r)
  {
    ShownSame(p.schema);
    ShownSame(q.schema);
    hide SummaryOf, Shown, SchemaRecords, SchemaDiffers;
    if p.schema.Some? && q.schema.Some? { SchemaIn(Context(key, InParameter(id.0), Request), p.schema.value, q.schema.value, r); }
  }

  lemma {:induction false} SharedParametersIn(key: string, p: map<(string, string), Parameter>, q: map<(string, string), Parameter>,
                                              idents: seq<(string, string)>, r: Record)
    requires forall x :: x in idents ==> x in p && x in q
    ensures r in SharedParameters(key, p, q, idents) <==> exists id :: id in idents && SharedReports(p[id], q[id], id, key, r)
    decreases |idents|
  {
    hide SharedReports, SharedParameterRecords;
    if idents != [] {
      var front, last := idents[..|idents| - 1], idents[|idents| - 1];
      SharedParametersIn(key, p, q, front, r);
      OneParameterIn(key, last, p[last], q[last], r);
      assert idents == front + [last];
    }
  }

  lemma {:induction false} ParametersIn(o: Operation, n: Operation, r: Record)
    ensures r in ParameterRecords(o, n, o.key) <==> r.key == o.key && ParameterReports(o, n, r)
  {
    hide ParametersOf, SortedIdents, SharedParameters, ParameterNotes, Shown, SchemaDiffers;
    var p, q := ParametersOf(o), ParametersOf(n);
    SortedIdentsElements(p.Keys - q.Keys);
    SortedIdentsElements(q.Keys - p.Keys);
    SortedIdentsElements(p.Keys * q.Keys);
    NamedIn("PARAMETER_REMOVED", o.key, SortedIdents(p.Keys - q.Keys), r);
    NamedIn("PARAMETER_ADDED", o.key, SortedIdents(q.Keys - p.Keys), r);
    SharedParametersIn(o.key, p, q, SortedIdents(p.Keys * q.Keys), r);
    SharedMeans(o, n, r);
    hide SharedReports;
  }

  lemma {:induction false} SharedMeans(o: Operation, n: Operation, r: Record)
    ensures
      var p, q := ParametersOf(o), ParametersOf(n);
      (exists id :: id in p.Keys * q.Keys && SharedReports(p[id], q[id], id, o.key, r)) <==>
        r.key == o.key && !r.subject.ParameterItself? && ParameterReports(o, n, r)
  {
    hide ParametersOf, Shown, SchemaDiffers;
    var p, q := ParametersOf(o), ParametersOf(n);
    if r.key == o.key && ParameterReports(o, n, r) {
      match r.subject
      case ParameterRequired(id, _) => assert SharedReports(p[id], q[id], id, o.key, r);
      case ParameterSummary(id, _, _) => assert SharedReports(p[id], q[id], id, o.key, r);
      case SchemaPart(InParameter(name), e) =>
        var id :| id in p && id in q && id.0 == name && Shown(p[id].schema) == Shown(q[id].schema)
          && p[id].schema.Some? && q[id].schema.Some? && SchemaDiffers(p[id].schema.value, q[id].schema.value, e, r, Request);
        assert SharedReports(p[id], q[id], id, o.key, r);
      case _ =>
    }
  }

  lemma {:induction false} MediaIn(carrier: Carrier, key: string, o: map<string, Schema>, n: map<string, Schema>, media: seq<string>, r: Record)
    requires forall m :: m in media ==> m in o && m in n
    ensures r in MediaRecords(carrier, key, o, n, media) <==> exists m :: m in media && r in SchemaRecords(ContextOf(carrier, key, m), o[m], n[m])
    decreases |media|
  {
    hide SchemaRecords, ContextOf;
    if media != [] {
      var front, last := media[..|media| - 1], media[|media| - 1];
      MediaIn(carrier, key, o, n, front, r);
      assert media == front + [last];
    }
  }

  /** What the shared media types of a payload contribute. */
  ghost predicate MediaReports(carrier: Carrier, key: string, o: map<string, Schema>, n: map<string, Schema>, r: Record) {
    exists m :: m in o && m in n && r.key == key && r.subject.SchemaPart? && r.subject.where == ContextOf(carrier, key, m).where
      && SchemaDiffers(o[m], n[m], r.subject.entry, r, ContextOf(carrier, key, m).direction)
  }

  lemma {:induction false} SharedMediaIn(carrier: Carrier, key: string, o: map<string, Schema>, n: map<string, Schema>, r: Record)
    ensures (forall m :: m in SortedKeys(o.Keys * n.Keys) ==> m in o && m in n)
    ensures r in MediaRecords(carrier, key, o, n, SortedKeys(o.Keys * n.Keys)) <==> MediaReports(carrier, key, o, n, r)
  {
    hide SchemaRecords, SchemaDiffers, SortedKeys, MediaRecords;
    var both := SortedKeys(o.Keys * n.Keys);
    SortedKeysElements(o.Keys * n.Keys);
    MediaIn(carrier, key, o, n, both, r);
    forall m | m in both
      ensures r in SchemaRecords(ContextOf(carrier, key, m), o[m], n[m]) <==>
        r.key == key && r.subject.SchemaPart? && r.subject.where == ContextOf(carrier, key, m).where
        && SchemaDiffers(o[m], n[m], r.subject.entry, r, ContextOf(carrier, key, m).direction)
    {
      SchemaIn(ContextOf(carrier, key, m), o[m], n[m], r);
    }
    hide ContextOf;
  }

  lemma {:induction false} BodyMediaIn(key: string, media: seq<string>, added: bool, r: Record)
    ensures r in BodyMediaNotes(key, media, added) <==>
      && r.kind == "REQUEST_SCHEMA_CHANGED" && r.key == key && r.direction == Request
      && r.subject.BodyMedia? && r.subject.media in media && r.subject.added == added
  {
    if r.subject.BodyMedia? && r.subject.media in media {
      var i :| 0 <= i < |media| && media[i] == r.subject.media;
      assert BodyMediaNotes(key, media, added)[i].subject == BodyMedia(media[i], added);
    }
  }

  lemma {:induction false} BodyIn(o: Operation, n: Operation, r: Record)
    ensures r in BodyRecords(o, n, o.key) <==> r.key == o.key && BodyReports(o, n, r)
  {
    hide SortedKeys, MediaRecords, BodyMediaNotes, SchemaDiffers, MediaReports;
    if o.body.Some? && n.body.Some? {
      var p, q := o.body.value.content, n.body.value.content;
      SortedKeysElements(p.Keys - q.Keys);
      SortedKeysElements(q.Keys - p.Keys);
      SharedMediaIn(InRequest(n.sends), o.key, p, q, r);
      BodyMediaIn(o.key, SortedKeys(p.Keys - q.Keys), false, r);
      BodyMediaIn(o.key, SortedKeys(q.Keys - p.Keys), true, r);
      PayloadMeans(o, n, r);
    }
  }

  lemma {:induction false} PayloadMeans(o: Operation, n: Operation, r: Record)
    requires o.body.Some? && n.body.Some?
    ensures MediaReports(InRequest(n.sends), o.key, o.body.value.content, n.body.value.content, r) <==>
      r.key == o.key && r.subject.SchemaPart? && BodyReports(o, n, r)
  {
    hide SchemaDiffers;
  }

  lemma {:induction false} StatusIn(kind: string, key: string, statuses: seq<string>, r: Record)
    ensures r in ReplyNotes(kind, key, statuses) <==>
      r.kind == kind && r.key == key && r.direction == Response && r.subject.ReplyItself? && r.subject.status in statuses
  {
    if r.subject.ReplyItself? && r.subject.status in statuses {
      var i :| 0 <= i < |statuses| && statuses[i] == r.subject.status;
      assert ReplyNotes(kind, key, statuses)[i].subject == r.subject;
    }
  }

  lemma {:induction false} HeaderIn(kind: string, key: string, status: string, headers: seq<string>, r: Record)
    ensures r in HeaderNotes(kind, key, status, headers) <==>
      && r.kind == kind && r.key == key && r.direction == Response
      && r.subject.ReplyHeader? && r.subject.status == status && r.subject.header in headers
  {
    if r.subject.ReplyHeader? && r.subject.header in headers {
      var i :| 0 <= i < |headers| && headers[i] == r.subject.header;
      assert HeaderNotes(kind, key, status, headers)[i].subject == ReplyHeader(status, headers[i]);
    }
  }

  lemma {:induction false} ReplyMediaIn(key: string, status: string, o: map<string, Schema>, media: seq<string>, r: Record)
    ensures r in ReplyMediaNotes(key, status, o, media) <==>
      && r.kind == "RESPONSE_SCHEMA_CHANGED" && r.key == key && r.direction == Response
      && r.subject.ReplyMedia? && r.subject.status == status && r.subject.media in media && r.subject.added == (r.subject.media !in o)
  {
    if r.subject.ReplyMedia? && r.subject.media in media {
      var i :| 0 <= i < |media| && media[i] == r.subject.media;
      assert ReplyMediaNotes(key, status, o, media)[i].subject == ReplyMedia(status, media[i], media[i] !in o);
    }
  }

  /** What one shared response contributes. */
  ghost predicate ReplyShares(p: Reply, q: Reply, status: string, key: string, r: Record) {
    || (r.key == key &&
        match r.subject
        case ReplyHeader(s, header) => s == status && r.direction == Response && GoneOrNew(r, "HEADER_REMOVED", "HEADER_ADDED", header in p.headers, header in q.headers)
        case ReplyMedia(s, media, added) =>
          && s == status && r.kind == "RESPONSE_SCHEMA_CHANGED" && r.direction == Response
          && (media in p.content) != (media in q.content) && added == (media in q.content)
        case _ => false)
    || MediaReports(InResponse(status), key, p.content, q.content, r)
  }

  lemma {:induction false} OneReplyIn(key: string, status: string, p: Reply, q: Reply, r: Record)
    ensures r in SharedReplyRecords(key, status, p, q) <==> ReplyShares(p, q, status, key, r)
  {
    hide SortedKeys, MediaRecords, HeaderNotes, ReplyMediaNotes, MediaReports;
    var gone, added := SortedKeys(p.headers - q.headers), SortedKeys(q.headers - p.headers);
    var parted := (p.content.Keys - q.content.Keys) + (q.content.Keys - p.content.Keys);
    SortedKeysElements(p.headers - q.headers);
    SortedKeysElements(q.headers - p.headers);
    SortedKeysElements(parted);
    HeaderIn("HEADER_REMOVED", key, status, gone, r);
    HeaderIn("HEADER_ADDED", key, status, added, r);
    SharedMediaIn(InResponse(status), key, p.content, q.content, r);
    ReplyMediaIn(key, status, p.content, SortedKeys(parted), r);
  }

  lemma {:induction false} SharedRepliesIn(key: string, p: map<string, Reply>, q: map<string, Reply>, statuses: seq<string>, r: Record)
    requires forall x :: x in statuses ==> x in p && x in q
    ensures r in SharedReplies(key, p, q, statuses) <==> exists s :: s in statuses && ReplyShares(p[s], q[s], s, key, r)
    decreases |statuses|
  {
    hide ReplyShares, SharedReplyRecords;
    if statuses != [] {
      var front, last := statuses[..|statuses| - 1], statuses[|statuses| - 1];
      SharedRepliesIn(key, p, q, front, r);
      OneReplyIn(key, last, p[last], q[last], r);
      assert statuses == front + [last];
    }
  }

  lemma {:induction false} RepliesIn(o: Operation, n: Operation, r: Record)
    ensures r in ReplyRecords(o, n, o.key) <==> r.key == o.key && ReplyReports(o, n, r)
  {
    hide RepliesOf, SortedKeys, SharedReplies, ReplyNotes, ReplyShares, SchemaDiffers;
    var p, q := RepliesOf(o), RepliesOf(n);
    SortedKeysElements(p.Keys - q.Keys);
    SortedKeysElements(q.Keys - p.Keys);
    SortedKeysElements(p.Keys * q.Keys);
    StatusIn("RESPONSE_REMOVED", o.key, SortedKeys(p.Keys - q.Keys), r);
    StatusIn("RESPONSE_ADDED", o.key, SortedKeys(q.Keys - p.Keys), r);
    SharedRepliesIn(o.key, p, q, SortedKeys(p.Keys * q.Keys), r);
    RepliesMean(o, n, r);
  }

  lemma {:induction false} RepliesMean(o: Operation, n: Operation, r: Record)
    ensures
      var p, q := RepliesOf(o), RepliesOf(n);
      (exists s :: s in p.Keys * q.Keys && ReplyShares(p[s], q[s], s, o.key, r)) <==>
        r.key == o.key && !r.subject.ReplyItself? && ReplyReports(o, n, r)
  {
    hide RepliesOf, SchemaDiffers, MediaReports;
    var p, q := RepliesOf(o), RepliesOf(n);
    forall s | s in p.Keys * q.Keys
      ensures MediaReports(InResponse(s), o.key, p[s].content, q[s].content, r) <==>
        && r.key == o.key && r.subject.SchemaPart? && r.subject.where.InReply? && r.subject.where.status == s
        && ReplyReports(o, n, r)
    {
      ReplyMediaMeans(o, n, s, r);
    }
    if r.key == o.key && ReplyReports(o, n, r) && !r.subject.ReplyItself? {
      var s := match r.subject
        case ReplyHeader(s, _) => s
        case ReplyMedia(s, _, _) => s
        case SchemaPart(InReply(s, _), _) => s
        case _ => "";
      assert ReplyShares(p[s], q[s], s, o.key, r);
    }
  }

  lemma {:induction false} ReplyMediaMeans(o: Operation, n: Operation, s: string, r: Record)
    requires s in RepliesOf(o) && s in RepliesOf(n)
    ensures MediaReports(InResponse(s), o.key, RepliesOf(o)[s].content, RepliesOf(n)[s].content, r) <==>
      r.key == o.key && r.subject.SchemaPart? && r.subject.where.InReply? && r.subject.where.status == s && ReplyReports(o, n, r)
  {
    hide RepliesOf, SchemaDiffers;
  }

  lemma {:induction false} FlagsIn(o: Operation, n: Operation, was: seq<string>, now: seq<string>, r: Record)
    ensures r in StreamingRecords(o, n, o.key) || r in SecurityRecords(o, n, o.key, was, now) || r in DeprecationRecords(o, n, o.key) <==>
      r.key == o.key && FlagReports(o, n, was, now, r)
  {
    hide SchemesOf, AscendingNames, InForce;
    match r.subject
    case Schemes(before, after) =>
      SchemesExactly(o, was, before);
      SchemesExactly(n, now, after);
    case _ =>
  }

  /** Of two revisions of an operation exactly the differences are recorded, with the kind, the direction and the values that
      belong to each. */
  lemma {:induction false} OperationExactly(o: Operation, n: Operation, was: seq<string>, now: seq<string>, r: Record)
    ensures r in OperationRecords(o, n, was, now) <==> OperationReports(o, n, was, now, r)
  {
    hide ParameterRecords, StreamingRecords, BodyRecords, ReplyRecords, SecurityRecords, DeprecationRecords,
      ParameterReports, BodyReports, ReplyReports, FlagReports;
    ParametersIn(o, n, r);
    BodyIn(o, n, r);
    RepliesIn(o, n, r);
    FlagsIn(o, n, was, now, r);
  }

  // ------------------------------------------------------------------ what is recorded of a service

  ghost predicate ServiceReports(old_: Service, new_: Service, r: Record) {
    var o, n := OperationsOf(old_), OperationsOf(new_);
    match r.subject
    case Whole =>
      r.direction == Meta
      && if r.key in o && r.key !in n then r.kind == (if o[r.key].http then "OPERATION_REMOVED" else "RPC_REMOVED")
         else r.key in n && r.key !in o && r.kind == (if n[r.key].http then "OPERATION_ADDED" else "RPC_ADDED")
    case Version(was, now) =>
      && r.kind == "DESCRIPTION_CHANGED" && r.key == "(service)" && r.direction == Meta
      && was == old_.version && now == new_.version && was != now
    case Servers(was, now) =>
      && r.kind == "SERVER_CHANGED" && r.key == "(service)" && r.direction == Meta
      && was == old_.servers && now == new_.servers && was != now
    case _ => r.key in o && r.key in n && OperationReports(o[r.key], n[r.key], old_.security, new_.security, r)
  }

  lemma {:induction false} KeyedByKey(s: Service)
    ensures forall k :: k in OperationsOf(s) ==> OperationsOf(s)[k].key == k
  {
    forall k | k in OperationsOf(s) ensures OperationsOf(s)[k].key == k {
      IndexExactly((op: Operation) => op.key, s.operations, k, OperationsOf(s)[k]);
    }
  }

  lemma {:induction false} WholeIn(ops: map<string, Operation>, keys: seq<string>, added: bool, r: Record)
    requires forall k :: k in keys ==> k in ops
    ensures r in WholeRecords(ops, keys, added) <==>
      && r.key in keys && r.direction == Meta && r.subject == Whole
      && r.kind == (if added then (if ops[r.key].http then "OPERATION_ADDED" else "RPC_ADDED")
                    else (if ops[r.key].http then "OPERATION_REMOVED" else "RPC_REMOVED"))
  {
    if r.key in keys {
      var i :| 0 <= i < |keys| && keys[i] == r.key;
      assert WholeRecords(ops, keys, added)[i] == WholeRecord(ops[r.key], r.key, added);
    }
  }

  lemma {:induction false} SharedOperationsIn(o: map<string, Operation>, n: map<string, Operation>, was: seq<string>, now: seq<string>,
                                              keys: seq<string>, r: Record)
    requires forall k :: k in keys ==> k in o && k in n
    ensures r in SharedOperations(o, n, was, now, keys) <==> exists k :: k in keys && OperationReports(o[k], n[k], was, now, r)
    decreases |keys|
  {
    hide OperationReports, OperationRecords;
    if keys != [] {
      var front, last := keys[..|keys| - 1], keys[|keys| - 1];
      SharedOperationsIn(o, n, was, now, front, r);
      OperationExactly(o[last], n[last], was, now, r);
      assert keys == front + [last];
    }
  }

  lemma {:induction false} ReportsKey(o: Operation, n: Operation, was: seq<string>, now: seq<string>, r: Record)
    requires OperationReports(o, n, was, now, r)
    ensures r.key == o.key && !r.subject.Whole? && !r.subject.Version? && !r.subject.Servers?
  {
  }

  /** Of two services exactly the differences are recorded: operations on one side, the differences of shared operations,
      version and servers. */
  lemma {:induction false} ServiceExactly(old_: Service, new_: Service, r: Record)
    ensures r in ServiceRecords(old_, new_) <==> ServiceReports(old_, new_, r)
  {
    var o, n := OperationsOf(old_), OperationsOf(new_);
    KeyedByKey(old_);
    hide OperationsOf, SortedKeys, WholeRecords, SharedOperations, OperationReports;
    SortedKeysElements(o.Keys - n.Keys);
    SortedKeysElements(n.Keys - o.Keys);
    SortedKeysElements(o.Keys * n.Keys);
    WholeIn(o, SortedKeys(o.Keys - n.Keys), false, r);
    WholeIn(n, SortedKeys(n.Keys - o.Keys), true, r);
    SharedOperationsIn(o, n, old_.security, new_.security, SortedKeys(o.Keys * n.Keys), r);
    forall k | k in o.Keys * n.Keys && OperationReports(o[k], n[k], old_.security, new_.security, r)
      ensures k == r.key && !r.subject.Whole? && !r.subject.Version? && !r.subject.Servers?
    {
      ReportsKey(o[k], n[k], old_.security, new_.security, r);
    }
    OnlyIn(old_.version != new_.version, Record("DESCRIPTION_CHANGED", SERVICE, Meta, Version(old_.version, new_.version)), r);
    OnlyIn(old_.servers != new_.servers, Record("SERVER_CHANGED", SERVICE, Meta, Servers(old_.servers, new_.servers)), r);
    hide Only;
  }

  // ------------------------------------------------------------------ when nothing is recorded

  /** Two schemas as a parameter shows them: the same type, format, enum and constant, read from the outside. */
  predicate SameSummary(a: Schema, b: Schema) {
    && TypeShown(a) == TypeShown(b) && FormatShown(a) == FormatShown(b) && a.kw.enum == b.kw.enum && a.kw.constant == b.kw.constant
  }

  ghost predicate SameParameter(p: Parameter, q: Parameter) {
    && p.required == q.required && p.schema.Some? == q.schema.Some?
    && (p.schema.Some? ==> SameSummary(p.schema.value, q.schema.value) && Quiet(p.schema.value, q.schema.value))
  }

  ghost predicate SameContent(o: map<string, Schema>, n: map<string, Schema>) {
    o.Keys == n.Keys && forall m :: m in o ==> Quiet(o[m], n[m])
  }

  ghost predicate SameParameters(o: Operation, n: Operation) {
    var p, q := ParametersOf(o), ParametersOf(n);
    p.Keys == q.Keys && forall id :: id in p ==> SameParameter(p[id], q[id])
  }

  ghost predicate SameBody(o: Operation, n: Operation) {
    && o.body.Some? == n.body.Some?
    && (o.body.Some? ==> o.body.value.required == n.body.value.required && SameContent(o.body.value.content, n.body.value.content))
  }

  ghost predicate SameReplies(o: Operation, n: Operation) {
    var p, q := RepliesOf(o), RepliesOf(n);
    p.Keys == q.Keys && forall s :: s in p ==> p[s].headers == q[s].headers && SameContent(p[s].content, q[s].content)
  }

  predicate SameFlags(o: Operation, n: Operation, was: seq<string>, now: seq<string>) {
    && (o.grpc && n.grpc ==> o.clientStreaming == n.clientStreaming && o.serverStreaming == n.serverStreaming)
    && o.deprecated == n.deprecated && multiset(InForce(o, was)) == multiset(InForce(n, now))
  }

  /** Two revisions of an operation that differ in nothing that is compared. */
  ghost predicate SameOperation(o: Operation, n: Operation, was: seq<string>, now: seq<string>) {
    SameParameters(o, n) && SameBody(o, n) && SameReplies(o, n) && SameFlags(o, n, was, now)
  }

  /** Two services that differ in nothing that is compared. */
  ghost predicate SameService(old_: Service, new_: Service) {
    var o, n := OperationsOf(old_), OperationsOf(new_);
    && o.Keys == n.Keys && (forall k :: k in o ==> SameOperation(o[k], n[k], old_.security, new_.security))
    && old_.version == new_.version && old_.servers == new_.servers
  }

  lemma {:induction false} NothingIn<T>(xs: seq<T>)
    ensures xs == [] <==> forall x :: x !in xs
  {
    if xs != [] { assert xs[0] in xs; }
  }

  lemma {:induction false} QuietSchema(c: Context, prev: Schema, next: Schema)
    ensures SchemaRecords(c, prev, next) == [] <==> Quiet(prev, next)
  {
    SilentIsQuiet(prev, next, []);
    hide SchemaEntries, Quiet;
  }

  lemma {:induction false} SummaryShows(a: Schema, b: Schema)
    ensures SummaryOf(Some(a)) == SummaryOf(Some(b)) <==> SameSummary(a, b)
  {
    hide TypeName;
  }

  lemma {:induction false} QuietParameter(key: string, id: (string, string), p: Parameter, q: Parameter)
    ensures SharedParameterRecords(key, id, p, q) == [] <==> SameParameter(p, q)
  {
    hide SchemaRecords, Quiet, SameSummary;
    if p.schema.Some? && q.schema.Some? {
      SummaryShows(p.schema.value, q.schema.value);
      QuietSchema(Context(key, InParameter(id.0), Request), p.schema.value, q.schema.value);
      hide SummaryOf;
    } else if p.schema.Some? != q.schema.Some? {
      assert SummaryOf(p.schema) != SummaryOf(q.schema);
    }
  }

  lemma {:induction false} QuietShared(key: string, p: map<(string, string), Parameter>, q: map<(string, string), Parameter>, idents: seq<(string, string)>)
    requires forall x :: x in idents ==> x in p && x in q
    ensures SharedParameters(key, p, q, idents) == [] <==> forall id :: id in idents ==> SameParameter(p[id], q[id])
    decreases |idents|
  {
    hide SharedParameterRecords, SameParameter;
    if idents != [] {
      var front, last := idents[..|idents| - 1], idents[|idents| - 1];
      QuietShared(key, p, q, front);
      QuietParameter(key, last, p[last], q[last]);
      assert idents == front + [last];
    }
  }

  lemma {:induction false} NoIdents(s: set<(string, string)>)
    ensures SortedIdents(s) == [] <==> s == {}
  {
    SortedIdentsElements(s);
    NothingIn(SortedIdents(s));
    hide SortedIdents;
  }

  lemma {:induction false} QuietParameters(o: Operation, n: Operation, key: string)
    ensures ParameterRecords(o, n, key) == [] <==> SameParameters(o, n)
  {
    hide ParametersOf, SortedIdents, SharedParameters, SameParameter;
    var p, q := ParametersOf(o), ParametersOf(n);
    NoIdents(p.Keys - q.Keys);
    NoIdents(q.Keys - p.Keys);
    SortedIdentsElements(p.Keys * q.Keys);
    QuietShared(key, p, q, SortedIdents(p.Keys * q.Keys));
    assert p.Keys == q.Keys <==> p.Keys - q.Keys == {} && q.Keys - p.Keys == {};
    assert |ParameterNotes("PARAMETER_REMOVED", key, SortedIdents(p.Keys - q.Keys))| == |SortedIdents(p.Keys - q.Keys)|;
    assert |ParameterNotes("PARAMETER_ADDED", key, SortedIdents(q.Keys - p.Keys))| == |SortedIdents(q.Keys - p.Keys)|;
    hide ParameterNotes;
  }

  lemma {:induction false} QuietMedia(carrier: Carrier, key: string, o: map<string, Schema>, n: map<string, Schema>, media: seq<string>)
    requires forall m :: m in media ==> m in o && m in n
    ensures MediaRecords(carrier, key, o, n, media) == [] <==> forall m :: m in media ==> Quiet(o[m], n[m])
    decreases |media|
  {
    hide SchemaRecords, Quiet, ContextOf;
    if media != [] {
      var front, last := media[..|media| - 1], media[|media| - 1];
      QuietMedia(carrier, key, o, n, front);
      QuietSchema(ContextOf(carrier, key, last), o[last], n[last]);
      assert media == front + [last];
    }
  }

  lemma {:induction false} QuietShareds(carrier: Carrier, key: string, o: map<string, Schema>, n: map<string, Schema>)
    ensures forall m :: m in SortedKeys(o.Keys * n.Keys) ==> m in o && m in n
    ensures MediaRecords(carrier, key, o, n, SortedKeys(o.Keys * n.Keys)) == [] <==> forall m :: m in o && m in n ==> Quiet(o[m], n[m])
  {
    hide SortedKeys, MediaRecords, Quiet;
    SortedKeysElements(o.Keys * n.Keys);
    QuietMedia(carrier, key, o, n, SortedKeys(o.Keys * n.Keys));
  }

  lemma {:induction false} QuietBody(o: Operation, n: Operation, key: string)
    ensures BodyRecords(o, n, key) == [] <==> SameBody(o, n)
  {
    hide SortedKeys, MediaRecords, Quiet;
    if o.body.Some? && n.body.Some? {
      var p, q := o.body.value.content, n.body.value.content;
      SortedEmpty(p.Keys - q.Keys);
      SortedEmpty(q.Keys - p.Keys);
      QuietShareds(InRequest(n.sends), key, p, q);
      assert p.Keys == q.Keys <==> p.Keys - q.Keys == {} && q.Keys - p.Keys == {};
      assert |BodyMediaNotes(key, SortedKeys(p.Keys - q.Keys), false)| == |SortedKeys(p.Keys - q.Keys)|;
      assert |BodyMediaNotes(key, SortedKeys(q.Keys - p.Keys), true)| == |SortedKeys(q.Keys - p.Keys)|;
    }
    hide BodyMediaNotes;
  }

  lemma {:induction false} QuietReply(key: string, status: string, p: Reply, q: Reply)
    ensures SharedReplyRecords(key, status, p, q) == [] <==> p.headers == q.headers && SameContent(p.content, q.content)
  {
    hide SortedKeys, MediaRecords, Quiet;
    var parted := (p.content.Keys - q.content.Keys) + (q.content.Keys - p.content.Keys);
    SortedEmpty(p.headers - q.headers);
    SortedEmpty(q.headers - p.headers);
    SortedEmpty(parted);
    QuietShareds(InResponse(status), key, p.content, q.content);
    assert p.headers == q.headers <==> p.headers - q.headers == {} && q.headers - p.headers == {};
    assert p.content.Keys == q.content.Keys <==> parted == {} by {
      if parted == {} { assert p.content.Keys - q.content.Keys == {} && q.content.Keys - p.content.Keys == {}; }
    }
    assert |HeaderNotes("HEADER_REMOVED", key, status, SortedKeys(p.headers - q.headers))| == |SortedKeys(p.headers - q.headers)|;
    assert |HeaderNotes("HEADER_ADDED", key, status, SortedKeys(q.headers - p.headers))| == |SortedKeys(q.headers - p.headers)|;
    assert |ReplyMediaNotes(key, status, p.content, SortedKeys(parted))| == |SortedKeys(parted)|;
    hide HeaderNotes, ReplyMediaNotes;
  }

  lemma {:induction false} QuietSharedReplies(key: string, p: map<string, Reply>, q: map<string, Reply>, statuses: seq<string>)
    requires forall x :: x in statuses ==> x in p && x in q
    ensures SharedReplies(key, p, q, statuses) == [] <==>
      forall s :: s in statuses ==> p[s].headers == q[s].headers && SameContent(p[s].content, q[s].content)
    decreases |statuses|
  {
    hide SharedReplyRecords, SameContent;
    if statuses != [] {
      var front, last := statuses[..|statuses| - 1], statuses[|statuses| - 1];
      QuietSharedReplies(key, p, q, front);
      QuietReply(key, last, p[last], q[last]);
      assert statuses == front + [last];
    }
  }

  lemma {:induction false} QuietReplies(o: Operation, n: Operation, key: string)
    ensures ReplyRecords(o, n, key) == [] <==> SameReplies(o, n)
  {
    hide RepliesOf, SortedKeys, SharedReplies, SameContent;
    var p, q := RepliesOf(o), RepliesOf(n);
    SortedEmpty(p.Keys - q.Keys);
    SortedEmpty(q.Keys - p.Keys);
    SortedKeysElements(p.Keys * q.Keys);
    QuietSharedReplies(key, p, q, SortedKeys(p.Keys * q.Keys));
    assert p.Keys == q.Keys <==> p.Keys - q.Keys == {} && q.Keys - p.Keys == {};
    assert |ReplyNotes("RESPONSE_REMOVED", key, SortedKeys(p.Keys - q.Keys))| == |SortedKeys(p.Keys - q.Keys)|;
    assert |ReplyNotes("RESPONSE_ADDED", key, SortedKeys(q.Keys - p.Keys))| == |SortedKeys(q.Keys - p.Keys)|;
    hide ReplyNotes;
  }

  lemma {:induction false} QuietFlags(o: Operation, n: Operation, was: seq<string>, now: seq<string>, key: string)
    ensures StreamingRecords(o, n, key) + SecurityRecords(o, n, key, was, now) + DeprecationRecords(o, n, key) == [] <==> SameFlags(o, n, was, now)
  {
    SchemesSame(o, n, was, now);
    hide SchemesOf, InForce;
  }

  lemma {:induction false} QuietOperation(o: Operation, n: Operation, was: seq<string>, now: seq<string>)
    ensures OperationRecords(o, n, was, now) == [] <==> SameOperation(o, n, was, now)
  {
    hide ParameterRecords, StreamingRecords, BodyRecords, ReplyRecords, SecurityRecords, DeprecationRecords,
      SameParameters, SameBody, SameReplies, SameFlags;
    QuietParameters(o, n, o.key);
    QuietBody(o, n, o.key);
    QuietReplies(o, n, o.key);
    QuietFlags(o, n, was, now, o.key);
  }

  lemma {:induction false} QuietOperations(o: map<string, Operation>, n: map<string, Operation>, was: seq<string>, now: seq<string>, keys: seq<string>)
    requires forall k :: k in keys ==> k in o && k in n
    ensures SharedOperations(o, n, was, now, keys) == [] <==> forall k :: k in keys ==> SameOperation(o[k], n[k], was, now)
    decreases |keys|
  {
    hide OperationRecords, SameOperation;
    if keys != [] {
      var front, last := keys[..|keys| - 1], keys[|keys| - 1];
      QuietOperations(o, n, was, now, front);
      QuietOperation(o[last], n[last], was, now);
      assert keys == front + [last];
    }
  }

  /** Nothing is recorded exactly when the two services differ in nothing that is compared. */
  lemma {:induction false} QuietServices(old_: Service, new_: Service)
    ensures ServiceRecords(old_, new_) == [] <==> SameService(old_, new_)
  {
    hide OperationsOf, SortedKeys, SharedOperations, SameOperation;
    var o, n := OperationsOf(old_), OperationsOf(new_);
    SortedEmpty(o.Keys - n.Keys);
    SortedEmpty(n.Keys - o.Keys);
    SortedKeysElements(o.Keys - n.Keys);
    SortedKeysElements(n.Keys - o.Keys);
    SortedKeysElements(o.Keys * n.Keys);
    QuietOperations(o, n, old_.security, new_.security, SortedKeys(o.Keys * n.Keys));
    assert o.Keys == n.Keys <==> o.Keys - n.Keys == {} && n.Keys - o.Keys == {};
    assert |WholeRecords(o, SortedKeys(o.Keys - n.Keys), false)| == |SortedKeys(o.Keys - n.Keys)|;
    assert |WholeRecords(n, SortedKeys(n.Keys - o.Keys), true)| == |SortedKeys(n.Keys - o.Keys)|;
    hide WholeRecords;
  }

  predicate CanonicalContent(c: map<string, Schema>, o: map<string, Schema>) {
    c.Keys == o.Keys && forall m :: m in o ==> c[m] == Canon(o[m])
  }

  predicate CanonicalParameter(c: Parameter, p: Parameter) {
    && c.name == p.name && c.location == p.location && c.required == p.required
    && c.schema.Some? == p.schema.Some? && (p.schema.Some? ==> c.schema.value == Canon(p.schema.value))
  }

  predicate CanonicalReply(c: Reply, r: Reply) {
    c.status == r.status && c.headers == r.headers && CanonicalContent(c.content, r.content)
  }

  /** The same operation with every schema of its parameters, its body and its responses in canonical form. */
  predicate CanonicalOperation(c: Operation, o: Operation) {
    && c.key == o.key && c.http == o.http && c.grpc == o.grpc && c.sends == o.sends && c.clientStreaming == o.clientStreaming
    && c.serverStreaming == o.serverStreaming && c.deprecated == o.deprecated && c.security == o.security
    && |c.parameters| == |o.parameters| && (forall i :: 0 <= i < |o.parameters| ==> CanonicalParameter(c.parameters[i], o.parameters[i]))
    && c.body.Some? == o.body.Some?
    && (o.body.Some? ==> c.body.value.required == o.body.value.required && CanonicalContent(c.body.value.content, o.body.value.content))
    && |c.replies| == |o.replies| && (forall i :: 0 <= i < |o.replies| ==> CanonicalReply(c.replies[i], o.replies[i]))
  }

  /** What is compared is the service as written, but for its schemas. */
  lemma {:induction false} CanonicalServices(s: Service, c: Service)
    ensures c == CanonService(s) <==>
      && c.security == s.security && c.version == s.version && c.servers == s.servers && |c.operations| == |s.operations|
      && forall i :: 0 <= i < |s.operations| ==> CanonicalOperation(c.operations[i], s.operations[i])
  {
    forall c: Operation, o ensures c == CanonOperation(o) <==> CanonicalOperation(c, o) { CanonicalExactly(c, o); }
    hide CanonOperation, CanonicalOperation;
  }

  lemma {:induction false} CanonicalExactly(c: Operation, o: Operation)
    ensures c == CanonOperation(o) <==> CanonicalOperation(c, o)
  {
    hide CanonParameter, CanonReply, CanonicalParameter, CanonicalReply, CanonBody, CanonicalContent;
    var n := CanonOperation(o);
    ParametersCanonical(c.parameters, o.parameters);
    RepliesCanonical(c.replies, o.replies);
    BodyCanonical(c.body, o.body);
    assert n.parameters == seq(|o.parameters|, i requires 0 <= i < |o.parameters| => CanonParameter(o.parameters[i]));
    hide CanonOperation;
  }

  lemma {:induction false} ParametersCanonical(c: seq<Parameter>, o: seq<Parameter>)
    ensures c == seq(|o|, i requires 0 <= i < |o| => CanonParameter(o[i])) <==>
      |c| == |o| && forall i :: 0 <= i < |o| ==> CanonicalParameter(c[i], o[i])
  {
    forall i | 0 <= i < |o| && |c| == |o| ensures c[i] == CanonParameter(o[i]) <==> CanonicalParameter(c[i], o[i]) { hide Canon; }
    hide CanonParameter, CanonicalParameter;
  }

  lemma {:induction false} RepliesCanonical(c: seq<Reply>, o: seq<Reply>)
    ensures c == seq(|o|, i requires 0 <= i < |o| => CanonReply(o[i])) <==>
      |c| == |o| && forall i :: 0 <= i < |o| ==> CanonicalReply(c[i], o[i])
  {
    forall i | 0 <= i < |o| && |c| == |o| ensures c[i] == CanonReply(o[i]) <==> CanonicalReply(c[i], o[i]) {
      ContentCanonical(c[i].content, o[i].content);
      hide CanonContent, CanonicalContent;
    }
    hide CanonReply, CanonicalReply;
  }

  lemma {:induction false} ContentCanonical(c: map<string, Schema>, o: map<string, Schema>)
    ensures c == CanonContent(o) <==> CanonicalContent(c, o)
  {
    hide Canon;
  }

  lemma {:induction false} BodyCanonical(c: Option<Body>, o: Option<Body>)
    ensures c == CanonBody(o) <==>
      c.Some? == o.Some? && (o.Some? ==> c.value.required == o.value.required && CanonicalContent(c.value.content, o.value.content))
  {
    if c.Some? && o.Some? { ContentCanonical(c.value.content, o.value.content); }
    hide CanonContent, CanonicalContent;
  }

  /** `diff_services` returns nothing exactly when the canonical forms differ in nothing that is compared, and otherwise one
      change for each difference. */
  method ChangesExactly(digest: Digest, old_: Service, new_: Service) returns (changes: seq<Change>)
    ensures changes == [] <==> SameService(CanonService(old_), CanonService(new_))
    ensures forall r :: (exists i :: 0 <= i < |changes| && changes[i].record == r) <==> ServiceReports(CanonService(old_), CanonService(new_), r)
  {
    hide ServiceRecords, SameService, ServiceReports, CanonService;
    changes := DiffServices(digest, old_, new_);
    ghost var records := ServiceRecords(CanonService(old_), CanonService(new_));
    QuietServices(CanonService(old_), CanonService(new_));
    NumberedRecords(digest, records);
    forall r ensures (exists i :: 0 <= i < |changes| && changes[i].record == r) <==> ServiceReports(CanonService(old_), CanonService(new_), r) {
      ServiceExactly(CanonService(old_), CanonService(new_), r);
      if r in records {
        var i :| 0 <= i < |records| && records[i] == r;
        assert changes[i].record == r;
      }
    }
  }

  lemma {:induction false} NumberedRecords(d: Digest, records: seq<Record>)
    ensures |Numbered(d, records)| == |records| && forall i :: 0 <= i < |records| ==> Numbered(d, records)[i].record == records[i]
  {
    hide Numbered;
    if records != [] { NumberedAt(d, records, 0); } else { NumberedNone(d); }
    forall i | 0 <= i < |records| ensures Numbered(d, records)[i].record == records[i] { NumberedAt(d, records, i); }
  }

  lemma {:induction false} NumberedNone(d: Digest)
    ensures Numbered(d, []) == []
  {
  }
}
