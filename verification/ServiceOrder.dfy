/** The order of what the comparison of two services records: operations that are gone, new operations, the shared ones by
    key, then the service itself; and within an operation section by section, in each by name. */
module ServiceOrder {
  import opened Model
  import opened Ordering
  import opened Diff
  import opened Changes
  import ServiceExact

  // ------------------------------------------------------------------ places

  datatype Part = At(n: int) | Named(s: string)

  predicate PartLess(a: Part, b: Part) {
    (a.At? && b.At? && a.n < b.n) || (a.Named? && b.Named? && NameLess(a.s, b.s))
  }

  /** Where a record belongs in the report. */
  function Place(r: Record): seq<Part> {
    match r.subject
    case Whole => [At(if r.kind == "OPERATION_REMOVED" || r.kind == "RPC_REMOVED" then 0 else 1), Named(r.key)]
    case Version(_, _) => [At(3)]
    case Servers(_, _) => [At(4)]
    case _ => [At(2), Named(r.key)] + Section(r)
  }

  /** Where it belongs among the records of its operation. What a comparison of schemas reports about a parameter says the
      name of the parameter only. */
  function Section(r: Record): seq<Part> {
    match r.subject
    case ParameterItself(id) => [At(if r.kind == "PARAMETER_REMOVED" then 0 else 1), Named(id.0), Named(id.1)]
    case ParameterRequired(id, _) => [At(2), Named(id.0), Named(id.1), At(0)]
    case ParameterSummary(id, _, _) => [At(2), Named(id.0), Named(id.1), At(1)]
    case SchemaPart(InParameter(name), _) => [At(2), Named(name)]
    case Cardinality(_, _) => [At(3)]
    case BodyItself(_) => [At(4)]
    case SchemaPart(InBody(media), _) => [At(5), Named(media)]
    case SchemaPart(InPayload(media), _) => [At(5), Named(media)]
    case BodyMedia(media, added) => [At(if added then 7 else 6), Named(media)]
    case BodyRequired(_) => [At(8)]
    case ReplyItself(status) => [At(if r.kind == "RESPONSE_REMOVED" then 9 else 10), Named(status)]
    case ReplyHeader(status, header) => [At(11), Named(status), At(if r.kind == "HEADER_REMOVED" then 0 else 1), Named(header)]
    case SchemaPart(InReply(status, media), _) => [At(11), Named(status), At(2), Named(media)]
    case ReplyMedia(status, media, _) => [At(11), Named(status), At(3), Named(media)]
    case Schemes(_, _) => [At(12)]
    case _ => [At(13)]
  }

  /** The first place at which the two part is smaller in the one. */
  predicate Sooner(a: seq<Part>, b: seq<Part>) {
    exists k :: 0 <= k < |a| && k < |b| && a[..k] == b[..k] && PartLess(a[k], b[k])
  }

  /** Two records share a place only if a comparison of schemas reports one of them. */
  ghost predicate InTurn(a: Record, b: Record) {
    || Sooner(Place(a), Place(b))
    || ((a.subject.SchemaPart? || b.subject.SchemaPart?) && (Place(a) <= Place(b) || Place(b) <= Place(a)))
  }

  ghost predicate Ordered(rs: seq<Record>) {
    forall i, j :: 0 <= i < j < |rs| ==> InTurn(rs[i], rs[j])
  }

  // ------------------------------------------------------------------ lists that are ordered

  ghost predicate Below(rs: seq<Record>, p: seq<Part>) {
    forall r :: r in rs ==> p <= Place(r)
  }

  /** Below a place, in the sections from `low` up to `high`. */
  predicate PlacedIn(r: Record, p: seq<Part>, low: int, high: int) {
    p <= Place(r) && |p| < |Place(r)| && Place(r)[|p|].At? && low <= Place(r)[|p|].n < high
  }

  ghost predicate Filed(rs: seq<Record>, p: seq<Part>, low: int, high: int) {
    Ordered(rs) && forall r :: r in rs ==> PlacedIn(r, p, low, high)
  }

  predicate PlacedUnder(r: Record, p: seq<Part>, names: seq<string>) {
    p <= Place(r) && |p| < |Place(r)| && Place(r)[|p|].Named? && Place(r)[|p|].s in names
  }

  ghost predicate Among(rs: seq<Record>, p: seq<Part>, names: seq<string>) {
    Ordered(rs) && forall r :: r in rs ==> PlacedUnder(r, p, names)
  }

  lemma {:induction false} OrderedConcat(a: seq<Record>, b: seq<Record>)
    requires Ordered(a) && Ordered(b) && forall x, y :: x in a && y in b ==> InTurn(x, y)
    ensures Ordered(a + b)
  {
    hide InTurn;
    forall i, j | 0 <= i < j < |a + b| ensures InTurn((a + b)[i], (a + b)[j]) {
      if i < |a| <= j { assert a[i] in a && b[j - |a|] in b; }
    }
  }

  lemma {:induction false} PartHere(a: Record, b: Record, p: seq<Part>)
    requires p <= Place(a) && p <= Place(b) && |p| < |Place(a)| && |p| < |Place(b)| && PartLess(Place(a)[|p|], Place(b)[|p|])
    ensures InTurn(a, b)
  {
    hide Place, PartLess;
    assert Place(a)[..|p|] == p == Place(b)[..|p|];
  }

  lemma {:induction false} FiledConcat(a: seq<Record>, b: seq<Record>, p: seq<Part>, low: int, mid: int, high: int)
    requires Filed(a, p, low, mid) && Filed(b, p, mid, high) && low <= mid <= high
    ensures Filed(a + b, p, low, high)
  {
    hide Place, InTurn, Ordered;
    forall x, y | x in a && y in b ensures InTurn(x, y) {
      assert PlacedIn(x, p, low, mid) && PlacedIn(y, p, mid, high);
      PartHere(x, y, p);
    }
    OrderedConcat(a, b);
  }

  lemma {:induction false} FiledNone(p: seq<Part>, low: int, high: int, names: seq<string>)
    ensures Filed([], p, low, high) && Among([], p, names)
  {
  }

  lemma {:induction false} FiledAs(rs: seq<Record>, p: seq<Part>, n: int)
    requires Ordered(rs) && Below(rs, p + [At(n)])
    ensures Filed(rs, p, n, n + 1)
  {
    hide Place, Ordered;
    forall r | r in rs ensures PlacedIn(r, p, n, n + 1) {
      var q := p + [At(n)];
      assert q <= Place(r) && q[|p|] == At(n);
      assert p <= q;
    }
  }

  lemma {:induction false} FiledOne(condition: bool, r: Record, p: seq<Part>, n: int)
    requires Place(r) == p + [At(n)]
    ensures Filed(Only(condition, r), p, n, n + 1)
  {
    hide Place;
  }

  /** One record for each name. */
  lemma {:induction false} NamesFiled(rs: seq<Record>, p: seq<Part>, names: seq<string>)
    requires Ascending(NameLess, names) && |rs| == |names| && forall i :: 0 <= i < |rs| ==> Place(rs[i]) == p + [Named(names[i])]
    ensures Ordered(rs) && Below(rs, p)
  {
    hide Place, NameLess, InTurn;
    forall i, j | 0 <= i < j < |rs| ensures InTurn(rs[i], rs[j]) {
      assert (p + [Named(names[i])])[|p|] == Named(names[i]) && (p + [Named(names[j])])[|p|] == Named(names[j]);
      PartHere(rs[i], rs[j], p);
    }
    forall r | r in rs ensures p <= Place(r) {}
  }

  lemma {:induction false} IdentsFiled(rs: seq<Record>, p: seq<Part>, idents: seq<(string, string)>)
    requires Ascending(IdentLess, idents) && |rs| == |idents|
    requires forall i :: 0 <= i < |rs| ==> Place(rs[i]) == p + [Named(idents[i].0), Named(idents[i].1)]
    ensures Ordered(rs) && Below(rs, p)
  {
    hide Place, NameLess, InTurn;
    forall i, j | 0 <= i < j < |rs| ensures InTurn(rs[i], rs[j]) {
      IdentsPart(rs[i], rs[j], p, idents[i], idents[j], [], []);
    }
    forall r | r in rs ensures p <= Place(r) {}
  }

  lemma {:induction false} IdentsPart(a: Record, b: Record, p: seq<Part>, x: (string, string), y: (string, string), s: seq<Part>, t: seq<Part>)
    requires Place(a) == p + [Named(x.0), Named(x.1)] + s && Place(b) == p + [Named(y.0), Named(y.1)] + t && IdentLess(x, y)
    ensures InTurn(a, b)
  {
    hide Place, NameLess, InTurn;
    if NameLess(x.0, y.0) {
      assert Place(a)[|p|] == Named(x.0) && Place(b)[|p|] == Named(y.0);
      PartHere(a, b, p);
    } else {
      var q := p + [Named(x.0)];
      assert Place(a)[|q|] == Named(x.1) && Place(b)[|q|] == Named(y.1);
      assert q <= Place(a) && q <= Place(b);
      PartHere(a, b, q);
    }
  }

  /** The records of one more name behind those of smaller names. */
  lemma {:induction false} AmongNext(front: seq<Record>, tail: seq<Record>, p: seq<Part>, names: seq<string>)
    requires names != [] && Ascending(NameLess, names) && Among(front, p, names[..|names| - 1])
    requires Ordered(tail) && Below(tail, p + [Named(names[|names| - 1])])
    ensures Among(front + tail, p, names)
  {
    hide Place, NameLess, InTurn, Ordered;
    var last := names[|names| - 1];
    var q := p + [Named(last)];
    forall y | y in tail ensures PlacedUnder(y, p, names) && Place(y)[|p|] == Named(last) {
      assert q <= Place(y) && q[|p|] == Named(last) && p <= q;
    }
    forall x | x in front ensures PlacedUnder(x, p, names) {
      assert PlacedUnder(x, p, names[..|names| - 1]);
    }
    forall x, y | x in front && y in tail ensures InTurn(x, y) {
      assert PlacedUnder(x, p, names[..|names| - 1]);
      var i :| 0 <= i < |names| - 1 && names[i] == Place(x)[|p|].s;
      assert PartLess(Place(x)[|p|], Place(y)[|p|]);
      PartHere(x, y, p);
    }
    OrderedConcat(front, tail);
  }

  lemma {:induction false} AmongBelow(rs: seq<Record>, p: seq<Part>, names: seq<string>)
    requires Among(rs, p, names)
    ensures Ordered(rs) && Below(rs, p)
  {
    hide Place, Ordered;
    forall r | r in rs ensures p <= Place(r) { assert PlacedUnder(r, p, names); }
  }

  lemma {:induction false} FiledBelow(rs: seq<Record>, p: seq<Part>, low: int, high: int)
    requires Filed(rs, p, low, high)
    ensures Ordered(rs) && Below(rs, p)
  {
    hide Place, Ordered;
    forall r | r in rs ensures p <= Place(r) { assert PlacedIn(r, p, low, high); }
  }

  /** All a comparison of schemas reports is at one place. */
  lemma {:induction false} SchemaFiled(c: Context, prev: Schema, next: Schema, p: seq<Part>)
    requires forall e :: Place(RecordOf(c, e)) == p
    ensures Ordered(SchemaRecords(c, prev, next)) && Below(SchemaRecords(c, prev, next), p)
    ensures forall r :: r in SchemaRecords(c, prev, next) ==> r.subject.SchemaPart? && Place(r) == p
  {
    hide Place, SchemaEntries, KindOf;
    forall r | r in SchemaRecords(c, prev, next) ensures r.subject.SchemaPart? && Place(r) == p {
      var i :| 0 <= i < |SchemaRecords(c, prev, next)| && SchemaRecords(c, prev, next)[i] == r;
      assert r == RecordOf(c, SchemaEntries(prev, next, [])[i]);
    }
  }

  // ------------------------------------------------------------------ parameters

  /** What one shared parameter yields: about it, or about its schema. */
  predicate OfIdent(r: Record, p: seq<Part>, id: (string, string)) {
    (Place(r) == p + [Named(id.0)] && r.subject.SchemaPart?) || p + [Named(id.0), Named(id.1)] <= Place(r)
  }

  ghost predicate AmongIdents(rs: seq<Record>, p: seq<Part>, idents: seq<(string, string)>) {
    Ordered(rs) && forall r :: r in rs ==> exists id :: id in idents && OfIdent(r, p, id)
  }

  lemma {:induction false} IdentsInTurn(a: Record, b: Record, p: seq<Part>, x: (string, string), y: (string, string))
    requires OfIdent(a, p, x) && OfIdent(b, p, y) && IdentLess(x, y)
    ensures InTurn(a, b)
  {
    hide Place, NameLess, Sooner;
    var q := p + [Named(x.0)];
    assert p + [Named(x.0), Named(x.1)] == q + [Named(x.1)] && p + [Named(y.0), Named(y.1)] == p + [Named(y.0)] + [Named(y.1)];
    assert q <= Place(a) && p + [Named(y.0)] <= Place(b);
    if NameLess(x.0, y.0) {
      assert Place(a)[|p|] == q[|p|] == Named(x.0) && Place(b)[|p|] == (p + [Named(y.0)])[|p|] == Named(y.0);
      assert p <= q && p <= p + [Named(y.0)];
      PartHere(a, b, p);
    } else if Place(a) == q || Place(b) == q {
    } else {
      assert Place(a)[|q|] == (q + [Named(x.1)])[|q|] && Place(b)[|q|] == (q + [Named(y.1)])[|q|];
      PartHere(a, b, q);
    }
  }

  lemma {:induction false} IdentsNext(front: seq<Record>, tail: seq<Record>, p: seq<Part>, idents: seq<(string, string)>)
    requires idents != [] && Ascending(IdentLess, idents) && AmongIdents(front, p, idents[..|idents| - 1])
    requires Ordered(tail) && forall r :: r in tail ==> OfIdent(r, p, idents[|idents| - 1])
    ensures AmongIdents(front + tail, p, idents)
  {
    hide IdentLess, InTurn, Ordered, OfIdent;
    var last := idents[|idents| - 1];
    forall x, y | x in front && y in tail ensures InTurn(x, y) {
      var id :| id in idents[..|idents| - 1] && OfIdent(x, p, id);
      IdentsInTurn(x, y, p, id, last);
    }
    OrderedConcat(front, tail);
    assert idents == idents[..|idents| - 1] + [last];
  }

  lemma {:induction false} OneParameter(key: string, id: (string, string), o: Parameter, n: Parameter)
    ensures Ordered(SharedParameterRecords(key, id, o, n))
    ensures forall r :: r in SharedParameterRecords(key, id, o, n) ==> OfIdent(r, [At(2), Named(key), At(2)], id)
  {
    hide SummaryOf, SchemaRecords;
    var p := [At(2), Named(key), At(2)];
    var required := Record("PARAMETER_REQUIREDNESS", key, Request, ParameterRequired(id, n.required));
    var summary := Record("PARAMETER_TYPE_CHANGED", key, Request, ParameterSummary(id, SummaryOf(o.schema), SummaryOf(n.schema)));
    var q := [At(2), Named(key), At(2), Named(id.0), Named(id.1)];
    assert Place(required) == q + [At(0)] && Place(summary) == q + [At(1)] && p + [Named(id.0), Named(id.1)] == q;
    var first := Only(o.required != n.required, required);
    var rest := SharedParameterRecords(key, id, o, n)[|first|..];
    assert SharedParameterRecords(key, id, o, n) == first + rest;
    var c := Context(key, InParameter(id.0), Request);
    assert forall e :: Place(RecordOf(c, e)) == p + [Named(id.0)];
    if o.schema.Some? && n.schema.Some? { SchemaFiled(c, o.schema.value, n.schema.value, p + [Named(id.0)]); }
    PartHere(required, summary, q);
    hide Place;
    forall y | y in rest ensures InTurn(required, y) && OfIdent(y, p, id) {
      assert p + [Named(id.0)] <= q;
    }
    assert Ordered(rest);
    assert Ordered(first);
    OrderedConcat(first, rest);
  }

  lemma {:induction false} SharedFiled(key: string, o: map<(string, string), Parameter>, n: map<(string, string), Parameter>, idents: seq<(string, string)>)
    requires Ascending(IdentLess, idents) && forall x :: x in idents ==> x in o && x in n
    ensures AmongIdents(SharedParameters(key, o, n, idents), [At(2), Named(key), At(2)], idents)
    decreases |idents|
  {
    hide IdentLess, InTurn, OfIdent, SharedParameterRecords;
    if idents != [] {
      var front, last := idents[..|idents| - 1], idents[|idents| - 1];
      SharedFiled(key, o, n, front);
      OneParameter(key, last, o[last], n[last]);
      IdentsNext(SharedParameters(key, o, n, front), SharedParameterRecords(key, last, o[last], n[last]), [At(2), Named(key), At(2)], idents);
    }
  }

  lemma {:induction false} AmongIdentsBelow(rs: seq<Record>, p: seq<Part>, idents: seq<(string, string)>)
    requires AmongIdents(rs, p, idents)
    ensures Ordered(rs) && Below(rs, p)
  {
    hide Place, Ordered;
    forall r | r in rs ensures p <= Place(r) {
      var id :| id in idents && OfIdent(r, p, id);
      assert p <= p + [Named(id.0)] && p <= p + [Named(id.0), Named(id.1)];
    }
  }

  lemma {:induction false} NotesFiled(key: string, idents: seq<(string, string)>)
    requires Ascending(IdentLess, idents)
    ensures Filed(ParameterNotes("PARAMETER_REMOVED", key, idents), [At(2), Named(key)], 0, 1)
    ensures Filed(ParameterNotes("PARAMETER_ADDED", key, idents), [At(2), Named(key)], 1, 2)
  {
    hide IdentLess, Ordered, Below, Filed;
    var p := [At(2), Named(key)];
    var gone, added := ParameterNotes("PARAMETER_REMOVED", key, idents), ParameterNotes("PARAMETER_ADDED", key, idents);
    IdentsFiled(gone, p + [At(0)], idents);
    assert |"PARAMETER_REMOVED"| != |"PARAMETER_ADDED"|;
    IdentsFiled(added, p + [At(1)], idents);
    FiledAs(gone, p, 0);
    FiledAs(added, p, 1);
  }

  lemma {:induction false} ParametersFiled(o: Operation, n: Operation, key: string)
    ensures Filed(ParameterRecords(o, n, key), [At(2), Named(key)], 0, 3)
  {
    hide ParametersOf, SortedIdents, SharedParameters, ParameterNotes, Filed, Ordered, Below, AmongIdents;
    var p, q := ParametersOf(o), ParametersOf(n);
    var at := [At(2), Named(key)];
    SortedIdentsAscending(p.Keys - q.Keys);
    SortedIdentsAscending(q.Keys - p.Keys);
    SortedIdentsAscending(p.Keys * q.Keys);
    SortedIdentsElements(p.Keys * q.Keys);
    hide Ascending;
    var gone, added, both := SortedIdents(p.Keys - q.Keys), SortedIdents(q.Keys - p.Keys), SortedIdents(p.Keys * q.Keys);
    NotesFiled(key, gone);
    NotesFiled(key, added);
    SharedFiled(key, p, q, both);
    AmongIdentsBelow(SharedParameters(key, p, q, both), [At(2), Named(key), At(2)], both);
    assert at + [At(2)] == [At(2), Named(key), At(2)];
    FiledAs(SharedParameters(key, p, q, both), at, 2);
    FiledConcat(ParameterNotes("PARAMETER_REMOVED", key, gone), ParameterNotes("PARAMETER_ADDED", key, added), at, 0, 1, 2);
    FiledConcat(ParameterNotes("PARAMETER_REMOVED", key, gone) + ParameterNotes("PARAMETER_ADDED", key, added), SharedParameters(key, p, q, both), at, 0, 2, 3);
  }

  // ------------------------------------------------------------------ bodies and replies

  /** The place of a carrier's media types. */
  function MediaPlace(carrier: Carrier, key: string): seq<Part> {
    match carrier
    case InRequest(_) => [At(2), Named(key), At(5)]
    case InResponse(status) => [At(2), Named(key), At(11), Named(status), At(2)]
  }

  lemma {:induction false} OneMedium(carrier: Carrier, key: string, media: string, prev: Schema, next: Schema)
    ensures Ordered(SchemaRecords(ContextOf(carrier, key, media), prev, next))
    ensures Below(SchemaRecords(ContextOf(carrier, key, media), prev, next), MediaPlace(carrier, key) + [Named(media)])
  {
    hide Ordered, Below, SchemaRecords;
    var c := ContextOf(carrier, key, media);
    forall e ensures Place(RecordOf(c, e)) == MediaPlace(carrier, key) + [Named(media)] { hide KindOf; }
    SchemaFiled(c, prev, next, MediaPlace(carrier, key) + [Named(media)]);
  }

  lemma {:induction false} MediaFiled(carrier: Carrier, key: string, o: map<string, Schema>, n: map<string, Schema>, media: seq<string>)
    requires Ascending(NameLess, media) && forall m :: m in media ==> m in o && m in n
    ensures Among(MediaRecords(carrier, key, o, n, media), MediaPlace(carrier, key), media)
    decreases |media|
  {
    hide NameLess, InTurn, PlacedUnder, SchemaRecords, MediaPlace, Below, ContextOf;
    if media != [] {
      var front, last := media[..|media| - 1], media[|media| - 1];
      MediaFiled(carrier, key, o, n, front);
      OneMedium(carrier, key, last, o[last], n[last]);
      hide Among, Ordered;
      AmongNext(MediaRecords(carrier, key, o, n, front), SchemaRecords(ContextOf(carrier, key, last), o[last], n[last]), MediaPlace(carrier, key), media);
    }
  }

  lemma {:induction false} SharedMediaFiled(carrier: Carrier, key: string, o: map<string, Schema>, n: map<string, Schema>)
    ensures forall m :: m in SortedKeys(o.Keys * n.Keys) ==> m in o && m in n
    ensures Ordered(MediaRecords(carrier, key, o, n, SortedKeys(o.Keys * n.Keys)))
    ensures Below(MediaRecords(carrier, key, o, n, SortedKeys(o.Keys * n.Keys)), MediaPlace(carrier, key))
  {
    hide *;
    SortedKeysElements(o.Keys * n.Keys);
    SortedKeysAscending(o.Keys * n.Keys);
    MediaFiled(carrier, key, o, n, SortedKeys(o.Keys * n.Keys));
    AmongBelow(MediaRecords(carrier, key, o, n, SortedKeys(o.Keys * n.Keys)), MediaPlace(carrier, key), SortedKeys(o.Keys * n.Keys));
  }

  lemma {:induction false} BodyNotesFiled(key: string, media: seq<string>, added: bool)
    requires Ascending(NameLess, media)
    ensures Filed(BodyMediaNotes(key, media, added), [At(2), Named(key)], if added then 7 else 6, if added then 8 else 7)
  {
    hide NameLess, Ordered, Below, Filed;
    var p, n := [At(2), Named(key)], if added then 7 else 6;
    NamesFiled(BodyMediaNotes(key, media, added), p + [At(n)], media);
    FiledAs(BodyMediaNotes(key, media, added), p, n);
  }

  lemma {:induction false} BodyFiled(old_: Operation, new_: Operation, key: string)
    ensures Filed(BodyRecords(old_, new_, key), [At(2), Named(key)], 4, 9)
  {
    hide MediaRecords, BodyMediaNotes, SortedKeys, Filed, Ordered, Below;
    var p := [At(2), Named(key)];
    var alone := Record("REQUEST_SCHEMA_CHANGED", key, Request, BodyItself(new_.body.Some?));
    assert Place(alone) == p + [At(4)];
    FiledOne(true, alone, p, 4);
    FiledNone(p, 4, 9, []);
    FiledNone(p, 5, 9, []);
    if old_.body.Some? && new_.body.Some? {
      var sends := new_.sends;
      var o, n := old_.body.value, new_.body.value;
      var required := Record("REQUEST_SCHEMA_CHANGED", key, Request, BodyRequired(n.required));
      assert Place(required) == p + [At(8)];
      SharedMediaFiled(InRequest(sends), key, o.content, n.content);
      var shared := MediaRecords(InRequest(sends), key, o.content, n.content, SortedKeys(o.content.Keys * n.content.Keys));
      assert p + [At(5)] == MediaPlace(InRequest(sends), key);
      FiledAs(shared, p, 5);
      SortedKeysAscending(o.content.Keys - n.content.Keys);
      SortedKeysAscending(n.content.Keys - o.content.Keys);
      hide Ascending, Place;
      BodyNotesFiled(key, SortedKeys(o.content.Keys - n.content.Keys), false);
      BodyNotesFiled(key, SortedKeys(n.content.Keys - o.content.Keys), true);
      FiledOne(o.required != n.required, required, p, 8);
      var gone, added := BodyMediaNotes(key, SortedKeys(o.content.Keys - n.content.Keys), false), BodyMediaNotes(key, SortedKeys(n.content.Keys - o.content.Keys), true);
      FiledConcat(shared, gone, p, 5, 6, 7);
      FiledConcat(shared + gone, added, p, 5, 7, 8);
      FiledConcat(shared + gone + added, Only(o.required != n.required, required), p, 5, 8, 9);
      FiledNone(p, 4, 5, []);
      var none: seq<Record> := [];
      FiledConcat(none, BodyRecords(old_, new_, key), p, 4, 5, 9);
      assert none + BodyRecords(old_, new_, key) == BodyRecords(old_, new_, key);
    } else if old_.body.Some? || new_.body.Some? {
      FiledConcat([alone], [], p, 4, 5, 9);
      assert [alone] + [] == [alone] == Only(true, alone);
    }
  }

  lemma {:induction false} ReplyNotesFiled(key: string, statuses: seq<string>)
    requires Ascending(NameLess, statuses)
    ensures Filed(ReplyNotes("RESPONSE_REMOVED", key, statuses), [At(2), Named(key)], 9, 10)
    ensures Filed(ReplyNotes("RESPONSE_ADDED", key, statuses), [At(2), Named(key)], 10, 11)
  {
    hide NameLess, Ordered, Below, Filed;
    var p := [At(2), Named(key)];
    var gone, added := ReplyNotes("RESPONSE_REMOVED", key, statuses), ReplyNotes("RESPONSE_ADDED", key, statuses);
    assert |"RESPONSE_REMOVED"| != |"RESPONSE_ADDED"|;
    NamesFiled(gone, p + [At(9)], statuses);
    NamesFiled(added, p + [At(10)], statuses);
    FiledAs(gone, p, 9);
    FiledAs(added, p, 10);
  }

  lemma {:induction false} HeadersFiled(key: string, status: string, headers: seq<string>)
    requires Ascending(NameLess, headers)
    ensures Filed(HeaderNotes("HEADER_REMOVED", key, status, headers), [At(2), Named(key), At(11), Named(status)], 0, 1)
    ensures Filed(HeaderNotes("HEADER_ADDED", key, status, headers), [At(2), Named(key), At(11), Named(status)], 1, 2)
  {
    hide NameLess, Ordered, Below, Filed;
    var p := [At(2), Named(key), At(11), Named(status)];
    var gone, added := HeaderNotes("HEADER_REMOVED", key, status, headers), HeaderNotes("HEADER_ADDED", key, status, headers);
    assert |"HEADER_REMOVED"| != |"HEADER_ADDED"|;
    NamesFiled(gone, p + [At(0)], headers);
    NamesFiled(added, p + [At(1)], headers);
    FiledAs(gone, p, 0);
    FiledAs(added, p, 1);
  }

  lemma {:induction false} PartedFiled(key: string, status: string, o: map<string, Schema>, media: seq<string>)
    requires Ascending(NameLess, media)
    ensures Filed(ReplyMediaNotes(key, status, o, media), [At(2), Named(key), At(11), Named(status)], 3, 4)
  {
    hide NameLess, Ordered, Below, Filed;
    var p := [At(2), Named(key), At(11), Named(status)];
    NamesFiled(ReplyMediaNotes(key, status, o, media), p + [At(3)], media);
    FiledAs(ReplyMediaNotes(key, status, o, media), p, 3);
  }

  lemma {:induction false} OneReply(key: string, status: string, o: Reply, n: Reply)
    ensures Ordered(SharedReplyRecords(key, status, o, n))
    ensures Below(SharedReplyRecords(key, status, o, n), [At(2), Named(key), At(11), Named(status)])
  {
    hide MediaRecords, HeaderNotes, ReplyMediaNotes, SortedKeys, Filed, Ordered, Below, Place;
    var p := [At(2), Named(key), At(11), Named(status)];
    var parted := (o.content.Keys - n.content.Keys) + (n.content.Keys - o.content.Keys);
    SortedKeysAscending(o.headers - n.headers);
    SortedKeysAscending(n.headers - o.headers);
    SortedKeysAscending(parted);
    hide Ascending;
    var gone, added := HeaderNotes("HEADER_REMOVED", key, status, SortedKeys(o.headers - n.headers)), HeaderNotes("HEADER_ADDED", key, status, SortedKeys(n.headers - o.headers));
    HeadersFiled(key, status, SortedKeys(o.headers - n.headers));
    HeadersFiled(key, status, SortedKeys(n.headers - o.headers));
    PartedFiled(key, status, o.content, SortedKeys(parted));
    SharedMediaFiled(InResponse(status), key, o.content, n.content);
    var shared := MediaRecords(InResponse(status), key, o.content, n.content, SortedKeys(o.content.Keys * n.content.Keys));
    assert p + [At(2)] == MediaPlace(InResponse(status), key);
    FiledAs(shared, p, 2);
    FiledConcat(gone, added, p, 0, 1, 2);
    FiledConcat(gone + added, shared, p, 0, 2, 3);
    FiledConcat(gone + added + shared, ReplyMediaNotes(key, status, o.content, SortedKeys(parted)), p, 0, 3, 4);
    FiledBelow(SharedReplyRecords(key, status, o, n), p, 0, 4);
  }

  lemma {:induction false} SharedRepliesFiled(key: string, o: map<string, Reply>, n: map<string, Reply>, statuses: seq<string>)
    requires Ascending(NameLess, statuses) && forall x :: x in statuses ==> x in o && x in n
    ensures Among(SharedReplies(key, o, n, statuses), [At(2), Named(key), At(11)], statuses)
    decreases |statuses|
  {
    hide NameLess, InTurn, PlacedUnder, SharedReplyRecords, Below;
    if statuses != [] {
      var front, last := statuses[..|statuses| - 1], statuses[|statuses| - 1];
      var p := [At(2), Named(key), At(11)];
      SharedRepliesFiled(key, o, n, front);
      OneReply(key, last, o[last], n[last]);
      assert p + [Named(last)] == [At(2), Named(key), At(11), Named(last)];
      hide Among, Ordered;
      AmongNext(SharedReplies(key, o, n, front), SharedReplyRecords(key, last, o[last], n[last]), p, statuses);
    }
  }

  lemma {:induction false} RepliesFiled(o: Operation, n: Operation, key: string)
    ensures Filed(ReplyRecords(o, n, key), [At(2), Named(key)], 9, 12)
  {
    hide RepliesOf, SortedKeys, SharedReplies, ReplyNotes, Filed, Ordered, Below, Among;
    var p, q := RepliesOf(o), RepliesOf(n);
    var at := [At(2), Named(key)];
    SortedKeysAscending(p.Keys - q.Keys);
    SortedKeysAscending(q.Keys - p.Keys);
    SortedKeysAscending(p.Keys * q.Keys);
    SortedKeysElements(p.Keys * q.Keys);
    hide Ascending;
    var gone, added, both := SortedKeys(p.Keys - q.Keys), SortedKeys(q.Keys - p.Keys), SortedKeys(p.Keys * q.Keys);
    ReplyNotesFiled(key, gone);
    ReplyNotesFiled(key, added);
    SharedRepliesFiled(key, p, q, both);
    AmongBelow(SharedReplies(key, p, q, both), [At(2), Named(key), At(11)], both);
    assert at + [At(11)] == [At(2), Named(key), At(11)];
    FiledAs(SharedReplies(key, p, q, both), at, 11);
    FiledConcat(ReplyNotes("RESPONSE_REMOVED", key, gone), ReplyNotes("RESPONSE_ADDED", key, added), at, 9, 10, 11);
    FiledConcat(ReplyNotes("RESPONSE_REMOVED", key, gone) + ReplyNotes("RESPONSE_ADDED", key, added), SharedReplies(key, p, q, both), at, 9, 11, 12);
  }

  // ------------------------------------------------------------------ operations

  lemma {:induction false} FlagsFiled(o: Operation, n: Operation, key: string, was: seq<string>, now: seq<string>)
    ensures Filed(StreamingRecords(o, n, key), [At(2), Named(key)], 3, 4)
    ensures Filed(SecurityRecords(o, n, key, was, now), [At(2), Named(key)], 12, 13)
    ensures Filed(DeprecationRecords(o, n, key), [At(2), Named(key)], 13, 14)
  {
    hide Filed, SchemesOf;
    var p := [At(2), Named(key)];
    var before, after := (o.clientStreaming, o.serverStreaming), (n.clientStreaming, n.serverStreaming);
    FiledOne(o.grpc && n.grpc && before != after, Record("RPC_STREAMING_CHANGED", key, Meta, Cardinality(before, after)), p, 3);
    FiledOne(SchemesOf(o, was) != SchemesOf(n, now), Record("SECURITY_CHANGED", key, Security, Schemes(SchemesOf(o, was), SchemesOf(n, now))), p, 12);
    FiledOne(!o.deprecated && n.deprecated, Record("DEPRECATION_ADDED", key, Meta, Deprecation), p, 13);
    FiledOne(o.deprecated && !n.deprecated, Record("DEPRECATION_REMOVED", key, Meta, Deprecation), p, 13);
  }

  lemma {:induction false} OperationFiled(o: Operation, n: Operation, was: seq<string>, now: seq<string>)
    ensures Ordered(OperationRecords(o, n, was, now)) && Below(OperationRecords(o, n, was, now), [At(2), Named(o.key)])
  {
    hide ParameterRecords, StreamingRecords, BodyRecords, ReplyRecords, SecurityRecords, DeprecationRecords, Filed, Ordered, Below;
    var key := o.key;
    var p := [At(2), Named(key)];
    var a, b, c := ParameterRecords(o, n, key), StreamingRecords(o, n, key), BodyRecords(o, n, key);
    var d, e, f := ReplyRecords(o, n, key), SecurityRecords(o, n, key, was, now), DeprecationRecords(o, n, key);
    ParametersFiled(o, n, key);
    FlagsFiled(o, n, key, was, now);
    BodyFiled(o, n, key);
    RepliesFiled(o, n, key);
    FiledConcat(a, b, p, 0, 3, 4);
    FiledConcat(a + b, c, p, 0, 4, 9);
    FiledConcat(a + b + c, d, p, 0, 9, 12);
    FiledConcat(a + b + c + d, e, p, 0, 12, 13);
    FiledConcat(a + b + c + d + e, f, p, 0, 13, 14);
    FiledBelow(OperationRecords(o, n, was, now), p, 0, 14);
  }

  lemma {:induction false} SharedOperationsFiled(o: map<string, Operation>, n: map<string, Operation>, was: seq<string>, now: seq<string>, keys: seq<string>)
    requires Ascending(NameLess, keys) && forall k :: k in keys ==> k in o && k in n && o[k].key == k
    ensures Among(SharedOperations(o, n, was, now, keys), [At(2)], keys)
    decreases |keys|
  {
    hide NameLess, InTurn, PlacedUnder, OperationRecords, Below;
    if keys != [] {
      var front, last := keys[..|keys| - 1], keys[|keys| - 1];
      var p := [At(2)];
      SharedOperationsFiled(o, n, was, now, front);
      OperationFiled(o[last], n[last], was, now);
      assert p + [Named(last)] == [At(2), Named(last)];
      hide Among, Ordered;
      AmongNext(SharedOperations(o, n, was, now, front), OperationRecords(o[last], n[last], was, now), p, keys);
    }
  }

  lemma {:induction false} WholeFiled(ops: map<string, Operation>, keys: seq<string>, added: bool)
    requires Ascending(NameLess, keys) && forall k :: k in keys ==> k in ops
    ensures Filed(WholeRecords(ops, keys, added), [], if added then 1 else 0, if added then 2 else 1)
  {
    hide NameLess, Ordered, Below, Filed;
    var p: seq<Part> := [];
    var n := if added then 1 else 0;
    assert |"OPERATION_ADDED"| == 15 && |"RPC_ADDED"| == 9 && |"OPERATION_REMOVED"| == 17 && |"RPC_REMOVED"| == 11;
    NamesFiled(WholeRecords(ops, keys, added), p + [At(n)], keys);
    FiledAs(WholeRecords(ops, keys, added), p, n);
  }

  /** Of any two records the one listed first comes first in its place in the report. */
  lemma {:induction false} ServiceInOrder(old_: Service, new_: Service)
    ensures Ordered(ServiceRecords(old_, new_))
  {
    hide OperationsOf, SortedKeys, WholeRecords, SharedOperations, Filed, Ordered, Below, Among;
    var o, n := OperationsOf(old_), OperationsOf(new_);
    var p: seq<Part> := [];
    ServiceExact.KeyedByKey(old_);
    SortedKeysElements(o.Keys - n.Keys);
    SortedKeysElements(n.Keys - o.Keys);
    SortedKeysElements(o.Keys * n.Keys);
    SortedKeysAscending(o.Keys - n.Keys);
    SortedKeysAscending(n.Keys - o.Keys);
    SortedKeysAscending(o.Keys * n.Keys);
    hide Ascending;
    var a, b := WholeRecords(o, SortedKeys(o.Keys - n.Keys), false), WholeRecords(n, SortedKeys(n.Keys - o.Keys), true);
    var both := SortedKeys(o.Keys * n.Keys);
    var c := SharedOperations(o, n, old_.security, new_.security, both);
    WholeFiled(o, SortedKeys(o.Keys - n.Keys), false);
    WholeFiled(n, SortedKeys(n.Keys - o.Keys), true);
    SharedOperationsFiled(o, n, old_.security, new_.security, both);
    AmongBelow(c, [At(2)], both);
    assert p + [At(2)] == [At(2)];
    FiledAs(c, p, 2);
    var version := Record("DESCRIPTION_CHANGED", SERVICE, Meta, Version(old_.version, new_.version));
    var servers := Record("SERVER_CHANGED", SERVICE, Meta, Servers(old_.servers, new_.servers));
    FiledOne(old_.version != new_.version, version, p, 3);
    FiledOne(old_.servers != new_.servers, servers, p, 4);
    hide Place;
    FiledConcat(Only(old_.version != new_.version, version), Only(old_.servers != new_.servers, servers), p, 3, 4, 5);
    FiledConcat(a, b, p, 0, 1, 2);
    FiledConcat(a + b, c, p, 0, 2, 3);
    FiledConcat(a + b + c, ServiceNotes(old_, new_), p, 0, 3, 5);
    FiledBelow(ServiceRecords(old_, new_), p, 0, 5);
  }

  /** What is about no schema is recorded once. */
  lemma {:induction false} RecordsOnce(old_: Service, new_: Service, i: nat, j: nat)
    requires i < j < |ServiceRecords(old_, new_)| && ServiceRecords(old_, new_)[i] == ServiceRecords(old_, new_)[j]
    ensures ServiceRecords(old_, new_)[i].subject.SchemaPart?
  {
    hide ServiceRecords, Place;
    ServiceInOrder(old_, new_);
    var r := ServiceRecords(old_, new_)[i];
    assert InTurn(r, ServiceRecords(old_, new_)[j]);
    if k :| 0 <= k < |Place(r)| && PartLess(Place(r)[k], Place(r)[k]) { NameLessTotal(Place(r)[k].s, Place(r)[k].s); }
  }
}
