/** The list of changes between two services, and the identity each change is given. What is reported is a list of
    records; a change is a record with an id of the form `CHG-KIND-hash-N`. */
module Changes {
  import opened Model
  import opened Ordering
  import opened Diff

  // ------------------------------------------------------------------ services

  datatype Parameter = Parameter(name: string, location: string, required: bool, schema: Option<Schema>)
  datatype Body = Body(required: bool, content: map<string, Schema>)
  datatype Reply = Reply(status: string, headers: set<string>, content: map<string, Schema>)

  /** An operation, with its canonical key. `sends` says that its payload is a message the application produces. */
  datatype Operation = Operation(
    key: string, http: bool, grpc: bool, sends: bool, clientStreaming: bool, serverStreaming: bool, deprecated: bool,
    parameters: seq<Parameter>, body: Option<Body>, replies: seq<Reply>, security: Option<seq<string>>)

  datatype Service = Service(operations: seq<Operation>, security: seq<string>, version: string, servers: seq<string>)

  /** Python's `{key(x): x for x in xs}`: the last of several with one key stays. */
  function Index<K(==), V>(key: V -> K, xs: seq<V>): map<K, V> {
    if xs == [] then map[] else Index(key, xs[..|xs| - 1])[key(xs[|xs| - 1]) := xs[|xs| - 1]]
  }

  function Ident(p: Parameter): (string, string) { (p.name, p.location) }

  function OperationsOf(s: Service): map<string, Operation> { Index((op: Operation) => op.key, s.operations) }
  function ParametersOf(op: Operation): map<(string, string), Parameter> { Index(Ident, op.parameters) }
  function RepliesOf(op: Operation): map<string, Reply> { Index((r: Reply) => r.status, op.replies) }

  // ------------------------------------------------------------------ records

  datatype Direction = Request | Response | Meta | Security

  datatype Where = InParameter(name: string) | InBody(media: string) | InPayload(media: string) | InReply(status: string, media: string)

  datatype Summary = NoSchema | Summary(base: string, format: string, enum: Option<seq<Value>>, constant: Value)

  /** What a change is about, with the values before and after where it carries them. */
  datatype Subject =
    | Whole
    | ParameterItself(ident: (string, string))
    | ParameterRequired(ident: (string, string), required: bool)
    | ParameterSummary(ident: (string, string), Summary, Summary)
    | Cardinality((bool, bool), (bool, bool))
    | SchemaPart(where: Where, entry: Entry)
    | BodyItself(added: bool) | BodyMedia(media: string, added: bool) | BodyRequired(required: bool)
    | ReplyItself(status: string) | ReplyHeader(status: string, header: string) | ReplyMedia(status: string, media: string, added: bool)
    | Schemes(seq<string>, seq<string>)
    | Deprecation
    | Version(string, string) | Servers(seq<string>, seq<string>)

  datatype Record = Record(kind: string, key: string, direction: Direction, subject: Subject)

  function PayloadKind(direction: Direction): string {
    if direction == Request then "REQUEST_SCHEMA_CHANGED" else "RESPONSE_SCHEMA_CHANGED"
  }

  /** The kind of a schema difference, by what it is about and which way the payload travels. */
  function KindOf(n: Note, direction: Direction): string {
    match n.what
    case Nullability => "NULLABILITY_CHANGED"
    case Type => if direction == Request then "PARAMETER_TYPE_CHANGED" else "RESPONSE_SCHEMA_CHANGED"
    case Format => "PARAMETER_CONSTRAINT_CHANGED"
    case Const => "PARAMETER_CONSTRAINT_CHANGED"
    case Constraint(_) => "PARAMETER_CONSTRAINT_CHANGED"
    case Enum => "ENUM_CHANGED"
    case Field(_) =>
      if direction != Request then "RESPONSE_SCHEMA_CHANGED"
      else if n.before == Present then "PARAMETER_REMOVED" else "PARAMETER_ADDED"
    case Requiredness(_) => "PARAMETER_REQUIREDNESS"
    case DependentRequired(_) => "DEPENDENT_REQUIRED_CHANGED"
    case DependentSchema(_) => "DEPENDENT_SCHEMA_CHANGED"
    case TupleLength => "TUPLE_SHAPE_CHANGED"
    case TupleType(_) => "TUPLE_SHAPE_CHANGED"
    case PatternSchema(_) => "PATTERN_PROPERTIES_CHANGED"
    case NamesSchema => "PROPERTY_NAMES_CHANGED"
    case ContainsSchema => "CONTAINS_CHANGED"
    case MinContains => "CONTAINS_CHANGED"
    case MaxContains => "CONTAINS_CHANGED"
    case BranchSchema(_) => "CONDITIONAL_SCHEMA_CHANGED"
    case NumberReused(_) => "FIELD_NUMBER_REUSED"
    case ReservationDropped(_) => "RESERVATION_CHANGED"
    case PresenceLost(_) => "FIELD_PRESENCE_CHANGED"
    case OneofMember(_) => "ONEOF_MEMBERSHIP_CHANGED"
    case _ => PayloadKind(direction)
  }

  /** Where a comparison of schemas is reported. */
  datatype Context = Context(key: string, where: Where, direction: Direction)

  function RecordOf(c: Context, e: Entry): Record {
    Record(KindOf(e.note, c.direction), c.key, c.direction, SchemaPart(c.where, e))
  }

  function RecordsOf(c: Context, entries: seq<Entry>): (r: seq<Record>)
    ensures |r| == |entries| && forall i :: 0 <= i < |r| ==> r[i] == RecordOf(c, entries[i])
  {
    seq(|entries|, i requires 0 <= i < |entries| => RecordOf(c, entries[i]))
  }

  ghost function SchemaRecords(c: Context, prev: Schema, next: Schema): seq<Record> {
    RecordsOf(c, SchemaEntries(prev, next, []))
  }

  function Only(condition: bool, r: Record): seq<Record> { if condition then [r] else [] }

  // ------------------------------------------------------------------ parameters

  predicate IdentLess(a: (string, string), b: (string, string)) {
    NameLess(a.0, b.0) || (a.0 == b.0 && NameLess(a.1, b.1))
  }

  ghost function SortedIdents(s: set<(string, string)>): seq<(string, string)> {
    SortedSet(IdentLess, Listing(s))
  }

  function SummaryOf(s: Option<Schema>): Summary {
    if s.None? then NoSchema
    else
      var kw := s.value.kw;
      Summary(if kw.typ.Some? && TypeName(kw.typ.value) != "" then TypeName(kw.typ.value) else "any",
              if kw.format.Some? then kw.format.value else "", kw.enum, kw.constant)
  }

  ghost function SharedParameterRecords(key: string, ident: (string, string), o: Parameter, n: Parameter): seq<Record> {
    Only(o.required != n.required, Record("PARAMETER_REQUIREDNESS", key, Request, ParameterRequired(ident, n.required)))
    + if SummaryOf(o.schema) != SummaryOf(n.schema)
      then [Record("PARAMETER_TYPE_CHANGED", key, Request, ParameterSummary(ident, SummaryOf(o.schema), SummaryOf(n.schema)))]
      else if o.schema.Some? && n.schema.Some?
      then SchemaRecords(Context(key, InParameter(ident.0), Request), o.schema.value, n.schema.value)
      else []
  }

  function ParameterNotes(kind: string, key: string, idents: seq<(string, string)>): seq<Record> {
    seq(|idents|, i requires 0 <= i < |idents| => Record(kind, key, Request, ParameterItself(idents[i])))
  }

  ghost function SharedParameters(key: string, o: map<(string, string), Parameter>, n: map<(string, string), Parameter>,
                                  idents: seq<(string, string)>): seq<Record>
    requires forall x :: x in idents ==> x in o && x in n
  {
    if idents == [] then []
    else SharedParameters(key, o, n, idents[..|idents| - 1])
         + SharedParameterRecords(key, idents[|idents| - 1], o[idents[|idents| - 1]], n[idents[|idents| - 1]])
  }

  lemma {:induction false} SortedIdentsElements(s: set<(string, string)>)
    ensures forall x :: x in SortedIdents(s) <==> x in s
  {
    SortedSetElements(IdentLess, Listing(s));
  }

  lemma {:induction false} IdentsTotal()
    ensures StrictTotal(IdentLess, (x: (string, string)) => true)
  {
    NamesTotal();
    hide NameLess;
    assert forall a: string :: !NameLess(a, a);
    forall a, b: (string, string) | a != b ensures IdentLess(a, b) || IdentLess(b, a) {
      assert a.0 != b.0 ==> NameLess(a.0, b.0) || NameLess(b.0, a.0);
      assert a.1 != b.1 ==> NameLess(a.1, b.1) || NameLess(b.1, a.1);
    }
  }

  lemma {:induction false} SortedIdentsAscending(s: set<(string, string)>)
    ensures Ascending(IdentLess, SortedIdents(s))
  {
    IdentsTotal();
    SortedSetAscending(IdentLess, Listing(s), (x: (string, string)) => true);
  }

  ghost function ParameterRecords(old_: Operation, new_: Operation, key: string): seq<Record> {
    var o, n := ParametersOf(old_), ParametersOf(new_);
    SortedIdentsElements(o.Keys * n.Keys);
    ParameterNotes("PARAMETER_REMOVED", key, SortedIdents(o.Keys - n.Keys))
    + ParameterNotes("PARAMETER_ADDED", key, SortedIdents(n.Keys - o.Keys))
    + SharedParameters(key, o, n, SortedIdents(o.Keys * n.Keys))
  }

  // ------------------------------------------------------------------ bodies and replies

  function StreamingRecords(o: Operation, n: Operation, key: string): seq<Record> {
    var before, after := (o.clientStreaming, o.serverStreaming), (n.clientStreaming, n.serverStreaming);
    Only(o.grpc && n.grpc && before != after, Record("RPC_STREAMING_CHANGED", key, Meta, Cardinality(before, after)))
  }

  /** What a media type belongs to: a body or message the client or the application sends, or a response. */
  datatype Carrier = InRequest(sends: bool) | InResponse(status: string)

  function ContextOf(carrier: Carrier, key: string, media: string): Context {
    match carrier
    case InRequest(sends) => if sends then Context(key, InPayload(media), Response) else Context(key, InBody(media), Request)
    case InResponse(status) => Context(key, InReply(status, media), Response)
  }

  ghost function MediaRecords(carrier: Carrier, key: string, o: map<string, Schema>, n: map<string, Schema>, media: seq<string>): seq<Record>
    requires forall m :: m in media ==> m in o && m in n
  {
    if media == [] then []
    else
      var last := media[|media| - 1];
      MediaRecords(carrier, key, o, n, media[..|media| - 1]) + SchemaRecords(ContextOf(carrier, key, last), o[last], n[last])
  }

  function BodyMediaNotes(key: string, media: seq<string>, added: bool): seq<Record> {
    seq(|media|, i requires 0 <= i < |media| => Record("REQUEST_SCHEMA_CHANGED", key, Request, BodyMedia(media[i], added)))
  }

  ghost function BodyRecords(old_: Operation, new_: Operation, key: string): seq<Record> {
    var sends := if new_.body.Some? then new_.sends else old_.sends;
    if old_.body.None? && new_.body.None? then []
    else if old_.body.None? || new_.body.None?
    then [Record("REQUEST_SCHEMA_CHANGED", key, Request, BodyItself(new_.body.Some?))]
    else
      var o, n := old_.body.value, new_.body.value;
      SortedKeysElements(o.content.Keys * n.content.Keys);
      MediaRecords(InRequest(sends), key, o.content, n.content, SortedKeys(o.content.Keys * n.content.Keys))
      + BodyMediaNotes(key, SortedKeys(o.content.Keys - n.content.Keys), false)
      + BodyMediaNotes(key, SortedKeys(n.content.Keys - o.content.Keys), true)
      + Only(o.required != n.required, Record("REQUEST_SCHEMA_CHANGED", key, Request, BodyRequired(n.required)))
  }

  function ReplyNotes(kind: string, key: string, statuses: seq<string>): seq<Record> {
    seq(|statuses|, i requires 0 <= i < |statuses| => Record(kind, key, Response, ReplyItself(statuses[i])))
  }

  function HeaderNotes(kind: string, key: string, status: string, headers: seq<string>): seq<Record> {
    seq(|headers|, i requires 0 <= i < |headers| => Record(kind, key, Response, ReplyHeader(status, headers[i])))
  }

  function ReplyMediaNotes(key: string, status: string, o: map<string, Schema>, media: seq<string>): seq<Record> {
    seq(|media|, i requires 0 <= i < |media| =>
      Record("RESPONSE_SCHEMA_CHANGED", key, Response, ReplyMedia(status, media[i], media[i] !in o)))
  }

  ghost function SharedReplyRecords(key: string, status: string, o: Reply, n: Reply): seq<Record> {
    SortedKeysElements(o.content.Keys * n.content.Keys);
    HeaderNotes("HEADER_REMOVED", key, status, SortedKeys(o.headers - n.headers))
    + HeaderNotes("HEADER_ADDED", key, status, SortedKeys(n.headers - o.headers))
    + MediaRecords(InResponse(status), key, o.content, n.content, SortedKeys(o.content.Keys * n.content.Keys))
    + ReplyMediaNotes(key, status, o.content, SortedKeys((o.content.Keys - n.content.Keys) + (n.content.Keys - o.content.Keys)))
  }

  ghost function SharedReplies(key: string, o: map<string, Reply>, n: map<string, Reply>, statuses: seq<string>): seq<Record>
    requires forall x :: x in statuses ==> x in o && x in n
  {
    if statuses == [] then []
    else
      var last := statuses[|statuses| - 1];
      SharedReplies(key, o, n, statuses[..|statuses| - 1]) + SharedReplyRecords(key, last, o[last], n[last])
  }

  ghost function ReplyRecords(old_: Operation, new_: Operation, key: string): seq<Record> {
    var o, n := RepliesOf(old_), RepliesOf(new_);
    SortedKeysElements(o.Keys * n.Keys);
    ReplyNotes("RESPONSE_REMOVED", key, SortedKeys(o.Keys - n.Keys))
    + ReplyNotes("RESPONSE_ADDED", key, SortedKeys(n.Keys - o.Keys))
    + SharedReplies(key, o, n, SortedKeys(o.Keys * n.Keys))
  }

  // ------------------------------------------------------------------ security and deprecation

  function InsertName(x: string, xs: seq<string>): seq<string> {
    if xs == [] || !NameLess(xs[0], x) then [x] + xs else [xs[0]] + InsertName(x, xs[1..])
  }

  /** Python's `sorted` on a list: duplicates stay. */
  function SortedWithRepeats(xs: seq<string>): seq<string> {
    if xs == [] then [] else InsertName(xs[0], SortedWithRepeats(xs[1..]))
  }

  /** The schemes an operation asks for, its own or else the service's. */
  function SchemesOf(op: Operation, inherited: seq<string>): seq<string> {
    SortedWithRepeats(if op.security.Some? then op.security.value else inherited)
  }

  function SecurityRecords(o: Operation, n: Operation, key: string, was: seq<string>, now: seq<string>): seq<Record> {
    Only(SchemesOf(o, was) != SchemesOf(n, now), Record("SECURITY_CHANGED", key, Security, Schemes(SchemesOf(o, was), SchemesOf(n, now))))
  }

  function DeprecationRecords(o: Operation, n: Operation, key: string): seq<Record> {
    if !o.deprecated && n.deprecated then [Record("DEPRECATION_ADDED", key, Meta, Deprecation)]
    else if o.deprecated && !n.deprecated then [Record("DEPRECATION_REMOVED", key, Meta, Deprecation)]
    else []
  }

  // ------------------------------------------------------------------ operations and services

  /** `_diff_operation`: nothing but the two revisions and the two inherited security lists. */
  ghost function OperationRecords(o: Operation, n: Operation, was: seq<string>, now: seq<string>): seq<Record> {
    ParameterRecords(o, n, o.key) + StreamingRecords(o, n, o.key) + BodyRecords(o, n, o.key) + ReplyRecords(o, n, o.key)
    + SecurityRecords(o, n, o.key, was, now) + DeprecationRecords(o, n, o.key)
  }

  function WholeRecord(op: Operation, key: string, added: bool): Record {
    Record(if added then (if op.http then "OPERATION_ADDED" else "RPC_ADDED")
           else (if op.http then "OPERATION_REMOVED" else "RPC_REMOVED"), key, Meta, Whole)
  }

  function WholeRecords(ops: map<string, Operation>, keys: seq<string>, added: bool): seq<Record>
    requires forall k :: k in keys ==> k in ops
  {
    seq(|keys|, i requires 0 <= i < |keys| => WholeRecord(ops[keys[i]], keys[i], added))
  }

  ghost function SharedOperations(o: map<string, Operation>, n: map<string, Operation>, was: seq<string>, now: seq<string>,
                                  keys: seq<string>): seq<Record>
    requires forall k :: k in keys ==> k in o && k in n
  {
    if keys == [] then []
    else
      var last := keys[|keys| - 1];
      SharedOperations(o, n, was, now, keys[..|keys| - 1]) + OperationRecords(o[last], n[last], was, now)
  }

  const SERVICE := "(service)"

  function ServiceNotes(old_: Service, new_: Service): seq<Record> {
    Only(old_.version != new_.version, Record("DESCRIPTION_CHANGED", SERVICE, Meta, Version(old_.version, new_.version)))
    + Only(old_.servers != new_.servers, Record("SERVER_CHANGED", SERVICE, Meta, Servers(old_.servers, new_.servers)))
  }

  /** `run`: every record, in order. */
  ghost function ServiceRecords(old_: Service, new_: Service): seq<Record> {
    var o, n := OperationsOf(old_), OperationsOf(new_);
    SortedKeysElements(o.Keys - n.Keys);
    SortedKeysElements(n.Keys - o.Keys);
    SortedKeysElements(o.Keys * n.Keys);
    WholeRecords(o, SortedKeys(o.Keys - n.Keys), false)
    + WholeRecords(n, SortedKeys(n.Keys - o.Keys), true)
    + SharedOperations(o, n, old_.security, new_.security, SortedKeys(o.Keys * n.Keys))
    + ServiceNotes(old_, new_)
  }
}
