/** `diff_services`: both contracts are put in canonical form and then compared, so that rewriting one without changing
    what its schemas canonicalize to reports nothing. */
module ServiceDiff {
  import opened Model
  import opened Ordering
  import opened Canonical
  import opened Diff
  import opened DiffMeaning
  import opened Refactoring
  import opened Changes
  import opened ChangeIds
  import opened Engine

  // ------------------------------------------------------------------ canonical services

  function CanonContent(content: map<string, Schema>): map<string, Schema> {
    map m | m in content :: Canon(content[m])
  }

  function CanonParameter(p: Parameter): Parameter { p.(schema := CanonOpt(p.schema)) }

  function CanonReply(r: Reply): Reply { r.(content := CanonContent(r.content)) }

  function CanonBody(b: Option<Body>): Option<Body> {
    if b.Some? then Some(b.value.(content := CanonContent(b.value.content))) else None
  }

  /** `_canonical_operation`. */
  function CanonOperation(op: Operation): Operation {
    op.(parameters := seq(|op.parameters|, i requires 0 <= i < |op.parameters| => CanonParameter(op.parameters[i])),
        body := CanonBody(op.body),
        replies := seq(|op.replies|, i requires 0 <= i < |op.replies| => CanonReply(op.replies[i])))
  }

  /** `canonicalize_service`. */
  function CanonService(s: Service): Service {
    s.(operations := seq(|s.operations|, i requires 0 <= i < |s.operations| => CanonOperation(s.operations[i])))
  }

  /** `diff_services`. */
  method DiffServices(digest: Digest, old_: Service, new_: Service) returns (changes: seq<Change>)
    ensures changes == Numbered(digest, ServiceRecords(CanonService(old_), CanonService(new_)))
  {
    var engine := new DiffEngine(digest);
    changes := engine.Run(CanonService(old_), CanonService(new_));
  }

  // ------------------------------------------------------------------ a service against itself

  lemma {:induction false} SchemaSelf(c: Context, s: Schema)
    ensures SchemaRecords(c, s, s) == []
  {
    QuietSelf(s);
    SilentIsQuiet(s, s, []);
    hide SchemaEntries, Quiet;
  }

  lemma {:induction false} NoKeys(s: set<string>, idents: set<(string, string)>)
    ensures s == {} ==> SortedKeys(s) == []
    ensures idents == {} ==> SortedIdents(idents) == []
  {
    SortedKeysElements(s);
    SortedIdentsElements(idents);
    if SortedKeys(s) != [] { assert SortedKeys(s)[0] in s; }
    if SortedIdents(idents) != [] { assert SortedIdents(idents)[0] in idents; }
    hide SortedKeys, SortedIdents;
  }

  lemma {:induction false} ParametersSelf(key: string, o: map<(string, string), Parameter>, idents: seq<(string, string)>)
    requires forall x :: x in idents ==> x in o
    ensures SharedParameters(key, o, o, idents) == []
    decreases |idents|
  {
    if idents != [] {
      var ident := idents[|idents| - 1];
      ParametersSelf(key, o, idents[..|idents| - 1]);
      if o[ident].schema.Some? { SchemaSelf(Context(key, InParameter(ident.0), Request), o[ident].schema.value); }
    }
    hide SchemaRecords, SummaryOf;
  }

  lemma {:induction false} MediaSelf(carrier: Carrier, key: string, content: map<string, Schema>, media: seq<string>)
    requires forall m :: m in media ==> m in content
    ensures MediaRecords(carrier, key, content, content, media) == []
    decreases |media|
  {
    hide SchemaRecords, ContextOf;
    if media != [] {
      MediaSelf(carrier, key, content, media[..|media| - 1]);
      SchemaSelf(ContextOf(carrier, key, media[|media| - 1]), content[media[|media| - 1]]);
    }
  }

  lemma {:induction false} SameContent(content: map<string, Schema>)
    ensures SortedKeys(content.Keys - content.Keys) == [] && SortedKeys((content.Keys - content.Keys) + (content.Keys - content.Keys)) == []
    ensures content.Keys * content.Keys == content.Keys && forall m :: m in SortedKeys(content.Keys * content.Keys) ==> m in content
  {
    NoKeys(content.Keys - content.Keys, {});
    SortedKeysElements(content.Keys * content.Keys);
    hide SortedKeys;
    assert (content.Keys - content.Keys) + (content.Keys - content.Keys) == content.Keys - content.Keys;
  }

  lemma {:induction false} ReplySelf(key: string, status: string, r: Reply)
    ensures SharedReplyRecords(key, status, r, r) == []
  {
    NoKeys(r.headers - r.headers, {});
    SameContent(r.content);
    MediaSelf(InResponse(status), key, r.content, SortedKeys(r.content.Keys * r.content.Keys));
    hide MediaRecords, SortedKeys;
  }

  lemma {:induction false} RepliesSelf(key: string, o: map<string, Reply>, statuses: seq<string>)
    requires forall x :: x in statuses ==> x in o
    ensures SharedReplies(key, o, o, statuses) == []
    decreases |statuses|
  {
    hide SharedReplyRecords;
    if statuses != [] {
      RepliesSelf(key, o, statuses[..|statuses| - 1]);
      ReplySelf(key, statuses[|statuses| - 1], o[statuses[|statuses| - 1]]);
    }
  }

  lemma {:induction false} BodySelf(op: Operation, key: string)
    ensures BodyRecords(op, op, key) == []
  {
    if op.body.Some? {
      var content := op.body.value.content;
      SameContent(content);
      MediaSelf(InRequest(op.sends), key, content, SortedKeys(content.Keys * content.Keys));
    }
    hide MediaRecords, SortedKeys;
  }

  lemma {:induction false} OperationSelf(op: Operation, security: seq<string>)
    ensures OperationRecords(op, op, security, security) == []
  {
    ParameterPartSelf(op, op.key);
    ReplyPartSelf(op, op.key);
    BodySelf(op, op.key);
    hide ParameterRecords, ReplyRecords, BodyRecords, SchemesOf;
  }

  lemma {:induction false} ParameterPartSelf(op: Operation, key: string)
    ensures ParameterRecords(op, op, key) == []
  {
    var o := ParametersOf(op);
    NoKeys({}, o.Keys - o.Keys);
    SortedIdentsElements(o.Keys * o.Keys);
    ParametersSelf(key, o, SortedIdents(o.Keys * o.Keys));
    hide SharedParameters, SortedIdents, ParametersOf;
  }

  lemma {:induction false} ReplyPartSelf(op: Operation, key: string)
    ensures ReplyRecords(op, op, key) == []
  {
    var o := RepliesOf(op);
    NoKeys(o.Keys - o.Keys, {});
    SortedKeysElements(o.Keys * o.Keys);
    RepliesSelf(key, o, SortedKeys(o.Keys * o.Keys));
    hide SharedReplies, SortedKeys, RepliesOf;
  }

  lemma {:induction false} OperationsSelf(o: map<string, Operation>, security: seq<string>, keys: seq<string>)
    requires forall k :: k in keys ==> k in o
    ensures SharedOperations(o, o, security, security, keys) == []
    decreases |keys|
  {
    hide OperationRecords;
    if keys != [] {
      OperationsSelf(o, security, keys[..|keys| - 1]);
      OperationSelf(o[keys[|keys| - 1]], security);
    }
  }

  /** Comparing a service with itself reports nothing. */
  lemma {:induction false} ServiceSelf(s: Service)
    ensures ServiceRecords(s, s) == []
  {
    var o := OperationsOf(s);
    NoKeys(o.Keys - o.Keys, {});
    SortedKeysElements(o.Keys * o.Keys);
    OperationsSelf(o, s.security, SortedKeys(o.Keys * o.Keys));
    hide SharedOperations, SortedKeys, OperationsOf;
  }

  // ------------------------------------------------------------------ refactoring a service

  ghost predicate EquivalentOpt(a: Option<Schema>, b: Option<Schema>) {
    a.Some? == b.Some? && (a.Some? ==> Equivalent(a.value, b.value))
  }

  ghost predicate EquivalentContent(a: map<string, Schema>, b: map<string, Schema>) {
    a.Keys == b.Keys && forall m :: m in a ==> Equivalent(a[m], b[m])
  }

  /** The same operation but for how its schemas are written: each was refactored, wherever and however often. */
  ghost predicate Rewritten(a: Operation, b: Operation) {
    && b == a.(parameters := b.parameters, body := b.body, replies := b.replies)
    && |a.parameters| == |b.parameters| && |a.replies| == |b.replies| && a.body.Some? == b.body.Some?
    && (forall i :: 0 <= i < |a.parameters| ==>
          b.parameters[i] == a.parameters[i].(schema := b.parameters[i].schema) && EquivalentOpt(a.parameters[i].schema, b.parameters[i].schema))
    && (a.body.Some? ==> a.body.value.required == b.body.value.required && EquivalentContent(a.body.value.content, b.body.value.content))
    && (forall i :: 0 <= i < |a.replies| ==>
          b.replies[i] == a.replies[i].(content := b.replies[i].content) && EquivalentContent(a.replies[i].content, b.replies[i].content))
  }

  lemma {:induction false} EquivalentParameter(a: Option<Schema>, b: Option<Schema>)
    requires EquivalentOpt(a, b)
    ensures CanonOpt(a) == CanonOpt(b)
  {
    hide Canon, Equivalent;
    if a.Some? { CanonEquivalent(a.value, b.value); }
  }

  lemma {:induction false} EquivalentMedia(a: map<string, Schema>, b: map<string, Schema>)
    requires EquivalentContent(a, b)
    ensures CanonContent(a) == CanonContent(b)
  {
    hide Canon, Equivalent;
    forall m | m in a ensures Canon(a[m]) == Canon(b[m]) { CanonEquivalent(a[m], b[m]); }
  }

  lemma {:induction false} RewrittenCanon(a: Operation, b: Operation)
    requires Rewritten(a, b)
    ensures CanonOperation(a) == CanonOperation(b)
  {
    hide Canon, Equivalent, EquivalentContent, EquivalentOpt;
    var m, n := CanonOperation(a), CanonOperation(b);
    assert m.parameters == n.parameters by {
      forall i | 0 <= i < |a.parameters| ensures m.parameters[i] == n.parameters[i] {
        EquivalentParameter(a.parameters[i].schema, b.parameters[i].schema);
      }
    }
    assert m.replies == n.replies by {
      forall i | 0 <= i < |a.replies| ensures m.replies[i] == n.replies[i] {
        EquivalentMedia(a.replies[i].content, b.replies[i].content);
      }
    }
    if a.body.Some? { EquivalentMedia(a.body.value.content, b.body.value.content); }
    assert m.body == n.body;
  }

  /** Permuting and inlining compositions anywhere in the schemas of a service is silent. */
  lemma {:induction false} RewritingIsSilent(digest: Digest, a: Service, b: Service)
    requires b == a.(operations := b.operations) && |a.operations| == |b.operations|
    requires forall i :: 0 <= i < |a.operations| ==> Rewritten(a.operations[i], b.operations[i])
    ensures Numbered(digest, ServiceRecords(CanonService(a), CanonService(b))) == []
  {
    hide Rewritten, CanonOperation;
    forall i | 0 <= i < |a.operations| ensures CanonOperation(a.operations[i]) == CanonOperation(b.operations[i]) {
      RewrittenCanon(a.operations[i], b.operations[i]);
    }
    assert CanonService(a) == CanonService(b);
    ServiceSelf(CanonService(a));
    hide ServiceRecords;
  }
}
