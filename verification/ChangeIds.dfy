/** Change ids: unique in every run, and local to the operation they belong to. */
module ChangeIds {
  import opened Model
  import opened Ordering
  import opened Text
  import opened Diff
  import opened Changes

  /** A digest of an operation key, in hexadecimal. */
  datatype Digest = Digest(of: string -> string)

  ghost predicate Hexadecimal(d: Digest) {
    forall key :: '-' !in d.of(key)
  }

  /** `_operation_hash`. */
  function HashOf(d: Digest, key: string): string {
    if key == "" then "global" else d.of(key)
  }

  datatype Scope = Scope(kind: string, hash: string)

  function ScopeOf(d: Digest, r: Record): Scope { Scope(r.kind, HashOf(d, r.key)) }

  datatype Change = Change(id: string, record: Record)

  function IdOf(scope: Scope, ordinal: nat): string {
    "CHG-" + scope.kind + "-" + scope.hash + "-" + Decimal(ordinal)
  }

  /** How many of the records are in a scope. */
  function Count(d: Digest, records: seq<Record>, scope: Scope): nat {
    if records == [] then 0
    else Count(d, records[..|records| - 1], scope) + if ScopeOf(d, records[|records| - 1]) == scope then 1 else 0
  }

  /** Each record numbered within its scope. */
  function Numbered(d: Digest, records: seq<Record>): seq<Change> {
    if records == [] then []
    else
      var last := records[|records| - 1];
      Numbered(d, records[..|records| - 1]) + [Change(IdOf(ScopeOf(d, last), Count(d, records, ScopeOf(d, last))), last)]
  }

  lemma {:induction false} NumberedNext(d: Digest, records: seq<Record>, r: Record)
    ensures Count(d, records + [r], ScopeOf(d, r)) == Count(d, records, ScopeOf(d, r)) + 1
    ensures Numbered(d, records + [r]) == Numbered(d, records) + [Change(IdOf(ScopeOf(d, r), Count(d, records, ScopeOf(d, r)) + 1), r)]
    ensures forall scope :: scope != ScopeOf(d, r) ==> Count(d, records + [r], scope) == Count(d, records, scope)
  {
    assert (records + [r])[..|records|] == records;
  }

  // ------------------------------------------------------------------ an id can be read back

  lemma {:induction false} LastDash(a: string, b: string, c: string, e: string)
    requires a + "-" + b == c + "-" + e && '-' !in b && '-' !in e
    ensures a == c && b == e
  {
    var text := a + "-" + b;
    AfterDash(a, b);
    AfterDash(c, e);
    assert text[..|a|] == a && text[..|c|] == c && text[|a| + 1..] == b && text[|c| + 1..] == e;
  }

  lemma {:induction false} AfterDash(a: string, b: string)
    requires '-' !in b
    ensures (a + "-" + b)[|a|] == '-' && forall i :: |a| < i < |a + "-" + b| ==> (a + "-" + b)[i] != '-'
  {
    var text := a + "-" + b;
    forall i | |a| < i < |text| ensures text[i] != '-' { assert text[i] == b[i - |a| - 1] && b[i - |a| - 1] in b; }
  }

  lemma {:induction false} NoDashes(n: nat)
    ensures '-' !in Decimal(n)
  {
    DecimalRoundTrip(n);
    forall i | 0 <= i < |Decimal(n)| ensures Decimal(n)[i] != '-' { assert Digit(Decimal(n)[i]); }
  }

  /** Kind, hash and ordinal can be told from an id. */
  lemma {:induction false} IdsDetermine(s: Scope, m: nat, t: Scope, n: nat)
    requires IdOf(s, m) == IdOf(t, n) && '-' !in s.hash && '-' !in t.hash
    ensures s == t && m == n
  {
    NoDashes(m);
    NoDashes(n);
    assert IdOf(s, m) == ("CHG-" + s.kind + "-" + s.hash) + "-" + Decimal(m);
    assert IdOf(t, n) == ("CHG-" + t.kind + "-" + t.hash) + "-" + Decimal(n);
    hide IdOf, Decimal;
    LastDash("CHG-" + s.kind + "-" + s.hash, Decimal(m), "CHG-" + t.kind + "-" + t.hash, Decimal(n));
    LastDash("CHG-" + s.kind, s.hash, "CHG-" + t.kind, t.hash);
    assert ("CHG-" + s.kind)[4..] == s.kind && ("CHG-" + t.kind)[4..] == t.kind;
    DecimalInjective(m, n);
  }

  // ------------------------------------------------------------------ uniqueness

  lemma {:induction false} NumberedAt(d: Digest, records: seq<Record>, i: nat)
    requires i < |records|
    ensures |Numbered(d, records)| == |records|
    ensures Numbered(d, records)[i] == Change(IdOf(ScopeOf(d, records[i]), Count(d, records[..i + 1], ScopeOf(d, records[i]))), records[i])
    decreases |records|
  {
    var n := |records| - 1;
    if n > 0 { NumberedAt(d, records[..n], if i < n then i else 0); }
    if i < n { assert records[..n][..i + 1] == records[..i + 1]; } else { assert records[..i + 1] == records; }
    hide IdOf;
  }

  /** The records before this one of the same kind, and about an operation with the same digest. */
  function Before(d: Digest, records: seq<Record>, i: nat): set<nat>
    requires i < |records|
  {
    set j: nat | j < i && records[j].kind == records[i].kind && HashOf(d, records[j].key) == HashOf(d, records[i].key)
  }

  function InScope(d: Digest, records: seq<Record>, n: nat, scope: Scope): set<nat>
    requires n <= |records|
  {
    set j: nat | j < n && ScopeOf(d, records[j]) == scope
  }

  lemma {:induction false} CountIs(d: Digest, records: seq<Record>, n: nat, scope: Scope)
    requires n <= |records|
    ensures Count(d, records[..n], scope) == |InScope(d, records, n, scope)|
  {
    hide ScopeOf;
    if n > 0 {
      CountIs(d, records, n - 1, scope);
      assert records[..n][..n - 1] == records[..n - 1];
      var front := InScope(d, records, n - 1, scope);
      assert n - 1 !in front;
      assert InScope(d, records, n, scope) == if ScopeOf(d, records[n - 1]) == scope then front + {n - 1} else front;
      hide InScope;
    }
  }

  /** An id says the kind, the digest of the operation, and one more than the number of such records before. */
  lemma {:induction false} IdsExactly(d: Digest, records: seq<Record>, i: nat)
    requires i < |records|
    ensures |Numbered(d, records)| == |records| && Numbered(d, records)[i].record == records[i]
    ensures
      var hash := if records[i].key == "" then "global" else d.of(records[i].key);
      Numbered(d, records)[i].id == "CHG-" + records[i].kind + "-" + hash + "-" + Decimal(1 + |Before(d, records, i)|)
  {
    NumberedAt(d, records, i);
    var scope := ScopeOf(d, records[i]);
    CountIs(d, records, i, scope);
    assert records[..i + 1][..i] == records[..i];
    assert Before(d, records, i) == InScope(d, records, i, scope);
    hide Numbered;
  }

  lemma {:induction false} CountGrows(d: Digest, records: seq<Record>, i: nat, j: nat, scope: Scope)
    requires i < j <= |records| && ScopeOf(d, records[j - 1]) == scope
    ensures Count(d, records[..i], scope) < Count(d, records[..j], scope)
  {
    assert records[..j][..j - 1] == records[..j - 1];
    CountMonotone(d, records, i, j - 1, scope);
  }

  lemma {:induction false} CountMonotone(d: Digest, records: seq<Record>, i: nat, j: nat, scope: Scope)
    requires i <= j <= |records|
    ensures Count(d, records[..i], scope) <= Count(d, records[..j], scope)
    decreases j
  {
    if i < j {
      assert records[..j][..j - 1] == records[..j - 1];
      CountMonotone(d, records, i, j - 1, scope);
    }
  }

  /** No two changes of a run have the same id, even where two operations have the same digest. */
  lemma {:induction false} IdsUnique(d: Digest, records: seq<Record>, i: nat, j: nat)
    requires Hexadecimal(d) && i < j < |records|
    ensures |Numbered(d, records)| == |records| && Numbered(d, records)[i].id != Numbered(d, records)[j].id
  {
    NumberedAt(d, records, i);
    NumberedAt(d, records, j);
    var s, t := ScopeOf(d, records[i]), ScopeOf(d, records[j]);
    var m, n := Count(d, records[..i + 1], s), Count(d, records[..j + 1], t);
    if IdOf(s, m) == IdOf(t, n) {
      IdsDetermine(s, m, t, n);
      CountGrows(d, records, i + 1, j + 1, s);
    }
    hide IdOf, Numbered;
  }

  // ------------------------------------------------------------------ locality

  function RecordsFor(records: seq<Record>, key: string): seq<Record> {
    if records == [] then []
    else RecordsFor(records[..|records| - 1], key) + if records[|records| - 1].key == key then [records[|records| - 1]] else []
  }

  function ChangesFor(changes: seq<Change>, key: string): seq<Change> {
    if changes == [] then []
    else ChangesFor(changes[..|changes| - 1], key) + if changes[|changes| - 1].record.key == key then [changes[|changes| - 1]] else []
  }

  /** No other operation among the records has this one's digest. */
  ghost predicate OwnDigest(d: Digest, records: seq<Record>, key: string) {
    forall i :: 0 <= i < |records| && HashOf(d, records[i].key) == HashOf(d, key) ==> records[i].key == key
  }

  lemma {:induction false} OwnFront(d: Digest, records: seq<Record>, key: string)
    requires OwnDigest(d, records, key) && records != []
    ensures OwnDigest(d, records[..|records| - 1], key)
    ensures HashOf(d, records[|records| - 1].key) == HashOf(d, key) ==> records[|records| - 1].key == key
  {
    hide HashOf;
    assert forall i :: 0 <= i < |records| - 1 ==> records[..|records| - 1][i] == records[i];
  }

  lemma {:induction false} OwnCount(d: Digest, records: seq<Record>, key: string, kind: string)
    requires OwnDigest(d, records, key)
    ensures Count(d, records, Scope(kind, HashOf(d, key))) == Count(d, RecordsFor(records, key), Scope(kind, HashOf(d, key)))
    decreases |records|
  {
    hide OwnDigest, HashOf;
    if records != [] {
      var front, last := records[..|records| - 1], records[|records| - 1];
      OwnFront(d, records, key);
      OwnCount(d, front, key, kind);
      if last.key == key {
        assert (RecordsFor(front, key) + [last])[..|RecordsFor(front, key)|] == RecordsFor(front, key);
      } else {
        assert RecordsFor(records, key) == RecordsFor(front, key);
      }
    }
  }

  /** An operation's changes, ids included, are those it would have on its own. */
  lemma {:induction false} NumberedLocally(d: Digest, records: seq<Record>, key: string)
    requires OwnDigest(d, records, key)
    ensures ChangesFor(Numbered(d, records), key) == Numbered(d, RecordsFor(records, key))
    decreases |records|
  {
    hide OwnDigest, IdOf, HashOf;
    if records != [] {
      var front, last := records[..|records| - 1], records[|records| - 1];
      OwnFront(d, records, key);
      NumberedLocally(d, front, key);
      NumberedNext(d, front, last);
      assert front + [last] == records;
      var numbered := Numbered(d, records);
      assert numbered[..|numbered| - 1] == Numbered(d, front);
      if last.key == key {
        OwnCount(d, front, key, last.kind);
        NumberedNext(d, RecordsFor(front, key), last);
      } else {
        assert RecordsFor(records, key) == RecordsFor(front, key);
        assert ChangesFor(numbered, key) == ChangesFor(Numbered(d, front), key);
      }
    }
  }

  lemma {:induction false} RecordsForConcat(a: seq<Record>, b: seq<Record>, key: string)
    ensures RecordsFor(a + b, key) == RecordsFor(a, key) + RecordsFor(b, key)
    decreases |b|
  {
    if b == [] {
      assert a + b == a;
    } else {
      assert (a + b)[..|a + b| - 1] == a + b[..|b| - 1];
      RecordsForConcat(a, b[..|b| - 1], key);
    }
  }

  lemma {:induction false} AllFor(records: seq<Record>, key: string)
    requires forall i :: 0 <= i < |records| ==> records[i].key == key
    ensures RecordsFor(records, key) == records
    decreases |records|
  {
    if records != [] {
      AllFor(records[..|records| - 1], key);
      assert records == records[..|records| - 1] + [records[|records| - 1]];
    }
  }

  lemma {:induction false} NoneFor(records: seq<Record>, key: string)
    requires forall i :: 0 <= i < |records| ==> records[i].key != key
    ensures RecordsFor(records, key) == []
    decreases |records|
  {
    if records != [] { NoneFor(records[..|records| - 1], key); }
  }

  ghost predicate Keyed(records: seq<Record>, key: string) {
    forall i :: 0 <= i < |records| ==> records[i].key == key
  }

  lemma {:induction false} SharedParametersKeyed(key: string, o: map<(string, string), Parameter>, n: map<(string, string), Parameter>, idents: seq<(string, string)>)
    requires forall x :: x in idents ==> x in o && x in n
    ensures Keyed(SharedParameters(key, o, n, idents), key)
    decreases |idents|
  {
    hide Keyed, SharedParameterRecords;
    if idents == [] {
      NothingKeyed(key);
    } else {
      var front, last := idents[..|idents| - 1], idents[|idents| - 1];
      SharedParametersKeyed(key, o, n, front);
      ParameterKeyed(key, last, o[last], n[last]);
      KeyedConcat(SharedParameters(key, o, n, front), SharedParameterRecords(key, last, o[last], n[last]), key);
    }
  }

  lemma {:induction false} NothingKeyed(key: string)
    ensures Keyed([], key)
  {
  }

  lemma {:induction false} ParameterKeyed(key: string, ident: (string, string), o: Parameter, n: Parameter)
    ensures Keyed(SharedParameterRecords(key, ident, o, n), key)
  {
    hide SchemaEntries, SummaryOf;
  }

  lemma {:induction false} MediaKeyed(carrier: Carrier, key: string, o: map<string, Schema>, n: map<string, Schema>, media: seq<string>)
    requires forall m :: m in media ==> m in o && m in n
    ensures Keyed(MediaRecords(carrier, key, o, n, media), key)
    decreases |media|
  {
    hide *;
    if media == [] {
      NoMedia(carrier, key, o, n);
    } else {
      var front, last := media[..|media| - 1], media[|media| - 1];
      MediaStep(carrier, key, o, n, media);
      MediaKeyed(carrier, key, o, n, front);
      SchemaKeyed(ContextOf(carrier, key, last), o[last], n[last]);
      ContextKeyed(carrier, key, last);
      KeyedConcat(MediaRecords(carrier, key, o, n, front), SchemaRecords(ContextOf(carrier, key, last), o[last], n[last]), key);
    }
  }

  lemma {:induction false} NoMedia(carrier: Carrier, key: string, o: map<string, Schema>, n: map<string, Schema>)
    ensures Keyed(MediaRecords(carrier, key, o, n, []), key)
  {
  }

  lemma {:induction false} ContextKeyed(carrier: Carrier, key: string, media: string)
    ensures ContextOf(carrier, key, media).key == key
  {
  }

  lemma {:induction false} MediaStep(carrier: Carrier, key: string, o: map<string, Schema>, n: map<string, Schema>, media: seq<string>)
    requires (forall m :: m in media ==> m in o && m in n) && media != []
    ensures
      var front, last := media[..|media| - 1], media[|media| - 1];
      && (forall m :: m in front ==> m in o && m in n)
      && MediaRecords(carrier, key, o, n, media) == MediaRecords(carrier, key, o, n, front) + SchemaRecords(ContextOf(carrier, key, last), o[last], n[last])
  {
    hide SchemaRecords, ContextOf;
  }

  lemma {:induction false} SchemaKeyed(c: Context, prev: Schema, next: Schema)
    ensures Keyed(SchemaRecords(c, prev, next), c.key)
  {
    hide SchemaEntries;
  }

  lemma {:induction false} KeyedConcat(a: seq<Record>, b: seq<Record>, key: string)
    requires Keyed(a, key) && Keyed(b, key)
    ensures Keyed(a + b, key)
  {
  }

  lemma {:induction false} SharedReplyKeyed(key: string, status: string, o: Reply, n: Reply)
    ensures Keyed(SharedReplyRecords(key, status, o, n), key)
  {
    hide MediaRecords, SortedKeys;
    var both := o.content.Keys * n.content.Keys;
    SortedKeysElements(both);
    MediaKeyed(InResponse(status), key, o.content, n.content, SortedKeys(both));
    var gone, added := HeaderNotes("HEADER_REMOVED", key, status, SortedKeys(o.headers - n.headers)),
                       HeaderNotes("HEADER_ADDED", key, status, SortedKeys(n.headers - o.headers));
    var media := MediaRecords(InResponse(status), key, o.content, n.content, SortedKeys(both));
    var types := ReplyMediaNotes(key, status, o.content, SortedKeys((o.content.Keys - n.content.Keys) + (n.content.Keys - o.content.Keys)));
    assert Keyed(gone, key) && Keyed(added, key) && Keyed(types, key);
    hide Keyed, HeaderNotes, ReplyMediaNotes;
    KeyedConcat(gone, added, key);
    KeyedConcat(gone + added, media, key);
    KeyedConcat(gone + added + media, types, key);
  }

  lemma {:induction false} SharedRepliesKeyed(key: string, o: map<string, Reply>, n: map<string, Reply>, statuses: seq<string>)
    requires forall x :: x in statuses ==> x in o && x in n
    ensures Keyed(SharedReplies(key, o, n, statuses), key)
    decreases |statuses|
  {
    if statuses != [] {
      var last := statuses[|statuses| - 1];
      SharedRepliesKeyed(key, o, n, statuses[..|statuses| - 1]);
      SharedReplyKeyed(key, last, o[last], n[last]);
    }
    hide SharedReplyRecords;
  }

  lemma {:induction false} PayloadsKeyed(o: Operation, n: Operation, key: string)
    ensures Keyed(BodyRecords(o, n, key), key)
  {
    hide MediaRecords, SortedKeys;
    if o.body.Some? && n.body.Some? {
      var a, b := o.body.value.content, n.body.value.content;
      SortedKeysElements(a.Keys * b.Keys);
      var shared := MediaRecords(InRequest(n.sends), key, a, b, SortedKeys(a.Keys * b.Keys));
      MediaKeyed(InRequest(n.sends), key, a, b, SortedKeys(a.Keys * b.Keys));
      var gone, added := BodyMediaNotes(key, SortedKeys(a.Keys - b.Keys), false), BodyMediaNotes(key, SortedKeys(b.Keys - a.Keys), true);
      var required := Only(o.body.value.required != n.body.value.required, Record("REQUEST_SCHEMA_CHANGED", key, Request, BodyRequired(n.body.value.required)));
      assert Keyed(gone, key) && Keyed(added, key) && Keyed(required, key);
      hide Keyed, BodyMediaNotes, Only;
      KeyedConcat(shared, gone, key);
      KeyedConcat(shared + gone, added, key);
      KeyedConcat(shared + gone + added, required, key);
    }
  }

  lemma {:induction false} ParametersKeyed(o: Operation, n: Operation, key: string)
    ensures Keyed(ParameterRecords(o, n, key), key)
  {
    hide SharedParameters, SortedIdents, ParametersOf;
    SortedIdentsElements(ParametersOf(o).Keys * ParametersOf(n).Keys);
    SharedParametersKeyed(key, ParametersOf(o), ParametersOf(n), SortedIdents(ParametersOf(o).Keys * ParametersOf(n).Keys));
  }

  lemma {:induction false} RepliesKeyed(o: Operation, n: Operation, key: string)
    ensures Keyed(ReplyRecords(o, n, key), key)
  {
    hide SharedReplies, SortedKeys, RepliesOf;
    SortedKeysElements(RepliesOf(o).Keys * RepliesOf(n).Keys);
    SharedRepliesKeyed(key, RepliesOf(o), RepliesOf(n), SortedKeys(RepliesOf(o).Keys * RepliesOf(n).Keys));
  }

  /** Everything an operation's comparison reports carries its key. */
  lemma {:induction false} OperationKeyed(o: Operation, n: Operation, was: seq<string>, now: seq<string>)
    ensures Keyed(OperationRecords(o, n, was, now), o.key)
  {
    ParametersKeyed(o, n, o.key);
    RepliesKeyed(o, n, o.key);
    PayloadsKeyed(o, n, o.key);
    hide ParameterRecords, BodyRecords, ReplyRecords, SchemesOf;
  }

  lemma {:induction false} IndexKeyed(ops: seq<Operation>, key: string)
    requires key in Index((op: Operation) => op.key, ops)
    ensures Index((op: Operation) => op.key, ops)[key].key == key
    decreases |ops|
  {
    if ops[|ops| - 1].key != key { IndexKeyed(ops[..|ops| - 1], key); }
  }

  lemma {:induction false} SharedFor(o: map<string, Operation>, n: map<string, Operation>, was: seq<string>, now: seq<string>, keys: seq<string>, key: string)
    requires (forall k :: k in keys ==> k in o && k in n) && forall k :: k in o ==> o[k].key == k
    requires forall i, j :: 0 <= i < j < |keys| ==> keys[i] != keys[j]
    ensures RecordsFor(SharedOperations(o, n, was, now, keys), key) == if key in keys then OperationRecords(o[key], n[key], was, now) else []
    decreases |keys|
  {
    hide *;
    if keys == [] {
      NoOperations(o, n, was, now, key);
    } else {
      var front, last := keys[..|keys| - 1], keys[|keys| - 1];
      SharedStep(o, n, was, now, keys);
      SharedFor(o, n, was, now, front, key);
      var own := OperationRecords(o[last], n[last], was, now);
      OperationFor(o[last], n[last], was, now, key);
      RecordsForConcat(SharedOperations(o, n, was, now, front), own, key);
      assert keys == front + [last];
    }
  }

  lemma {:induction false} NoOperations(o: map<string, Operation>, n: map<string, Operation>, was: seq<string>, now: seq<string>, key: string)
    ensures RecordsFor(SharedOperations(o, n, was, now, []), key) == []
  {
  }

  lemma {:induction false} SharedStep(o: map<string, Operation>, n: map<string, Operation>, was: seq<string>, now: seq<string>, keys: seq<string>)
    requires (forall k :: k in keys ==> k in o && k in n) && keys != []
    ensures
      var front, last := keys[..|keys| - 1], keys[|keys| - 1];
      && (forall k :: k in front ==> k in o && k in n)
      && SharedOperations(o, n, was, now, keys) == SharedOperations(o, n, was, now, front) + OperationRecords(o[last], n[last], was, now)
  {
    hide OperationRecords;
  }

  lemma {:induction false} OperationFor(o: Operation, n: Operation, was: seq<string>, now: seq<string>, key: string)
    ensures RecordsFor(OperationRecords(o, n, was, now), key) == if o.key == key then OperationRecords(o, n, was, now) else []
  {
    OperationKeyed(o, n, was, now);
    if o.key == key { AllFor(OperationRecords(o, n, was, now), key); } else { NoneFor(OperationRecords(o, n, was, now), key); }
    hide OperationRecords;
  }

  /** What a run reports about an operation both services have is the comparison of its two revisions. */
  lemma {:induction false} ServiceFor(old_: Service, new_: Service, key: string)
    requires key in OperationsOf(old_) && key in OperationsOf(new_) && key != SERVICE
    ensures RecordsFor(ServiceRecords(old_, new_), key) ==
      OperationRecords(OperationsOf(old_)[key], OperationsOf(new_)[key], old_.security, new_.security)
  {
    hide *;
    var o, n := OperationsOf(old_), OperationsOf(new_);
    var gone, added, both := SortedKeys(o.Keys - n.Keys), SortedKeys(n.Keys - o.Keys), SortedKeys(o.Keys * n.Keys);
    SortedKeysElements(o.Keys - n.Keys);
    SortedKeysElements(n.Keys - o.Keys);
    SortedKeysElements(o.Keys * n.Keys);
    forall k | k in o ensures o[k].key == k { IndexedByKey(old_, k); }
    var a, b, c, e := WholeRecords(o, gone, false), WholeRecords(n, added, true),
      SharedOperations(o, n, old_.security, new_.security, both), ServiceNotes(old_, new_);
    WholeFor(o, gone, false, key);
    WholeFor(n, added, true, key);
    SharedFor(o, n, old_.security, new_.security, both, key);
    NotesFor(old_, new_, key);
    RecordsForConcat(a, b, key);
    RecordsForConcat(a + b, c, key);
    RecordsForConcat(a + b + c, e, key);
    ServicePieces(old_, new_);
  }

  lemma {:induction false} IndexedByKey(s: Service, key: string)
    requires key in OperationsOf(s)
    ensures OperationsOf(s)[key].key == key
  {
    IndexKeyed(s.operations, key);
  }

  lemma {:induction false} WholeFor(ops: map<string, Operation>, keys: seq<string>, added: bool, key: string)
    requires (forall k :: k in keys ==> k in ops) && key !in keys
    ensures RecordsFor(WholeRecords(ops, keys, added), key) == []
  {
    var records := WholeRecords(ops, keys, added);
    forall i | 0 <= i < |records| ensures records[i].key != key { assert keys[i] in keys; }
    NoneFor(records, key);
  }

  lemma {:induction false} NotesFor(old_: Service, new_: Service, key: string)
    requires key != SERVICE
    ensures RecordsFor(ServiceNotes(old_, new_), key) == []
  {
    NoneFor(ServiceNotes(old_, new_), key);
  }

  lemma {:induction false} ServicePieces(old_: Service, new_: Service)
    ensures
      var o, n := OperationsOf(old_), OperationsOf(new_);
      var gone, added, both := SortedKeys(o.Keys - n.Keys), SortedKeys(n.Keys - o.Keys), SortedKeys(o.Keys * n.Keys);
      && (forall k :: k in gone ==> k in o) && (forall k :: k in added ==> k in n) && (forall k :: k in both ==> k in o && k in n)
      && ServiceRecords(old_, new_) ==
           WholeRecords(o, gone, false) + WholeRecords(n, added, true)
           + SharedOperations(o, n, old_.security, new_.security, both) + ServiceNotes(old_, new_)
  {
    var o, n := OperationsOf(old_), OperationsOf(new_);
    hide WholeRecords, SharedOperations, ServiceNotes, SortedKeys, OperationsOf;
    SortedKeysElements(o.Keys - n.Keys);
    SortedKeysElements(n.Keys - o.Keys);
    SortedKeysElements(o.Keys * n.Keys);
  }

  /** The changes of an operation, and their ids, depend on its two revisions and the services' security lists alone:
      whatever else differs between two runs, nothing of it is renumbered. */
  lemma {:induction false} IdsLocal(d: Digest, old_: Service, new_: Service, oldAgain: Service, newAgain: Service, key: string)
    requires key in OperationsOf(old_) && key in OperationsOf(new_) && key in OperationsOf(oldAgain) && key in OperationsOf(newAgain)
    requires OperationsOf(old_)[key] == OperationsOf(oldAgain)[key] && OperationsOf(new_)[key] == OperationsOf(newAgain)[key]
    requires old_.security == oldAgain.security && new_.security == newAgain.security && key != SERVICE
    requires OwnDigest(d, ServiceRecords(old_, new_), key) && OwnDigest(d, ServiceRecords(oldAgain, newAgain), key)
    ensures ChangesFor(Numbered(d, ServiceRecords(old_, new_)), key) == ChangesFor(Numbered(d, ServiceRecords(oldAgain, newAgain)), key)
  {
    NumberedLocally(d, ServiceRecords(old_, new_), key);
    NumberedLocally(d, ServiceRecords(oldAgain, newAgain), key);
    ServiceFor(old_, new_, key);
    ServiceFor(oldAgain, newAgain, key);
    hide *;
  }

  // ------------------------------------------------------------------ the order of lists

  /** Distinct keys. */
  predicate UniqueKeys<K(==), V>(key: V -> K, xs: seq<V>) {
    forall i, j :: 0 <= i < j < |xs| ==> key(xs[i]) != key(xs[j])
  }

  lemma {:induction false} IndexMeans<K, V>(key: V -> K, xs: seq<V>)
    requires UniqueKeys(key, xs)
    ensures forall k :: k in Index(key, xs) <==> exists i :: 0 <= i < |xs| && key(xs[i]) == k
    ensures forall i :: 0 <= i < |xs| ==> key(xs[i]) in Index(key, xs) && Index(key, xs)[key(xs[i])] == xs[i]
    decreases |xs|
  {
    if xs != [] { IndexMeans(key, xs[..|xs| - 1]); }
  }

  /** With distinct keys, the order of a list does not show in its index. */
  lemma {:induction false} IndexPermuted<K(!new), V>(key: V -> K, xs: seq<V>, ys: seq<V>)
    requires multiset(xs) == multiset(ys) && UniqueKeys(key, xs) && UniqueKeys(key, ys)
    ensures Index(key, xs) == Index(key, ys)
  {
    IndexMeans(key, xs);
    IndexMeans(key, ys);
    var m, n := Index(key, xs), Index(key, ys);
    forall k ensures (k in m <==> k in n) && (k in m && k in n ==> m[k] == n[k]) {
      if k in m {
        var i :| 0 <= i < |xs| && key(xs[i]) == k;
        assert xs[i] in multiset(ys);
        var j :| 0 <= j < |ys| && ys[j] == xs[i];
      }
      if k in n {
        var j :| 0 <= j < |ys| && key(ys[j]) == k;
        assert ys[j] in multiset(xs);
        var i :| 0 <= i < |xs| && xs[i] == ys[j];
      }
    }
    assert m.Keys == n.Keys;
    hide Index, UniqueKeys;
  }

  /** Reordering the operations of either service changes nothing in the run. */
  lemma {:induction false} OperationOrderIrrelevant(d: Digest, old_: Service, new_: Service, a: seq<Operation>, b: seq<Operation>)
    requires multiset(a) == multiset(old_.operations) && multiset(b) == multiset(new_.operations)
    requires UniqueKeys((op: Operation) => op.key, a) && UniqueKeys((op: Operation) => op.key, old_.operations)
    requires UniqueKeys((op: Operation) => op.key, b) && UniqueKeys((op: Operation) => op.key, new_.operations)
    ensures Numbered(d, ServiceRecords(old_.(operations := a), new_.(operations := b))) == Numbered(d, ServiceRecords(old_, new_))
  {
    IndexPermuted((op: Operation) => op.key, a, old_.operations);
    IndexPermuted((op: Operation) => op.key, b, new_.operations);
    hide Index, SharedOperations, WholeRecords, SortedKeys;
  }

  /** The same operation with its parameters and responses in another order. */
  predicate PartsReordered(a: Operation, b: Operation) {
    && b == a.(parameters := b.parameters, replies := b.replies)
    && multiset(b.parameters) == multiset(a.parameters) && UniqueKeys(Ident, b.parameters) && UniqueKeys(Ident, a.parameters)
    && multiset(b.replies) == multiset(a.replies)
    && UniqueKeys((r: Reply) => r.status, b.replies) && UniqueKeys((r: Reply) => r.status, a.replies)
  }

  lemma {:induction false} SameParts(a: Operation, b: Operation)
    requires PartsReordered(a, b)
    ensures ParametersOf(b) == ParametersOf(a) && RepliesOf(b) == RepliesOf(a)
  {
    IndexPermuted(Ident, b.parameters, a.parameters);
    IndexPermuted((r: Reply) => r.status, b.replies, a.replies);
  }

  /** Reordering the parameters or the responses of an operation, in either revision, changes nothing in its comparison. */
  lemma {:induction false} PartOrderIrrelevant(o: Operation, n: Operation, o': Operation, n': Operation, was: seq<string>, now: seq<string>)
    requires PartsReordered(o, o') && PartsReordered(n, n')
    ensures OperationRecords(o', n', was, now) == OperationRecords(o, n, was, now)
  {
    SameParts(o, o');
    SameParts(n, n');
    assert o'.key == o.key;
    hide ParametersOf, RepliesOf, UniqueKeys, ParameterRecords, ReplyRecords, BodyRecords, StreamingRecords, SecurityRecords, DeprecationRecords;
    SameParameterRecords(o, n, o', n');
    SameReplyRecords(o, n, o', n');
    SameBodyRecords(o, n, o', n');
    SameOtherRecords(o, n, o', n', was, now);
  }

  lemma {:induction false} SameOtherRecords(o: Operation, n: Operation, o': Operation, n': Operation, was: seq<string>, now: seq<string>)
    requires o' == o.(parameters := o'.parameters, replies := o'.replies) && n' == n.(parameters := n'.parameters, replies := n'.replies)
    ensures StreamingRecords(o', n', o.key) == StreamingRecords(o, n, o.key)
    ensures SecurityRecords(o', n', o.key, was, now) == SecurityRecords(o, n, o.key, was, now)
    ensures DeprecationRecords(o', n', o.key) == DeprecationRecords(o, n, o.key)
  {
    hide SortedWithRepeats;
  }

  lemma {:induction false} SameParameterRecords(o: Operation, n: Operation, o': Operation, n': Operation)
    requires ParametersOf(o') == ParametersOf(o) && ParametersOf(n') == ParametersOf(n)
    ensures ParameterRecords(o', n', o.key) == ParameterRecords(o, n, o.key)
  {
    hide ParametersOf, SharedParameters, SortedIdents;
  }

  lemma {:induction false} SameReplyRecords(o: Operation, n: Operation, o': Operation, n': Operation)
    requires RepliesOf(o') == RepliesOf(o) && RepliesOf(n') == RepliesOf(n)
    ensures ReplyRecords(o', n', o.key) == ReplyRecords(o, n, o.key)
  {
    hide RepliesOf, SharedReplies, SortedKeys;
  }

  lemma {:induction false} SameBodyRecords(o: Operation, n: Operation, o': Operation, n': Operation)
    requires o'.body == o.body && o'.sends == o.sends && n'.body == n.body && n'.sends == n.sends
    ensures BodyRecords(o', n', o.key) == BodyRecords(o, n, o.key)
  {
    hide MediaRecords, SortedKeys;
  }
}
