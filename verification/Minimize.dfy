/** `minimize_case`: optional fields are removed one at a time while the request still fails. The request and the check
    of its response are one deterministic predicate on the body. */
module Minimize {
  import opened Model
  import opened Ordering

  type Body = map<string, Value>

  /** `result` is part of `body` and keeps its required fields. */
  predicate Shrunk(body: Body, result: Body, required: set<string>) {
    && (forall k :: k in result ==> k in body && result[k] == body[k])
    && (forall k :: k in body && k in required ==> k in result)
  }

  /** No further optional field can be removed. */
  predicate OneMinimal(fails: Body -> bool, body: Body, required: set<string>) {
    forall k :: k in body && k !in required ==> !fails(body - {k})
  }

  function Optional(body: Body, required: set<string>): set<string> { body.Keys - required }

  function Triangle(n: int): int { n * (n + 1) / 2 }

  lemma {:induction false} TriangleStep(n: nat)
    ensures n >= 1 ==> Triangle(n) == Triangle(n - 1) + n
    ensures 0 <= n <= Triangle(n)
  {
    assert n * (n + 1) == (n - 1) * n + 2 * n;
  }

  /** Whether the shrunken body still fails, and how many requests it took to find it. */
  method MinimizeBody(fails: Body -> bool, original: Body, required: set<string>) returns (body: Body, probes: nat)
    ensures Shrunk(original, body, required)
    ensures body == original || fails(body)
    ensures OneMinimal(fails, body, required)
    ensures probes <= Triangle(|Optional(original, required)|)
  {
    body, probes := original, 0;
    var changed := true;
    ghost var n := |Optional(original, required)|;
    ShrunkSelf(original, required);
    hide Shrunk, OneMinimal, Optional, Triangle;
    while changed
      invariant Shrunk(original, body, required) && (body == original || fails(body))
      invariant changed ==> probes + Triangle(|Optional(body, required)|) <= Triangle(n)
      invariant !changed ==> probes <= Triangle(n) && OneMinimal(fails, body, required)
      decreases |Optional(body, required)|, changed
    {
      TriangleStep(|Optional(body, required)|);
      var smaller, tried := RemoveOne(fails, body, required);
      probes := probes + tried;
      changed := smaller.Some?;
      if smaller.Some? {
        ShrunkFurther(original, body, smaller.value, required);
        body := smaller.value;
      }
    }
  }

  lemma {:induction false} ShrunkSelf(body: Body, required: set<string>)
    ensures Shrunk(body, body, required)
  {
  }

  lemma {:induction false} ShrunkFurther(original: Body, body: Body, smaller: Body, required: set<string>)
    requires Shrunk(original, body, required) && Shrunk(body, smaller, required)
    ensures Shrunk(original, smaller, required)
  {
  }

  /** One pass over the fields in order: the first removal that still fails, if any. */
  method RemoveOne(fails: Body -> bool, body: Body, required: set<string>) returns (smaller: Option<Body>, tried: nat)
    ensures tried <= |Optional(body, required)|
    ensures smaller.None? ==> OneMinimal(fails, body, required)
    ensures smaller.Some? ==>
      && fails(smaller.value) && Shrunk(body, smaller.value, required)
      && |Optional(smaller.value, required)| == |Optional(body, required)| - 1
  {
    tried := 0;
    var names := SortKeys(body.Keys);
    ghost var refused: set<string> := {};
    hide *;
    NothingTried(fails, body, names, required);
    for i := 0 to |names|
      invariant refused == Tried(names, i, required) && |refused| == tried
      invariant refused <= Optional(body, required) && AllRefused(fails, body, refused)
    {
      var field := names[i];
      TriedNext(body, names, i, required);
      if field !in required {
        RefusedGrows(fails, body, required, refused, field);
        tried := tried + 1;
        var candidate := body - {field};
        if fails(candidate) {
          OneFewer(body, required, field);
          return Some(candidate), tried;
        }
        refused := refused + {field};
      }
    }
    AllTried(fails, body, names, required);
    smaller := None;
  }

  /** The optional fields among the first `i`. */
  ghost function Tried(names: seq<string>, i: nat, required: set<string>): set<string>
    requires i <= |names|
  {
    set k | k in names[..i] && k !in required
  }

  lemma {:induction false} NothingTried(fails: Body -> bool, body: Body, names: seq<string>, required: set<string>)
    ensures Tried(names, 0, required) == {} && {} <= Optional(body, required) && AllRefused(fails, body, {})
  {
  }

  lemma {:induction false} TriedNext(body: Body, names: seq<string>, i: nat, required: set<string>)
    requires names == SortedKeys(body.Keys) && i < |names|
    ensures names[i] in body && names[i] !in Tried(names, i, required)
    ensures Tried(names, i + 1, required) == Tried(names, i, required) + if names[i] in required then {} else {names[i]}
  {
    SortedKeysElements(body.Keys);
    assert names[i] in names && names[..i + 1] == names[..i] + [names[i]];
    hide SortedKeys;
  }

  predicate AllRefused(fails: Body -> bool, body: Body, refused: set<string>) {
    forall k :: k in refused ==> !fails(body - {k})
  }

  lemma {:induction false} RefusedGrows(fails: Body -> bool, body: Body, required: set<string>, refused: set<string>, field: string)
    requires refused <= Optional(body, required) && field in body && field !in required && field !in refused
    requires AllRefused(fails, body, refused)
    ensures refused + {field} <= Optional(body, required) && |refused + {field}| == |refused| + 1 <= |Optional(body, required)|
    ensures !fails(body - {field}) ==> AllRefused(fails, body, refused + {field})
  {
    SmallerSet(refused + {field}, Optional(body, required));
  }

  lemma {:induction false} AllTried(fails: Body -> bool, body: Body, names: seq<string>, required: set<string>)
    requires names == SortedKeys(body.Keys) && AllRefused(fails, body, Tried(names, |names|, required))
    ensures OneMinimal(fails, body, required) && |Tried(names, |names|, required)| <= |Optional(body, required)|
  {
    SortedKeysElements(body.Keys);
    assert names[..|names|] == names;
    assert Tried(names, |names|, required) == Optional(body, required);
    hide SortedKeys;
  }

  lemma {:induction false} OneFewer(body: Body, required: set<string>, field: string)
    requires field in body && field !in required
    ensures Shrunk(body, body - {field}, required)
    ensures |Optional(body - {field}, required)| == |Optional(body, required)| - 1
  {
    assert Optional(body - {field}, required) == Optional(body, required) - {field};
  }

  lemma {:induction false} SmallerSet(a: set<string>, b: set<string>)
    requires a <= b
    ensures |a| <= |b|
  {
    assert b == a + (b - a);
  }

  /** What is reported: nothing is minimized unless the body is an object; otherwise the shrunken body is sent once more. */
  datatype Report = NotMinimizable | Minimized(body: Body, failing: bool)

  method MinimizeCase(fails: Body -> bool, body: Option<Value>, required: set<string>) returns (report: Report)
    ensures report.NotMinimizable? <==> body.None? || !body.value.Obj?
    ensures report.Minimized? ==>
      && Shrunk(body.value.fields, report.body, required) && OneMinimal(fails, report.body, required)
      && (report.failing <==> fails(report.body)) && (fails(body.value.fields) ==> report.failing)
  {
    if body.None? || !body.value.Obj? { return NotMinimizable; }
    var small, probes := MinimizeBody(fails, body.value.fields, required);
    report := Minimized(small, fails(small));
  }

  // ------------------------------------------------------------------ what one-minimal means

  /** When adding fields to a failing body never cures it, one-minimal is minimal: no proper part that keeps the required
      fields fails. */
  lemma {:induction false} MinimalWhenMonotone(fails: Body -> bool, body: Body, required: set<string>, part: Body)
    requires forall a: Body, b: Body :: fails(a) && (forall k :: k in a ==> k in b && b[k] == a[k]) ==> fails(b)
    requires OneMinimal(fails, body, required) && Shrunk(body, part, required) && part != body
    ensures !fails(part)
  {
    assert exists k :: k in body && k !in part by {
      assert (forall k :: k in body ==> k in part) ==> part == body;
    }
    var k :| k in body && k !in part;
    assert forall j :: j in part ==> j in body - {k} && (body - {k})[j] == part[j];
  }
}
