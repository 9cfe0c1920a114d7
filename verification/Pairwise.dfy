/** `pairwise_parameter_cases`: one random base assignment, then every pair of values not yet covered, then a dedupe.
    A case is the assignment's values in the order of the parameter names. */
module Pairwise {
  import opened Model
  import opened Ordering

  type Case = seq<Value>

  /** The choices at two positions being paired. */
  datatype Visit = Visit(a: nat, b: nat, i: nat, j: nat)

  /** An entry of the `covered` set. Tuples in a Python set are compared with `==`. */
  datatype Pair = Pair(a: nat, b: nat, va: Value, vb: Value)

  datatype State = State(cases: seq<Case>, covered: set<Pair>)

  datatype Outcome = Cases(cases: seq<Case>) | EmptyChoice | Unhashable

  predicate AllHashable(choices: seq<seq<Value>>) {
    forall p :: 0 <= p < |choices| ==> AllScalar(choices[p])
  }

  predicate NoneEmpty(choices: seq<seq<Value>>) {
    forall p :: 0 <= p < |choices| ==> choices[p] != []
  }

  predicate IsDraw(choices: seq<seq<Value>>, base: Case) {
    |base| == |choices| && forall p :: 0 <= p < |base| ==> base[p] in choices[p]
  }

  // ------------------------------------------------------------------ the order of visits

  predicate InRange(choices: seq<seq<Value>>, v: Visit) {
    v.a < v.b < |choices| && v.i < |choices[v.a]| && v.j < |choices[v.b]|
  }

  predicate Before(v: Visit, w: Visit) {
    v.a < w.a || (v.a == w.a && (v.b < w.b || (v.b == w.b && (v.i < w.i || (v.i == w.i && v.j < w.j)))))
  }

  /** All visits, in the order of the four nested loops. */
  ghost predicate Enumerates(choices: seq<seq<Value>>, visits: seq<Visit>) {
    && (forall k, m :: 0 <= k < m < |visits| ==> Before(visits[k], visits[m]))
    && (forall v :: v in visits <==> InRange(choices, v))
  }

  // ------------------------------------------------------------------ one visit

  function KeyOf(choices: seq<seq<Value>>, v: Visit): Pair
    requires InRange(choices, v)
  {
    Pair(v.a, v.b, Norm(choices[v.a][v.i]), Norm(choices[v.b][v.j]))
  }

  function CaseOf(choices: seq<seq<Value>>, base: Case, v: Visit): Case
    requires InRange(choices, v) && |base| == |choices|
  {
    base[v.a := choices[v.a][v.i]][v.b := choices[v.b][v.j]]
  }

  /** What a new case marks besides its own pair: its two values next to every other position's base value. */
  function Marks(choices: seq<seq<Value>>, base: Case, v: Visit): set<Pair>
    requires InRange(choices, v) && |base| == |choices|
  {
    (set q | 0 <= q < |base| && q != v.a && q != v.b :: Pair(v.a, q, Norm(choices[v.a][v.i]), Norm(base[q])))
    + (set q | 0 <= q < |base| && q != v.a && q != v.b :: Pair(v.b, q, Norm(choices[v.b][v.j]), Norm(base[q])))
  }

  function Apply(choices: seq<seq<Value>>, base: Case, st: State, v: Visit): State
    requires InRange(choices, v) && |base| == |choices|
  {
    if KeyOf(choices, v) in st.covered then st
    else State(st.cases + [CaseOf(choices, base, v)], st.covered + Marks(choices, base, v) + {KeyOf(choices, v)})
  }

  predicate AllInRange(choices: seq<seq<Value>>, visits: seq<Visit>) {
    forall k :: 0 <= k < |visits| ==> InRange(choices, visits[k])
  }

  /** The state after a list of visits. */
  function Run(choices: seq<seq<Value>>, base: Case, visits: seq<Visit>): State
    requires AllInRange(choices, visits) && |base| == |choices|
    decreases |visits|
  {
    if visits == [] then State([base], {})
    else Apply(choices, base, Run(choices, base, visits[..|visits| - 1]), visits[|visits| - 1])
  }

  // ------------------------------------------------------------------ the algorithm

  ghost predicate VisitedBefore(choices: seq<seq<Value>>, visits: seq<Visit>, next: Visit) {
    && (forall k, m :: 0 <= k < m < |visits| ==> Before(visits[k], visits[m]))
    && (forall v :: v in visits <==> InRange(choices, v) && Before(v, next))
  }

  lemma {:induction false} VisitNext(choices: seq<seq<Value>>, visits: seq<Visit>, v: Visit)
    requires VisitedBefore(choices, visits, v) && InRange(choices, v)
    ensures VisitedBefore(choices, visits + [v], v.(j := v.j + 1)) && AllInRange(choices, visits + [v])
  {
    forall k | 0 <= k < |visits| ensures Before(visits[k], v) && InRange(choices, visits[k]) { assert visits[k] in visits; }
  }

  lemma {:induction false} SkipTo(choices: seq<seq<Value>>, visits: seq<Visit>, here: Visit, next: Visit)
    requires VisitedBefore(choices, visits, here)
    requires forall v :: InRange(choices, v) ==> (Before(v, here) <==> Before(v, next))
    ensures VisitedBefore(choices, visits, next)
  {
  }

  method Draw(choices: seq<seq<Value>>) returns (base: Option<Case>)
    ensures base.Some? <==> NoneEmpty(choices)
    ensures base.Some? ==> IsDraw(choices, base.value)
  {
    var drawn: Case := [];
    for p := 0 to |choices|
      invariant |drawn| == p && forall q :: 0 <= q < p ==> choices[q] != [] && drawn[q] in choices[q]
    {
      if choices[p] == [] { return None; }
      var i :| 0 <= i < |choices[p]|;
      drawn := drawn + [choices[p][i]];
    }
    base := Some(drawn);
  }

  /** Fewer than two names give one case per value; otherwise the pairs are visited in order. Hashing a list or an
      object fails, wherever it is first met. */
  method PairwiseCases(choices: seq<seq<Value>>) returns (r: Outcome)
    ensures |choices| == 0 ==> r == Cases([])
    ensures |choices| == 1 ==> r == Cases(seq(|choices[0]|, i requires 0 <= i < |choices[0]| => [choices[0][i]]))
    ensures |choices| >= 2 ==> (r.EmptyChoice? <==> !NoneEmpty(choices))
    ensures |choices| >= 2 ==> (r.Unhashable? <==> NoneEmpty(choices) && !AllHashable(choices))
    ensures |choices| >= 2 && r.Cases? ==>
      exists base, visits :: IsDraw(choices, base) && Enumerates(choices, visits) && AllInRange(choices, visits) &&
        r.cases == Dedupe(Run(choices, base, visits).cases)
    ensures |choices| >= 2 && r.Cases? && AllToldApart(choices) ==>
      (exists base :: IsDraw(choices, base) && Neighbourhood(choices, base, r.cases)) && CoversPairs(choices, r.cases)
  {
    if |choices| < 2 {
      return Cases(if |choices| == 0 then [] else seq(|choices[0]|, i requires 0 <= i < |choices[0]| => [choices[0][i]]));
    }
    var drawn := Draw(choices);
    if drawn.None? { return EmptyChoice; }
    if !AllHashable(choices) { return Unhashable; }
    var base := drawn.value;
    var cases, covered := VisitPairs(choices, base);
    var unique := DropRepeats(cases);
    r := Cases(unique);
    ghost var visits :| Enumerates(choices, visits) && AllInRange(choices, visits) && State(cases, covered) == Run(choices, base, visits);
    hide Run, Enumerates, Neighbourhood, CoversPairs, AllToldApart;
    if AllToldApart(choices) { UniqueNear(choices, base, visits); }
  }

  /** The nested loops over pairs of names and pairs of values. */
  method VisitPairs(choices: seq<seq<Value>>, base: Case) returns (cases: seq<Case>, covered: set<Pair>)
    requires |base| == |choices|
    ensures exists visits ::
      Enumerates(choices, visits) && AllInRange(choices, visits) && State(cases, covered) == Run(choices, base, visits)
  {
    ghost var visits: seq<Visit>;
    cases, covered, visits := [base], {}, [];
    hide Run, Apply, Marks;
    assert Run(choices, base, []) == State([base], {}) by { RunStart(choices, base); }
    for a := 0 to |choices|
      invariant VisitedBefore(choices, visits, Visit(a, 0, 0, 0)) && AllInRange(choices, visits) && State(cases, covered) == Run(choices, base, visits)
    {
      SkipTo(choices, visits, Visit(a, 0, 0, 0), Visit(a, a + 1, 0, 0));
      for b := a + 1 to |choices|
        invariant VisitedBefore(choices, visits, Visit(a, b, 0, 0)) && AllInRange(choices, visits) && State(cases, covered) == Run(choices, base, visits)
      {
        for i := 0 to |choices[a]|
          invariant VisitedBefore(choices, visits, Visit(a, b, i, 0)) && AllInRange(choices, visits) && State(cases, covered) == Run(choices, base, visits)
        {
          for j := 0 to |choices[b]|
            invariant VisitedBefore(choices, visits, Visit(a, b, i, j)) && AllInRange(choices, visits) && State(cases, covered) == Run(choices, base, visits)
          {
            var v := Visit(a, b, i, j);
            cases, covered := VisitPair(choices, base, v, cases, covered);
            VisitNext(choices, visits, v);
            RunNext(choices, base, visits, v);
            visits := visits + [v];
          }
          SkipTo(choices, visits, Visit(a, b, i, |choices[b]|), Visit(a, b, i + 1, 0));
        }
        SkipTo(choices, visits, Visit(a, b, |choices[a]|, 0), Visit(a, b + 1, 0, 0));
      }
      SkipTo(choices, visits, Visit(a, |choices|, 0, 0), Visit(a + 1, 0, 0, 0));
    }
    assert Enumerates(choices, visits);
  }

  method VisitPair(choices: seq<seq<Value>>, base: Case, v: Visit, cases: seq<Case>, covered: set<Pair>)
    returns (cases': seq<Case>, covered': set<Pair>)
    requires InRange(choices, v) && |base| == |choices|
    ensures State(cases', covered') == Apply(choices, base, State(cases, covered), v)
  {
    cases', covered' := cases, covered;
    var key := KeyOf(choices, v);
    if key in covered { return; }
    var c := CaseOf(choices, base, v);
    cases' := cases + [c];
    for q := 0 to |base|
      invariant covered' == covered
        + (set k | 0 <= k < q && k != v.a && k != v.b :: Pair(v.a, k, Norm(choices[v.a][v.i]), Norm(base[k])))
        + (set k | 0 <= k < q && k != v.a && k != v.b :: Pair(v.b, k, Norm(choices[v.b][v.j]), Norm(base[k])))
    {
      if q != v.a && q != v.b {
        covered' := covered' + {Pair(v.a, q, Norm(choices[v.a][v.i]), Norm(c[q])), Pair(v.b, q, Norm(choices[v.b][v.j]), Norm(c[q]))};
      }
    }
    covered' := covered' + {key};
  }

  /** Duplicates dropped, first occurrences kept. */
  method DropRepeats(cases: seq<Case>) returns (unique: seq<Case>)
    ensures unique == Dedupe(cases)
  {
    unique := [];
    for k := 0 to |cases|
      invariant unique == Dedupe(cases[..k])
    {
      assert cases[..k + 1][..k] == cases[..k];
      if cases[k] !in unique { unique := unique + [cases[k]]; }
    }
    assert cases[..|cases|] == cases;
  }

  lemma {:induction false} RunStart(choices: seq<seq<Value>>, base: Case)
    requires |base| == |choices|
    ensures Run(choices, base, []) == State([base], {})
  {
  }

  lemma {:induction false} RunNext(choices: seq<seq<Value>>, base: Case, visits: seq<Visit>, v: Visit)
    requires AllInRange(choices, visits) && InRange(choices, v) && |base| == |choices|
    ensures AllInRange(choices, visits + [v])
    ensures Run(choices, base, visits + [v]) == Apply(choices, base, Run(choices, base, visits), v)
  {
    assert (visits + [v])[..|visits|] == visits;
  }

  // ------------------------------------------------------------------ what is covered when

  /** The invariant of the loops: every covered pair was visited, or holds a base value in second place; every case
      is a visited one; every visited pair is covered. */
  lemma {:induction false} RunCovers(choices: seq<seq<Value>>, base: Case, visits: seq<Visit>)
    requires AllInRange(choices, visits) && |base| == |choices|
    ensures forall k :: 0 <= k < |visits| ==> KeyOf(choices, visits[k]) in Run(choices, base, visits).covered
    ensures base in Run(choices, base, visits).cases
    decreases |visits|
  {
    if visits != [] { RunCovers(choices, base, visits[..|visits| - 1]); }
    hide Marks;
  }

  predicate Marked(base: Case, p: Pair) { p.b < |base| && p.vb == Norm(base[p.b]) }

  lemma {:induction false} CoveredWhy(choices: seq<seq<Value>>, base: Case, visits: seq<Visit>, p: Pair) returns (k: nat)
    requires AllInRange(choices, visits) && |base| == |choices| && p in Run(choices, base, visits).covered
    ensures k < |visits|
    ensures KeyOf(choices, visits[k]) == p || (Marked(base, p) && p.b != visits[k].a && p.b != visits[k].b)
    decreases |visits|
  {
    var last := |visits| - 1;
    if visits != [] {
      if p in Run(choices, base, visits[..last]).covered { k := CoveredWhy(choices, base, visits[..last], p); } else { k := last; }
    }
  }

  lemma {:induction false} CasesWhy(choices: seq<seq<Value>>, base: Case, visits: seq<Visit>, c: Case) returns (k: nat)
    requires AllInRange(choices, visits) && |base| == |choices| && c in Run(choices, base, visits).cases && c != base
    ensures k < |visits| && c == CaseOf(choices, base, visits[k])
    ensures AllInRange(choices, visits[..k]) && KeyOf(choices, visits[k]) !in Run(choices, base, visits[..k]).covered
    decreases |visits|
  {
    var last := |visits| - 1;
    if visits != [] {
      if c in Run(choices, base, visits[..last]).cases {
        k := CasesWhy(choices, base, visits[..last], c);
        assert visits[..last][..k] == visits[..k];
      } else {
        k := last;
      }
    }
    hide Marks;
  }

  /** A pair not covered when it is visited gets its case, and keeps it. */
  lemma {:induction false} VisitYields(choices: seq<seq<Value>>, base: Case, visits: seq<Visit>, k: nat)
    requires AllInRange(choices, visits) && |base| == |choices| && k < |visits|
    requires KeyOf(choices, visits[k]) !in Run(choices, base, visits[..k]).covered
    ensures CaseOf(choices, base, visits[k]) in Run(choices, base, visits).cases
    decreases |visits|
  {
    var last := |visits| - 1;
    if k < last {
      assert visits[..last][..k] == visits[..k];
      VisitYields(choices, base, visits[..last], k);
    }
    hide Marks;
  }

  /** The first visit with a given key. */
  lemma {:induction false} FirstVisit(choices: seq<seq<Value>>, visits: seq<Visit>, v: Visit) returns (k: nat)
    requires Enumerates(choices, visits) && AllInRange(choices, visits) && InRange(choices, v)
    ensures k < |visits| && KeyOf(choices, visits[k]) == KeyOf(choices, v)
    ensures forall m :: 0 <= m < k ==> KeyOf(choices, visits[m]) != KeyOf(choices, v)
  {
    assert v in visits;
    k := 0;
    while KeyOf(choices, visits[k]) != KeyOf(choices, v)
      invariant k < |visits|
      decreases |visits| - k
      invariant forall m :: 0 <= m < k ==> KeyOf(choices, visits[m]) != KeyOf(choices, v)
      invariant exists m :: k <= m < |visits| && visits[m] == v
    {
      k := k + 1;
    }
  }

  // ------------------------------------------------------------------ the exact result

  /** Members that are `==` are the same value: no list mixes `1`, `1.0` and `True`. */
  predicate ToldApart(values: seq<Value>) {
    forall i, j :: 0 <= i < |values| && 0 <= j < |values| && PyEq(values[i], values[j]) ==> values[i] == values[j]
  }

  predicate AllToldApart(choices: seq<seq<Value>>) {
    forall p :: 0 <= p < |choices| ==> ToldApart(choices[p])
  }

  /** The assignments that differ from the base in at most two names. */
  ghost predicate Near(choices: seq<seq<Value>>, base: Case, c: Case) {
    && IsDraw(choices, c) && |base| == |c|
    && exists a, b :: DiffersOnlyAt(base, c, a, b)
  }

  predicate DiffersOnlyAt(base: Case, c: Case, a: int, b: int) {
    |base| == |c| && forall p :: 0 <= p < |base| && p != a && p != b ==> c[p] == base[p]
  }

  lemma {:induction false} CasesNear(choices: seq<seq<Value>>, base: Case, visits: seq<Visit>, c: Case)
    requires AllInRange(choices, visits) && IsDraw(choices, base) && c in Run(choices, base, visits).cases
    ensures Near(choices, base, c)
  {
    if c == base {
      assert DiffersOnlyAt(base, c, 0, 0);
    } else {
      var k := CasesWhy(choices, base, visits, c);
      assert DiffersOnlyAt(base, c, visits[k].a, visits[k].b);
    }
  }

  /** The visit that gives an assignment, when its value at the later position is not the base's. */
  lemma {:induction false} YieldsAt(choices: seq<seq<Value>>, base: Case, visits: seq<Visit>, c: Case, a: nat, b: nat)
    requires Enumerates(choices, visits) && AllInRange(choices, visits) && AllToldApart(choices)
    requires IsDraw(choices, base) && IsDraw(choices, c) && a < b < |base| && DiffersOnlyAt(base, c, a, b)
    requires c[b] != base[b]
    ensures c in Run(choices, base, visits).cases
  {
    var i :| 0 <= i < |choices[a]| && choices[a][i] == c[a];
    var j :| 0 <= j < |choices[b]| && choices[b][j] == c[b];
    var v := Visit(a, b, i, j);
    var k := FirstVisit(choices, visits, v);
    assert CaseOf(choices, base, visits[k]) == c;
    var q :| 0 <= q < |choices[b]| && choices[b][q] == base[b];
    assert !PyEq(choices[b][q], choices[b][j]);
    if KeyOf(choices, v) in Run(choices, base, visits[..k]).covered {
      var m := CoveredWhy(choices, base, visits[..k], KeyOf(choices, v));
    }
    VisitYields(choices, base, visits, k);
  }

  /** A change at the first position alone comes from the first pair, before anything could mark it. */
  lemma {:induction false} YieldsFirst(choices: seq<seq<Value>>, base: Case, visits: seq<Visit>, c: Case)
    requires Enumerates(choices, visits) && AllInRange(choices, visits) && AllToldApart(choices)
    requires IsDraw(choices, base) && IsDraw(choices, c) && |base| >= 2 && DiffersOnlyAt(base, c, 0, 0)
    ensures c in Run(choices, base, visits).cases
  {
    var i :| 0 <= i < |choices[0]| && choices[0][i] == c[0];
    var j :| 0 <= j < |choices[1]| && choices[1][j] == base[1];
    var v := Visit(0, 1, i, j);
    var k := FirstVisit(choices, visits, v);
    assert CaseOf(choices, base, visits[k]) == c;
    forall m | 0 <= m < k ensures visits[m].b == 1 { assert Before(visits[m], visits[k]); }
    if KeyOf(choices, v) in Run(choices, base, visits[..k]).covered {
      var m := CoveredWhy(choices, base, visits[..k], KeyOf(choices, v));
    }
    VisitYields(choices, base, visits, k);
  }

  /** With at least two names and members told apart, the result is every assignment that differs from the base in at
      most two names, and nothing else. */
  lemma {:induction false} ProducesExactlyNear(choices: seq<seq<Value>>, base: Case, visits: seq<Visit>, c: Case)
    requires Enumerates(choices, visits) && AllInRange(choices, visits) && AllToldApart(choices)
    requires IsDraw(choices, base) && |base| >= 2
    ensures c in Run(choices, base, visits).cases <==> Near(choices, base, c)
  {
    hide Run, AllToldApart, Enumerates;
    if c in Run(choices, base, visits).cases { CasesNear(choices, base, visits, c); }
    if Near(choices, base, c) {
      RunCovers(choices, base, visits);
      var a, b :| DiffersOnlyAt(base, c, a, b);
      var p, q := if a < b then a else b, if a < b then b else a;
      if 0 <= q < |base| && c[q] != base[q] {
        if 0 <= p < q {
          YieldsAt(choices, base, visits, c, p, q);
        } else if q > 0 {
          YieldsAt(choices, base, visits, c, 0, q);
        } else {
          YieldsFirst(choices, base, visits, c);
        }
      } else if 0 <= p < |base| && c[p] != base[p] {
        if p > 0 { YieldsAt(choices, base, visits, c, 0, p); } else { YieldsFirst(choices, base, visits, c); }
      } else {
        assert c == base;
      }
    }
  }

  /** The cases are the assignments near the base. */
  ghost predicate Neighbourhood(choices: seq<seq<Value>>, base: Case, cases: seq<Case>) {
    && (forall c :: c in cases <==> Near(choices, base, c))
    && (forall i, j :: 0 <= i < j < |cases| ==> cases[i] != cases[j])
  }

  // ------------------------------------------------------------------ coverage

  ghost predicate PairAppears(cases: seq<Case>, p: nat, q: nat, u: Value, w: Value) {
    exists c :: c in cases && p < |c| && q < |c| && c[p] == u && c[q] == w
  }

  /** Every pair of values of two names appears together in some case. */
  ghost predicate CoversPairs(choices: seq<seq<Value>>, cases: seq<Case>) {
    forall p, q, u, w :: 0 <= p < q < |choices| && u in choices[p] && w in choices[q] ==> PairAppears(cases, p, q, u, w)
  }

  lemma {:induction false} ToldApartCovers(choices: seq<seq<Value>>, base: Case, visits: seq<Visit>)
    requires Enumerates(choices, visits) && AllInRange(choices, visits) && AllToldApart(choices)
    requires IsDraw(choices, base) && |base| >= 2
    ensures CoversPairs(choices, Run(choices, base, visits).cases)
  {
    hide Run, Enumerates, AllToldApart;
    forall p, q, u, w | 0 <= p < q < |choices| && u in choices[p] && w in choices[q]
      ensures PairAppears(Run(choices, base, visits).cases, p, q, u, w)
    {
      var c := base[p := u][q := w];
      assert DiffersOnlyAt(base, c, p, q);
      ProducesExactlyNear(choices, base, visits, c);
    }
  }

  /** Dropping duplicates loses no assignment and no pair. */
  lemma {:induction false} UniqueNear(choices: seq<seq<Value>>, base: Case, visits: seq<Visit>)
    requires Enumerates(choices, visits) && AllInRange(choices, visits) && AllToldApart(choices)
    requires IsDraw(choices, base) && |base| >= 2
    ensures Neighbourhood(choices, base, Dedupe(Run(choices, base, visits).cases))
    ensures CoversPairs(choices, Dedupe(Run(choices, base, visits).cases))
  {
    hide Run, Enumerates, AllToldApart, Near, Dedupe;
    var cases := Run(choices, base, visits).cases;
    DedupeElements(cases);
    DedupeNoDuplicates(cases);
    forall c ensures c in cases <==> Near(choices, base, c) { ProducesExactlyNear(choices, base, visits, c); }
    ToldApartCovers(choices, base, visits);
    forall p, q, u, w | 0 <= p < q < |choices| && u in choices[p] && w in choices[q]
      ensures PairAppears(Dedupe(cases), p, q, u, w)
    {
      assert PairAppears(cases, p, q, u, w);
    }
  }

  /** The first member of a list that is `==` to another but not the same; the other only comes later. */
  lemma {:induction false} Impostor(values: seq<Value>) returns (i: nat, w: Value)
    requires !ToldApart(values)
    ensures i < |values| && w in values && PyEq(values[i], w) && values[i] != w
    ensures forall m :: 0 <= m < |values| && values[m] == w ==> i < m
  {
    var x, y :| 0 <= x < |values| && 0 <= y < |values| && PyEq(values[x], values[y]) && values[x] != values[y];
    i := 0;
    while !PyEq(values[i], values[x])
      invariant i <= x && i <= y && forall m :: 0 <= m < i ==> !PyEq(values[m], values[x])
      decreases x - i
    {
      i := i + 1;
    }
    w := if values[x] == values[i] then values[y] else values[x];
  }

  lemma {:induction false} NotAfter(choices: seq<seq<Value>>, visits: seq<Visit>, k: nat, m: nat)
    requires Enumerates(choices, visits) && k < |visits| && m < |visits|
    ensures Before(visits[m], visits[k]) ==> m < k
  {
  }

  lemma {:induction false} EarlierCovered(choices: seq<seq<Value>>, base: Case, visits: seq<Visit>, k: nat, earlier: Visit)
    requires Enumerates(choices, visits) && AllInRange(choices, visits) && |base| == |choices|
    requires k < |visits| && InRange(choices, earlier) && Before(earlier, visits[k])
    ensures KeyOf(choices, earlier) in Run(choices, base, visits[..k]).covered
  {
    hide Run, KeyOf;
    assert earlier in visits;
    var m :| 0 <= m < |visits| && visits[m] == earlier;
    NotAfter(choices, visits, k, m);
    RunCovers(choices, base, visits[..k]);
    assert visits[..k][m] == earlier;
  }

  lemma {:induction false} ImpostorNeverAppears(choices: seq<seq<Value>>, base: Case, visits: seq<Visit>, p: nat, i: nat, w: Value, c: Case)
    requires Enumerates(choices, visits) && AllInRange(choices, visits) && IsDraw(choices, base)
    requires p < |base| && i < |choices[p]| && base[p] == choices[p][i] != w && PyEq(choices[p][i], w)
    requires forall m :: 0 <= m < |choices[p]| && choices[p][m] == w ==> i < m
    requires c in Run(choices, base, visits).cases
    ensures p < |c| ==> c[p] != w
  {
    hide Run, Enumerates;
    if p < |c| && c[p] == w {
      var k := CasesWhy(choices, base, visits, c);
      var v := visits[k];
      var earlier := if p == v.a then v.(i := i) else v.(j := i);
      assert KeyOf(choices, earlier) == KeyOf(choices, v) && Before(earlier, v);
      EarlierCovered(choices, base, visits, k, earlier);
    }
  }

  function FirstValues(choices: seq<seq<Value>>): (base: Case)
    requires NoneEmpty(choices)
    ensures IsDraw(choices, base)
  {
    seq(|choices|, p requires 0 <= p < |choices| => choices[p][0])
  }

  /** All pairs are covered whatever the base draw is, exactly when no list has two members that are `==` without being
      the same. */
  lemma {:induction false} CoverageExactly(choices: seq<seq<Value>>, visits: seq<Visit>)
    requires Enumerates(choices, visits) && AllInRange(choices, visits) && NoneEmpty(choices) && |choices| >= 2
    ensures (forall base :: IsDraw(choices, base) ==> CoversPairs(choices, Run(choices, base, visits).cases)) <==> AllToldApart(choices)
  {
    hide Run, Enumerates;
    if AllToldApart(choices) {
      forall base | IsDraw(choices, base) ensures CoversPairs(choices, Run(choices, base, visits).cases) {
        ToldApartCovers(choices, base, visits);
      }
    } else {
      var p :| 0 <= p < |choices| && !ToldApart(choices[p]);
      var i, w := Impostor(choices[p]);
      var base := FirstValues(choices)[p := choices[p][i]];
      assert IsDraw(choices, base);
      var cases := Run(choices, base, visits).cases;
      forall c | c in cases ensures p < |c| && c[p] != w {
        CasesNear(choices, base, visits, c);
        ImpostorNeverAppears(choices, base, visits, p, i, w, c);
      }
      var q := if p == 0 then 1 else 0;
      assert choices[q][0] in choices[q];
      assert if p < q then !PairAppears(cases, p, q, w, choices[q][0]) else !PairAppears(cases, q, p, choices[q][0], w);
    }
  }
}
