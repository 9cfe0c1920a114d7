/** How many cases the pairwise generator produces. */
module PairwiseCount {
  import opened Model
  import opened Ordering
  import opened Pairwise

  /** The assignments over the listed names that differ from the base in at most `d` of them. */
  ghost function Ball(choices: seq<seq<Value>>, base: Case, d: nat): set<Case>
    requires |base| == |choices|
    decreases |choices|
  {
    if choices == [] then {[]}
    else
      var n := |choices| - 1;
      Appended(Ball(choices[..n], base[..n], d), {base[n]})
      + if d == 0 then {} else Appended(Ball(choices[..n], base[..n], d - 1), Others(choices[n], base[n]))
  }

  ghost function Others(values: seq<Value>, v: Value): set<Value> {
    (set u | u in values) - {v}
  }

  ghost function Appended(fronts: set<Case>, lasts: set<Value>): set<Case> {
    set c, v | c in fronts && v in lasts :: c + [v]
  }

  predicate Splits(c: Case, fronts: set<Case>, lasts: set<Value>) {
    c != [] && c[..|c| - 1] in fronts && c[|c| - 1] in lasts
  }

  lemma {:induction false} InAppended(fronts: set<Case>, lasts: set<Value>, c: Case)
    ensures c in Appended(fronts, lasts) <==> Splits(c, fronts, lasts)
  {
    if c in Appended(fronts, lasts) {
      var e, v :| e in fronts && v in lasts && e + [v] == c;
      assert c[..|c| - 1] == e;
    }
    if Splits(c, fronts, lasts) { assert c == c[..|c| - 1] + [c[|c| - 1]]; }
  }

  lemma {:induction false} AppendedSize(fronts: set<Case>, lasts: set<Value>)
    ensures |Appended(fronts, lasts)| == |fronts| * |lasts|
    decreases |lasts|
  {
    if lasts == {} {
      assert Appended(fronts, lasts) == {};
    } else {
      var v :| v in lasts;
      AppendedSize(fronts, lasts - {v});
      AppendedOne(fronts, v);
      AppendedPieces(fronts, lasts, v);
      assert |fronts| * |lasts| == |fronts| * (|lasts| - 1) + |fronts|;
    }
  }

  lemma {:induction false} AppendedPieces(fronts: set<Case>, lasts: set<Value>, v: Value)
    requires v in lasts
    ensures |Appended(fronts, lasts)| == |Appended(fronts, lasts - {v})| + |Appended(fronts, {v})|
  {
    forall c ensures c in Appended(fronts, lasts) <==> c in Appended(fronts, lasts - {v}) + Appended(fronts, {v}) {
      InAppended(fronts, lasts, c);
      InAppended(fronts, lasts - {v}, c);
      InAppended(fronts, {v}, c);
    }
    forall c | c in Appended(fronts, {v}) ensures c !in Appended(fronts, lasts - {v}) {
      InAppended(fronts, lasts - {v}, c);
      InAppended(fronts, {v}, c);
    }
    hide Appended;
    assert Appended(fronts, lasts) == Appended(fronts, lasts - {v}) + Appended(fronts, {v});
    assert Appended(fronts, lasts - {v}) !! Appended(fronts, {v});
  }

  lemma {:induction false} AppendedOne(fronts: set<Case>, v: Value)
    ensures |Appended(fronts, {v})| == |fronts|
    decreases |fronts|
  {
    if fronts == {} {
      assert Appended(fronts, {v}) == {};
    } else {
      var c :| c in fronts;
      AppendedOne(fronts - {c}, v);
      hide Appended;
      forall e ensures e in Appended(fronts, {v}) <==> e in Appended(fronts - {c}, {v}) || e == c + [v] {
        InAppended(fronts, {v}, e);
        InAppended(fronts - {c}, {v}, e);
        assert (c + [v])[..|c|] == c;
        if e != [] && e[..|e| - 1] == c && e[|e| - 1] == v { assert e == c + [v]; }
      }
      InAppended(fronts - {c}, {v}, c + [v]);
      assert (c + [v])[..|c|] == c;
      assert Appended(fronts, {v}) == Appended(fronts - {c}, {v}) + {c + [v]};
    }
  }

  /** How many of the names differ. */
  function Distance(base: Case, c: Case): nat
    requires |base| == |c|
  {
    if base == [] then 0
    else Distance(base[..|base| - 1], c[..|c| - 1]) + if base[|base| - 1] == c[|c| - 1] then 0 else 1
  }

  lemma {:induction false} BallStep(choices: seq<seq<Value>>, base: Case, d: nat, c: Case)
    requires |base| == |choices| && choices != []
    ensures
      var n := |choices| - 1;
      c in Ball(choices, base, d) <==>
        || Splits(c, Ball(choices[..n], base[..n], d), {base[n]})
        || (d > 0 && Splits(c, Ball(choices[..n], base[..n], d - 1), Others(choices[n], base[n])))
  {
    var n := |choices| - 1;
    InAppended(Ball(choices[..n], base[..n], d), {base[n]}, c);
    if d > 0 { InAppended(Ball(choices[..n], base[..n], d - 1), Others(choices[n], base[n]), c); }
    hide Appended, Others;
  }

  lemma {:induction false} BallEmpty(base: Case, d: nat, c: Case)
    requires base == []
    ensures c in Ball([], base, d) <==> IsDraw([], c) && Distance(base, c) <= d
  {
  }

  lemma {:induction false} BallMeans(choices: seq<seq<Value>>, base: Case, d: nat, c: Case)
    requires IsDraw(choices, base)
    ensures c in Ball(choices, base, d) <==> IsDraw(choices, c) && Distance(base, c) <= d
    decreases |choices|
  {
    hide Ball, Distance, IsDraw;
    SameSize(choices, base);
    if choices == [] {
      BallEmpty(base, d, c);
    } else {
      var n := |choices| - 1;
      BallStep(choices, base, d, c);
      if c == [] {
        NoEmptyDraw(choices);
      } else {
        DrawStep(choices, c);
        DrawStep(choices, base);
        BallMeans(choices[..n], base[..n], d, c[..|c| - 1]);
        if d > 0 { BallMeans(choices[..n], base[..n], d - 1, c[..|c| - 1]); }
        if IsDraw(choices, c) {
          SameSize(choices, c);
          DistanceStep(base, c);
        } else if IsDraw(choices[..n], c[..|c| - 1]) {
          SameSize(choices[..n], c[..|c| - 1]);
        }
      }
    }
  }

  lemma {:induction false} SameSize(choices: seq<seq<Value>>, c: Case)
    requires IsDraw(choices, c)
    ensures |c| == |choices|
  {
  }

  lemma {:induction false} NoEmptyDraw(choices: seq<seq<Value>>)
    requires choices != []
    ensures !IsDraw(choices, [])
  {
  }

  lemma {:induction false} DistanceStep(base: Case, c: Case)
    requires |base| == |c| > 0
    ensures Distance(base, c) == Distance(base[..|base| - 1], c[..|c| - 1]) + if base[|base| - 1] == c[|c| - 1] then 0 else 1
  {
  }

  lemma {:induction false} DrawStep(choices: seq<seq<Value>>, c: Case)
    requires choices != [] && c != []
    ensures IsDraw(choices, c) <==> IsDraw(choices[..|choices| - 1], c[..|c| - 1]) && c[|c| - 1] in choices[|choices| - 1]
  {
    var front := c[..|c| - 1];
    assert forall p :: 0 <= p < |front| ==> front[p] == c[p];
  }

  lemma {:induction false} DistanceSame(base: Case, c: Case)
    requires |base| == |c|
    ensures Distance(base, c) == 0 <==> base == c
    decreases |base|
  {
    if base != [] {
      DistanceSame(base[..|base| - 1], c[..|c| - 1]);
      assert base == base[..|base| - 1] + [base[|base| - 1]] && c == c[..|c| - 1] + [c[|c| - 1]];
    }
  }

  lemma {:induction false} DistanceNear(base: Case, c: Case) returns (a: int, b: int)
    requires |base| == |c| && Distance(base, c) <= 2
    ensures DiffersOnlyAt(base, c, a, b) && a <= b
    ensures Distance(base, c) <= 1 ==> a == b
    decreases |base|
  {
    var n := |base| - 1;
    if base == [] { return 0, 0; }
    a, b := DistanceNear(base[..n], c[..n]);
    assert forall p :: 0 <= p < n ==> base[..n][p] == base[p] && c[..n][p] == c[p];
    if base[n] != c[n] {
      if Distance(base[..n], c[..n]) == 0 {
        DistanceSame(base[..n], c[..n]);
        a, b := n, n;
      } else {
        b := n;
        a := if a < n then a else n;
      }
    }
  }

  lemma {:induction false} NearDistance(base: Case, c: Case, a: int, b: int)
    requires DiffersOnlyAt(base, c, a, b)
    ensures Distance(base, c) <= (if 0 <= a < |base| then 1 else 0) + (if 0 <= b < |base| && b != a then 1 else 0)
    decreases |base|
  {
    if base != [] {
      var n := |base| - 1;
      assert forall p :: 0 <= p < n ==> base[..n][p] == base[p] && c[..n][p] == c[p];
      NearDistance(base[..n], c[..n], a, b);
    }
  }

  /** Differing in at most two names is being within distance two. */
  lemma {:induction false} NearIsBall(choices: seq<seq<Value>>, base: Case, c: Case)
    requires IsDraw(choices, base)
    ensures Near(choices, base, c) <==> c in Ball(choices, base, 2)
  {
    BallMeans(choices, base, 2, c);
    if Near(choices, base, c) {
      var a, b :| DiffersOnlyAt(base, c, a, b);
      NearDistance(base, c, a, b);
    }
    if c in Ball(choices, base, 2) {
      var a, b := DistanceNear(base, c);
    }
    hide Ball, Distance;
  }

  /** Alternatives to the base value: over one name, and over two. */
  function Singles(choices: seq<seq<Value>>): int {
    if choices == [] then 0 else Singles(choices[..|choices| - 1]) + (|choices[|choices| - 1]| - 1)
  }

  function Doubles(choices: seq<seq<Value>>): int {
    if choices == [] then 0
    else Doubles(choices[..|choices| - 1]) + Singles(choices[..|choices| - 1]) * (|choices[|choices| - 1]| - 1)
  }

  predicate NoRepeats(choices: seq<seq<Value>>) {
    forall p :: 0 <= p < |choices| ==> forall i, j :: 0 <= i < j < |choices[p]| ==> choices[p][i] != choices[p][j]
  }

  lemma {:induction false} ElementsSize<T>(xs: seq<T>)
    requires forall i, j :: 0 <= i < j < |xs| ==> xs[i] != xs[j]
    ensures |set x | x in xs| == |xs|
  {
    if xs != [] {
      var front := xs[..|xs| - 1];
      ElementsSize(front);
      assert xs == front + [xs[|xs| - 1]];
      assert (set x | x in xs) == (set x | x in front) + {xs[|xs| - 1]};
    }
  }

  lemma {:induction false} BallSize(choices: seq<seq<Value>>, base: Case)
    requires IsDraw(choices, base) && NoRepeats(choices)
    ensures |Ball(choices, base, 0)| == 1
    ensures |Ball(choices, base, 1)| == 1 + Singles(choices)
    ensures |Ball(choices, base, 2)| == 1 + Singles(choices) + Doubles(choices)
    decreases |choices|
  {
    hide *;
    SameSize(choices, base);
    if choices == [] {
      NothingToVary(base);
    } else {
      var n := |choices| - 1;
      LastName(choices, base);
      BallSize(choices[..n], base[..n]);
      SumsStep(choices);
      BallGrows(choices, base, 0);
      BallGrows(choices, base, 1);
      BallGrows(choices, base, 2);
      Spread(Singles(choices[..n]), |choices[n]| - 1);
    }
  }

  lemma {:induction false} Spread(singles: int, others: int)
    ensures (1 + singles) * others == others + singles * others
  {
  }

  lemma {:induction false} NothingToVary(base: Case)
    requires base == []
    ensures forall d: nat :: |Ball([], base, d)| == 1
    ensures Singles([]) == 0 && Doubles([]) == 0
  {
  }

  lemma {:induction false} LastName(choices: seq<seq<Value>>, base: Case)
    requires IsDraw(choices, base) && NoRepeats(choices) && choices != []
    ensures IsDraw(choices[..|choices| - 1], base[..|choices| - 1]) && NoRepeats(choices[..|choices| - 1])
    ensures |Others(choices[|choices| - 1], base[|choices| - 1])| == |choices[|choices| - 1]| - 1
  {
    OthersSize(choices[|choices| - 1], base[|choices| - 1]);
  }

  lemma {:induction false} SumsStep(choices: seq<seq<Value>>)
    requires choices != []
    ensures
      var n := |choices| - 1;
      && Singles(choices) == Singles(choices[..n]) + (|choices[n]| - 1)
      && Doubles(choices) == Doubles(choices[..n]) + Singles(choices[..n]) * (|choices[n]| - 1)
  {
  }

  lemma {:induction false} OthersSize(values: seq<Value>, v: Value)
    requires v in values && forall i, j :: 0 <= i < j < |values| ==> values[i] != values[j]
    ensures |Others(values, v)| == |values| - 1
  {
    ElementsSize(values);
  }

  lemma {:induction false} BallGrows(choices: seq<seq<Value>>, base: Case, d: nat)
    requires |base| == |choices| && choices != []
    ensures
      var n := |choices| - 1;
      |Ball(choices, base, d)| == |Ball(choices[..n], base[..n], d)|
        + (if d == 0 then 0 else |Ball(choices[..n], base[..n], d - 1)| * |Others(choices[n], base[n])|)
  {
    hide *;
    var n := |choices| - 1;
    var fronts := Ball(choices[..n], base[..n], d);
    BallShape(choices, base, d);
    AppendedSize(fronts, {base[n]});
    if d > 0 {
      var closer := Ball(choices[..n], base[..n], d - 1);
      AppendedSize(closer, Others(choices[n], base[n]));
      Disjoint(fronts, closer, choices[n], base[n]);
    }
  }

  lemma {:induction false} BallShape(choices: seq<seq<Value>>, base: Case, d: nat)
    requires |base| == |choices| && choices != []
    ensures
      var n := |choices| - 1;
      var same := Appended(Ball(choices[..n], base[..n], d), {base[n]});
      Ball(choices, base, d) ==
        if d == 0 then same else same + Appended(Ball(choices[..n], base[..n], d - 1), Others(choices[n], base[n]))
  {
    hide Appended, Others;
  }

  lemma {:induction false} Disjoint(a: set<Case>, b: set<Case>, values: seq<Value>, v: Value)
    ensures Appended(a, {v}) !! Appended(b, Others(values, v))
  {
    forall c | c in Appended(a, {v}) ensures c !in Appended(b, Others(values, v)) {
      InAppended(a, {v}, c);
      InAppended(b, Others(values, v), c);
    }
  }

  /** The number of cases: one, plus every change of one name, plus every change of two. */
  lemma {:induction false} CaseCount(choices: seq<seq<Value>>, base: Case, visits: seq<Visit>)
    requires Enumerates(choices, visits) && AllInRange(choices, visits) && AllToldApart(choices) && NoRepeats(choices)
    requires IsDraw(choices, base) && |base| >= 2
    ensures |Dedupe(Run(choices, base, visits).cases)| == 1 + Singles(choices) + Doubles(choices)
  {
    hide Run, Enumerates, AllToldApart, Ball, NoRepeats, Near;
    var cases := Run(choices, base, visits).cases;
    DedupeElements(cases);
    DedupeNoDuplicates(cases);
    ElementsSize(Dedupe(cases));
    forall c ensures c in Dedupe(cases) <==> c in Ball(choices, base, 2) {
      ProducesExactlyNear(choices, base, visits, c);
      NearIsBall(choices, base, c);
    }
    assert (set c | c in Dedupe(cases)) == Ball(choices, base, 2);
    BallSize(choices, base);
  }

  lemma {:induction false} AlikeSums(choices: seq<seq<Value>>, k: nat)
    requires forall p :: 0 <= p < |choices| ==> |choices[p]| == k
    ensures Singles(choices) == |choices| * (k - 1)
    ensures 2 * Doubles(choices) == |choices| * (|choices| - 1) * ((k - 1) * (k - 1))
    decreases |choices|
  {
    if choices != [] {
      var n := |choices| - 1;
      AlikeSums(choices[..n], k);
      Doubling(n, k - 1);
    }
  }

  lemma {:induction false} Doubling(n: int, m: int)
    ensures n * (n - 1) * (m * m) + 2 * ((n * m) * m) == (n + 1) * n * (m * m)
    ensures n * m + m == (n + 1) * m
  {
    var s := m * m;
    assert (n * m) * m == n * s;
    assert n * (n - 1) + 2 * n == (n + 1) * n;
    assert n * (n - 1) * s + 2 * n * s == (n * (n - 1) + 2 * n) * s;
  }

  /** Five names with six values each: 276 cases. */
  lemma {:induction false} FiveOfSix(choices: seq<seq<Value>>, base: Case, visits: seq<Visit>)
    requires Enumerates(choices, visits) && AllInRange(choices, visits) && AllToldApart(choices) && NoRepeats(choices)
    requires IsDraw(choices, base) && |choices| == 5 && forall p :: 0 <= p < 5 ==> |choices[p]| == 6
    ensures |Dedupe(Run(choices, base, visits).cases)| == 276
  {
    hide Run, Enumerates, AllToldApart, NoRepeats;
    CaseCount(choices, base, visits);
    AlikeSums(choices, 6);
  }
}
