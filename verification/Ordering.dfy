/** Python's `sorted(set(...))`: duplicates dropped, ascending in a strict total order. The result depends only on
    which elements are present. */
module Ordering {
  import opened Model

  function Insert<T(==)>(less: (T, T) -> bool, x: T, xs: seq<T>): seq<T> {
    if xs == [] then [x]
    else if x == xs[0] then xs
    else if less(x, xs[0]) then [x] + xs
    else [xs[0]] + Insert(less, x, xs[1..])
  }

  function SortedSet<T(==)>(less: (T, T) -> bool, xs: seq<T>): seq<T> {
    if xs == [] then [] else Insert(less, xs[0], SortedSet(less, xs[1..]))
  }

  ghost predicate StrictTotal<T(!new)>(less: (T, T) -> bool, domain: T -> bool) {
    && (forall x :: !less(x, x))
    && (forall x, y :: domain(x) && domain(y) && x != y ==> less(x, y) || less(y, x))
    && (forall x, y, z :: less(x, y) && less(y, z) ==> less(x, z))
  }

  ghost predicate Ascending<T>(less: (T, T) -> bool, xs: seq<T>) {
    forall i, j :: 0 <= i < j < |xs| ==> less(xs[i], xs[j])
  }

  ghost predicate Within<T(!new)>(xs: seq<T>, domain: T -> bool) {
    forall x :: x in xs ==> domain(x)
  }

  ghost predicate SameElements<T(!new)>(xs: seq<T>, ys: seq<T>) {
    forall x :: x in xs <==> x in ys
  }

  lemma {:induction false} InsertElements<T(!new)>(less: (T, T) -> bool, x: T, xs: seq<T>)
    ensures forall y :: y in Insert(less, x, xs) <==> y == x || y in xs
  {
    if xs != [] && x != xs[0] && !less(x, xs[0]) {
      InsertElements(less, x, xs[1..]);
      assert xs == [xs[0]] + xs[1..];
    }
  }

  lemma {:induction false} SortedSetElements<T(!new)>(less: (T, T) -> bool, xs: seq<T>)
    ensures SameElements(SortedSet(less, xs), xs)
  {
    if xs != [] {
      SortedSetElements(less, xs[1..]);
      InsertElements(less, xs[0], SortedSet(less, xs[1..]));
      assert xs == [xs[0]] + xs[1..];
    }
  }

  lemma {:induction false} InsertAscending<T(!new)>(less: (T, T) -> bool, x: T, xs: seq<T>, domain: T -> bool)
    requires StrictTotal(less, domain) && Within([x] + xs, domain) && Ascending(less, xs)
    ensures Ascending(less, Insert(less, x, xs))
  {
    if xs != [] && x != xs[0] {
      assert xs[0] in [x] + xs && x in [x] + xs;
      if !less(x, xs[0]) {
        var rest := Insert(less, x, xs[1..]);
        forall y | y in [x] + xs[1..] ensures y in [x] + xs {}
        InsertAscending(less, x, xs[1..], domain);
        InsertElements(less, x, xs[1..]);
        forall j | 0 <= j < |rest| ensures less(xs[0], rest[j]) {
          assert rest[j] in rest;
          if rest[j] != x {
            var k :| 0 <= k < |xs[1..]| && xs[1..][k] == rest[j];
            assert less(xs[0], xs[k + 1]);
          }
        }
      }
    }
  }

  lemma {:induction false} SortedSetAscending<T(!new)>(less: (T, T) -> bool, xs: seq<T>, domain: T -> bool)
    requires StrictTotal(less, domain) && Within(xs, domain)
    ensures Ascending(less, SortedSet(less, xs))
  {
    if xs != [] {
      forall y | y in xs[1..] ensures domain(y) { assert y in xs; }
      SortedSetAscending(less, xs[1..], domain);
      SortedSetElements(less, xs[1..]);
      var rest := SortedSet(less, xs[1..]);
      forall y | y in [xs[0]] + rest ensures domain(y) { assert y == xs[0] || y in xs[1..]; }
      InsertAscending(less, xs[0], rest, domain);
    }
  }

  lemma {:induction false} LeastFirst<T>(less: (T, T) -> bool, xs: seq<T>, x: T)
    requires Ascending(less, xs) && x in xs
    ensures x == xs[0] || less(xs[0], x)
  {
    var i :| 0 <= i < |xs| && xs[i] == x;
  }

  lemma {:induction false} AscendingUnique<T(!new)>(less: (T, T) -> bool, xs: seq<T>, ys: seq<T>)
    requires forall x, y, z :: less(x, y) && less(y, z) ==> less(x, z)
    requires forall x :: !less(x, x)
    requires Ascending(less, xs) && Ascending(less, ys) && SameElements(xs, ys)
    ensures xs == ys
  {
    assert |ys| > 0 ==> ys[0] in ys;
    if xs != [] {
      assert xs[0] in xs;
      LeastFirst(less, xs, ys[0]);
      LeastFirst(less, ys, xs[0]);
      forall x ensures x in xs[1..] <==> x in ys[1..] {
        if x in xs[1..] {
          var k :| 0 <= k < |xs[1..]| && xs[1..][k] == x;
          assert less(xs[0], xs[k + 1]) && x in xs;
          assert x in ys;
        }
        if x in ys[1..] {
          var k :| 0 <= k < |ys[1..]| && ys[1..][k] == x;
          assert less(ys[0], ys[k + 1]) && x in ys;
          assert x in xs;
        }
      }
      AscendingUnique(less, xs[1..], ys[1..]);
      assert xs == [xs[0]] + xs[1..] && ys == [ys[0]] + ys[1..];
    }
  }

  /** Which elements are present is all that decides the result. */
  lemma {:induction false} SortedSetSame<T(!new)>(less: (T, T) -> bool, xs: seq<T>, ys: seq<T>, domain: T -> bool)
    requires StrictTotal(less, domain) && Within(xs, domain) && SameElements(xs, ys)
    ensures SortedSet(less, xs) == SortedSet(less, ys)
  {
    forall y | y in ys ensures domain(y) { assert y in xs; }
    SortedSetAscending(less, xs, domain);
    SortedSetAscending(less, ys, domain);
    SortedSetElements(less, xs);
    SortedSetElements(less, ys);
    AscendingUnique(less, SortedSet(less, xs), SortedSet(less, ys));
  }

  // ------------------------------------------------------------------ names

  /** Code-point order on strings. */
  predicate NameLess(a: string, b: string) {
    if b == "" then false
    else if a == "" then true
    else if a[0] != b[0] then a[0] < b[0]
    else NameLess(a[1..], b[1..])
  }

  function SortedNames(names: seq<string>): seq<string> {
    SortedSet(NameLess, names)
  }

  lemma {:induction false} FirstKept(a: string, b: string)
    ensures forall k: nat :: 0 < k <= |a| && k <= |b| && a[..k] == b[..k] ==> a[0] == b[0]
  {
    forall k: nat | 0 < k <= |a| && k <= |b| && a[..k] == b[..k] ensures a[0] == b[0] { assert a[0] == a[..k][0]; }
  }

  /** The names agree up to a place where the first ends, or has the smaller character. */
  lemma {:induction false} NameLessExactly(a: string, b: string)
    ensures NameLess(a, b) <==>
      exists k: nat :: k <= |a| && k < |b| && a[..k] == b[..k] && (k == |a| || a[k] < b[k])
  {
    if b != "" && a != "" && a[0] == b[0] {
      NameLessExactly(a[1..], b[1..]);
      if k: nat :| k <= |a[1..]| && k < |b[1..]| && a[1..][..k] == b[1..][..k] && (k == |a[1..]| || a[1..][k] < b[1..][k]) {
        assert a[..k + 1] == [a[0]] + a[1..][..k] && b[..k + 1] == [b[0]] + b[1..][..k];
      }
      if k: nat :| k <= |a| && k < |b| && a[..k] == b[..k] && (k == |a| || a[k] < b[k]) {
        assert k > 0;
        assert a[1..][..k - 1] == a[..k][1..] && b[1..][..k - 1] == b[..k][1..];
      }
    } else if b != "" && a != "" {
      FirstKept(a, b);
      assert a[..0] == b[..0];
    } else {
      assert a[..0] == b[..0];
    }
  }

  lemma {:induction false} NameLessTotal(a: string, b: string)
    ensures !NameLess(a, a)
    ensures a != b ==> NameLess(a, b) || NameLess(b, a)
  {
    if a != "" {
      NameLessTotal(a[1..], if b == "" then "" else b[1..]);
      if b != "" && a[0] == b[0] && a[1..] == b[1..] { assert a == [a[0]] + a[1..] == b; }
    }
  }

  lemma {:induction false} NameLessTransitive(a: string, b: string, c: string)
    requires NameLess(a, b) && NameLess(b, c)
    ensures NameLess(a, c)
  {
    if a != "" && a[0] == b[0] == c[0] { NameLessTransitive(a[1..], b[1..], c[1..]); }
  }

  lemma {:induction false} NamesTotal()
    ensures StrictTotal(NameLess, (s: string) => true)
  {
    forall a, b { NameLessTotal(a, b); }
    forall a, b, c | NameLess(a, b) && NameLess(b, c) ensures NameLess(a, c) { NameLessTransitive(a, b, c); }
  }

  lemma {:induction false} SortedNamesSame(xs: seq<string>, ys: seq<string>)
    requires SameElements(xs, ys)
    ensures SortedNames(xs) == SortedNames(ys)
  {
    NamesTotal();
    SortedSetSame(NameLess, xs, ys, (s: string) => true);
  }

  lemma {:induction false} SortedNamesIdempotent(names: seq<string>)
    ensures SortedNames(SortedNames(names)) == SortedNames(names)
  {
    SortedSetElements(NameLess, names);
    SortedNamesSame(SortedNames(names), names);
  }

  /** Some listing of a finite set; `sorted` makes the choice irrelevant. */
  ghost function Listing<T(!new)>(s: set<T>): (xs: seq<T>)
    ensures forall x :: x in xs <==> x in s
    decreases s
  {
    if s == {} then [] else
    var x :| x in s;
    var rest := Listing(s - {x});
    assert forall y :: y in s <==> y == x || y in s - {x};
    [x] + rest
  }

  /** Python's `sorted` on a set of names. */
  ghost function SortedKeys(s: set<string>): seq<string> {
    SortedNames(Listing(s))
  }

  lemma {:induction false} SortedKeysElements(s: set<string>)
    ensures forall x :: x in SortedKeys(s) <==> x in s
    ensures forall i, j :: 0 <= i < j < |SortedKeys(s)| ==> SortedKeys(s)[i] != SortedKeys(s)[j]
  {
    SortedSetElements(NameLess, Listing(s));
    NamesTotal();
    SortedSetAscending(NameLess, Listing(s), (n: string) => true);
  }

  lemma {:induction false} SortedKeysAscending(s: set<string>)
    ensures Ascending(NameLess, SortedKeys(s))
  {
    NamesTotal();
    SortedSetAscending(NameLess, Listing(s), (n: string) => true);
  }

  method SortKeys(s: set<string>) returns (names: seq<string>)
    ensures names == SortedKeys(s)
  {
    var xs: seq<string> := [];
    var todo := s;
    while todo != {}
      invariant todo <= s && forall x :: x in xs <==> x in s - todo
    {
      var x :| x in todo;
      xs := xs + [x];
      todo := todo - {x};
    }
    SortedNamesSame(xs, Listing(s));
    names := SortedNames(xs);
  }

  // ------------------------------------------------------------------ permutations

  /** Where the first element of a permutation sits; taking it out leaves a permutation of the rest. */
  lemma {:induction false} TakeOut<T>(xs: seq<T>, permuted: seq<T>) returns (k: nat)
    requires multiset(xs) == multiset(permuted) && permuted != []
    ensures k < |xs| && xs[k] == permuted[0]
    ensures multiset(xs[..k] + xs[k + 1..]) == multiset(permuted[1..])
  {
    assert permuted[0] in multiset(xs);
    k :| 0 <= k < |xs| && xs[k] == permuted[0];
    assert xs == xs[..k] + ([xs[k]] + xs[k + 1..]);
    assert permuted == [xs[k]] + permuted[1..];
    var rest := multiset(xs[..k] + xs[k + 1..]);
    assert rest == multiset(xs[..k]) + multiset(xs[k + 1..]);
    assert multiset(xs) == multiset{xs[k]} + rest;
    assert multiset(permuted) == multiset{xs[k]} + multiset(permuted[1..]);
    assert rest == multiset(xs) - multiset{xs[k]};
  }

  /** Leaving out one that is not the first, from the second on. */
  lemma {:induction false} WithoutLater<T>(xs: seq<T>, k: nat)
    requires 0 < k < |xs|
    ensures
      var without, rest := xs[..k] + xs[k + 1..], xs[1..];
      without != [] && without[0] == xs[0] && rest[k - 1] == xs[k] && without[1..] == rest[..k - 1] + rest[k..]
  {
  }

  lemma {:induction false} WithoutFirst<T>(xs: seq<T>)
    requires xs != []
    ensures xs[..0] + xs[1..] == xs[1..]
  {
  }

  lemma {:induction false} WithoutOne<T>(xs: seq<T>, k: nat)
    requires k < |xs|
    ensures multiset(xs) == multiset{xs[k]} + multiset(xs[..k] + xs[k + 1..])
  {
    assert xs == xs[..k] + ([xs[k]] + xs[k + 1..]);
  }

  lemma {:induction false} SameLength<T>(xs: seq<T>, permuted: seq<T>)
    requires multiset(xs) == multiset(permuted)
    ensures |xs| == |permuted|
  {
    assert |multiset(xs)| == |xs|;
  }

  // ------------------------------------------------------------------ numbers

  predicate NumberLess(a: int, b: int) { a < b }

  ghost function SortedNumbers(s: set<int>): seq<int> {
    SortedSet(NumberLess, Listing(s))
  }

  lemma {:induction false} SortedNumbersElements(s: set<int>)
    ensures forall x :: x in SortedNumbers(s) <==> x in s
    ensures SortedNumbers(s) == [] <==> s == {}
  {
    SortedSetElements(NumberLess, Listing(s));
    if SortedNumbers(s) != [] { assert SortedNumbers(s)[0] in SortedNumbers(s); }
  }

  lemma {:induction false} SomeNumber(s: set<int>)
    requires s != {}
    ensures exists n: int :: n in s
  {
    assert (forall n: int :: n !in s) ==> s == {};
  }

  lemma {:induction false} NumbersListed(xs: seq<int>, s: set<int>)
    requires forall n :: n in xs <==> n in s
    ensures SortedSet(NumberLess, xs) == SortedNumbers(s)
  {
    var everything := (n: int) => true;
    assert StrictTotal(NumberLess, everything);
    assert Within(xs, everything);
    forall n ensures n in xs <==> n in Listing(s) {}
    SortedSetSame(NumberLess, xs, Listing(s), everything);
    hide SortedSet, Listing;
  }

  lemma {:induction false} SortedNumbersAscending(s: set<int>)
    ensures Ascending(NumberLess, SortedNumbers(s))
  {
    var everything := (n: int) => true;
    assert StrictTotal(NumberLess, everything);
    SortedSetAscending(NumberLess, Listing(s), everything);
  }

  method SortNumbers(s: set<int>) returns (numbers: seq<int>)
    ensures numbers == SortedNumbers(s)
  {
    var xs: seq<int> := [];
    var todo := s;
    while todo != {}
      invariant todo <= s && forall x :: x in xs <==> x in s - todo
    {
      SomeNumber(todo);
      var x :| x in todo;
      xs := xs + [x];
      todo := todo - {x};
    }
    NumbersListed(xs, s);
    numbers := SortedSet(NumberLess, xs);
  }

  // ------------------------------------------------------------------ enum members

  predicate Scalar(v: Value) { !v.Arr? && !v.Obj? }

  predicate AllScalar(values: seq<Value>) {
    forall i :: 0 <= i < |values| ==> Scalar(values[i])
  }

  /** The order of Python's type names: NoneType, bool, float, int, str. */
  function TypeRank(v: Value): nat {
    match v
    case Null => 0
    case Bool(_) => 1
    case Float(_) => 2
    case Int(_) => 3
    case Str(_) => 4
    case _ => 5
  }

  predicate ScalarLess(a: Value, b: Value) {
    TypeRank(a) < TypeRank(b) ||
    match (a, b)
    case (Bool(x), Bool(y)) => !x && y
    case (Float(x), Float(y)) => x < y
    case (Int(x), Int(y)) => x < y
    case (Str(x), Str(y)) => NameLess(x, y)
    case _ => false
  }

  lemma {:induction false} ScalarsTotal()
    ensures StrictTotal(ScalarLess, Scalar)
  {
    forall x ensures !ScalarLess(x, x) { if x.Str? { NameLessTotal(x.s, x.s); } }
    forall x, y | Scalar(x) && Scalar(y) && x != y ensures ScalarLess(x, y) || ScalarLess(y, x) {
      if x.Str? && y.Str? { NameLessTotal(x.s, y.s); }
    }
    forall x, y, z | ScalarLess(x, y) && ScalarLess(y, z) ensures ScalarLess(x, z) {
      if x.Str? && y.Str? && z.Str? { NameLessTransitive(x.s, y.s, z.s); }
    }
  }

  /** First occurrences, in order. */
  function Dedupe<T(==)>(xs: seq<T>): seq<T> {
    if xs == [] then []
    else
      var front := Dedupe(xs[..|xs| - 1]);
      if xs[|xs| - 1] in front then front else front + [xs[|xs| - 1]]
  }

  lemma {:induction false} DedupeElements<T(!new)>(xs: seq<T>)
    ensures SameElements(Dedupe(xs), xs)
  {
    if xs != [] {
      DedupeElements(xs[..|xs| - 1]);
      assert xs == xs[..|xs| - 1] + [xs[|xs| - 1]];
    }
  }

  lemma {:induction false} DedupeNoDuplicates<T>(xs: seq<T>)
    ensures forall i, j :: 0 <= i < j < |Dedupe(xs)| ==> Dedupe(xs)[i] != Dedupe(xs)[j]
  {
    if xs != [] { DedupeNoDuplicates(xs[..|xs| - 1]); }
  }

  lemma {:induction false} DedupeFixed<T>(xs: seq<T>)
    requires forall i, j :: 0 <= i < j < |xs| ==> xs[i] != xs[j]
    ensures Dedupe(xs) == xs
  {
    if xs != [] {
      DedupeFixed(xs[..|xs| - 1]);
      assert xs == xs[..|xs| - 1] + [xs[|xs| - 1]];
    }
  }

  /** `_stable_unique`: members are told apart by type and value, then put in order when they are mutually
      comparable and left in first-occurrence order when they are not. */
  function StableUnique(values: seq<Value>): seq<Value> {
    if AllScalar(values) then SortedSet(ScalarLess, values) else Dedupe(values)
  }

  lemma {:induction false} StableUniqueElements(values: seq<Value>)
    ensures SameElements(StableUnique(values), values)
  {
    SortedSetElements(ScalarLess, values);
    DedupeElements(values);
  }

  lemma {:induction false} AllScalarSame(xs: seq<Value>, ys: seq<Value>)
    requires SameElements(xs, ys)
    ensures AllScalar(xs) == AllScalar(ys)
  {
    forall i | 0 <= i < |xs| ensures AllScalar(ys) ==> Scalar(xs[i]) { assert xs[i] in ys; }
    forall i | 0 <= i < |ys| ensures AllScalar(xs) ==> Scalar(ys[i]) { assert ys[i] in xs; }
  }

  lemma {:induction false} StableUniqueSame(xs: seq<Value>, ys: seq<Value>)
    requires SameElements(xs, ys) && AllScalar(xs)
    ensures StableUnique(xs) == StableUnique(ys)
  {
    AllScalarSame(xs, ys);
    ScalarsTotal();
    SortedSetSame(ScalarLess, xs, ys, Scalar);
  }

  lemma {:induction false} StableUniqueIdempotent(values: seq<Value>)
    ensures StableUnique(StableUnique(values)) == StableUnique(values)
  {
    StableUniqueElements(values);
    if AllScalar(values) {
      StableUniqueSame(values, StableUnique(values));
    } else {
      AllScalarSame(values, StableUnique(values));
      DedupeNoDuplicates(values);
      DedupeFixed(Dedupe(values));
    }
  }

  /** `==`-membership sees only which members are present. */
  lemma {:induction false} MemberSame(v: Value, xs: seq<Value>, ys: seq<Value>)
    requires SameElements(xs, ys)
    ensures Member(v, xs) == Member(v, ys)
  {
    forall i | 0 <= i < |xs| && PyEq(v, xs[i]) ensures Member(v, ys) { assert xs[i] in ys; }
    forall i | 0 <= i < |ys| && PyEq(v, ys[i]) ensures Member(v, xs) { assert ys[i] in xs; }
  }
}
