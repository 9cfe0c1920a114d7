/** `generate_invalid`: every case it can return breaks a constraint the validator checks. */
module GenerateInvalid {
  import opened Model
  import opened Validation
  import opened Generate
  import opened Text

  /** What a case violates. */
  datatype Flaw =
    | WrongType | OutsideEnum
    | TooShort | TooLong | OffPattern
    | BelowMinimum | AboveMaximum | AtExclusiveMinimum | AtExclusiveMaximum | NotMultiple
    | TooFewItems | BadItem(item: Flaw)
    | Missing(name: string) | BadField(name: string, field: Flaw)

  datatype Case = Case(flaw: Flaw, value: Value)

  predicate HasWrong(t: JType) { t in {TString, TInteger, TNumber, TBoolean, TArray, TObject} }

  function Wrong(t: JType): Value
    requires HasWrong(t)
  {
    match t
    case TString => Int(12345)
    case TInteger => Str("not-an-int")
    case TNumber => Str("not-a-number")
    case TBoolean => Str("not-a-bool")
    case TArray => Obj(map["not" := Str("an-array")])
    case TObject => Arr([Str("not"), Str("an-object")])
  }

  const ENUM_PREFIX := "__invalid_enum_"

  predicate OutsideText(text: string) {
    exists n: nat :: n <= 9999 && text == ENUM_PREFIX + Decimal(n)
  }

  predicate OffText(text: string) {
    |text| == 8 && Lowercase(text[..5]) && text[5..] == "!!!"
  }

  predicate IsText(v: Value, length: int) {
    v.Str? && |v.s| == Larger(length, 0) && Lowercase(v.s)
  }

  /** What the value of a case with this flaw can be, over every draw. */
  predicate Flawed(s: Schema, depth: nat, flaw: Flaw, v: Value)
    decreases flaw
  {
    var lead, b := Lead(s.kw.typ), s.kw.bounds;
    depth <= DEPTH_LIMIT &&
    match flaw
    case WrongType => HasWrong(lead) && v == Wrong(lead)
    case OutsideEnum => s.kw.enum.Some? && s.kw.enum.value != [] && v.Str? && OutsideText(v.s)
    case TooShort => lead == TString && b.minLength.Some? && IsText(v, b.minLength.value - 1)
    case TooLong => lead == TString && b.maxLength.Some? && IsText(v, b.maxLength.value + 5)
    case OffPattern => lead == TString && s.kw.pattern.Some? && v.Str? && OffText(v.s)
    case BelowMinimum => lead in {TInteger, TNumber} && b.minimum.Some? && v == Float(b.minimum.value - 1.0)
    case AboveMaximum => lead in {TInteger, TNumber} && b.maximum.Some? && v == Float(b.maximum.value + 1.0)
    case AtExclusiveMinimum => lead in {TInteger, TNumber} && b.exclusiveMinimum.Some? && v == Float(b.exclusiveMinimum.value)
    case AtExclusiveMaximum => lead in {TInteger, TNumber} && b.exclusiveMaximum.Some? && v == Float(b.exclusiveMaximum.value)
    case NotMultiple => lead in {TInteger, TNumber} && HasMultiple(s.kw) && v == Float(s.kw.multipleOf.value / 2.0)
    case TooFewItems => lead == TArray && b.minItems.Some? && v == Arr([])
    case BadItem(item) =>
      lead == TArray && s.items.Some? && v.Arr? && |v.elems| == 1 && Flawed(s.items.value, depth + 1, item, v.elems[0])
    case Missing(x) =>
      && lead == TObject && x in s.kw.required && v.Obj? && v.fields.Keys == s.properties.Keys - {x}
      && forall y :: y in v.fields ==> Draws(s.properties[y], depth + 1, v.fields[y])
    case BadField(x, field) =>
      && lead == TObject && x in s.properties && v.Obj? && v.fields.Keys == s.properties.Keys
      && Flawed(s.properties[x], depth + 1, field, v.fields[x])
      && forall y :: y in v.fields && y != x ==> Draws(s.properties[y], depth + 1, v.fields[y])
  }

  predicate HasMultiple(kw: Keywords) { kw.multipleOf.Some? && kw.multipleOf.value != 0.0 }

  function If(condition: bool, flaw: Flaw): seq<Flaw> { if condition then [flaw] else [] }

  /** The flaws of the node itself, in the order they are listed. */
  function OwnFlaws(s: Schema): seq<Flaw> {
    If(HasWrong(Lead(s.kw.typ)), WrongType) + If(s.kw.enum.Some? && s.kw.enum.value != [], OutsideEnum) + LimitFlaws(s)
  }

  function LimitFlaws(s: Schema): seq<Flaw> {
    match Lead(s.kw.typ)
    case TString => TextFlaws(s.kw)
    case TInteger => NumberFlaws(s.kw)
    case TNumber => NumberFlaws(s.kw)
    case TArray => If(s.kw.bounds.minItems.Some?, TooFewItems)
    case TObject => seq(|s.kw.required|, i requires 0 <= i < |s.kw.required| => Missing(s.kw.required[i]))
    case _ => []
  }

  function TextFlaws(kw: Keywords): seq<Flaw> {
    If(kw.bounds.minLength.Some?, TooShort) + If(kw.bounds.maxLength.Some?, TooLong) + If(kw.pattern.Some?, OffPattern)
  }

  function NumberFlaws(kw: Keywords): seq<Flaw> {
    var b := kw.bounds;
    If(b.minimum.Some?, BelowMinimum) + If(b.maximum.Some?, AboveMaximum)
    + If(b.exclusiveMinimum.Some?, AtExclusiveMinimum) + If(b.exclusiveMaximum.Some?, AtExclusiveMaximum)
    + If(HasMultiple(kw), NotMultiple)
  }

  /** The order in which a node's properties were declared. */
  datatype FieldOrder = FieldOrder(names: Schema -> seq<string>)

  ghost predicate Lists(order: FieldOrder) {
    forall s: Schema :: forall x :: x in order.names(s) <==> x in s.properties
  }

  function Two(flaws: seq<Flaw>): seq<Flaw> { if |flaws| > 2 then flaws[..2] else flaws }

  function InItems(flaws: seq<Flaw>): seq<Flaw> {
    seq(|flaws|, i requires 0 <= i < |flaws| => BadItem(flaws[i]))
  }

  function InField(name: string, flaws: seq<Flaw>): seq<Flaw> {
    seq(|flaws|, i requires 0 <= i < |flaws| => BadField(name, flaws[i]))
  }

  /** The first four properties. */
  function Visited(order: FieldOrder, s: Schema): seq<string> {
    var names := order.names(s);
    if |names| > 4 then names[..4] else names
  }

  /** The flaws of every case `generate_invalid(s, rng, depth)` returns, in order: the node's own, then of each nested
      list the first two. */
  function AllFlaws(order: FieldOrder, s: Schema, depth: nat): seq<Flaw>
    decreases Deeper(depth), 1, 0
  {
    if depth > DEPTH_LIMIT then [] else OwnFlaws(s) + NestedFlaws(order, s, depth)
  }

  function NestedFlaws(order: FieldOrder, s: Schema, depth: nat): seq<Flaw>
    requires depth <= DEPTH_LIMIT
    decreases Deeper(depth), 0, |Visited(order, s)| + 1
  {
    match Lead(s.kw.typ)
    case TArray => if s.items.Some? then InItems(Two(AllFlaws(order, s.items.value, depth + 1))) else []
    case TObject => FieldFlaws(order, s, depth, Visited(order, s))
    case _ => []
  }

  function FieldFlaws(order: FieldOrder, s: Schema, depth: nat, names: seq<string>): seq<Flaw>
    requires depth <= DEPTH_LIMIT
    decreases Deeper(depth), 0, |names|
  {
    if names == [] then []
    else
      var last := names[|names| - 1];
      FieldFlaws(order, s, depth, names[..|names| - 1])
      + if last in s.properties then InField(last, Two(AllFlaws(order, s.properties[last], depth + 1))) else []
  }

  /** The lists `generate_invalid(s, rng, depth)` can return. */
  predicate Returned(order: FieldOrder, s: Schema, depth: nat, cases: seq<Case>) {
    FlawsOf(cases) == AllFlaws(order, s, depth) && AllFlawed(s, depth, cases)
  }

  function FlawsOf(cases: seq<Case>): seq<Flaw> {
    seq(|cases|, i requires 0 <= i < |cases| => cases[i].flaw)
  }

  predicate AllFlawed(s: Schema, depth: nat, cases: seq<Case>) {
    forall i :: 0 <= i < |cases| ==> Flawed(s, depth, cases[i].flaw, cases[i].value)
  }

  // ------------------------------------------------------------------ nothing that is stated goes unviolated

  /** The kind generated for: the type stated, the first of a union, or an object where none is stated. */
  predicate Leads(s: Schema, t: JType) {
    || (s.kw.typ.None? && t == TObject)
    || (s.kw.typ == Some(TOther("")) && t == TObject)
    || (s.kw.typ.Some? && s.kw.typ.value.TUnion? && s.kw.typ.value.members != [] && t == s.kw.typ.value.members[0])
    || (s.kw.typ == Some(t) && !t.TUnion? && t != TOther(""))
  }

  /** A case of another kind than the one generated for. */
  predicate KindBroken(s: Schema, cases: seq<Case>) {
    forall t :: t in {TString, TInteger, TNumber, TBoolean, TArray, TObject} && Leads(s, t) ==>
      exists i :: 0 <= i < |cases| && !TypeMatches(t, cases[i].value)
  }

  /** For a stated enum, a text no member is equal to, unless a member looks like the texts made for the purpose. */
  predicate EnumBroken(s: Schema, cases: seq<Case>) {
    s.kw.enum.Some? && s.kw.enum.value != [] && EnumClear(s.kw.enum) ==>
      exists i :: 0 <= i < |cases| && !Member(cases[i].value, s.kw.enum.value)
  }

  /** For a stated length, a text beyond it, where there is one; for a stated pattern, a text made not to match. */
  predicate TextBroken(s: Schema, cases: seq<Case>) {
    var b := s.kw.bounds;
    Leads(s, TString) ==>
      && (b.minLength.Some? && 1 <= b.minLength.value ==>
            exists i :: 0 <= i < |cases| && cases[i].value.Str? && |cases[i].value.s| < b.minLength.value)
      && (b.maxLength.Some? ==> exists i :: 0 <= i < |cases| && cases[i].value.Str? && |cases[i].value.s| > b.maxLength.value)
      && (s.kw.pattern.Some? ==>
            exists i :: 0 <= i < |cases| && cases[i].value.Str? && |cases[i].value.s| == 8 && cases[i].value.s[5..] == "!!!")
  }

  /** For each stated limit, a number beyond it, or on it where it is exclusive; for a step, a number off it. */
  predicate NumberBroken(s: Schema, cases: seq<Case>) {
    var b := s.kw.bounds;
    Leads(s, TInteger) || Leads(s, TNumber) ==>
      && (b.minimum.Some? ==> exists i :: 0 <= i < |cases| && cases[i].value.Float? && cases[i].value.r < b.minimum.value)
      && (b.maximum.Some? ==> exists i :: 0 <= i < |cases| && cases[i].value.Float? && cases[i].value.r > b.maximum.value)
      && (b.exclusiveMinimum.Some? ==> exists i :: 0 <= i < |cases| && cases[i].value.Float? && cases[i].value.r <= b.exclusiveMinimum.value)
      && (b.exclusiveMaximum.Some? ==> exists i :: 0 <= i < |cases| && cases[i].value.Float? && cases[i].value.r >= b.exclusiveMaximum.value)
      && (s.kw.multipleOf.Some? && s.kw.multipleOf.value != 0.0 ==>
            exists i :: 0 <= i < |cases| && cases[i].value.Float? && !MultipleOk(s.kw.multipleOf, cases[i].value.r))
  }

  /** For a stated number of items, fewer; and one item of another kind than the items are generated for. */
  predicate ArrayBroken(s: Schema, depth: nat, cases: seq<Case>) {
    Leads(s, TArray) ==>
      && (s.kw.bounds.minItems.Some? && 1 <= s.kw.bounds.minItems.value ==>
            exists i :: 0 <= i < |cases| && cases[i].value.Arr? && |cases[i].value.elems| < s.kw.bounds.minItems.value)
      && (s.items.Some? && depth < DEPTH_LIMIT ==>
            forall t :: t in {TString, TInteger, TNumber, TBoolean, TArray, TObject} && Leads(s.items.value, t) ==>
              exists i :: 0 <= i < |cases| && cases[i].value.Arr? && |cases[i].value.elems| == 1 && !TypeMatches(t, cases[i].value.elems[0]))
  }

  /** For each required name, an object without it; for each of the first four properties, one with a value of another kind. */
  predicate ObjectBroken(order: FieldOrder, s: Schema, depth: nat, cases: seq<Case>) {
    Leads(s, TObject) ==>
      && (forall name :: name in s.kw.required ==> exists i :: 0 <= i < |cases| && cases[i].value.Obj? && name !in cases[i].value.fields)
      && (depth < DEPTH_LIMIT ==>
            forall k, t :: 0 <= k < |order.names(s)| && k < 4 && order.names(s)[k] in s.properties
                           && t in {TString, TInteger, TNumber, TBoolean, TArray, TObject} && Leads(s.properties[order.names(s)[k]], t) ==>
              exists i :: 0 <= i < |cases| && cases[i].value.Obj? && order.names(s)[k] in cases[i].value.fields
                          && !TypeMatches(t, cases[i].value.fields[order.names(s)[k]]))
  }

  /** Every keyword the node states about its own kind is broken by some case. */
  predicate AllBroken(order: FieldOrder, s: Schema, depth: nat, cases: seq<Case>) {
    && KindBroken(s, cases) && EnumBroken(s, cases) && TextBroken(s, cases) && NumberBroken(s, cases)
    && ArrayBroken(s, depth, cases) && ObjectBroken(order, s, depth, cases)
  }

  lemma {:induction false} LeadsExactly(s: Schema, t: JType)
    requires HasWrong(t)
    ensures Leads(s, t) <==> Lead(s.kw.typ) == t
  {
  }

  lemma {:induction false} CaseOf(order: FieldOrder, s: Schema, depth: nat, cases: seq<Case>, flaw: Flaw) returns (i: nat)
    requires Returned(order, s, depth, cases) && flaw in AllFlaws(order, s, depth)
    ensures i < |cases| && cases[i].flaw == flaw && Flawed(s, depth, flaw, cases[i].value)
  {
    hide AllFlaws, Flawed;
    i :| 0 <= i < |cases| && FlawsOf(cases)[i] == flaw;
  }

  lemma {:induction false} OwnListed(order: FieldOrder, s: Schema, depth: nat, flaw: Flaw)
    requires depth <= DEPTH_LIMIT && (flaw in OwnFlaws(s) || flaw in NestedFlaws(order, s, depth))
    ensures flaw in AllFlaws(order, s, depth)
  {
    hide OwnFlaws, NestedFlaws;
  }

  lemma {:induction false} KindIsBroken(order: FieldOrder, s: Schema, depth: nat, cases: seq<Case>)
    requires Returned(order, s, depth, cases) && depth <= DEPTH_LIMIT
    ensures KindBroken(s, cases)
  {
    hide AllFlaws, Returned;
    forall t | t in {TString, TInteger, TNumber, TBoolean, TArray, TObject} && Leads(s, t)
      ensures exists i :: 0 <= i < |cases| && !TypeMatches(t, cases[i].value)
    {
      LeadsExactly(s, t);
      assert OwnFlaws(s)[0] == WrongType;
      hide OwnFlaws, Leads;
      OwnListed(order, s, depth, WrongType);
      var i := CaseOf(order, s, depth, cases, WrongType);
    }
  }

  lemma {:induction false} EnumIsBroken(order: FieldOrder, s: Schema, depth: nat, cases: seq<Case>)
    requires Returned(order, s, depth, cases) && depth <= DEPTH_LIMIT
    ensures EnumBroken(s, cases)
  {
    hide AllFlaws, Returned, LimitFlaws;
    if s.kw.enum.Some? && s.kw.enum.value != [] && EnumClear(s.kw.enum) {
      assert OutsideEnum in OwnFlaws(s);
      hide OwnFlaws;
      OwnListed(order, s, depth, OutsideEnum);
      var i := CaseOf(order, s, depth, cases, OutsideEnum);
      OutsideRefused(s.kw, cases[i].value);
    }
  }

  lemma {:induction false} LimitListed(order: FieldOrder, s: Schema, depth: nat, flaw: Flaw)
    requires depth <= DEPTH_LIMIT && flaw in LimitFlaws(s)
    ensures flaw in AllFlaws(order, s, depth)
  {
    hide LimitFlaws, AllFlaws;
    assert flaw in OwnFlaws(s);
    hide OwnFlaws;
    OwnListed(order, s, depth, flaw);
  }

  lemma {:induction false} TextIsBroken(order: FieldOrder, s: Schema, depth: nat, cases: seq<Case>)
    requires Returned(order, s, depth, cases) && depth <= DEPTH_LIMIT
    ensures TextBroken(s, cases)
  {
    hide AllFlaws, Returned, OwnFlaws;
    LeadsExactly(s, TString);
    var b := s.kw.bounds;
    if Leads(s, TString) {
      if b.minLength.Some? && 1 <= b.minLength.value {
        LimitListed(order, s, depth, TooShort);
        var i := CaseOf(order, s, depth, cases, TooShort);
      }
      if b.maxLength.Some? {
        LimitListed(order, s, depth, TooLong);
        var i := CaseOf(order, s, depth, cases, TooLong);
      }
      if s.kw.pattern.Some? {
        LimitListed(order, s, depth, OffPattern);
        var i := CaseOf(order, s, depth, cases, OffPattern);
      }
    }
  }

  lemma {:induction false} NumberIsBroken(order: FieldOrder, s: Schema, depth: nat, cases: seq<Case>)
    requires Returned(order, s, depth, cases) && depth <= DEPTH_LIMIT
    ensures NumberBroken(s, cases)
  {
    hide AllFlaws, Returned, OwnFlaws;
    LeadsExactly(s, TInteger);
    LeadsExactly(s, TNumber);
    if Leads(s, TInteger) || Leads(s, TNumber) {
      NumberListed(s);
      forall flaw | flaw in NumberFlaws(s.kw) ensures exists i :: 0 <= i < |cases| && Flawed(s, depth, flaw, cases[i].value) {
        LimitListed(order, s, depth, flaw);
        var i := CaseOf(order, s, depth, cases, flaw);
      }
      hide Leads, NumberFlaws;
      if s.kw.multipleOf.Some? && s.kw.multipleOf.value != 0.0 { HalfNoMultiple(s.kw.multipleOf.value); }
    }
  }

  lemma {:induction false} NumberListed(s: Schema)
    ensures
      var b, flaws := s.kw.bounds, NumberFlaws(s.kw);
      && (b.minimum.Some? ==> BelowMinimum in flaws) && (b.maximum.Some? ==> AboveMaximum in flaws)
      && (b.exclusiveMinimum.Some? ==> AtExclusiveMinimum in flaws) && (b.exclusiveMaximum.Some? ==> AtExclusiveMaximum in flaws)
      && (s.kw.multipleOf.Some? && s.kw.multipleOf.value != 0.0 ==> NotMultiple in flaws)
  {
  }

  lemma {:induction false} FirstFlaw(order: FieldOrder, s: Schema, depth: nat, t: JType)
    requires depth <= DEPTH_LIMIT && HasWrong(t) && Leads(s, t)
    ensures WrongType in Two(AllFlaws(order, s, depth))
  {
    LeadsExactly(s, t);
    assert AllFlaws(order, s, depth)[0] == WrongType by { hide LimitFlaws, NestedFlaws; }
    hide AllFlaws;
    assert Two(AllFlaws(order, s, depth))[0] == WrongType;
  }

  lemma {:induction false} ArrayIsBroken(order: FieldOrder, s: Schema, depth: nat, cases: seq<Case>)
    requires Returned(order, s, depth, cases) && depth <= DEPTH_LIMIT
    ensures ArrayBroken(s, depth, cases)
  {
    hide AllFlaws, Returned, OwnFlaws;
    LeadsExactly(s, TArray);
    if Leads(s, TArray) {
      if s.kw.bounds.minItems.Some? && 1 <= s.kw.bounds.minItems.value {
        LimitListed(order, s, depth, TooFewItems);
        var i := CaseOf(order, s, depth, cases, TooFewItems);
      }
      if s.items.Some? && depth < DEPTH_LIMIT {
        forall t | t in {TString, TInteger, TNumber, TBoolean, TArray, TObject} && Leads(s.items.value, t)
          ensures exists i :: 0 <= i < |cases| && cases[i].value.Arr? && |cases[i].value.elems| == 1 && !TypeMatches(t, cases[i].value.elems[0])
        {
          FirstFlaw(order, s.items.value, depth + 1, t);
          LeadsExactly(s.items.value, t);
          ItemListed(order, s, depth, WrongType);
          OwnListed(order, s, depth, BadItem(WrongType));
          var i := CaseOf(order, s, depth, cases, BadItem(WrongType));
          hide Leads;
          assert Flawed(s.items.value, depth + 1, WrongType, cases[i].value.elems[0]);
        }
      }
    }
  }

  lemma {:induction false} ItemListed(order: FieldOrder, s: Schema, depth: nat, flaw: Flaw)
    requires depth <= DEPTH_LIMIT && Lead(s.kw.typ) == TArray && s.items.Some? && flaw in Two(AllFlaws(order, s.items.value, depth + 1))
    ensures BadItem(flaw) in NestedFlaws(order, s, depth)
  {
    hide AllFlaws, Two;
    var few := Two(AllFlaws(order, s.items.value, depth + 1));
    var i :| 0 <= i < |few| && few[i] == flaw;
    assert InItems(few)[i] == BadItem(flaw);
  }

  lemma {:induction false} FieldIn(order: FieldOrder, s: Schema, depth: nat, names: seq<string>, k: nat, flaw: Flaw)
    requires depth <= DEPTH_LIMIT && k < |names| && names[k] in s.properties
    requires flaw in Two(AllFlaws(order, s.properties[names[k]], depth + 1))
    ensures BadField(names[k], flaw) in FieldFlaws(order, s, depth, names)
    decreases |names|
  {
    hide AllFlaws, Two;
    if k == |names| - 1 {
      var few := Two(AllFlaws(order, s.properties[names[k]], depth + 1));
      var i :| 0 <= i < |few| && few[i] == flaw;
      assert InField(names[k], few)[i] == BadField(names[k], flaw);
    } else {
      FieldIn(order, s, depth, names[..|names| - 1], k, flaw);
    }
  }

  lemma {:induction false} ObjectIsBroken(order: FieldOrder, s: Schema, depth: nat, cases: seq<Case>)
    requires Returned(order, s, depth, cases) && depth <= DEPTH_LIMIT
    ensures ObjectBroken(order, s, depth, cases)
  {
    hide AllFlaws, Returned, OwnFlaws, Draws;
    LeadsExactly(s, TObject);
    if Leads(s, TObject) {
      forall name | name in s.kw.required ensures exists i :: 0 <= i < |cases| && cases[i].value.Obj? && name !in cases[i].value.fields {
        var j :| 0 <= j < |s.kw.required| && s.kw.required[j] == name;
        assert LimitFlaws(s)[j] == Missing(name);
        LimitListed(order, s, depth, Missing(name));
        var i := CaseOf(order, s, depth, cases, Missing(name));
      }
      if depth < DEPTH_LIMIT {
        forall k, t | 0 <= k < |order.names(s)| && k < 4 && order.names(s)[k] in s.properties
                      && t in {TString, TInteger, TNumber, TBoolean, TArray, TObject} && Leads(s.properties[order.names(s)[k]], t)
          ensures exists i :: 0 <= i < |cases| && cases[i].value.Obj? && order.names(s)[k] in cases[i].value.fields
                              && !TypeMatches(t, cases[i].value.fields[order.names(s)[k]])
        {
          FieldIsBroken(order, s, depth, cases, k, t);
        }
      }
    }
  }

  lemma {:induction false} FieldIsBroken(order: FieldOrder, s: Schema, depth: nat, cases: seq<Case>, k: nat, t: JType)
    requires Returned(order, s, depth, cases) && depth < DEPTH_LIMIT && Lead(s.kw.typ) == TObject
    requires k < |order.names(s)| && k < 4 && order.names(s)[k] in s.properties && HasWrong(t) && Leads(s.properties[order.names(s)[k]], t)
    ensures exists i :: 0 <= i < |cases| && cases[i].value.Obj? && order.names(s)[k] in cases[i].value.fields
                        && !TypeMatches(t, cases[i].value.fields[order.names(s)[k]])
  {
    hide AllFlaws, Returned, OwnFlaws, Draws, FieldFlaws;
    var name := order.names(s)[k];
    FirstFlaw(order, s.properties[name], depth + 1, t);
    LeadsExactly(s.properties[name], t);
    assert Visited(order, s)[k] == name;
    FieldIn(order, s, depth, Visited(order, s), k, WrongType);
    assert BadField(name, WrongType) in NestedFlaws(order, s, depth);
    OwnListed(order, s, depth, BadField(name, WrongType));
    var i := CaseOf(order, s, depth, cases, BadField(name, WrongType));
    hide Leads, NestedFlaws, Visited;
    assert Flawed(s.properties[name], depth + 1, WrongType, cases[i].value.fields[name]);
  }

  /** In whatever is returned, every keyword the schema states about its own kind is violated by some case. */
  lemma {:induction false} NothingUnviolated(order: FieldOrder, s: Schema, depth: nat, cases: seq<Case>)
    requires Returned(order, s, depth, cases) && depth <= DEPTH_LIMIT
    ensures AllBroken(order, s, depth, cases)
  {
    hide *;
    KindIsBroken(order, s, depth, cases);
    EnumIsBroken(order, s, depth, cases);
    TextIsBroken(order, s, depth, cases);
    NumberIsBroken(order, s, depth, cases);
    ArrayIsBroken(order, s, depth, cases);
    ObjectIsBroken(order, s, depth, cases);
    BrokenMeans(order, s, depth, cases);
  }

  lemma {:induction false} BrokenMeans(order: FieldOrder, s: Schema, depth: nat, cases: seq<Case>)
    ensures AllBroken(order, s, depth, cases) <==>
      && KindBroken(s, cases) && EnumBroken(s, cases) && TextBroken(s, cases) && NumberBroken(s, cases)
      && ArrayBroken(s, depth, cases) && ObjectBroken(order, s, depth, cases)
  {
    hide KindBroken, EnumBroken, TextBroken, NumberBroken, ArrayBroken, ObjectBroken;
  }

  /** At most a wrong kind, a value outside the enum, one case for each limit or required name, and two cases for the items or
      for each of four properties. */
  function MostCases(s: Schema): nat {
    if Leads(s, TObject) then 2 + |s.kw.required| + 8 else if Leads(s, TArray) then 5 else if Leads(s, TString) then 5 else 7
  }

  lemma {:induction false} FieldsBounded(order: FieldOrder, s: Schema, depth: nat, names: seq<string>)
    requires depth <= DEPTH_LIMIT
    ensures |FieldFlaws(order, s, depth, names)| <= 2 * |names|
    decreases |names|
  {
    hide AllFlaws;
    if names != [] { FieldsBounded(order, s, depth, names[..|names| - 1]); }
  }

  lemma {:induction false} LimitsBounded(s: Schema)
    ensures |LimitFlaws(s)| <=
      match Lead(s.kw.typ)
      case TString => 3
      case TInteger => 5
      case TNumber => 5
      case TArray => 1
      case TObject => |s.kw.required|
      case _ => 0
  {
  }

  lemma {:induction false} NestedBounded(order: FieldOrder, s: Schema, depth: nat)
    requires depth <= DEPTH_LIMIT
    ensures |NestedFlaws(order, s, depth)| <= if Lead(s.kw.typ) == TObject then 8 else if Lead(s.kw.typ) == TArray then 2 else 0
  {
    hide AllFlaws, FieldFlaws;
    FieldsBounded(order, s, depth, Visited(order, s));
  }

  lemma {:induction false} OwnBounded(s: Schema)
    ensures |OwnFlaws(s)| <= 2 + |LimitFlaws(s)|
  {
    hide LimitFlaws;
  }

  lemma {:induction false} FlawsBounded(order: FieldOrder, s: Schema, depth: nat)
    requires depth <= DEPTH_LIMIT
    ensures |AllFlaws(order, s, depth)| == |OwnFlaws(s)| + |NestedFlaws(order, s, depth)|
  {
    hide OwnFlaws, NestedFlaws;
  }

  lemma {:induction false} NoMoreCases(order: FieldOrder, s: Schema, depth: nat, cases: seq<Case>)
    requires Returned(order, s, depth, cases) && depth <= DEPTH_LIMIT
    ensures |cases| <= MostCases(s)
  {
    hide AllFlaws, OwnFlaws, LimitFlaws, NestedFlaws, Leads, AllFlawed;
    assert |FlawsOf(cases)| == |cases|;
    LeadsExactly(s, TObject);
    LeadsExactly(s, TArray);
    LeadsExactly(s, TString);
    FlawsBounded(order, s, depth);
    OwnBounded(s);
    LimitsBounded(s);
    NestedBounded(order, s, depth);
  }

  // ------------------------------------------------------------------ the generator

  /** The first two nested violations, at most. */
  function FirstTwo(cases: seq<Case>): (few: seq<Case>)
    ensures |few| <= 2 && FlawsOf(few) == Two(FlawsOf(cases))
    ensures forall c :: c in few ==> c in cases
  {
    if |cases| > 2 then cases[..2] else cases
  }

  method GenerateInvalid(order: FieldOrder, s: Option<Schema>, depth: nat) returns (cases: seq<Case>)
    requires Lists(order)
    ensures if s.None? then cases == [] else Returned(order, s.value, depth, cases)
    ensures s.Some? && depth <= DEPTH_LIMIT ==> AllBroken(order, s.value, depth, cases) && |cases| <= MostCases(s.value)
    decreases Deeper(depth), 1
  {
    hide Flawed, FieldFlaws, OwnFlaws, AllBroken, MostCases;
    if s.None? || depth > DEPTH_LIMIT { return []; }
    var node := s.value;
    var own := OwnCases(node, depth);
    var nested: seq<Case> := [];
    match Lead(node.kw.typ) {
      case TArray => nested := ItemCases(order, node, depth);
      case TObject => nested := FieldCases(order, node, depth);
      case _ =>
    }
    AllFlawedConcat(node, depth, own, nested);
    assert AllFlaws(order, node, depth) == OwnFlaws(node) + NestedFlaws(order, node, depth);
    cases := own + nested;
    hide AllFlaws;
    NothingUnviolated(order, node, depth, cases);
    NoMoreCases(order, node, depth, cases);
  }

  method OwnCases(s: Schema, depth: nat) returns (cases: seq<Case>)
    requires depth <= DEPTH_LIMIT
    ensures AllFlawed(s, depth, cases) && FlawsOf(cases) == OwnFlaws(s)
    decreases Deeper(depth), 0
  {
    hide AllFlawed, FlawsOf, Draws, NumberFlaws, TextFlaws, Decimal;
    cases := NoCases(s, depth);
    var lead := Lead(s.kw.typ);
    if HasWrong(lead) { cases := WithCase(s, depth, cases, Case(WrongType, Wrong(lead))); }
    if s.kw.enum.Some? && s.kw.enum.value != [] {
      var n: nat :| n <= 9999;
      cases := WithCase(s, depth, cases, Case(OutsideEnum, Str(ENUM_PREFIX + Decimal(n))));
    }
    var more := NoCases(s, depth);
    match lead {
      case TString => more := TextCases(s, depth);
      case TInteger => more := NumberCases(s, depth);
      case TNumber => more := NumberCases(s, depth);
      case TArray => if s.kw.bounds.minItems.Some? { more := WithCase(s, depth, more, Case(TooFewItems, Arr([]))); }
      case TObject => more := MissingCases(s, depth);
      case _ =>
    }
    AllFlawedConcat(s, depth, cases, more);
    cases := cases + more;
  }

  method NoCases(ghost s: Schema, ghost depth: nat) returns (cases: seq<Case>)
    ensures cases == [] && AllFlawed(s, depth, cases) && FlawsOf(cases) == []
  {
    cases := [];
  }

  method WithCase(ghost s: Schema, ghost depth: nat, cases: seq<Case>, c: Case) returns (more: seq<Case>)
    requires AllFlawed(s, depth, cases) && Flawed(s, depth, c.flaw, c.value)
    ensures more == cases + [c] && AllFlawed(s, depth, more) && FlawsOf(more) == FlawsOf(cases) + [c.flaw]
  {
    more := cases + [c];
    hide Flawed;
  }

  lemma {:induction false} AllFlawedConcat(s: Schema, depth: nat, a: seq<Case>, b: seq<Case>)
    requires AllFlawed(s, depth, a) && AllFlawed(s, depth, b)
    ensures AllFlawed(s, depth, a + b) && FlawsOf(a + b) == FlawsOf(a) + FlawsOf(b)
  {
    hide Flawed;
  }

  method TextCases(s: Schema, depth: nat) returns (cases: seq<Case>)
    requires depth <= DEPTH_LIMIT && Lead(s.kw.typ) == TString
    ensures AllFlawed(s, depth, cases)
    ensures FlawsOf(cases) == TextFlaws(s.kw)
  {
    cases := [];
    var base := RandomText(5);
    if s.kw.bounds.minLength.Some? {
      var text := RandomText(Larger(s.kw.bounds.minLength.value - 1, 0));
      cases := cases + [Case(TooShort, Str(text))];
    }
    if s.kw.bounds.maxLength.Some? {
      var text := RandomText(s.kw.bounds.maxLength.value + 5);
      cases := cases + [Case(TooLong, Str(text))];
    }
    if s.kw.pattern.Some? {
      assert (base + "!!!")[..5] == base;
      cases := cases + [Case(OffPattern, Str(base + "!!!"))];
    }
  }

  method NumberCases(s: Schema, depth: nat) returns (cases: seq<Case>)
    requires depth <= DEPTH_LIMIT && Lead(s.kw.typ) in {TInteger, TNumber}
    ensures AllFlawed(s, depth, cases) && FlawsOf(cases) == NumberFlaws(s.kw)
  {
    hide AllFlawed, FlawsOf, Flawed;
    cases := LimitCases(s, depth);
    var more := ExclusiveCases(s, depth);
    AllFlawedConcat(s, depth, cases, more);
    cases := cases + more;
  }

  method LimitCases(s: Schema, depth: nat) returns (cases: seq<Case>)
    requires depth <= DEPTH_LIMIT && Lead(s.kw.typ) in {TInteger, TNumber}
    ensures AllFlawed(s, depth, cases)
    ensures FlawsOf(cases) == If(s.kw.bounds.minimum.Some?, BelowMinimum) + If(s.kw.bounds.maximum.Some?, AboveMaximum)
  {
    var b := s.kw.bounds;
    cases := [];
    if b.minimum.Some? { cases := WithCase(s, depth, cases, Case(BelowMinimum, Float(b.minimum.value - 1.0))); }
    if b.maximum.Some? { cases := WithCase(s, depth, cases, Case(AboveMaximum, Float(b.maximum.value + 1.0))); }
    hide AllFlawed, FlawsOf, Draws;
  }

  method ExclusiveCases(s: Schema, depth: nat) returns (cases: seq<Case>)
    requires depth <= DEPTH_LIMIT && Lead(s.kw.typ) in {TInteger, TNumber}
    ensures AllFlawed(s, depth, cases) && FlawsOf(cases) == If(s.kw.bounds.exclusiveMinimum.Some?, AtExclusiveMinimum)
      + If(s.kw.bounds.exclusiveMaximum.Some?, AtExclusiveMaximum) + If(HasMultiple(s.kw), NotMultiple)
  {
    var b := s.kw.bounds;
    cases := [];
    if b.exclusiveMinimum.Some? { cases := WithCase(s, depth, cases, Case(AtExclusiveMinimum, Float(b.exclusiveMinimum.value))); }
    if b.exclusiveMaximum.Some? { cases := WithCase(s, depth, cases, Case(AtExclusiveMaximum, Float(b.exclusiveMaximum.value))); }
    if HasMultiple(s.kw) { cases := WithCase(s, depth, cases, Case(NotMultiple, Float(s.kw.multipleOf.value / 2.0))); }
    hide AllFlawed, FlawsOf, Draws;
  }

  /** One draw for every declared field except `without`. */
  method DrawFields(s: Schema, depth: nat, without: Option<string>) returns (fields: map<string, Value>)
    requires depth <= DEPTH_LIMIT
    ensures fields.Keys == if without.Some? then s.properties.Keys - {without.value} else s.properties.Keys
    ensures forall y :: y in fields ==> Draws(s.properties[y], depth + 1, fields[y])
  {
    fields := map[];
    var names := if without.Some? then s.properties.Keys - {without.value} else s.properties.Keys;
    var todo := names;
    while todo != {}
      invariant todo <= names && fields.Keys == names - todo
      invariant forall y :: y in fields ==> Draws(s.properties[y], depth + 1, fields[y])
    {
      var name :| name in todo;
      var v := GenerateValid(Some(s.properties[name]), depth + 1);
      fields := fields[name := v];
      todo := todo - {name};
    }
  }

  method MissingCases(s: Schema, depth: nat) returns (cases: seq<Case>)
    requires depth <= DEPTH_LIMIT && Lead(s.kw.typ) == TObject
    ensures AllFlawed(s, depth, cases)
    ensures FlawsOf(cases) == seq(|s.kw.required|, i requires 0 <= i < |s.kw.required| => Missing(s.kw.required[i]))
  {
    cases := [];
    for k := 0 to |s.kw.required|
      invariant |cases| == k && AllFlawed(s, depth, cases)
      invariant forall j :: 0 <= j < k ==> cases[j].flaw == Missing(s.kw.required[j])
    {
      var partial := DrawFields(s, depth, Some(s.kw.required[k]));
      cases := cases + [Case(Missing(s.kw.required[k]), Obj(partial))];
    }
  }

  method ItemCases(order: FieldOrder, s: Schema, depth: nat) returns (cases: seq<Case>)
    requires Lists(order) && depth <= DEPTH_LIMIT && Lead(s.kw.typ) == TArray
    ensures AllFlawed(s, depth, cases) && FlawsOf(cases) == NestedFlaws(order, s, depth)
    decreases Deeper(depth), 0
  {
    hide AllFlawed, FlawsOf, AllFlaws, Two, Flawed, OwnFlaws, InItems;
    cases := NoCases(s, depth);
    if s.items.Some? {
      var bad := GenerateInvalid(order, s.items, depth + 1);
      var few := FirstTwo(bad);
      FewFlawed(s.items.value, depth + 1, bad);
      cases := BadItems(s, depth, few);
      ReturnedFlaws(order, s.items.value, depth + 1, bad);
    }
  }

  lemma {:induction false} ReturnedFlaws(order: FieldOrder, s: Schema, depth: nat, cases: seq<Case>)
    requires Returned(order, s, depth, cases)
    ensures FlawsOf(cases) == AllFlaws(order, s, depth) && AllFlawed(s, depth, cases)
  {
    hide AllFlawed, FlawsOf, AllFlaws;
  }

  method BadItems(s: Schema, depth: nat, few: seq<Case>) returns (cases: seq<Case>)
    requires depth <= DEPTH_LIMIT && Lead(s.kw.typ) == TArray && s.items.Some? && AllFlawed(s.items.value, depth + 1, few)
    ensures AllFlawed(s, depth, cases) && FlawsOf(cases) == InItems(FlawsOf(few))
  {
    hide Flawed;
    cases := [];
    for k := 0 to |few|
      invariant |cases| == k && AllFlawed(s, depth, cases)
      invariant forall j :: 0 <= j < k ==> cases[j].flaw == BadItem(few[j].flaw)
    {
      BadItemFlawed(s, depth, few[k]);
      cases := cases + [Case(BadItem(few[k].flaw), Arr([few[k].value]))];
    }
    assert FlawsOf(cases) == InItems(FlawsOf(few));
  }

  lemma {:induction false} BadItemFlawed(s: Schema, depth: nat, c: Case)
    requires depth <= DEPTH_LIMIT && Lead(s.kw.typ) == TArray && s.items.Some? && Flawed(s.items.value, depth + 1, c.flaw, c.value)
    ensures Flawed(s, depth, BadItem(c.flaw), Arr([c.value]))
  {
  }

  lemma {:induction false} BadFieldFlawed(s: Schema, depth: nat, name: string, c: Case, full: map<string, Value>)
    requires depth <= DEPTH_LIMIT && Lead(s.kw.typ) == TObject && name in s.properties && Flawed(s.properties[name], depth + 1, c.flaw, c.value)
    requires full.Keys == s.properties.Keys && forall y :: y in full ==> Draws(s.properties[y], depth + 1, full[y])
    ensures Flawed(s, depth, BadField(name, c.flaw), Obj(full[name := c.value]))
  {
    hide Draws;
    assert full[name := c.value].Keys == s.properties.Keys;
  }

  /** The first four fields, the first two cases of each. */
  method FieldCases(order: FieldOrder, s: Schema, depth: nat) returns (cases: seq<Case>)
    requires Lists(order) && depth <= DEPTH_LIMIT && Lead(s.kw.typ) == TObject
    ensures AllFlawed(s, depth, cases) && FlawsOf(cases) == NestedFlaws(order, s, depth)
    decreases Deeper(depth), 0
  {
    hide AllFlawed, FlawsOf, Flawed, FieldFlaws, OwnFlaws;
    cases := NoCases(s, depth);
    var names := Visited(order, s);
    assert names[..0] == [] && names[..|names|] == names;
    NoFields(order, s, depth);
    for k := 0 to |names|
      invariant AllFlawed(s, depth, cases) && FlawsOf(cases) == FieldFlaws(order, s, depth, names[..k])
    {
      var name := names[k];
      assert name in order.names(s);
      var bad := GenerateInvalid(order, Some(s.properties[name]), depth + 1);
      var few := FirstTwo(bad);
      FewFlawed(s.properties[name], depth + 1, bad);
      var more := BadFields(s, depth, name, few);
      AllFlawedConcat(s, depth, cases, more);
      cases := cases + more;
      NextField(order, s, depth, names, k);
    }
  }

  lemma {:induction false} NoFields(order: FieldOrder, s: Schema, depth: nat)
    requires depth <= DEPTH_LIMIT
    ensures FieldFlaws(order, s, depth, []) == []
  {
  }

  lemma {:induction false} NextField(order: FieldOrder, s: Schema, depth: nat, names: seq<string>, k: nat)
    requires depth <= DEPTH_LIMIT && k < |names| && names[k] in s.properties
    ensures FieldFlaws(order, s, depth, names[..k + 1]) ==
      FieldFlaws(order, s, depth, names[..k]) + InField(names[k], Two(AllFlaws(order, s.properties[names[k]], depth + 1)))
  {
    assert names[..k + 1][..k] == names[..k];
    hide AllFlaws;
  }

  lemma {:induction false} FewFlawed(s: Schema, depth: nat, cases: seq<Case>)
    requires AllFlawed(s, depth, cases)
    ensures AllFlawed(s, depth, FirstTwo(cases))
  {
    hide Flawed;
  }

  method BadFields(s: Schema, depth: nat, name: string, few: seq<Case>) returns (cases: seq<Case>)
    requires depth <= DEPTH_LIMIT && Lead(s.kw.typ) == TObject && name in s.properties
    requires AllFlawed(s.properties[name], depth + 1, few)
    ensures AllFlawed(s, depth, cases) && FlawsOf(cases) == InField(name, FlawsOf(few))
  {
    hide Flawed, Draws;
    cases := [];
    for k := 0 to |few|
      invariant |cases| == k && AllFlawed(s, depth, cases)
      invariant forall j :: 0 <= j < k ==> cases[j].flaw == BadField(name, few[j].flaw)
    {
      var full := DrawFields(s, depth, None);
      BadFieldFlawed(s, depth, name, few[k], full);
      cases := WithCase(s, depth, cases, Case(BadField(name, few[k].flaw), Obj(full[name := few[k].value])));
    }
    assert FlawsOf(cases) == InField(name, FlawsOf(few));
  }

  // ------------------------------------------------------------------ every case is refused

  /** No member could be taken for the value chosen to be outside. */
  predicate EnumClear(e: Option<seq<Value>>) {
    e.Some? ==> forall i :: 0 <= i < |e.value| ==> e.value[i].Str? ==> !(ENUM_PREFIX <= e.value[i].s)
  }

  /** One concrete type at every node visited, lower bounds on lengths that leave something shorter, and a pattern
      that the deliberately odd text does not match. */
  ghost predicate Refusable(re: Regex, s: Schema, depth: nat)
    decreases Deeper(depth)
  {
    depth <= DEPTH_LIMIT ==>
      && EnumClear(s.kw.enum)
      && match s.kw.typ
         case Some(TString) =>
           && (s.kw.bounds.minLength.Some? ==> 1 <= s.kw.bounds.minLength.value)
           && (s.kw.pattern.Some? ==> forall text :: OffText(text) ==> !re.search(s.kw.pattern.value, text))
         case Some(TArray) =>
           && (s.kw.bounds.minItems.Some? ==> 1 <= s.kw.bounds.minItems.value)
           && (s.items.Some? ==> s.prefixItems == [] && Refusable(re, s.items.value, depth + 1))
         case Some(TObject) => forall x :: x in s.properties ==> Refusable(re, s.properties[x], depth + 1)
         case Some(t) => HasWrong(t)
         case None => false
  }

  lemma {:induction false} HalfNoMultiple(m: real)
    requires m != 0.0
    ensures !MultipleOk(Some(m), m / 2.0)
  {
    assert (m / 2.0) / m == 0.5;
    assert (0.5 + 0.5).Floor == 1;
  }

  lemma {:induction false} OutsideRefused(kw: Keywords, v: Value)
    requires EnumClear(kw.enum) && kw.enum.Some? && v.Str? && OutsideText(v.s)
    ensures !EnumOk(kw.enum, v)
  {
  }

  /** The value breaks a rule of the node, at any depth of nesting, whatever was drawn for the rest of it. */
  lemma {:induction false} FlawedRefused(re: Regex, s: Schema, depth: nat, flaw: Flaw, v: Value)
    requires Flawed(s, depth, flaw, v) && Refusable(re, s, depth)
    ensures !v.Null? && !Valid(re, s, v)
    decreases flaw
  {
    match flaw {
      case BadItem(item) =>
        FlawedRefused(re, s.items.value, depth + 1, item, v.elems[0]);
        BadItemRefused(re, s, v);
      case Missing(x) =>
        MissingField(re, s, v.fields, x);
      case BadField(x, field) =>
        FlawedRefused(re, s.properties[x], depth + 1, field, v.fields[x]);
        RefusedField(re, s, v.fields, x);
      case _ =>
        OwnRefused(re, s, depth, flaw, v);
        hide Valid, Flawed, Refusable;
    }
    hide ArrayValid, ObjectValid, Refusable, Draws;
  }

  lemma {:induction false} BadItemRefused(re: Regex, s: Schema, v: Value)
    requires s.kw.typ == Some(TArray) && s.items.Some? && s.prefixItems == [] && v.Arr? && |v.elems| == 1 && !Valid(re, s.items.value, v.elems[0])
    ensures !Valid(re, s, v)
  {
    assert !ItemsValid(re, s, v.elems);
    assert !ArrayValid(re, s, v.elems);
  }

  lemma {:induction false} OwnRefused(re: Regex, s: Schema, depth: nat, flaw: Flaw, v: Value)
    requires Flawed(s, depth, flaw, v) && Refusable(re, s, depth) && !flaw.BadItem? && !flaw.Missing? && !flaw.BadField?
    ensures !v.Null? && !Valid(re, s, v)
  {
    if flaw == OutsideEnum { OutsideRefused(s.kw, v); }
    if flaw == NotMultiple { HalfNoMultiple(s.kw.multipleOf.value); }
    hide ObjectValid, Draws, PrefixValid, ItemsValid, Matching;
  }

  /** Every case returned is refused. */
  method RefusedCases(re: Regex, order: FieldOrder, s: Schema) returns (cases: seq<Case>)
    requires Lists(order) && Refusable(re, s, 0)
    ensures forall i :: 0 <= i < |cases| ==> !Valid(re, s, cases[i].value)
    ensures FlawsOf(cases) == AllFlaws(order, s, 0) && AllBroken(order, s, 0, cases)
  {
    hide AllBroken;
    cases := GenerateInvalid(order, Some(s), 0);
    forall i | 0 <= i < |cases| ensures !Valid(re, s, cases[i].value) {
      FlawedRefused(re, s, 0, cases[i].flaw, cases[i].value);
    }
    hide Valid, Flawed, Refusable, AllFlaws;
  }

  // ------------------------------------------------------------------ the conditions are needed

  /** Without enum, constant or variants, the case that is to be too short is refused exactly when something can be
      shorter, or the empty text breaks another rule. */
  lemma {:induction false} TooShortExactly(re: Regex, s: Schema, depth: nat)
    requires s.kw.typ == Some(TString) && s.kw.bounds.minLength.Some? && depth <= DEPTH_LIMIT
    requires s.kw.enum.None? && s.kw.constant.Null? && s.anyOf == [] && s.oneOf == []
    ensures (forall v :: Flawed(s, depth, TooShort, v) ==> !Valid(re, s, v)) <==>
      1 <= s.kw.bounds.minLength.value || !AtMost(s.kw.bounds.maxLength, 0) || !PatternOk(re, s.kw.pattern, "")
  {
    if s.kw.bounds.minLength.value < 1 { assert Flawed(s, depth, TooShort, Str("")); }
  }

  /** Likewise for the array that is to have too few items. */
  lemma {:induction false} TooFewExactly(re: Regex, s: Schema, depth: nat)
    requires s.kw.typ == Some(TArray) && s.kw.bounds.minItems.Some? && depth <= DEPTH_LIMIT
    requires s.kw.enum.None? && s.kw.constant.Null? && s.anyOf == [] && s.oneOf == []
    ensures !Valid(re, s, Arr([])) <==>
      1 <= s.kw.bounds.minItems.value || !AtMost(s.kw.bounds.maxItems, 0) || (s.contains.Some? && !ContainsOk(s.kw, 0))
  {
    if s.contains.Some? { assert Matching(re, s.contains.value, []) == {}; }
    assert PrefixValid(re, s, []) && ItemsValid(re, s, []);
    assert Valid(re, s, Arr([])) <==> ArrayValid(re, s, []);
  }

  // ------------------------------------------------------------------ exactly when every case is refused

  /** Below the node the generator for valid values is sound, and no node visited has an enum or a constant. */
  ghost predicate Ordinary(re: Regex, s: Schema, depth: nat)
    decreases Deeper(depth)
  {
    depth <= DEPTH_LIMIT ==>
      && s.kw.enum.None? && s.kw.constant.Null?
      && (s.items.Some? ==> Ordinary(re, s.items.value, depth + 1))
      && forall x :: x in s.properties ==> Sound(re, s.properties[x], depth + 1) && Ordinary(re, s.properties[x], depth + 1)
  }

  /** Whether every value of a case with this flaw is refused, read off the schema. Limits are looked at only under the
      very type that names the kind, and have to leave something outside them; without one the value of any limit is
      accepted, and of the wrong kind what the type itself refuses. Flaws of keywords the fragment excludes are not
      generated. */
  predicate FlawRefused(s: Schema, flaw: Flaw)
    decreases flaw
  {
    var b, t := s.kw.bounds, s.kw.typ;
    match flaw
    case WrongType => HasWrong(Lead(t)) ==> !TypeOk(t, Wrong(Lead(t)))
    case TooShort => t == Some(TString) && (b.minLength.Some? ==> 1 <= b.minLength.value || !AtMost(b.maxLength, 0))
    case TooLong => t == Some(TString)
    case BelowMinimum => !TypeOk(t, Float(0.0))
    case AboveMaximum => !TypeOk(t, Float(0.0))
    case AtExclusiveMinimum => !TypeOk(t, Float(0.0))
    case AtExclusiveMaximum => !TypeOk(t, Float(0.0))
    case TooFewItems => t == Some(TArray) && (b.minItems.Some? ==> 1 <= b.minItems.value || !AtMost(b.maxItems, 0))
    case BadItem(item) =>
      t == Some(TArray) && (!AtLeast(b.minItems, 1) || !AtMost(b.maxItems, 1) || (s.items.Some? ==> FlawRefused(s.items.value, item)))
    case Missing(_) => t == Some(TObject)
    case BadField(x, field) =>
      t == Some(TObject) && ((exists y :: y in s.kw.required && y !in s.properties) || (x in s.properties ==> FlawRefused(s.properties[x], field)))
    case _ => true
  }

  /** Every flaw among the returned cases is refused. */
  predicate Refuses(order: FieldOrder, s: Schema) {
    var flaws := AllFlaws(order, s, 0);
    forall i :: 0 <= i < |flaws| ==> FlawRefused(s, flaws[i])
  }

  lemma {:induction false} FloatsMatch(t: JType, a: real, b: real)
    ensures TypeMatches(t, Float(a)) == TypeMatches(t, Float(b))
  {
    if t.TUnion? {
      forall i | 0 <= i < |t.members| ensures TypeMatches(t.members[i], Float(a)) == TypeMatches(t.members[i], Float(b)) {
        FloatsMatch(t.members[i], a, b);
      }
    }
  }

  lemma {:induction false} OwnFlawRefused(re: Regex, s: Schema, depth: nat, flaw: Flaw, v: Value)
    requires Simple(s) && Ordinary(re, s, depth) && FlawRefused(s, flaw) && Flawed(s, depth, flaw, v)
    requires !flaw.BadItem? && !flaw.Missing? && !flaw.BadField?
    ensures !Valid(re, s, v)
  {
    hide Valid, Draws;
    SimpleValid(re, s, v);
    if v.Float? && s.kw.typ.Some? { FloatsMatch(s.kw.typ.value, v.r, 0.0); }
  }

  /** Where the condition holds, so does the refusal. */
  lemma {:induction false} RefusesFlaw(re: Regex, s: Schema, depth: nat, flaw: Flaw, v: Value)
    requires Simple(s) && Ordinary(re, s, depth) && FlawRefused(s, flaw) && Flawed(s, depth, flaw, v)
    ensures !Valid(re, s, v)
    decreases flaw
  {
    hide Valid, Draws;
    match flaw
    case BadItem(item) =>
      SimpleValid(re, s, v);
      if AtLeast(s.kw.bounds.minItems, 1) && AtMost(s.kw.bounds.maxItems, 1) {
        RefusesFlaw(re, s.items.value, depth + 1, item, v.elems[0]);
      }
    case Missing(x) =>
      SimpleValid(re, s, v);
      MissingField(re, s, v.fields, x);
    case BadField(x, field) =>
      SimpleValid(re, s, v);
      if y :| y in s.kw.required && y !in s.properties {
        MissingField(re, s, v.fields, y);
      } else {
        RefusesFlaw(re, s.properties[x], depth + 1, field, v.fields[x]);
        RefusedField(re, s, v.fields, x);
      }
    case _ => OwnFlawRefused(re, s, depth, flaw, v);
  }

  lemma {:induction false} DrawOthers(re: Regex, s: Schema, depth: nat, names: set<string>) returns (fields: map<string, Value>)
    requires Simple(s) && Ordinary(re, s, depth) && depth <= DEPTH_LIMIT && names <= s.properties.Keys
    ensures fields.Keys == names
    ensures forall y :: y in names ==> Draws(s.properties[y], depth + 1, fields[y]) && Valid(re, s.properties[y], fields[y])
    decreases names
  {
    hide Valid, Draws, Sound;
    fields := map[];
    if names != {} {
      var y :| y in names;
      var rest := DrawOthers(re, s, depth, names - {y});
      var v := SomeDraw(s.properties[y], depth + 1);
      DrawsAccepted(re, s.properties[y], depth + 1, v);
      fields := rest[y := v];
    }
  }

  lemma {:induction false} WholeValid(re: Regex, s: Schema, fields: map<string, Value>)
    requires Simple(s) && s.kw.enum.None? && s.kw.constant.Null? && TypeOk(s.kw.typ, Obj(fields)) && Lead(s.kw.typ) == TObject
    requires fields.Keys <= s.properties.Keys && forall y :: y in fields ==> Valid(re, s.properties[y], fields[y])
    requires s.kw.typ == Some(TObject) ==> forall x :: x in s.kw.required ==> x in fields
    ensures Valid(re, s, Obj(fields))
  {
    hide Valid;
    SimpleValid(re, s, Obj(fields));
    assert Undeclared(re, s, fields) == {};
    assert FieldsValid(re, s, fields) && ExtrasValid(re, s, fields);
  }

  lemma {:induction false} LeadAccepted(t: Option<JType>, v: Value)
    requires t.Some? && t.value.TUnion? && TypeMatches(Lead(t), v) && t.value.members != []
    ensures TypeOk(t, v)
  {
    LeadMatches(t, v);
  }

  /** A case is accepted because a nested one is, with accepted draws beside it. */
  lemma {:induction false} FieldAccepted(re: Regex, s: Schema, depth: nat, x: string, field: Flaw, w: Value) returns (v: Value)
    requires Simple(s) && Ordinary(re, s, depth) && depth <= DEPTH_LIMIT && Lead(s.kw.typ) == TObject && x in s.properties
    requires Flawed(s.properties[x], depth + 1, field, w)
    requires s.kw.typ == Some(TObject) ==> Valid(re, s.properties[x], w) && forall y :: y in s.kw.required ==> y in s.properties
    ensures Flawed(s, depth, BadField(x, field), v) && Valid(re, s, v)
  {
    hide Valid, Draws;
    var others := DrawOthers(re, s, depth, s.properties.Keys - {x});
    var fields := others[x := w];
    v := Obj(fields);
    assert fields.Keys == s.properties.Keys;
    if s.kw.typ == Some(TObject) {
      WholeValid(re, s, fields);
    } else {
      ObjectsPass(s.kw.typ, v);
      SimpleValid(re, s, v);
    }
  }

  lemma {:induction false} ObjectsPass(t: Option<JType>, v: Value)
    requires Lead(t) == TObject && v.Obj?
    ensures TypeOk(t, v)
  {
    if t.Some? && t.value.TUnion? { LeadAccepted(t, v); }
  }

  lemma {:induction false} ArraysPass(t: Option<JType>, v: Value)
    requires Lead(t) == TArray && v.Arr?
    ensures TypeOk(t, v)
  {
    if t.Some? && t.value.TUnion? { LeadAccepted(t, v); }
  }

  lemma {:induction false} TextsPass(t: Option<JType>, v: Value)
    requires Lead(t) == TString && v.Str?
    ensures TypeOk(t, v)
  {
    if t.Some? && t.value.TUnion? { LeadAccepted(t, v); }
  }

  /** Of a kind the type lets pass without naming it alone, everything is accepted. */
  lemma {:induction false} LooseAccepted(re: Regex, s: Schema, v: Value)
    requires Simple(s) && s.kw.enum.None? && s.kw.constant.Null? && TypeOk(s.kw.typ, v) && !v.Null?
    requires s.kw.typ !in {Some(TString), Some(TInteger), Some(TArray), Some(TObject)}
    ensures Valid(re, s, v)
  {
    hide Valid;
    SimpleValid(re, s, v);
  }

  lemma {:induction false} OwnFlawAccepted(re: Regex, s: Schema, depth: nat, flaw: Flaw, w: Value) returns (v: Value)
    requires Simple(s) && Ordinary(re, s, depth) && !FlawRefused(s, flaw) && Flawed(s, depth, flaw, w)
    requires !flaw.BadItem? && !flaw.Missing? && !flaw.BadField?
    ensures Flawed(s, depth, flaw, v) && Valid(re, s, v)
  {
    hide Valid, Draws;
    v := w;
    if flaw == TooShort && s.kw.typ == Some(TString) { v := Str(""); SimpleValid(re, s, v); }
    else if flaw == TooFewItems && s.kw.typ == Some(TArray) { SimpleValid(re, s, v); }
    else {
      if v.Str? && Lead(s.kw.typ) == TString { TextsPass(s.kw.typ, v); }
      if v.Arr? && Lead(s.kw.typ) == TArray { ArraysPass(s.kw.typ, v); }
      if v.Float? && s.kw.typ.Some? { FloatsMatch(s.kw.typ.value, v.r, 0.0); }
      LooseAccepted(re, s, v);
    }
  }

  /** Where it fails of a flaw that some case has, some case with that flaw is accepted. */
  lemma {:induction false} AcceptedFlaw(re: Regex, s: Schema, depth: nat, flaw: Flaw, w: Value) returns (v: Value)
    requires Simple(s) && Ordinary(re, s, depth) && !FlawRefused(s, flaw) && Flawed(s, depth, flaw, w)
    ensures Flawed(s, depth, flaw, v) && Valid(re, s, v)
    decreases flaw
  {
    hide Valid, Draws;
    match flaw
    case BadItem(item) =>
      if s.kw.typ == Some(TArray) {
        var inner := AcceptedFlaw(re, s.items.value, depth + 1, item, w.elems[0]);
        v := Arr([inner]);
        SimpleValid(re, s, v);
      } else {
        v := w;
        ArraysPass(s.kw.typ, v);
        LooseAccepted(re, s, v);
      }
    case Missing(x) =>
      v := w;
      ObjectsPass(s.kw.typ, v);
      LooseAccepted(re, s, v);
    case BadField(x, field) =>
      if s.kw.typ == Some(TObject) {
        var inner := AcceptedFlaw(re, s.properties[x], depth + 1, field, w.fields[x]);
        v := FieldAccepted(re, s, depth, x, field, inner);
      } else {
        v := w;
        ObjectsPass(s.kw.typ, v);
        LooseAccepted(re, s, v);
      }
    case _ => v := OwnFlawAccepted(re, s, depth, flaw, w);
  }

  // ------------------------------------------------------------------ every flaw listed has a case

  lemma {:induction false} AllDrawn(s: Schema, depth: nat, names: set<string>) returns (fields: map<string, Value>)
    requires depth <= DEPTH_LIMIT && names <= s.properties.Keys
    ensures fields.Keys == names && forall y :: y in names ==> Draws(s.properties[y], depth + 1, fields[y])
    decreases names
  {
    hide Draws;
    fields := map[];
    if names != {} {
      var y :| y in names;
      var rest := AllDrawn(s, depth, names - {y});
      var v := SomeDraw(s.properties[y], depth + 1);
      fields := rest[y := v];
    }
  }

  lemma {:induction false} NumberCase(s: Schema, depth: nat, flaw: Flaw) returns (v: Value)
    requires depth <= DEPTH_LIMIT && flaw in NumberFlaws(s.kw) && Lead(s.kw.typ) in {TInteger, TNumber}
    ensures Flawed(s, depth, flaw, v)
  {
    hide Draws;
    var b := s.kw.bounds;
    match flaw
    case BelowMinimum => v := Float(b.minimum.value - 1.0);
    case AboveMaximum => v := Float(b.maximum.value + 1.0);
    case AtExclusiveMinimum => v := Float(b.exclusiveMinimum.value);
    case AtExclusiveMaximum => v := Float(b.exclusiveMaximum.value);
    case NotMultiple => v := Float(s.kw.multipleOf.value / 2.0);
  }

  lemma {:induction false} TextCase(s: Schema, depth: nat, flaw: Flaw) returns (v: Value)
    requires depth <= DEPTH_LIMIT && flaw in TextFlaws(s.kw) && Lead(s.kw.typ) == TString
    ensures Flawed(s, depth, flaw, v)
  {
    hide Draws;
    var b := s.kw.bounds;
    match flaw
    case TooShort => v := Str(Letters(Larger(b.minLength.value - 1, 0)));
    case TooLong => v := Str(Letters(Larger(b.maxLength.value + 5, 0)));
    case OffPattern =>
      v := Str(Letters(5) + "!!!");
      assert (Letters(5) + "!!!")[..5] == Letters(5);
  }

  lemma {:induction false} OwnCase(s: Schema, depth: nat, flaw: Flaw) returns (v: Value)
    requires depth <= DEPTH_LIMIT && flaw in OwnFlaws(s)
    ensures Flawed(s, depth, flaw, v)
  {
    hide Draws, NumberFlaws, TextFlaws;
    if flaw in LimitFlaws(s) {
      match Lead(s.kw.typ)
      case TString => v := TextCase(s, depth, flaw);
      case TInteger => v := NumberCase(s, depth, flaw);
      case TNumber => v := NumberCase(s, depth, flaw);
      case TArray => v := Arr([]);
      case TObject =>
        var fields := AllDrawn(s, depth, s.properties.Keys - {flaw.name});
        v := Obj(fields);
    } else {
      hide LimitFlaws;
      v := if flaw == WrongType then Wrong(Lead(s.kw.typ)) else Str(ENUM_PREFIX + Decimal(0));
    }
  }

  lemma {:induction false} FieldListed(order: FieldOrder, s: Schema, depth: nat, names: seq<string>, flaw: Flaw)
    requires depth <= DEPTH_LIMIT && flaw in FieldFlaws(order, s, depth, names)
    ensures flaw.BadField? && flaw.name in s.properties && flaw.field in AllFlaws(order, s.properties[flaw.name], depth + 1)
    decreases |names|
  {
    hide AllFlaws;
    var front, last := names[..|names| - 1], names[|names| - 1];
    if flaw in FieldFlaws(order, s, depth, front) { FieldListed(order, s, depth, front, flaw); }
  }

  lemma {:induction false} NestedListed(order: FieldOrder, s: Schema, depth: nat, flaw: Flaw)
    requires depth <= DEPTH_LIMIT && flaw in NestedFlaws(order, s, depth)
    ensures Lead(s.kw.typ) == TArray ==> flaw.BadItem? && s.items.Some? && flaw.item in AllFlaws(order, s.items.value, depth + 1)
    ensures Lead(s.kw.typ) == TObject ==>
      flaw.BadField? && flaw.name in s.properties && flaw.field in AllFlaws(order, s.properties[flaw.name], depth + 1)
    ensures Lead(s.kw.typ) in {TArray, TObject}
  {
    hide AllFlaws, FieldFlaws;
    if Lead(s.kw.typ) == TObject { FieldListed(order, s, depth, Visited(order, s), flaw); }
  }

  lemma {:induction false} ListedCase(order: FieldOrder, s: Schema, depth: nat, flaw: Flaw) returns (v: Value)
    requires flaw in AllFlaws(order, s, depth)
    ensures Flawed(s, depth, flaw, v)
    decreases Deeper(depth)
  {
    hide Draws, OwnFlaws, NestedFlaws;
    if flaw in OwnFlaws(s) {
      v := OwnCase(s, depth, flaw);
    } else {
      NestedListed(order, s, depth, flaw);
      if flaw.BadItem? {
        var inner := ListedCase(order, s.items.value, depth + 1, flaw.item);
        v := Arr([inner]);
      } else {
        var inner := ListedCase(order, s.properties[flaw.name], depth + 1, flaw.field);
        var others := AllDrawn(s, depth, s.properties.Keys - {flaw.name});
        v := Obj(others[flaw.name := inner]);
        assert v.fields.Keys == s.properties.Keys;
      }
    }
  }

  lemma {:induction false} ListedCases(order: FieldOrder, s: Schema, depth: nat, flaws: seq<Flaw>) returns (cases: seq<Case>)
    requires forall f :: f in flaws ==> f in AllFlaws(order, s, depth)
    ensures FlawsOf(cases) == flaws && AllFlawed(s, depth, cases)
    decreases |flaws|
  {
    hide Flawed, AllFlaws;
    cases := [];
    if flaws != [] {
      var front := ListedCases(order, s, depth, flaws[..|flaws| - 1]);
      var v := ListedCase(order, s, depth, flaws[|flaws| - 1]);
      cases := front + [Case(flaws[|flaws| - 1], v)];
      assert flaws == flaws[..|flaws| - 1] + [flaws[|flaws| - 1]];
      assert FlawsOf(cases) == FlawsOf(front) + [flaws[|flaws| - 1]];
    }
  }

  /** Any case can be among those returned. */
  lemma {:induction false} CaseReturned(order: FieldOrder, s: Schema, depth: nat, k: nat, v: Value) returns (cases: seq<Case>)
    requires k < |AllFlaws(order, s, depth)| && Flawed(s, depth, AllFlaws(order, s, depth)[k], v)
    ensures Returned(order, s, depth, cases) && k < |cases| && cases[k].value == v
  {
    hide Flawed, AllFlaws;
    var flaws := AllFlaws(order, s, depth);
    var some := ListedCases(order, s, depth, flaws);
    assert |some| == |FlawsOf(some)| == |flaws|;
    cases := some[k := Case(flaws[k], v)];
    assert FlawsOf(cases) == flaws;
  }

  /** Every case that can be returned is refused, over every draw, if and only if every flaw listed is refused. */
  lemma {:induction false} InvalidAgrees(re: Regex, order: FieldOrder, s: Schema)
    requires Simple(s) && Ordinary(re, s, 0)
    ensures (forall cases: seq<Case>, i :: Returned(order, s, 0, cases) && 0 <= i < |cases| ==> !Valid(re, s, cases[i].value)) <==> Refuses(order, s)
  {
    hide Valid, Flawed, Ordinary, Simple, AllFlaws, FlawRefused;
    var flaws := AllFlaws(order, s, 0);
    if Refuses(order, s) {
      forall cases: seq<Case>, i | Returned(order, s, 0, cases) && 0 <= i < |cases| ensures !Valid(re, s, cases[i].value) {
        assert flaws[i] == cases[i].flaw;
        RefusesFlaw(re, s, 0, cases[i].flaw, cases[i].value);
      }
    } else {
      var k: nat :| k < |flaws| && !FlawRefused(s, flaws[k]);
      var w := ListedCase(order, s, 0, flaws[k]);
      var v := AcceptedFlaw(re, s, 0, flaws[k], w);
      var cases := CaseReturned(order, s, 0, k, v);
    }
  }

  /** Two levels down the text that is to be too short would be accepted, but only the first two cases of a nested list
      are kept and its case never surfaces: all three cases returned are refused. */
  lemma {:induction false} DeepFlawsCutOff(order: FieldOrder)
    ensures
      var text := ANY.(kw := NO_KEYWORDS.(typ := Some(TString), bounds := NO_BOUNDS.(minLength := Some(0))));
      var inner := ANY.(kw := NO_KEYWORDS.(typ := Some(TArray), bounds := NO_BOUNDS.(minItems := Some(1))), items := Some(text));
      var outer := Typed(TArray).(items := Some(inner));
      && AllFlaws(order, outer, 0) == [WrongType, BadItem(WrongType), BadItem(TooFewItems)]
      && Refuses(order, outer) && !FlawRefused(outer, BadItem(BadItem(TooShort)))
  {
    var text := ANY.(kw := NO_KEYWORDS.(typ := Some(TString), bounds := NO_BOUNDS.(minLength := Some(0))));
    var inner := ANY.(kw := NO_KEYWORDS.(typ := Some(TArray), bounds := NO_BOUNDS.(minItems := Some(1))), items := Some(text));
    var outer := Typed(TArray).(items := Some(inner));
    OwnOfArray(outer);
    OwnOfArray(inner);
    hide AllFlaws, OwnFlaws, FlawRefused, Refuses;
    ThreeFlaws(order, outer, inner);
    DeepRefusals(outer, inner, text);
    RefusesThree(order, outer, WrongType, BadItem(WrongType), BadItem(TooFewItems));
  }

  lemma {:induction false} RefusesThree(order: FieldOrder, s: Schema, a: Flaw, b: Flaw, c: Flaw)
    requires AllFlaws(order, s, 0) == [a, b, c] && FlawRefused(s, a) && FlawRefused(s, b) && FlawRefused(s, c)
    ensures Refuses(order, s)
  {
    hide AllFlaws, FlawRefused;
  }

  lemma {:induction false} DeepRefusals(outer: Schema, inner: Schema, text: Schema)
    requires outer.kw.typ == inner.kw.typ == Some(TArray) && outer.items == Some(inner) && inner.items == Some(text)
    requires outer.kw.bounds == NO_BOUNDS && inner.kw.bounds == NO_BOUNDS.(minItems := Some(1))
    requires text.kw.typ == Some(TString) && text.kw.bounds == NO_BOUNDS.(minLength := Some(0))
    ensures FlawRefused(outer, WrongType) && FlawRefused(outer, BadItem(WrongType)) && FlawRefused(outer, BadItem(TooFewItems))
    ensures !FlawRefused(outer, BadItem(BadItem(TooShort)))
  {
    assert FlawRefused(inner, WrongType) && FlawRefused(inner, TooFewItems) && !FlawRefused(text, TooShort);
  }

  lemma {:induction false} OwnOfArray(s: Schema)
    requires s.kw.typ == Some(TArray) && s.kw.enum.None?
    ensures OwnFlaws(s) == if s.kw.bounds.minItems.Some? then [WrongType, TooFewItems] else [WrongType]
  {
  }

  lemma {:induction false} ThreeFlaws(order: FieldOrder, outer: Schema, inner: Schema)
    requires outer.kw.typ == Some(TArray) && outer.items == Some(inner)
    requires OwnFlaws(outer) == [WrongType] && OwnFlaws(inner) == [WrongType, TooFewItems]
    ensures AllFlaws(order, outer, 0) == [WrongType, BadItem(WrongType), BadItem(TooFewItems)]
  {
    hide OwnFlaws;
    assert Two(AllFlaws(order, inner, 1)) == [WrongType, TooFewItems] by { hide NestedFlaws; }
    assert InItems([WrongType, TooFewItems]) == [BadItem(WrongType), BadItem(TooFewItems)];
  }

  /** A node without a type: the list that is to be of the wrong kind is accepted. */
  lemma {:induction false} UntypedAccepts(re: Regex)
    ensures Flawed(ANY, 0, WrongType, Wrong(TObject)) && Valid(re, ANY, Wrong(TObject))
  {
  }
}
