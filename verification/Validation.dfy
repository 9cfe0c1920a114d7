/** `validate_value`: which values a schema accepts, and the loop that collects the violations. */
module Validation {
  import opened Model

  /** Regular expressions are a parameter: which expressions compile, and which texts they match somewhere. */
  datatype Regex = Regex(compiles: string -> bool, search: (string, string) -> bool)

  // ------------------------------------------------------------------ single keywords

  predicate TypeMatches(t: JType, v: Value) {
    match t
    case TObject => v.Obj?
    case TArray => v.Arr?
    case TString => v.Str?
    case TBoolean => v.Bool?
    case TInteger => v.Int?
    case TNumber => v.Int? || v.Float?
    case TNull => v.Null?
    case TUnion(members) => exists i :: 0 <= i < |members| && TypeMatches(members[i], v)
    case TOther(_) => true
  }

  /** A type looks at the kind of a container, not at what is in it. */
  lemma {:induction false} SameKindMatches(t: JType, v: Value, w: Value)
    requires (v.Obj? && w.Obj?) || (v.Arr? && w.Arr?)
    ensures TypeMatches(t, v) == TypeMatches(t, w)
    decreases t
  {
    if t.TUnion? {
      forall i | 0 <= i < |t.members| ensures TypeMatches(t.members[i], v) == TypeMatches(t.members[i], w) {
        SameKindMatches(t.members[i], v, w);
      }
    }
  }

  predicate TypeOk(t: Option<JType>, v: Value) {
    t.Some? ==> TypeMatches(t.value, v)
  }

  predicate EnumOk(e: Option<seq<Value>>, v: Value) {
    e.Some? ==> Member(v, e.value)
  }

  predicate ConstOk(c: Value, v: Value) {
    !c.Null? ==> PyEq(v, c)
  }

  predicate AtLeast(bound: Option<int>, n: int) { bound.Some? ==> bound.value <= n }
  predicate AtMost(bound: Option<int>, n: int) { bound.Some? ==> n <= bound.value }

  predicate IsNumeric(v: Value) { v.Int? || v.Float? }

  function AsReal(v: Value): real
    requires IsNumeric(v)
  {
    if v.Int? then v.i as real else v.r
  }

  /** `multipleOf` up to the validator's tolerance of 1e-9 on the quotient. */
  predicate MultipleOk(m: Option<real>, x: real) {
    m.Some? && m.value != 0.0 ==>
      var q := x / m.value;
      var nearest := (q + 0.5).Floor as real;
      -0.000000001 <= q - nearest <= 0.000000001
  }

  predicate RangeOk(b: Bounds, x: real) {
    && (b.minimum.Some? ==> b.minimum.value <= x)
    && (b.maximum.Some? ==> x <= b.maximum.value)
    && (b.exclusiveMinimum.Some? ==> b.exclusiveMinimum.value < x)
    && (b.exclusiveMaximum.Some? ==> x < b.exclusiveMaximum.value)
  }

  predicate NumberOk(kw: Keywords, x: real) {
    RangeOk(kw.bounds, x) && MultipleOk(kw.multipleOf, x)
  }

  predicate PatternOk(re: Regex, p: Option<string>, text: string) {
    p.Some? ==> re.search(p.value, text)
  }

  predicate StringOk(re: Regex, kw: Keywords, text: string) {
    && AtLeast(kw.bounds.minLength, |text|)
    && AtMost(kw.bounds.maxLength, |text|)
    && PatternOk(re, kw.pattern, text)
  }

  predicate Distinct<T(==)>(xs: seq<T>) {
    forall i, j :: 0 <= i < j < |xs| ==> xs[i] != xs[j]
  }

  predicate ArrayShapeOk(kw: Keywords, elems: seq<Value>) {
    && AtLeast(kw.bounds.minItems, |elems|)
    && AtMost(kw.bounds.maxItems, |elems|)
    && (kw.uniqueItems == Some(true) ==> Distinct(elems))
  }

  /** `contains` counts matching members; its lower bound defaults to one. */
  predicate ContainsOk(kw: Keywords, matching: nat) {
    && (if kw.minContains.Some? then kw.minContains.value else 1) <= matching
    && AtMost(kw.maxContains, matching)
  }

  predicate RequiredOk(required: seq<string>, fields: map<string, Value>) {
    forall i :: 0 <= i < |required| ==> required[i] in fields
  }

  predicate DependentRequiredOk(deps: map<string, seq<string>>, fields: map<string, Value>) {
    forall t :: t in deps && t in fields ==> RequiredOk(deps[t], fields)
  }

  ghost predicate MatchedByPattern(re: Regex, patterns: map<string, Schema>, name: string) {
    exists e :: e in patterns && re.compiles(e) && re.search(e, name)
  }

  /** The fields neither declared nor matched by a pattern. */
  ghost function Undeclared(re: Regex, s: Schema, fields: map<string, Value>): set<string> {
    set k | k in fields && k !in s.properties && !MatchedByPattern(re, s.patternProperties, k)
  }

  // ------------------------------------------------------------------ the accepted set

  /** The values `validate_value` reports no violation for. String, number, array and object keywords apply only
      when `type` names exactly that type; `allOf` and `not` are not looked at; `oneOf` is read as `anyOf`. */
  ghost predicate Valid(re: Regex, s: Schema, v: Value)
    decreases s, 2
  {
    if v.Null? then s.kw.nullable
    else
      && EnumOk(s.kw.enum, v) && ConstOk(s.kw.constant, v) && TypeOk(s.kw.typ, v)
      && (s.kw.typ == Some(TString) ==> StringOk(re, s.kw, v.s))
      && (s.kw.typ in {Some(TInteger), Some(TNumber)} ==> NumberOk(s.kw, AsReal(v)))
      && (s.kw.typ == Some(TArray) ==> ArrayValid(re, s, v.elems))
      && (s.kw.typ == Some(TObject) ==> ObjectValid(re, s, v.fields))
      && (s.anyOf == [] || SomeValid(re, s.anyOf, v))
      && (s.oneOf == [] || SomeValid(re, s.oneOf, v))
  }

  ghost predicate SomeValid(re: Regex, variants: seq<Schema>, v: Value)
    decreases variants, 0
  {
    exists i :: 0 <= i < |variants| && Valid(re, variants[i], v)
  }

  ghost predicate ArrayValid(re: Regex, s: Schema, elems: seq<Value>)
    decreases s, 1
  {
    && ArrayShapeOk(s.kw, elems)
    && PrefixValid(re, s, elems)
    && ItemsValid(re, s, elems)
    && (s.contains.Some? ==> ContainsOk(s.kw, |Matching(re, s.contains.value, elems)|))
  }

  ghost predicate PrefixValid(re: Regex, s: Schema, elems: seq<Value>)
    decreases s, 0
  {
    forall i :: 0 <= i < |s.prefixItems| && i < |elems| ==> Valid(re, s.prefixItems[i], elems[i])
  }

  ghost predicate ItemsValid(re: Regex, s: Schema, elems: seq<Value>)
    decreases s, 0
  {
    s.items.Some? ==> forall i :: |s.prefixItems| <= i < |elems| ==> Valid(re, s.items.value, elems[i])
  }

  /** The positions of the members a `contains` schema accepts. */
  ghost function Matching(re: Regex, c: Schema, elems: seq<Value>): set<int>
    decreases c, 3
  {
    set i | 0 <= i < |elems| && Valid(re, c, elems[i])
  }

  ghost predicate ObjectValid(re: Regex, s: Schema, fields: map<string, Value>)
    decreases s, 1
  {
    && RequiredOk(s.kw.required, fields)
    && FieldsValid(re, s, fields)
    && DependentRequiredOk(s.kw.dependentRequired, fields)
    && DependentsValid(re, s, fields)
    && NamesValid(re, s, fields)
    && PatternsValid(re, s, fields)
    && ConditionalValid(re, s, fields)
    && ExtrasValid(re, s, fields)
  }

  ghost predicate FieldsValid(re: Regex, s: Schema, fields: map<string, Value>)
    decreases s, 0
  {
    forall k :: k in s.properties && k in fields ==> Valid(re, s.properties[k], fields[k])
  }

  ghost predicate DependentsValid(re: Regex, s: Schema, fields: map<string, Value>)
    decreases s, 0
  {
    forall t :: t in s.dependentSchemas && t in fields ==> Valid(re, s.dependentSchemas[t], Obj(fields))
  }

  ghost predicate NamesValid(re: Regex, s: Schema, fields: map<string, Value>)
    decreases s, 0
  {
    s.propertyNames.Some? ==> forall k :: k in fields ==> Valid(re, s.propertyNames.value, Str(k))
  }

  /** A pattern that does not compile is a violation, whatever the fields are. */
  ghost predicate PatternsValid(re: Regex, s: Schema, fields: map<string, Value>)
    decreases s, 0, 1
  {
    forall e :: e in s.patternProperties ==> PatternValid(re, s, e, fields)
  }

  ghost predicate PatternValid(re: Regex, s: Schema, e: string, fields: map<string, Value>)
    requires e in s.patternProperties
    decreases s, 0, 0
  {
    re.compiles(e) && forall k :: k in fields && re.search(e, k) ==> Valid(re, s.patternProperties[e], fields[k])
  }

  ghost predicate ConditionalValid(re: Regex, s: Schema, fields: map<string, Value>)
    decreases s, 0
  {
    s.ifSchema.Some? ==>
      if Valid(re, s.ifSchema.value, Obj(fields))
      then s.thenSchema.Some? ==> Valid(re, s.thenSchema.value, Obj(fields))
      else s.elseSchema.Some? ==> Valid(re, s.elseSchema.value, Obj(fields))
  }

  ghost predicate ExtrasValid(re: Regex, s: Schema, fields: map<string, Value>)
    decreases s, 0
  {
    && (s.additional == Allowed(false) ==> Undeclared(re, s, fields) == {})
    && (s.additional.Described? ==>
          forall k :: k in Undeclared(re, s, fields) ==> Valid(re, s.additional.schema, fields[k]))
  }

  /** The whole call: `forbid` is the caller's `forbid_undeclared_fields`, which reaches the outermost node only. */
  ghost predicate Accepts(re: Regex, s: Option<Schema>, v: Value, forbid: bool) {
    s.Some? ==>
      && Valid(re, s.value, v)
      && (forbid && s.value.kw.typ == Some(TObject) && v.Obj? && s.value.additional.Unstated? ==>
            Undeclared(re, s.value, v.fields) == {})
  }

  // ------------------------------------------------------------------ the validator

  datatype Segment = Field(name: string) | Index(i: nat) | NameOf(key: string)

  datatype Rule =
    | NullRefused | EnumRefused | ConstRefused | TypeRefused
    | StringRefused | NumberRefused | ArrayRefused | ContainsRefused
    | RequiredMissing(field: string) | DependentMissing(trigger: string, field: string)
    | BadPattern(expression: string) | UndeclaredFields(fields: set<string>)
    | NoVariant

  datatype Violation = Violation(path: seq<Segment>, rule: Rule)

  /** Every violation is reported at or below the node being validated. */
  predicate Under(path: seq<Segment>, errors: seq<Violation>) {
    forall i :: 0 <= i < |errors| ==> path <= errors[i].path
  }

  /** An empty list means valid, and every reported path extends the caller's. */
  method ValidateValue(re: Regex, schema: Option<Schema>, v: Value, path: seq<Segment>, forbid: bool)
    returns (errors: seq<Violation>)
    ensures errors == [] <==> Accepts(re, schema, v, forbid)
    ensures Under(path, errors)
  {
    match schema
    case None => errors := [];
    case Some(s) => errors := ValidateNode(re, s, v, path, forbid);
  }

  method ValidateNode(re: Regex, s: Schema, v: Value, path: seq<Segment>, forbid: bool)
    returns (errors: seq<Violation>)
    ensures errors == [] <==> Accepts(re, Some(s), v, forbid)
    ensures Under(path, errors)
    decreases s, 4
  {
    errors := [];
    if v.Null? {
      if !s.kw.nullable { errors := [Violation(path, NullRefused)]; }
      return;
    }
    if !EnumOk(s.kw.enum, v) { return [Violation(path, EnumRefused)]; }
    if !ConstOk(s.kw.constant, v) { return [Violation(path, ConstRefused)]; }
    if !TypeOk(s.kw.typ, v) { return [Violation(path, TypeRefused)]; }

    match s.kw.typ {
      case Some(TString) =>
        if !StringOk(re, s.kw, v.s) { errors := [Violation(path, StringRefused)]; }
      case Some(TInteger) =>
        if !NumberOk(s.kw, AsReal(v)) { errors := [Violation(path, NumberRefused)]; }
      case Some(TNumber) =>
        if !NumberOk(s.kw, AsReal(v)) { errors := [Violation(path, NumberRefused)]; }
      case Some(TArray) =>
        errors := ValidateArray(re, s, v.elems, path);
      case Some(TObject) =>
        errors := ValidateObject(re, s, v.fields, path, forbid);
      case _ =>
    }
    var some := ValidateVariants(re, s, s.anyOf, v, path);
    if !some { errors := errors + [Violation(path, NoVariant)]; }
    some := ValidateVariants(re, s, s.oneOf, v, path);
    if !some { errors := errors + [Violation(path, NoVariant)]; }
  }

  /** Whether a variant list is absent or one of its variants accepts the value. */
  method ValidateVariants(re: Regex, ghost s: Schema, variants: seq<Schema>, v: Value, path: seq<Segment>)
    returns (some: bool)
    requires variants == s.anyOf || variants == s.oneOf
    ensures some <==> variants == [] || SomeValid(re, variants, v)
    decreases s, 0
  {
    some := variants == [];
    var i := 0;
    while i < |variants| && !some
      invariant 0 <= i <= |variants|
      invariant some <==> variants == [] || exists j :: 0 <= j < i && Valid(re, variants[j], v)
    {
      var found := ValidateNode(re, variants[i], v, path, false);
      some := found == [];
      i := i + 1;
    }
  }

  method ValidateArray(re: Regex, s: Schema, elems: seq<Value>, path: seq<Segment>)
    returns (errors: seq<Violation>)
    ensures errors == [] <==> ArrayValid(re, s, elems)
    ensures Under(path, errors)
    decreases s, 1
  {
    errors := if ArrayShapeOk(s.kw, elems) then [] else [Violation(path, ArrayRefused)];
    var found := ValidatePrefix(re, s, elems, path);
    errors := errors + found;
    found := ValidateItems(re, s, elems, path);
    errors := errors + found;
    if s.contains.Some? {
      var matching := CountMatching(re, s.contains.value, elems);
      if !ContainsOk(s.kw, matching) { errors := errors + [Violation(path, ContainsRefused)]; }
    }
  }

  method ValidatePrefix(re: Regex, s: Schema, elems: seq<Value>, path: seq<Segment>)
    returns (errors: seq<Violation>)
    ensures errors == [] <==> PrefixValid(re, s, elems)
    ensures Under(path, errors)
    decreases s, 0
  {
    hide Valid;
    errors := [];
    var i := 0;
    while i < |s.prefixItems| && i < |elems|
      invariant 0 <= i <= |s.prefixItems| && i <= |elems|
      invariant Under(path, errors)
      invariant errors == [] <==> forall j :: 0 <= j < i ==> Valid(re, s.prefixItems[j], elems[j])
    {
      var found := ValidateNode(re, s.prefixItems[i], elems[i], path + [Index(i)], false);
      errors := errors + found;
      i := i + 1;
    }
  }

  /** `items` starts after the positions `prefixItems` binds. */
  method ValidateItems(re: Regex, s: Schema, elems: seq<Value>, path: seq<Segment>)
    returns (errors: seq<Violation>)
    ensures errors == [] <==> ItemsValid(re, s, elems)
    ensures Under(path, errors)
    decreases s, 0
  {
    hide Valid;
    errors := [];
    if s.items.None? { return; }
    var i := |s.prefixItems|;
    while i < |elems|
      invariant |s.prefixItems| <= i
      invariant Under(path, errors)
      invariant errors == [] <==>
        forall j :: |s.prefixItems| <= j < i && j < |elems| ==> Valid(re, s.items.value, elems[j])
    {
      var found := ValidateNode(re, s.items.value, elems[i], path + [Index(i)], false);
      errors := errors + found;
      i := i + 1;
    }
  }

  method CountMatching(re: Regex, c: Schema, elems: seq<Value>) returns (n: nat)
    ensures n == |Matching(re, c, elems)|
    decreases c, 5
  {
    n := 0;
    ghost var hits: set<int> := {};
    for i := 0 to |elems|
      invariant hits == set j | 0 <= j < i && Valid(re, c, elems[j])
      invariant n == |hits|
    {
      var found := ValidateNode(re, c, elems[i], [], false);
      if found == [] {
        hits := hits + {i};
        n := n + 1;
      }
    }
    assert hits == Matching(re, c, elems);
  }

  method ValidateObject(re: Regex, s: Schema, fields: map<string, Value>, path: seq<Segment>, forbid: bool)
    returns (errors: seq<Violation>)
    ensures errors == [] <==>
      && ObjectValid(re, s, fields)
      && (forbid && s.additional.Unstated? ==> Undeclared(re, s, fields) == {})
    ensures Under(path, errors)
    decreases s, 2
  {
    hide FieldsValid, DependentsValid, NamesValid, PatternsValid, ConditionalValid, ExtrasValid, RequiredOk,
      DependentRequiredOk, Undeclared, MatchedByPattern;
    errors := MissingFields(s.kw.required, fields, path);
    var found := ValidateFields(re, s, fields, path);
    errors := errors + found;
    found := MissingDependents(s.kw.dependentRequired, fields, path);
    errors := errors + found;
    found := ValidateDependentSchemas(re, s, fields, path);
    errors := errors + found;
    found := ValidateNames(re, s, fields, path);
    errors := errors + found;
    var matched: set<string>;
    found, matched := ValidatePatterns(re, s, fields, path);
    errors := errors + found;
    found := ValidateConditional(re, s, fields, path);
    errors := errors + found;
    found := ValidateExtra(re, s, fields, matched, path, forbid);
    errors := errors + found;
  }

  method MissingFields(required: seq<string>, fields: map<string, Value>, path: seq<Segment>)
    returns (errors: seq<Violation>)
    ensures errors == [] <==> RequiredOk(required, fields)
    ensures Under(path, errors)
  {
    errors := [];
    for i := 0 to |required|
      invariant errors == [] <==> forall j :: 0 <= j < i ==> required[j] in fields
      invariant Under(path, errors)
    {
      if required[i] !in fields { errors := errors + [Violation(path, RequiredMissing(required[i]))]; }
    }
  }

  method MissingDependents(deps: map<string, seq<string>>, fields: map<string, Value>, path: seq<Segment>)
    returns (errors: seq<Violation>)
    ensures errors == [] <==> DependentRequiredOk(deps, fields)
    ensures Under(path, errors)
  {
    errors := [];
    var todo := deps.Keys;
    while todo != {}
      invariant todo <= deps.Keys
      invariant errors == [] <==> forall t :: t in deps && t !in todo && t in fields ==> RequiredOk(deps[t], fields)
      invariant Under(path, errors)
    {
      var t :| t in todo;
      if t in fields {
        for i := 0 to |deps[t]|
          invariant errors == [] <==>
            && (forall u :: u in deps && u !in todo && u in fields ==> RequiredOk(deps[u], fields))
            && (forall j :: 0 <= j < i ==> deps[t][j] in fields)
          invariant Under(path, errors)
        {
          if deps[t][i] !in fields { errors := errors + [Violation(path, DependentMissing(t, deps[t][i]))]; }
        }
      }
      todo := todo - {t};
    }
  }

  method ValidateFields(re: Regex, s: Schema, fields: map<string, Value>, path: seq<Segment>)
    returns (errors: seq<Violation>)
    ensures errors == [] <==> FieldsValid(re, s, fields)
    ensures Under(path, errors)
    decreases s, 0
  {
    hide Valid;
    errors := [];
    var todo := s.properties.Keys;
    while todo != {}
      invariant todo <= s.properties.Keys
      invariant errors == [] <==>
        forall k :: k in s.properties && k !in todo && k in fields ==> Valid(re, s.properties[k], fields[k])
      invariant Under(path, errors)
    {
      var k :| k in todo;
      if k in fields {
        var found := ValidateNode(re, s.properties[k], fields[k], path + [Field(k)], false);
        errors := errors + found;
      }
      todo := todo - {k};
    }
  }

  method ValidateDependentSchemas(re: Regex, s: Schema, fields: map<string, Value>, path: seq<Segment>)
    returns (errors: seq<Violation>)
    ensures errors == [] <==> DependentsValid(re, s, fields)
    ensures Under(path, errors)
    decreases s, 0
  {
    hide Valid;
    errors := [];
    var todo := s.dependentSchemas.Keys;
    while todo != {}
      invariant todo <= s.dependentSchemas.Keys
      invariant errors == [] <==>
        forall t :: t in s.dependentSchemas && t !in todo && t in fields ==> Valid(re, s.dependentSchemas[t], Obj(fields))
      invariant Under(path, errors)
    {
      var t :| t in todo;
      if t in fields {
        var found := ValidateNode(re, s.dependentSchemas[t], Obj(fields), path, false);
        errors := errors + found;
      }
      todo := todo - {t};
    }
  }

  method ValidateNames(re: Regex, s: Schema, fields: map<string, Value>, path: seq<Segment>)
    returns (errors: seq<Violation>)
    ensures errors == [] <==> NamesValid(re, s, fields)
    ensures Under(path, errors)
    decreases s, 0
  {
    hide Valid;
    errors := [];
    if s.propertyNames.None? { return; }
    var todo := fields.Keys;
    while todo != {}
      invariant todo <= fields.Keys
      invariant errors == [] <==> forall k :: k in fields && k !in todo ==> Valid(re, s.propertyNames.value, Str(k))
      invariant Under(path, errors)
    {
      var k :| k in todo;
      var found := ValidateNode(re, s.propertyNames.value, Str(k), path + [NameOf(k)], false);
      errors := errors + found;
      todo := todo - {k};
    }
  }

  /** Checks every pattern against every field, and returns the fields some compilable pattern matched. */
  method ValidatePatterns(re: Regex, s: Schema, fields: map<string, Value>, path: seq<Segment>)
    returns (errors: seq<Violation>, matched: set<string>)
    ensures errors == [] <==> PatternsValid(re, s, fields)
    ensures Under(path, errors)
    ensures forall k :: k in matched <==> k in fields && MatchedByPattern(re, s.patternProperties, k)
    decreases s, 1
  {
    hide PatternValid;
    errors, matched := [], {};
    var todo := s.patternProperties.Keys;
    while todo != {}
      invariant todo <= s.patternProperties.Keys
      invariant errors == [] <==> forall e :: e in s.patternProperties && e !in todo ==> PatternValid(re, s, e, fields)
      invariant Under(path, errors)
      invariant forall k :: k in matched ==> k in fields && MatchedByPattern(re, s.patternProperties, k)
      invariant forall e, k :: e in s.patternProperties && e !in todo && k in fields && re.compiles(e) && re.search(e, k) ==>
        k in matched
    {
      var e :| e in todo;
      todo := todo - {e};
      var found, hits := ValidatePattern(re, s, e, fields, path);
      errors := errors + found;
      matched := matched + hits;
    }
  }

  method ValidatePattern(re: Regex, s: Schema, e: string, fields: map<string, Value>, path: seq<Segment>)
    returns (errors: seq<Violation>, hits: set<string>)
    requires e in s.patternProperties
    ensures errors == [] <==> PatternValid(re, s, e, fields)
    ensures Under(path, errors)
    ensures forall k :: k in hits <==> k in fields && re.compiles(e) && re.search(e, k)
    decreases s, 0
  {
    errors, hits := [], {};
    if !re.compiles(e) { return [Violation(path, BadPattern(e))], {}; }
    var todo := fields.Keys;
    while todo != {}
      invariant todo <= fields.Keys
      invariant errors == [] <==>
        forall k :: k in fields && k !in todo && re.search(e, k) ==> Valid(re, s.patternProperties[e], fields[k])
      invariant Under(path, errors)
      invariant forall k :: k in hits <==> k in fields && k !in todo && re.search(e, k)
    {
      var k :| k in todo;
      if re.search(e, k) {
        hits := hits + {k};
        var found := ValidateNode(re, s.patternProperties[e], fields[k], path + [Field(k)], false);
        errors := errors + found;
      }
      todo := todo - {k};
    }
  }

  method ValidateConditional(re: Regex, s: Schema, fields: map<string, Value>, path: seq<Segment>)
    returns (errors: seq<Violation>)
    ensures errors == [] <==> ConditionalValid(re, s, fields)
    ensures Under(path, errors)
    decreases s, 0
  {
    errors := [];
    if s.ifSchema.None? { return; }
    var found := ValidateNode(re, s.ifSchema.value, Obj(fields), [], false);
    var branch := if found == [] then s.thenSchema else s.elseSchema;
    if branch.Some? {
      errors := ValidateNode(re, branch.value, Obj(fields), path, false);
    }
  }

  method ValidateExtra(re: Regex, s: Schema, fields: map<string, Value>, matched: set<string>, path: seq<Segment>, forbid: bool)
    returns (errors: seq<Violation>)
    requires forall k :: k in matched <==> k in fields && MatchedByPattern(re, s.patternProperties, k)
    ensures errors == [] <==>
      ExtrasValid(re, s, fields) && (forbid && s.additional.Unstated? ==> Undeclared(re, s, fields) == {})
    ensures Under(path, errors)
    decreases s, 0
  {
    errors := [];
    var extra := set k | k in fields && k !in s.properties.Keys + matched;
    assert extra == Undeclared(re, s, fields);
    if extra == {} { return; }
    match s.additional {
      case Allowed(allowed) =>
        if !allowed { errors := [Violation(path, UndeclaredFields(extra))]; }
      case Unstated =>
        if forbid { errors := [Violation(path, UndeclaredFields(extra))]; }
      case Described(addl) =>
        var todo := extra;
        while todo != {}
          invariant todo <= extra
          invariant errors == [] <==> forall k :: k in extra && k !in todo ==> Valid(re, addl, fields[k])
          invariant Under(path, errors)
        {
          var k :| k in todo;
          var found := ValidateNode(re, addl, fields[k], path + [Field(k)], false);
          errors := errors + found;
          todo := todo - {k};
        }
    }
  }
}
