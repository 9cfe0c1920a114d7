/** `generate_valid` and `generate_invalid`: which values the generators can produce, over every draw of the random
    source, and when the validator agrees with them. */
module Generate {
  import opened Model
  import opened Validation

  // ------------------------------------------------------------------ what a draw may be

  const DEPTH_LIMIT := 8

  function Deeper(depth: nat): nat { if depth > DEPTH_LIMIT then 0 else DEPTH_LIMIT + 1 - depth }

  predicate Lowercase(text: string) {
    forall i :: 0 <= i < |text| ==> 'a' <= text[i] <= 'z'
  }

  function Larger(a: int, b: int): int { if a < b then b else a }
  function Smaller(a: int, b: int): int { if a < b then a else b }

  /** Python's `x or y` on an optional integer: zero counts as missing. */
  function OrElse(x: Option<int>, y: int): int {
    if x.Some? && x.value != 0 then x.value else y
  }

  /** Python's `int(x)`: towards zero. */
  function Truncated(x: real): int {
    if x < 0.0 then -((-x).Floor) else x.Floor
  }

  function FormatSample(format: Option<string>): Option<string> {
    if format == Some("uuid") then Some("123e4567-e89b-42d3-a456-426614174000")
    else if format == Some("email") then Some("user@example.com")
    else if format == Some("date") then Some("2026-01-15")
    else if format == Some("date-time") then Some("2026-01-15T10:30:00Z")
    else if format == Some("uri") then Some("https://example.com/resource")
    else if format == Some("ipv4") then Some("192.0.2.1")
    else if format == Some("int32") || format == Some("int64") then Some("42")
    else None
  }

  /** The length asked of the random source; a negative one yields the empty text. */
  function TextLength(b: Bounds): int {
    var least := Larger(OrElse(b.minLength, 1), 1);
    Smaller(Larger(least, 3), OrElse(b.maxLength, Larger(least, 8)))
  }

  function LowestInteger(b: Bounds): int {
    var low := if b.minimum.Some? then Truncated(b.minimum.value) else 1;
    if b.exclusiveMinimum.Some? then Larger(low, Truncated(b.exclusiveMinimum.value) + 1) else low
  }

  /** The default upper end lies 100 above the inclusive lower end, before the exclusive one is looked at. */
  function HighestInteger(b: Bounds): int {
    var low := if b.minimum.Some? then Truncated(b.minimum.value) else 1;
    var high := if b.maximum.Some? then Truncated(b.maximum.value) else low + 100;
    var below := if b.exclusiveMaximum.Some? then Smaller(high, Truncated(b.exclusiveMaximum.value) - 1) else high;
    Larger(LowestInteger(b), below)
  }

  function ItemCount(b: Bounds): nat { Larger(OrElse(b.minItems, 1), 0) }

  function ItemSchema(s: Schema): Schema {
    if s.items.Some? then s.items.value else Typed(TString)
  }

  /** The type generated for: the first of a union, an object where none is stated. An empty name counts as missing. */
  function Lead(t: Option<JType>): JType {
    match t
    case None => TObject
    case Some(TOther("")) => TObject
    case Some(TUnion(members)) => if members == [] then TOther("") else members[0]
    case Some(single) => single
  }

  /** A stated value that is returned as it is. */
  predicate Stated(kw: Keywords) {
    !kw.example.Null? || !kw.constant.Null? || (kw.enum.Some? && kw.enum.value != []) || !kw.default.Null?
  }

  predicate StatedDraw(kw: Keywords, v: Value)
    requires Stated(kw)
  {
    if !kw.example.Null? then v == kw.example
    else if !kw.constant.Null? then v == kw.constant
    else if kw.enum.Some? && kw.enum.value != [] then v in kw.enum.value
    else v == kw.default
  }

  /** The values `generate_valid(s, rng, depth)` can return. */
  predicate Draws(s: Schema, depth: nat, v: Value)
    decreases Deeper(depth), 2
  {
    if depth > DEPTH_LIMIT then v == Null
    else if Stated(s.kw) then StatedDraw(s.kw, v)
    else
      match Lead(s.kw.typ)
      case TString => v.Str? && TextDraw(s.kw, v.s)
      case TInteger => v.Int? && LowestInteger(s.kw.bounds) <= v.i <= HighestInteger(s.kw.bounds)
      case TNumber => v.Float? && NumberDraw(s.kw.bounds, v.r)
      case TBoolean => v == Bool(true)
      case TArray => v.Arr? && ArrayDraw(s, depth, v.elems)
      case _ => v.Obj? && ObjectDraw(s, depth, v.fields)
  }

  predicate TextDraw(kw: Keywords, text: string) {
    if FormatSample(kw.format).Some? then text == FormatSample(kw.format).value
    else |text| == Larger(TextLength(kw.bounds), 0) && Lowercase(text)
  }

  /** Somewhere between the bounds, rounded to two places. */
  predicate NumberDraw(b: Bounds, x: real) {
    var low := if b.minimum.Some? then b.minimum.value else 1.0;
    var high := if b.maximum.Some? then b.maximum.value else low + 100.0;
    (if low < high then low else high) - 0.005 <= x <= (if low < high then high else low) + 0.005
  }

  predicate ArrayDraw(s: Schema, depth: nat, elems: seq<Value>)
    requires depth <= DEPTH_LIMIT
    decreases Deeper(depth), 1
  {
    |elems| == ItemCount(s.kw.bounds) && forall i :: 0 <= i < |elems| ==> Draws(ItemSchema(s), depth + 1, elems[i])
  }

  /** Any declared fields, the required ones among them always. */
  predicate ObjectDraw(s: Schema, depth: nat, fields: map<string, Value>)
    requires depth <= DEPTH_LIMIT
    decreases Deeper(depth), 1
  {
    && fields.Keys <= s.properties.Keys
    && (forall x :: x in s.kw.required && x in s.properties ==> x in fields)
    && (forall x :: x in s.properties && x in fields ==> Draws(s.properties[x], depth + 1, fields[x]))
  }

  // ------------------------------------------------------------------ the generator

  /** `rng.choices(ascii_lowercase, k=length)`. */
  method RandomText(length: int) returns (text: string)
    ensures |text| == Larger(length, 0) && Lowercase(text)
  {
    text := "";
    while |text| < length
      invariant |text| <= Larger(length, 0) && Lowercase(text)
    {
      var c: char :| 'a' <= c <= 'z';
      text := text + [c];
    }
  }

  method GenerateValid(s: Option<Schema>, depth: nat) returns (v: Value)
    ensures s.None? ==> v == Null
    ensures s.Some? ==> Draws(s.value, depth, v)
    decreases Deeper(depth), 1
  {
    if s.None? || depth > DEPTH_LIMIT { return Null; }
    var kw := s.value.kw;
    if !kw.example.Null? { return kw.example; }
    if !kw.constant.Null? { return kw.constant; }
    if kw.enum.Some? && kw.enum.value != [] {
      var i :| 0 <= i < |kw.enum.value|;
      return kw.enum.value[i];
    }
    if !kw.default.Null? { return kw.default; }
    match Lead(kw.typ)
    case TString =>
      var sample := FormatSample(kw.format);
      var text := if sample.Some? then sample.value else "";
      if sample.None? { text := RandomText(TextLength(kw.bounds)); }
      v := Str(text);
    case TInteger =>
      var k: int :| LowestInteger(kw.bounds) <= k <= HighestInteger(kw.bounds);
      v := Int(k);
    case TNumber =>
      assert NumberDraw(kw.bounds, if kw.bounds.minimum.Some? then kw.bounds.minimum.value else 1.0);
      var x: real :| NumberDraw(kw.bounds, x);
      v := Float(x);
    case TBoolean =>
      v := Bool(true);
    case TArray =>
      var elems := GenerateItems(s.value, depth);
      v := Arr(elems);
    case _ =>
      var fields := GenerateFields(s.value, depth);
      v := Obj(fields);
  }

  method GenerateItems(s: Schema, depth: nat) returns (elems: seq<Value>)
    requires depth <= DEPTH_LIMIT
    ensures ArrayDraw(s, depth, elems)
    decreases Deeper(depth), 0
  {
    elems := [];
    while |elems| < ItemCount(s.kw.bounds)
      invariant |elems| <= ItemCount(s.kw.bounds)
      invariant forall i :: 0 <= i < |elems| ==> Draws(ItemSchema(s), depth + 1, elems[i])
    {
      var v := GenerateValid(Some(ItemSchema(s)), depth + 1);
      elems := elems + [v];
    }
  }

  method GenerateFields(s: Schema, depth: nat) returns (fields: map<string, Value>)
    requires depth <= DEPTH_LIMIT
    ensures ObjectDraw(s, depth, fields)
    decreases Deeper(depth), 0
  {
    fields := map[];
    var todo := s.properties.Keys;
    while todo != {}
      invariant todo <= s.properties.Keys && fields.Keys <= s.properties.Keys - todo
      invariant forall x :: x in s.properties && x in fields ==> Draws(s.properties[x], depth + 1, fields[x])
    {
      var name :| name in todo;
      var chosen: bool := *;
      if name in s.kw.required || chosen {
        var v := GenerateValid(Some(s.properties[name]), depth + 1);
        fields := fields[name := v];
      }
      todo := todo - {name};
    }
    for k := 0 to |s.kw.required|
      invariant fields.Keys <= s.properties.Keys
      invariant forall j :: 0 <= j < k && s.kw.required[j] in s.properties ==> s.kw.required[j] in fields
      invariant forall x :: x in s.properties && x in fields ==> Draws(s.properties[x], depth + 1, fields[x])
    {
      var name := s.kw.required[k];
      if name !in fields && name in s.properties {
        var v := GenerateValid(Some(s.properties[name]), depth + 1);
        fields := fields[name := v];
      }
    }
  }

  // ------------------------------------------------------------------ when every draw is accepted

  /** Keywords the generator does not look at are absent, at every node it visits; `number` draws are rounded and
      stay outside. */
  predicate Simple(s: Schema) {
    && s.anyOf == [] && s.oneOf == [] && s.kw.pattern.None? && s.kw.multipleOf.None? && s.kw.uniqueItems != Some(true)
    && s.prefixItems == [] && s.contains.None? && s.kw.dependentRequired == map[] && s.dependentSchemas == map[]
    && s.propertyNames.None? && s.patternProperties == map[] && s.ifSchema.None? && !Lead(s.kw.typ).TNumber?
    && (s.items.Some? ==> Simple(s.items.value))
    && forall x :: x in s.properties ==> Simple(s.properties[x])
  }

  predicate TextSound(kw: Keywords) {
    if FormatSample(kw.format).Some? then
      var n := |FormatSample(kw.format).value|;
      AtLeast(kw.bounds.minLength, n) && AtMost(kw.bounds.maxLength, n)
    else
      kw.bounds.maxLength.Some? ==>
        1 <= kw.bounds.maxLength.value && (kw.bounds.minLength.Some? ==> kw.bounds.minLength.value <= kw.bounds.maxLength.value)
  }

  /** Whether the type accepts the kind of value generated. */
  predicate TypeSound(t: Option<JType>) {
    match t
    case Some(TNull) => false
    case Some(TUnion(members)) => Lead(t) in {TString, TInteger, TBoolean, TArray} || TypeMatches(TUnion(members), Obj(map[]))
    case _ => true
  }

  /** Everything a draw of this node can be is accepted: a stated value is valid, the bounds leave room for what is
      generated, required names are declared, and the sub-schemas visited are sound. */
  ghost predicate Sound(re: Regex, s: Schema, depth: nat)
    decreases Deeper(depth), 1
  {
    if depth > DEPTH_LIMIT then s.kw.nullable
    else if Stated(s.kw) then StatedSound(re, s)
    else
      && s.kw.enum.None? && TypeSound(s.kw.typ)
      && match s.kw.typ
         case Some(TString) => TextSound(s.kw)
         case Some(TInteger) =>
           RangeOk(s.kw.bounds, LowestInteger(s.kw.bounds) as real) && RangeOk(s.kw.bounds, HighestInteger(s.kw.bounds) as real)
         case Some(TArray) =>
           && AtMost(s.kw.bounds.maxItems, ItemCount(s.kw.bounds))
           && (ItemCount(s.kw.bounds) > 0 && s.items.Some? ==> Sound(re, s.items.value, depth + 1))
         case Some(TObject) =>
           && (forall x :: x in s.kw.required ==> x in s.properties)
           && (forall x :: x in s.properties ==> Sound(re, s.properties[x], depth + 1))
         case _ => true
  }

  ghost predicate StatedSound(re: Regex, s: Schema)
    requires Stated(s.kw)
  {
    if !s.kw.example.Null? then Valid(re, s, s.kw.example)
    else if !s.kw.constant.Null? then Valid(re, s, s.kw.constant)
    else if s.kw.enum.Some? && s.kw.enum.value != [] then forall i :: 0 <= i < |s.kw.enum.value| ==> Valid(re, s, s.kw.enum.value[i])
    else Valid(re, s, s.kw.default)
  }

  lemma {:induction false} RangeConvex(b: Bounds, low: int, k: int, high: int)
    requires low <= k <= high && RangeOk(b, low as real) && RangeOk(b, high as real)
    ensures RangeOk(b, k as real)
  {
  }

  /** A union accepts what its first member accepts. */
  lemma {:induction false} LeadMatches(t: Option<JType>, v: Value)
    requires t.Some? && t.value.TUnion? && t.value.members != [] && TypeMatches(t.value.members[0], v)
    ensures TypeOk(t, v)
  {
  }

  /** What is accepted of a node without compositions. */
  lemma {:induction false} SimpleValid(re: Regex, s: Schema, v: Value)
    requires Simple(s) && !v.Null?
    ensures Valid(re, s, v) <==>
      && EnumOk(s.kw.enum, v) && ConstOk(s.kw.constant, v) && TypeOk(s.kw.typ, v)
      && (s.kw.typ == Some(TString) ==> AtLeast(s.kw.bounds.minLength, |v.s|) && AtMost(s.kw.bounds.maxLength, |v.s|))
      && (s.kw.typ == Some(TInteger) ==> RangeOk(s.kw.bounds, AsReal(v)))
      && (s.kw.typ == Some(TArray) ==> SimpleArrayValid(re, s, v.elems))
      && (s.kw.typ == Some(TObject) ==> SimpleObjectValid(re, s, v.fields))
  {
    if s.kw.typ == Some(TArray) && v.Arr? { assert ArrayValid(re, s, v.elems) <==> SimpleArrayValid(re, s, v.elems); }
    if s.kw.typ == Some(TObject) && v.Obj? { SimpleObject(re, s, v.fields); }
    hide ArrayValid, ObjectValid, SimpleArrayValid, SimpleObjectValid, TypeMatches;
  }

  lemma {:induction false} SimpleObject(re: Regex, s: Schema, fields: map<string, Value>)
    requires Simple(s)
    ensures ObjectValid(re, s, fields) <==> SimpleObjectValid(re, s, fields)
  {
  }

  ghost predicate SimpleArrayValid(re: Regex, s: Schema, elems: seq<Value>) {
    && AtLeast(s.kw.bounds.minItems, |elems|) && AtMost(s.kw.bounds.maxItems, |elems|)
    && (s.items.Some? ==> forall i :: 0 <= i < |elems| ==> Valid(re, s.items.value, elems[i]))
  }

  ghost predicate SimpleObjectValid(re: Regex, s: Schema, fields: map<string, Value>) {
    && RequiredOk(s.kw.required, fields) && FieldsValid(re, s, fields) && ExtrasValid(re, s, fields)
  }

  // ------------------------------------------------------------------ sound nodes produce accepted values

  lemma {:induction false} TextFits(kw: Keywords, text: string)
    requires TextDraw(kw, text)
    ensures TextSound(kw) <==> AtLeast(kw.bounds.minLength, |text|) && AtMost(kw.bounds.maxLength, |text|)
  {
  }

  lemma {:induction false} ItemsAccepted(re: Regex, s: Schema, depth: nat, elems: seq<Value>)
    requires Simple(s) && depth <= DEPTH_LIMIT && ArrayDraw(s, depth, elems)
    requires ItemCount(s.kw.bounds) > 0 && s.items.Some? ==> Sound(re, s.items.value, depth + 1)
    requires AtMost(s.kw.bounds.maxItems, ItemCount(s.kw.bounds))
    ensures SimpleArrayValid(re, s, elems)
    decreases Deeper(depth), 1
  {
    if s.items.Some? {
      forall i | 0 <= i < |elems| ensures Valid(re, s.items.value, elems[i]) {
        DrawsAccepted(re, s.items.value, depth + 1, elems[i]);
      }
    }
  }

  lemma {:induction false} FieldsAccepted(re: Regex, s: Schema, depth: nat, fields: map<string, Value>)
    requires Simple(s) && depth <= DEPTH_LIMIT && ObjectDraw(s, depth, fields)
    requires forall x :: x in s.kw.required ==> x in s.properties
    requires forall x :: x in s.properties ==> Sound(re, s.properties[x], depth + 1)
    ensures SimpleObjectValid(re, s, fields)
    decreases Deeper(depth), 1
  {
    forall x | x in s.properties && x in fields ensures Valid(re, s.properties[x], fields[x]) {
      DrawsAccepted(re, s.properties[x], depth + 1, fields[x]);
    }
    assert Undeclared(re, s, fields) == {};
  }

  lemma {:induction false} DrawsAccepted(re: Regex, s: Schema, depth: nat, v: Value)
    requires Simple(s) && Sound(re, s, depth) && Draws(s, depth, v)
    ensures Valid(re, s, v)
    decreases Deeper(depth), 2
  {
    if depth > DEPTH_LIMIT {
    } else if Stated(s.kw) {
      hide Valid;
    } else {
      DrawTyped(s, depth, v);
      match s.kw.typ {
        case Some(TString) => TextFits(s.kw, v.s);
        case Some(TInteger) => RangeConvex(s.kw.bounds, LowestInteger(s.kw.bounds), v.i, HighestInteger(s.kw.bounds));
        case Some(TArray) => ItemsAccepted(re, s, depth, v.elems);
        case Some(TObject) => FieldsAccepted(re, s, depth, v.fields);
        case _ =>
      }
      SimpleValid(re, s, v);
      hide Valid, SimpleArrayValid, SimpleObjectValid, TextDraw, TextSound, RangeOk;
    }
  }

  lemma {:induction false} DrawTyped(s: Schema, depth: nat, v: Value)
    requires depth <= DEPTH_LIMIT && !Stated(s.kw) && Draws(s, depth, v) && !Lead(s.kw.typ).TNumber?
    ensures !v.Null? && (TypeOk(s.kw.typ, v) <==> TypeSound(s.kw.typ))
  {
    var t := s.kw.typ;
    if t.Some? && t.value.TUnion? {
      if v.Obj? { SameKindMatches(t.value, v, Obj(map[])); }
      if Lead(t) in {TString, TInteger, TBoolean, TArray} { LeadMatches(t, v); }
    }
    hide ArrayDraw, ObjectDraw, TextDraw;
  }

  // ------------------------------------------------------------------ unsound nodes can produce a rejected value

  /** There is always some draw. */
  lemma {:induction false} SomeDraw(s: Schema, depth: nat) returns (v: Value)
    ensures Draws(s, depth, v)
    decreases Deeper(depth)
  {
    if depth > DEPTH_LIMIT { return Null; }
    if Stated(s.kw) { return AnyStated(s.kw); }
    match Lead(s.kw.typ) {
      case TString => v := Str(SomeText(s.kw));
      case TInteger => v := Int(LowestInteger(s.kw.bounds));
      case TNumber =>
        v := Float(if s.kw.bounds.minimum.Some? then s.kw.bounds.minimum.value else 1.0);
        assert NumberDraw(s.kw.bounds, v.r);
      case TBoolean => v := Bool(true);
      case TArray =>
        var item := SomeDraw(ItemSchema(s), depth + 1);
        v := Arr(Copies(item, ItemCount(s.kw.bounds)));
      case _ =>
        var fields := SomeFields(s, depth, s.properties.Keys);
        v := Obj(fields);
    }
  }

  function Copies(v: Value, n: nat): (elems: seq<Value>)
    ensures |elems| == n && forall i :: 0 <= i < n ==> elems[i] == v
  {
    seq(n, i => v)
  }

  function Letters(n: nat): (text: string)
    ensures |text| == n && Lowercase(text)
  {
    seq(n, i => 'a')
  }

  function SomeText(kw: Keywords): (text: string)
    ensures TextDraw(kw, text)
  {
    if FormatSample(kw.format).Some? then FormatSample(kw.format).value else Letters(Larger(TextLength(kw.bounds), 0))
  }

  function AnyStated(kw: Keywords): (v: Value)
    requires Stated(kw)
    ensures StatedDraw(kw, v)
  {
    if !kw.example.Null? then kw.example else if !kw.constant.Null? then kw.constant
    else if kw.enum.Some? && kw.enum.value != [] then kw.enum.value[0] else kw.default
  }

  lemma {:induction false} SomeFields(s: Schema, depth: nat, names: set<string>) returns (fields: map<string, Value>)
    requires depth <= DEPTH_LIMIT && names <= s.properties.Keys
    ensures fields.Keys == names && forall x :: x in names ==> Draws(s.properties[x], depth + 1, fields[x])
    decreases Deeper(depth), 0, |names|
  {
    if names == {} { return map[]; }
    var x :| x in names;
    var rest := SomeFields(s, depth, names - {x});
    var v := SomeDraw(s.properties[x], depth + 1);
    fields := rest[x := v];
  }

  lemma {:induction false} UnsoundStated(re: Regex, s: Schema) returns (v: Value)
    requires Stated(s.kw) && !StatedSound(re, s)
    ensures StatedDraw(s.kw, v) && !Valid(re, s, v)
  {
    hide Valid;
    if !s.kw.example.Null? || !s.kw.constant.Null? || !(s.kw.enum.Some? && s.kw.enum.value != []) { return AnyStated(s.kw); }
    var i :| 0 <= i < |s.kw.enum.value| && !Valid(re, s, s.kw.enum.value[i]);
    v := s.kw.enum.value[i];
  }

  lemma {:induction false} UnsoundItems(re: Regex, s: Schema, depth: nat) returns (elems: seq<Value>)
    requires Simple(s) && depth <= DEPTH_LIMIT
    requires !(AtMost(s.kw.bounds.maxItems, ItemCount(s.kw.bounds)) &&
               (ItemCount(s.kw.bounds) > 0 && s.items.Some? ==> Sound(re, s.items.value, depth + 1)))
    ensures ArrayDraw(s, depth, elems) && !SimpleArrayValid(re, s, elems)
    decreases Deeper(depth), 1
  {
    var item: Value;
    if AtMost(s.kw.bounds.maxItems, ItemCount(s.kw.bounds)) {
      item := UnsoundDraw(re, s.items.value, depth + 1);
    } else {
      item := SomeDraw(ItemSchema(s), depth + 1);
    }
    elems := Copies(item, ItemCount(s.kw.bounds));
    if |elems| > 0 { assert elems[0] == item; }
  }

  lemma {:induction false} UnsoundFields(re: Regex, s: Schema, depth: nat) returns (fields: map<string, Value>)
    requires Simple(s) && depth <= DEPTH_LIMIT
    requires !((forall x :: x in s.kw.required ==> x in s.properties) &&
               (forall x :: x in s.properties ==> Sound(re, s.properties[x], depth + 1)))
    ensures ObjectDraw(s, depth, fields) && !SimpleObjectValid(re, s, fields)
    decreases Deeper(depth), 1
  {
    fields := SomeFields(s, depth, s.properties.Keys);
    if forall x :: x in s.kw.required ==> x in s.properties {
      var x :| x in s.properties && !Sound(re, s.properties[x], depth + 1);
      var v := UnsoundDraw(re, s.properties[x], depth + 1);
      hide Valid, Sound, Draws, Simple;
      RefusedField(re, s, fields[x := v], x);
      fields := fields[x := v];
    } else {
      hide *;
      var x :| x in s.kw.required && x !in s.properties;
      MissingField(re, s, fields, x);
      AllFieldsDrawn(s, depth, fields);
    }
  }

  lemma {:induction false} RefusedField(re: Regex, s: Schema, fields: map<string, Value>, x: string)
    requires x in s.properties && x in fields && !Valid(re, s.properties[x], fields[x])
    ensures !SimpleObjectValid(re, s, fields) && !ObjectValid(re, s, fields)
  {
    hide Valid;
    assert !FieldsValid(re, s, fields);
  }

  lemma {:induction false} MissingField(re: Regex, s: Schema, fields: map<string, Value>, x: string)
    requires x in s.kw.required && x !in fields
    ensures !SimpleObjectValid(re, s, fields) && !ObjectValid(re, s, fields)
  {
    hide FieldsValid, ExtrasValid;
    var i :| 0 <= i < |s.kw.required| && s.kw.required[i] == x;
    assert !RequiredOk(s.kw.required, fields);
  }

  lemma {:induction false} AllFieldsDrawn(s: Schema, depth: nat, fields: map<string, Value>)
    requires depth <= DEPTH_LIMIT && fields.Keys == s.properties.Keys
    requires forall x :: x in s.properties ==> Draws(s.properties[x], depth + 1, fields[x])
    ensures ObjectDraw(s, depth, fields)
  {
    hide Draws;
  }

  lemma {:induction false} UnsoundInteger(b: Bounds) returns (k: int)
    requires !(RangeOk(b, LowestInteger(b) as real) && RangeOk(b, HighestInteger(b) as real))
    ensures LowestInteger(b) <= k <= HighestInteger(b) && !RangeOk(b, k as real)
  {
    k := if RangeOk(b, LowestInteger(b) as real) then HighestInteger(b) else LowestInteger(b);
  }

  lemma {:induction false} UnsoundDraw(re: Regex, s: Schema, depth: nat) returns (v: Value)
    requires Simple(s) && !Sound(re, s, depth)
    ensures Draws(s, depth, v) && !Valid(re, s, v)
    decreases Deeper(depth), 2
  {
    if depth > DEPTH_LIMIT { return Null; }
    if Stated(s.kw) {
      v := UnsoundStated(re, s);
      return;
    }
    v := SomeDraw(s, depth);
    if s.kw.enum.None? && TypeSound(s.kw.typ) {
      match s.kw.typ {
        case Some(TString) => TextFits(s.kw, v.s);
        case Some(TInteger) => var k := UnsoundInteger(s.kw.bounds); v := Int(k);
        case Some(TArray) => var elems := UnsoundItems(re, s, depth); v := Arr(elems);
        case Some(TObject) => var fields := UnsoundFields(re, s, depth); v := Obj(fields);
        case _ =>
      }
    }
    DrawTyped(s, depth, v);
    SimpleValid(re, s, v);
    hide Valid, SimpleArrayValid, SimpleObjectValid, TextDraw, TextSound, RangeOk, TypeMatches;
  }

  /** Every draw is accepted exactly when the schema is sound: for all random choices, not only the likely ones. */
  lemma {:induction false} GeneratorAgrees(re: Regex, s: Schema)
    requires Simple(s)
    ensures (forall v :: Draws(s, 0, v) ==> Valid(re, s, v)) <==> Sound(re, s, 0)
  {
    if Sound(re, s, 0) {
      forall v | Draws(s, 0, v) ensures Valid(re, s, v) { DrawsAccepted(re, s, 0, v); }
    } else {
      var v := UnsoundDraw(re, s, 0);
    }
    hide Draws, Valid, Sound, Simple;
  }

  // ------------------------------------------------------------------ which values are drawn

  /** The first of example, constant, a member of the enum and default that is stated, and nothing else. */
  lemma {:induction false} StatedFirst(s: Schema, depth: nat, v: Value)
    requires depth <= 8
    ensures s.kw.example != Null ==> (Draws(s, depth, v) <==> v == s.kw.example)
    ensures s.kw.example == Null && s.kw.constant != Null ==> (Draws(s, depth, v) <==> v == s.kw.constant)
    ensures s.kw.example == Null && s.kw.constant == Null && s.kw.enum.Some? && |s.kw.enum.value| > 0 ==>
      (Draws(s, depth, v) <==> exists i :: 0 <= i < |s.kw.enum.value| && v == s.kw.enum.value[i])
    ensures s.kw.example == Null && s.kw.constant == Null && (s.kw.enum.Some? ==> s.kw.enum.value == []) && s.kw.default != Null ==>
      (Draws(s, depth, v) <==> v == s.kw.default)
  {
  }

  predicate Unstated(kw: Keywords) {
    kw.example == Null && kw.constant == Null && (kw.enum.Some? ==> kw.enum.value == []) && kw.default == Null
  }

  predicate AllowsLength(b: Bounds, n: int) {
    1 <= n && (b.minLength.Some? ==> b.minLength.value <= n) && (b.maxLength.Some? ==> n <= b.maxLength.value)
  }

  function FromThree(n: int): int { if n < 3 then 3 - n else n - 3 }

  /** Texts are of lower-case letters, any of them, and of the length nearest three that the bounds allow. */
  lemma {:induction false} TextsDrawn(s: Schema, depth: nat, v: Value)
    requires depth <= 8 && Unstated(s.kw) && s.kw.typ == Some(TString) && FormatSample(s.kw.format).None?
    requires exists n :: AllowsLength(s.kw.bounds, n)
    ensures Draws(s, depth, v) <==>
      && v.Str? && (forall i :: 0 <= i < |v.s| ==> v.s[i] in "abcdefghijklmnopqrstuvwxyz")
      && AllowsLength(s.kw.bounds, |v.s|) && forall n :: AllowsLength(s.kw.bounds, n) ==> FromThree(|v.s|) <= FromThree(n)
  {
    var b := s.kw.bounds;
    assert AllowsLength(b, TextLength(b));
    assert forall n :: AllowsLength(b, n) ==> FromThree(TextLength(b)) <= FromThree(n);
    assert forall n :: AllowsLength(b, n) && FromThree(n) <= FromThree(TextLength(b)) ==> n == TextLength(b);
    if v.Str? { Alphabet(v.s); }
  }

  lemma {:induction false} Alphabet(text: string)
    ensures Lowercase(text) <==> forall i :: 0 <= i < |text| ==> text[i] in "abcdefghijklmnopqrstuvwxyz"
  {
    forall i | 0 <= i < |text| ensures 'a' <= text[i] <= 'z' <==> text[i] in "abcdefghijklmnopqrstuvwxyz" { Letter(text[i]); }
  }

  lemma {:induction false} Letter(c: char)
    ensures 'a' <= c <= 'z' <==> c in "abcdefghijklmnopqrstuvwxyz"
  {
    var letters := "abcdefghijklmnopqrstuvwxyz";
    assert forall k :: 0 <= k < 26 ==> letters[k] as int == 97 + k;
    if 'a' <= c <= 'z' { assert letters[c as int - 97] == c; }
  }

  /** The texts drawn for a format that has a sample; a stated length is not looked at. */
  const SAMPLES := map[
    "uuid" := "123e4567-e89b-42d3-a456-426614174000", "email" := "user@example.com", "date" := "2026-01-15",
    "date-time" := "2026-01-15T10:30:00Z", "uri" := "https://example.com/resource", "ipv4" := "192.0.2.1", "int32" := "42", "int64" := "42"]

  lemma {:induction false} SamplesDrawn(s: Schema, depth: nat, v: Value)
    requires depth <= 8 && Unstated(s.kw) && s.kw.typ == Some(TString)
    ensures FormatSample(s.kw.format).Some? <==> s.kw.format.Some? && s.kw.format.value in SAMPLES
    ensures s.kw.format.Some? && s.kw.format.value in SAMPLES ==> (Draws(s, depth, v) <==> v == Str(SAMPLES[s.kw.format.value]))
  {
  }

  /** A union is drawn as its first member, no type as an object; past the ninth level everything is null. */
  lemma {:induction false} UnionsDrawn(s: Schema, depth: nat, v: Value, first: JType, rest: seq<JType>)
    requires first in {TObject, TArray, TString, TBoolean, TInteger, TNumber, TNull}
    ensures s.kw.typ == Some(TUnion([first] + rest)) ==> (Draws(s, depth, v) <==> Draws(s.(kw := s.kw.(typ := Some(first))), depth, v))
    ensures s.kw.typ == None ==> (Draws(s, depth, v) <==> Draws(s.(kw := s.kw.(typ := Some(TObject))), depth, v))
    ensures depth > 8 ==> (Draws(s, depth, v) <==> v == Null)
    ensures depth <= 8 && Unstated(s.kw) && s.kw.typ == Some(TBoolean) ==> (Draws(s, depth, v) <==> v == Bool(true))
  {
    assert Lead(Some(first)) == first && Lead(Some(TUnion([first] + rest))) == first;
    if s.kw.typ == Some(TUnion([first] + rest)) { LeadDecides(s, Some(first), depth, v); }
    if s.kw.typ == None { LeadDecides(s, Some(TObject), depth, v); }
    hide ArrayDraw, ObjectDraw, TextDraw, NumberDraw, StatedDraw, HighestInteger, LowestInteger;
  }

  lemma {:induction false} LeadDecides(s: Schema, t: Option<JType>, depth: nat, v: Value)
    requires Lead(s.kw.typ) == Lead(t)
    ensures Draws(s, depth, v) <==> Draws(s.(kw := s.kw.(typ := t)), depth, v)
  {
    hide Lead, Draws, LowestInteger, HighestInteger, FormatSample;
    var one := s.(kw := s.kw.(typ := t));
    if depth <= 8 {
      if v.Arr? { assert ArrayDraw(s, depth, v.elems) == ArrayDraw(one, depth, v.elems); }
      if v.Obj? { assert ObjectDraw(s, depth, v.fields) == ObjectDraw(one, depth, v.fields); }
    }
    hide ArrayDraw, ObjectDraw;
    SameDraws(s, one, depth, v);
  }

  lemma {:induction false} SameDraws(s: Schema, one: Schema, depth: nat, v: Value)
    requires one == s.(kw := s.kw.(typ := one.kw.typ)) && Lead(s.kw.typ) == Lead(one.kw.typ)
    requires depth <= 8 && v.Arr? ==> ArrayDraw(s, depth, v.elems) == ArrayDraw(one, depth, v.elems)
    requires depth <= 8 && v.Obj? ==> ObjectDraw(s, depth, v.fields) == ObjectDraw(one, depth, v.fields)
    ensures Draws(s, depth, v) <==> Draws(one, depth, v)
  {
    hide ArrayDraw, ObjectDraw, Lead, LowestInteger, HighestInteger, FormatSample;
  }

  /** A number lies between the bounds, either way round, but for half a hundredth; a hundred apart where no maximum is stated. */
  lemma {:induction false} NumbersDrawn(s: Schema, depth: nat, v: Value)
    requires depth <= 8 && Unstated(s.kw) && s.kw.typ == Some(TNumber)
    requires s.kw.bounds.minimum.Some? && (s.kw.bounds.maximum.Some? ==> s.kw.bounds.minimum.value <= s.kw.bounds.maximum.value)
    ensures Draws(s, depth, v) <==>
      && v.Float? && s.kw.bounds.minimum.value - 0.005 <= v.r
      && v.r <= 0.005 + (if s.kw.bounds.maximum.Some? then s.kw.bounds.maximum.value else s.kw.bounds.minimum.value + 100.0)
  {
  }

  predicate Whole(o: Option<real>) { o.Some? ==> o.value == o.value.Floor as real }

  /** Between the bounds; from 1 where no minimum is stated, up to 100 more where no maximum is. */
  predicate AllowsInteger(b: Bounds, k: int) {
    && (if b.minimum.Some? then b.minimum.value else 1.0) <= k as real
    && k as real <= (if b.maximum.Some? then b.maximum.value else if b.minimum.Some? then b.minimum.value + 100.0 else 101.0)
    && (b.exclusiveMinimum.Some? ==> b.exclusiveMinimum.value < k as real)
    && (b.exclusiveMaximum.Some? ==> k as real < b.exclusiveMaximum.value)
  }

  /** Of whole bounds that allow any integer exactly the integers they allow are drawn. */
  lemma {:induction false} IntegersDrawn(s: Schema, depth: nat, v: Value)
    requires depth <= 8 && Unstated(s.kw) && s.kw.typ == Some(TInteger)
    requires Whole(s.kw.bounds.minimum) && Whole(s.kw.bounds.maximum) && Whole(s.kw.bounds.exclusiveMinimum) && Whole(s.kw.bounds.exclusiveMaximum)
    requires exists k :: AllowsInteger(s.kw.bounds, k)
    ensures Draws(s, depth, v) <==> v.Int? && AllowsInteger(s.kw.bounds, v.i)
  {
    var b := s.kw.bounds;
    forall k | AllowsInteger(b, k) ensures LowestInteger(b) <= k <= HighestInteger(b) { IntegerAllowed(b, k); }
    var k :| AllowsInteger(b, k);
    if v.Int? && LowestInteger(b) <= v.i <= HighestInteger(b) { IntegerBetween(b, k, v.i); }
  }

  lemma {:induction false} WholeTruncated(x: real)
    requires x == x.Floor as real
    ensures Truncated(x) as real == x
  {
    var k := x.Floor;
    if x < 0.0 {
      assert -x == (-k) as real;
      assert ((-k) as real).Floor == -k;
    }
  }

  lemma {:induction false} WholeBounds(b: Bounds)
    requires Whole(b.minimum) && Whole(b.maximum) && Whole(b.exclusiveMinimum) && Whole(b.exclusiveMaximum)
    ensures b.minimum.Some? ==> Truncated(b.minimum.value) as real == b.minimum.value
    ensures b.maximum.Some? ==> Truncated(b.maximum.value) as real == b.maximum.value
    ensures b.exclusiveMinimum.Some? ==> Truncated(b.exclusiveMinimum.value) as real == b.exclusiveMinimum.value
    ensures b.exclusiveMaximum.Some? ==> Truncated(b.exclusiveMaximum.value) as real == b.exclusiveMaximum.value
  {
    if b.minimum.Some? { WholeTruncated(b.minimum.value); }
    if b.maximum.Some? { WholeTruncated(b.maximum.value); }
    if b.exclusiveMinimum.Some? { WholeTruncated(b.exclusiveMinimum.value); }
    if b.exclusiveMaximum.Some? { WholeTruncated(b.exclusiveMaximum.value); }
  }

  lemma {:induction false} IntegerAllowed(b: Bounds, k: int)
    requires Whole(b.minimum) && Whole(b.maximum) && Whole(b.exclusiveMinimum) && Whole(b.exclusiveMaximum) && AllowsInteger(b, k)
    ensures LowestInteger(b) <= k <= HighestInteger(b)
  {
    WholeBounds(b);
    hide Truncated;
  }

  lemma {:induction false} IntegerBetween(b: Bounds, k: int, i: int)
    requires Whole(b.minimum) && Whole(b.maximum) && Whole(b.exclusiveMinimum) && Whole(b.exclusiveMaximum) && AllowsInteger(b, k)
    requires LowestInteger(b) <= i <= HighestInteger(b)
    ensures AllowsInteger(b, i)
  {
    WholeBounds(b);
    IntegerAllowed(b, k);
    hide Truncated;
  }

  /** Lists are as long as `minItems` asks, of one element where it asks for none. */
  lemma {:induction false} ListsDrawn(s: Schema, depth: nat, v: Value)
    requires depth <= 8 && Unstated(s.kw) && s.kw.typ == Some(TArray)
    requires s.kw.bounds.minItems.Some? ==> s.kw.bounds.minItems.value >= 0
    ensures Draws(s, depth, v) <==>
      && v.Arr? && (forall i :: 0 <= i < |v.elems| ==> Draws(ItemSchema(s), depth + 1, v.elems[i]))
      && |v.elems| == (match s.kw.bounds.minItems case None => 1 case Some(n) => if n == 0 then 1 else n)
  {
    ListDraw(s, depth, v);
    hide Draws;
    if v.Arr? {
      assert ArrayDraw(s, depth, v.elems) <==>
        |v.elems| == ItemCount(s.kw.bounds) && forall i :: 0 <= i < |v.elems| ==> Draws(ItemSchema(s), depth + 1, v.elems[i]);
    }
  }

  lemma {:induction false} ListDraw(s: Schema, depth: nat, v: Value)
    requires depth <= 8 && Unstated(s.kw) && s.kw.typ == Some(TArray)
    ensures Draws(s, depth, v) <==> v.Arr? && ArrayDraw(s, depth, v.elems)
  {
    hide ArrayDraw;
  }

  /** An object may have any of the declared fields, so long as it has those that are required. */
  lemma {:induction false} FieldsDrawn(s: Schema, depth: nat, names: set<string>)
    requires depth <= 8 && Unstated(s.kw) && s.kw.typ in {None, Some(TObject)}
    ensures (exists v :: Draws(s, depth, v) && v.Obj? && v.fields.Keys == names) <==>
      names <= s.properties.Keys && forall x :: x in s.kw.required && x in s.properties ==> x in names
  {
    if names <= s.properties.Keys && forall x :: x in s.kw.required && x in s.properties ==> x in names {
      var fields := SomeFields(s, depth, names);
      assert Draws(s, depth, Obj(fields));
    }
  }
}
