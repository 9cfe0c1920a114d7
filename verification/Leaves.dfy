/** Replacing one text leaf of a valid body: `_string_fields`, `_set_at` and `_fits`. */
module Leaves {
  import opened Model
  import opened Validation
  import opened Text

  // ------------------------------------------------------------------ dotted paths

  predicate Bracketed(part: string) { |part| >= 2 && part[|part| - 2..] == "[]" }

  function Key(part: string): string
    requires Bracketed(part)
  {
    part[..|part| - 2]
  }

  // ------------------------------------------------------------------ listing the leaves

  function Joined(prefix: string, name: string): string {
    if prefix == "" then name else prefix + "." + name
  }

  /** `_string_fields(s, prefix)` lists the leaf under this dotted path. */
  ghost predicate Listed(s: Schema, prefix: string, dotted: string, leaf: Schema)
    decreases s
  {
    || (s.kw.typ == Some(TString) && leaf == s && dotted == if prefix == "" then "$" else prefix)
    || (exists name :: name in s.properties && Listed(s.properties[name], Joined(prefix, name), dotted, leaf))
    || (s.items.Some? && Listed(s.items.value, prefix + "[]", dotted, leaf))
  }

  /** Listed below one of the properties. */
  ghost predicate ListedIn(s: Schema, names: set<string>, prefix: string, dotted: string, leaf: Schema)
    requires names <= s.properties.Keys
  {
    exists name :: name in names && Listed(s.properties[name], Joined(prefix, name), dotted, leaf)
  }

  method StringFields(s: Schema, prefix: string) returns (found: seq<(string, Schema)>)
    ensures forall dotted, leaf :: (dotted, leaf) in found <==> Listed(s, prefix, dotted, leaf)
    decreases s
  {
    found := [];
    if s.kw.typ == Some(TString) { found := [(if prefix == "" then "$" else prefix, s)]; }
    ghost var own := found;
    var todo := s.properties.Keys;
    while todo != {}
      invariant todo <= s.properties.Keys
      invariant forall dotted, leaf ::
        (dotted, leaf) in found <==> ((dotted, leaf) in own || ListedIn(s, s.properties.Keys - todo, prefix, dotted, leaf))
    {
      var name :| name in todo;
      var below := StringFields(s.properties[name], Joined(prefix, name));
      found := found + below;
      todo := todo - {name};
    }
    assert s.properties.Keys - todo == s.properties.Keys;
    if s.items.Some? {
      var below := StringFields(s.items.value, prefix + "[]");
      found := found + below;
    }
  }

  // ------------------------------------------------------------------ assigning

  /** The effect of `_set_at` on a value, part by part; a part that leads nowhere leaves the value alone. */
  function Assign(v: Value, parts: seq<string>, leaf: Value): Value
    requires parts != []
    decreases |parts|
  {
    if Bracketed(parts[0]) then
      var key := Key(parts[0]);
      if v.Obj? && key in v.fields && v.fields[key].Arr? && v.fields[key].elems != [] then
        var elems := v.fields[key].elems;
        var first := if |parts| == 1 then leaf else Assign(elems[0], parts[1..], leaf);
        Obj(v.fields[key := Arr(elems[0 := first])])
      else v
    else if !v.Obj? then v
    else if |parts| == 1 then Obj(v.fields[parts[0] := leaf])
    else if parts[0] in v.fields then Obj(v.fields[parts[0] := Assign(v.fields[parts[0]], parts[1..], leaf)])
    else v
  }

  function SetLeaf(body: Value, dotted: string, leaf: Value): Value {
    if dotted == "$" || dotted == "" then leaf else Assign(body, Split(dotted, '.'), leaf)
  }

  /** The part of a value at a path of field names and indices. */
  function At(v: Value, path: seq<Segment>): Option<Value>
    decreases |path|
  {
    if path == [] then Some(v)
    else match path[0]
      case Field(name) => if v.Obj? && name in v.fields then At(v.fields[name], path[1..]) else None
      case Index(i) => if v.Arr? && i < |v.elems| then At(v.elems[i], path[1..]) else None
      case NameOf(_) => None
  }

  /** The value with the part at a path replaced. */
  function Replace(v: Value, path: seq<Segment>, part: Value): Value
    requires At(v, path).Some?
    decreases |path|
  {
    if path == [] then part
    else match path[0]
      case Field(name) => Obj(v.fields[name := Replace(v.fields[name], path[1..], part)])
      case Index(i) => Arr(v.elems[i := Replace(v.elems[i], path[1..], part)])
      case NameOf(_) => v
  }

  lemma {:induction false} ReplaceSame(v: Value, path: seq<Segment>)
    requires At(v, path).Some?
    ensures Replace(v, path, At(v, path).value) == v
    decreases |path|
  {
    if path != [] {
      match path[0]
      case Field(name) => ReplaceSame(v.fields[name], path[1..]);
      case Index(i) => ReplaceSame(v.elems[i], path[1..]);
      case NameOf(_) =>
    }
  }

  lemma {:induction false} ReplaceWithin(v: Value, path: seq<Segment>, more: seq<Segment>, part: Value)
    requires At(v, path).Some? && At(At(v, path).value, more).Some?
    ensures At(v, path + more) == At(At(v, path).value, more)
    ensures Replace(v, path + more, part) == Replace(v, path, Replace(At(v, path).value, more, part))
    decreases |path|
  {
    if path == [] {
      assert path + more == more;
    } else {
      assert (path + more)[1..] == path[1..] + more;
      match path[0]
      case Field(name) => ReplaceWithin(v.fields[name], path[1..], more, part);
      case Index(i) => ReplaceWithin(v.elems[i], path[1..], more, part);
      case NameOf(_) =>
    }
  }

  /** Where a part leads from here, if anywhere. */
  function Lead(here: Value, part: string): Option<seq<Segment>> {
    if Bracketed(part) then
      if here.Obj? && Key(part) in here.fields && here.fields[Key(part)].Arr? && here.fields[Key(part)].elems != []
      then Some([Field(Key(part)), Index(0)]) else None
    else if here.Obj? && part in here.fields then Some([Field(part)])
    else None
  }

  lemma {:induction false} AssignAlong(here: Value, parts: seq<string>, leaf: Value)
    requires |parts| >= 2
    ensures Lead(here, parts[0]).None? ==> Assign(here, parts, leaf) == here
    ensures Lead(here, parts[0]).Some? ==>
      var steps := Lead(here, parts[0]).value;
      At(here, steps).Some? && Assign(here, parts, leaf) == Replace(here, steps, Assign(At(here, steps).value, parts[1..], leaf))
  {
    if Lead(here, parts[0]).Some? {
      var steps := Lead(here, parts[0]).value;
      if Bracketed(parts[0]) {
        var list := here.fields[Key(parts[0])];
        assert steps[1..] == [Index(0)] && [Index(0)][1..] == [];
        assert At(list, [Index(0)]) == Some(list.elems[0]);
        forall part ensures Replace(list, [Index(0)], part) == Arr(list.elems[0 := part]) {}
      } else {
        assert steps[1..] == [];
      }
    }
  }

  lemma {:induction false} AtRoot(v: Value, part: Value)
    ensures At(v, []) == Some(v) && Replace(v, [], part) == part
  {
  }

  method AssignLast(here: Value, last: string, leaf: Value) returns (there: Value)
    ensures there == Assign(here, [last], leaf)
  {
    there := here;
    if Bracketed(last) {
      if Lead(here, last).Some? {
        var elems := here.fields[Key(last)].elems;
        there := Obj(here.fields[Key(last) := Arr(elems[0 := leaf])]);
      }
    } else if here.Obj? {
      there := Obj(here.fields[last := leaf]);
    }
  }

  /** The loop of `_set_at`: a cursor moves into the copy, and one place is assigned. */
  method SetAt(body: Value, dotted: string, leaf: Value) returns (out: Value)
    ensures out == SetLeaf(body, dotted, leaf)
  {
    if dotted == "$" || dotted == "" { return leaf; }
    var parts := Split(dotted, '.');
    assert parts[0..] == parts;
    AtRoot(body, Assign(body, parts, leaf));
    hide *;
    var cursor: seq<Segment> := [];
    var k := 0;
    while k < |parts| - 1
      invariant 0 <= k < |parts| && At(body, cursor).Some?
      invariant SetLeaf(body, dotted, leaf) == Replace(body, cursor, Assign(At(body, cursor).value, parts[k..], leaf))
    {
      var here := At(body, cursor).value;
      AssignAlong(here, parts[k..], leaf);
      assert parts[k..][0] == parts[k] && parts[k..][1..] == parts[k + 1..];
      var steps := Lead(here, parts[k]);
      if steps.None? {
        ReplaceSame(body, cursor);
        return body;
      }
      ReplaceWithin(body, cursor, steps.value, Assign(At(here, steps.value).value, parts[k + 1..], leaf));
      cursor := cursor + steps.value;
      k := k + 1;
    }
    assert parts[k..] == [parts[k]];
    var there := AssignLast(At(body, cursor).value, parts[k], leaf);
    out := Replace(body, cursor, there);
  }

  // ------------------------------------------------------------------ which paths are rendered

  datatype Hop = Named(name: string) | Element

  /** The schema below a route of properties and items. */
  function Follow(s: Schema, route: seq<Hop>): Option<Schema>
    decreases |route|
  {
    if route == [] then Some(s)
    else match route[0]
      case Named(name) => if name in s.properties then Follow(s.properties[name], route[1..]) else None
      case Element => if s.items.Some? then Follow(s.items.value, route[1..]) else None
  }

  function Render(prefix: string, route: seq<Hop>): string
    decreases |route|
  {
    if route == [] then prefix
    else match route[0]
      case Named(name) => Render(Joined(prefix, name), route[1..])
      case Element => Render(prefix + "[]", route[1..])
  }

  /** Every listed leaf is the end of a route, and its path renders the route. */
  lemma {:induction false} ListedRoute(s: Schema, prefix: string, dotted: string, leaf: Schema) returns (route: seq<Hop>)
    requires Listed(s, prefix, dotted, leaf)
    ensures Follow(s, route) == Some(leaf) && leaf.kw.typ == Some(TString)
    ensures dotted == if Render(prefix, route) == "" then "$" else Render(prefix, route)
    decreases s
  {
    if s.kw.typ == Some(TString) && leaf == s && dotted == (if prefix == "" then "$" else prefix) { return []; }
    if name :| name in s.properties && Listed(s.properties[name], Joined(prefix, name), dotted, leaf) {
      var rest := ListedRoute(s.properties[name], Joined(prefix, name), dotted, leaf);
      route := [Named(name)] + rest;
      assert route[1..] == rest;
    } else {
      var rest := ListedRoute(s.items.value, prefix + "[]", dotted, leaf);
      route := [Element] + rest;
      assert route[1..] == rest;
    }
  }

  lemma {:induction false} RouteListed(s: Schema, prefix: string, route: seq<Hop>)
    requires Follow(s, route).Some? && Follow(s, route).value.kw.typ == Some(TString)
    ensures Listed(s, prefix, if Render(prefix, route) == "" then "$" else Render(prefix, route), Follow(s, route).value)
    decreases |route|
  {
    if route != [] {
      match route[0]
      case Named(name) => RouteListed(s.properties[name], Joined(prefix, name), route[1..]);
      case Element => RouteListed(s.items.value, prefix + "[]", route[1..]);
    }
  }

  predicate LeadsTo(s: Schema, route: seq<Hop>, prefix: string, dotted: string, leaf: Schema) {
    && Follow(s, route) == Some(leaf) && leaf.kw.typ == Some(TString)
    && dotted == if Render(prefix, route) == "" then "$" else Render(prefix, route)
  }

  /** Exactly the text leaves some route leads to are listed, each under the path that renders the route. */
  lemma {:induction false} ListedExactly(s: Schema, prefix: string, dotted: string, leaf: Schema)
    ensures Listed(s, prefix, dotted, leaf) <==> exists route :: LeadsTo(s, route, prefix, dotted, leaf)
  {
    hide Listed, Follow, Render;
    if Listed(s, prefix, dotted, leaf) {
      var route := ListedRoute(s, prefix, dotted, leaf);
      assert LeadsTo(s, route, prefix, dotted, leaf);
    }
    if route :| LeadsTo(s, route, prefix, dotted, leaf) { RouteListed(s, prefix, route); }
  }

  // ------------------------------------------------------------------ ... and how they split again

  predicate PlainName(name: string) {
    name != "" && name != "$" && forall i :: 0 <= i < |name| ==> name[i] !in {'.', '[', ']'}
  }

  predicate NoDots(text: string) { forall i :: 0 <= i < |text| ==> text[i] != '.' }

  predicate PlainRoute(route: seq<Hop>) {
    forall i :: 0 <= i < |route| && route[i].Named? ==> PlainName(route[i].name)
  }

  /** What a route adds after a name. */
  function Suffix(route: seq<Hop>): string
    decreases |route|
  {
    if route == [] then "" else (if route[0].Named? then "." + route[0].name else "[]") + Suffix(route[1..])
  }

  /** The parts of a route, the first of which starts with `head`. */
  function Group(head: string, route: seq<Hop>): (parts: seq<string>)
    ensures parts != []
    decreases |route|
  {
    if route == [] then [head]
    else if route[0].Named? then [head] + Group(route[0].name, route[1..])
    else Group(head + "[]", route[1..])
  }

  lemma {:induction false} RenderSuffix(prefix: string, route: seq<Hop>)
    requires prefix != ""
    ensures Render(prefix, route) == prefix + Suffix(route)
    decreases |route|
  {
    if route != [] {
      var next := if route[0].Named? then "." + route[0].name else "[]";
      RenderSuffix(prefix + next, route[1..]);
      assert Joined(prefix, if route[0].Named? then route[0].name else "") == prefix + "." + (if route[0].Named? then route[0].name else "");
      assert prefix + (next + Suffix(route[1..])) == (prefix + next) + Suffix(route[1..]);
      if route[0].Named? { assert prefix + next == prefix + "." + route[0].name; }
    }
  }

  lemma {:induction false} SplitNoDots(head: string)
    requires NoDots(head)
    ensures Split(head, '.') == [head]
  {
    if head != "" { SplitNoDots(head[1..]); assert head == [head[0]] + head[1..]; }
  }

  lemma {:induction false} SplitAtDot(head: string, rest: string)
    requires NoDots(head)
    ensures Split(head + ("." + rest), '.') == [head] + Split(rest, '.')
  {
    if head == "" {
      assert head + ("." + rest) == "." + rest && ("." + rest)[1..] == rest;
    } else {
      SplitAtDot(head[1..], rest);
      assert (head + ("." + rest))[1..] == head[1..] + ("." + rest);
      assert head == [head[0]] + head[1..];
    }
  }

  lemma {:induction false} SplitGroup(head: string, route: seq<Hop>)
    requires NoDots(head) && PlainRoute(route)
    ensures Split(head + Suffix(route), '.') == Group(head, route)
    decreases |route|
  {
    if route == [] {
      SplitNoDots(head);
      assert head + "" == head;
    } else {
      assert PlainRoute(route[1..]) by { assert forall i :: 0 <= i < |route[1..]| ==> route[1..][i] == route[i + 1]; }
      var rest := Suffix(route[1..]);
      if route[0].Named? {
        var name := route[0].name;
        SplitGroup(name, route[1..]);
        SplitAtDot(head, name + rest);
        assert head + ("." + name + rest) == head + ("." + (name + rest));
      } else {
        SplitGroup(head + "[]", route[1..]);
        assert head + ("[]" + rest) == (head + "[]") + rest;
      }
    }
  }

  /** The parts of a rendered route. */
  lemma {:induction false} RoutePartsOf(route: seq<Hop>)
    requires PlainRoute(route) && route != []
    ensures Render("", route) != "" && Render("", route) != "$"
    ensures Split(Render("", route), '.') == Group(if route[0].Named? then route[0].name else "[]", route[1..])
  {
    var head := if route[0].Named? then route[0].name else "[]";
    assert PlainRoute(route[1..]) by { assert forall i :: 0 <= i < |route[1..]| ==> route[1..][i] == route[i + 1]; }
    assert "" + "[]" == "[]";
    RenderSuffix(head, route[1..]);
    SplitGroup(head, route[1..]);
    NotDollar(head, Suffix(route[1..]));
  }

  lemma {:induction false} NotDollar(head: string, rest: string)
    requires PlainName(head) || head == "[]"
    ensures head + rest != "" && head + rest != "$"
  {
    assert (head + rest)[0] == head[0];
    assert |head + rest| == 1 ==> |head| == 1;
    assert |head| == 1 ==> head == [head[0]];
  }

  /** After two brackets a part names a key no plain body has. */
  lemma {:induction false} BracketsPileUp(head: string, route: seq<Hop>) returns (inner: string)
    ensures Group(head + "[]", route)[0] == head + inner + "[]"
    ensures inner == "" || inner[0] == '['
    decreases |route|
  {
    if route == [] || route[0].Named? {
      inner := "";
      assert head + "" == head;
    } else {
      var deeper := BracketsPileUp(head + "[]", route[1..]);
      inner := "[]" + deeper;
      assert head + "[]" + deeper == head + inner;
    }
  }

  // ------------------------------------------------------------------ the body stays valid

  predicate PlainKeys(v: Value) {
    match v
    case Arr(elems) => forall i :: 0 <= i < |elems| ==> PlainKeys(elems[i])
    case Obj(fields) => forall k :: k in fields ==> PlainName(k) && PlainKeys(fields[k])
    case _ => true
  }

  /** Nothing on the node but the schemas of its properties and items looks at what is inside a value. */
  predicate Passive(s: Schema) {
    && s.kw.enum.None? && s.kw.constant.Null? && s.anyOf == [] && s.oneOf == []
    && s.dependentSchemas == map[] && s.patternProperties == map[] && s.ifSchema.None?
    && s.kw.uniqueItems != Some(true) && s.prefixItems == [] && s.contains.None?
  }

  /** Nor does anything on it depend on which fields there are. */
  predicate Settable(s: Schema) {
    Passive(s) && s.kw.dependentRequired == map[] && s.propertyNames.None?
  }

  predicate SettableAlong(s: Schema, route: seq<Hop>)
    decreases |route|
  {
    && Settable(s)
    && match Follow(s, route)
       case None => true
       case Some(leaf) =>
         route != [] ==> SettableAlong(if route[0].Named? then s.properties[route[0].name] else s.items.value, route[1..])
  }

  /** `_fits`. */
  predicate Fits(leaf: Schema, text: string) {
    AtMost(leaf.kw.bounds.maxLength, |text|) && AtLeast(leaf.kw.bounds.minLength, |text|)
  }

  lemma {:induction false} FieldReplaced(re: Regex, s: Schema, fields: map<string, Value>, name: string, w: Value)
    requires Settable(s) && Valid(re, s, Obj(fields)) && name in s.properties
    requires s.kw.typ == Some(TObject) ==> Valid(re, s.properties[name], w)
    ensures Valid(re, s, Obj(fields[name := w]))
  {
    var after := fields[name := w];
    if s.kw.typ.Some? { SameKindMatches(s.kw.typ.value, Obj(fields), Obj(after)); }
    if s.kw.typ == Some(TObject) {
      assert ObjectValid(re, s, fields);
      assert FieldsValid(re, s, fields) && ExtrasValid(re, s, fields) && RequiredOk(s.kw.required, fields);
      assert FieldsValid(re, s, after);
      assert Undeclared(re, s, after) == Undeclared(re, s, fields);
      assert ExtrasValid(re, s, after);
      NoGuards(re, s, after);
      assert ObjectValid(re, s, after);
    }
  }

  lemma {:induction false} NoGuards(re: Regex, s: Schema, fields: map<string, Value>)
    requires Settable(s)
    ensures DependentRequiredOk(s.kw.dependentRequired, fields) && DependentsValid(re, s, fields) && NamesValid(re, s, fields)
    ensures PatternsValid(re, s, fields) && ConditionalValid(re, s, fields)
  {
  }

  lemma {:induction false} FirstReplaced(re: Regex, s: Schema, elems: seq<Value>, w: Value)
    requires Settable(s) && Valid(re, s, Arr(elems)) && elems != [] && s.items.Some?
    requires s.kw.typ == Some(TArray) ==> Valid(re, s.items.value, w)
    ensures Valid(re, s, Arr(elems[0 := w]))
  {
    if s.kw.typ.Some? { SameKindMatches(s.kw.typ.value, Arr(elems), Arr(elems[0 := w])); }
    if s.kw.typ == Some(TArray) {
      assert ArrayValid(re, s, elems);
      assert ItemsValid(re, s, elems);
      assert PrefixValid(re, s, elems[0 := w]) && ItemsValid(re, s, elems[0 := w]);
      assert ArrayValid(re, s, elems[0 := w]);
    }
  }

  lemma {:induction false} LeafValid(re: Regex, leaf: Schema, text: string)
    requires Settable(leaf) && leaf.kw.typ == Some(TString) && leaf.kw.pattern.None? && Fits(leaf, text)
    ensures Valid(re, leaf, Str(text))
  {
  }

  /** What is known of a valid value's fields and items. */
  lemma {:induction false} PartsValid(re: Regex, s: Schema, v: Value)
    requires Valid(re, s, v)
    ensures v.Obj? && s.kw.typ == Some(TObject) ==> FieldsValid(re, s, v.fields)
    ensures v.Arr? && s.kw.typ == Some(TArray) && s.prefixItems == [] && s.items.Some? ==>
      forall i :: 0 <= i < |v.elems| ==> Valid(re, s.items.value, v.elems[i])
  {
    if v.Obj? && s.kw.typ == Some(TObject) { assert ObjectValid(re, s, v.fields); }
    if v.Arr? && s.kw.typ == Some(TArray) {
      assert ArrayValid(re, s, v.elems);
      assert ItemsValid(re, s, v.elems);
    }
  }

  /** The schema and the value one property further on. */
  lemma {:induction false} AlongField(s: Schema, name: string, rest: seq<Hop>)
    requires Follow(s, [Named(name)] + rest).Some? && SettableAlong(s, [Named(name)] + rest)
    ensures Settable(s) && name in s.properties && Follow(s.properties[name], rest) == Follow(s, [Named(name)] + rest)
    ensures SettableAlong(s.properties[name], rest)
  {
    assert ([Named(name)] + rest)[1..] == rest;
  }

  lemma {:induction false} AlongItems(s: Schema, rest: seq<Hop>)
    requires Follow(s, [Element] + rest).Some? && SettableAlong(s, [Element] + rest)
    ensures Settable(s) && s.items.Some? && Follow(s.items.value, rest) == Follow(s, [Element] + rest)
    ensures SettableAlong(s.items.value, rest)
  {
    assert ([Element] + rest)[1..] == rest;
  }

  lemma {:induction false} BracketedKey(name: string)
    ensures Bracketed(name + "[]") && Key(name + "[]") == name
  {
  }

  lemma {:induction false} NotBracketed(name: string)
    requires PlainName(name)
    ensures !Bracketed(name)
  {
    assert |name| >= 2 ==> name[|name| - 2..][0] == name[|name| - 2];
  }

  lemma {:induction false} AssignKeepsValid(re: Regex, s: Schema, v: Value, name: string, rest: seq<Hop>, leaf: Schema, text: string)
    requires Valid(re, s, v) && PlainKeys(v) && PlainName(name) && PlainRoute(rest)
    requires Follow(s, [Named(name)] + rest) == Some(leaf) && SettableAlong(s, [Named(name)] + rest)
    requires forall w :: w == Str(text) ==> Valid(re, leaf, w)
    ensures Valid(re, s, Assign(v, Group(name, rest), Str(text)))
    decreases |rest|
  {
    hide Valid, Settable, SettableAlong, Follow, Split, PlainName;
    AlongField(s, name, rest);
    NotBracketed(name);
    var child := s.properties[name];
    if !v.Obj? {
    } else if rest == [] {
      assert child == leaf by { FollowHere(child); }
      FieldReplaced(re, s, v.fields, name, Str(text));
    } else if rest[0].Named? {
      assert rest == [rest[0]] + rest[1..];
      if name in v.fields {
        var w := Assign(v.fields[name], Group(rest[0].name, rest[1..]), Str(text));
        PartsValid(re, s, v);
        PlainRest(rest);
        if s.kw.typ == Some(TObject) { AssignKeepsValid(re, child, v.fields[name], rest[0].name, rest[1..], leaf, text); }
        FieldReplaced(re, s, v.fields, name, w);
      }
    } else {
      assert rest == [Element] + rest[1..];
      AssignInItems(re, s, v, name, rest[1..], leaf, text);
    }
  }

  lemma {:induction false} FollowHere(s: Schema)
    ensures Follow(s, []) == Some(s)
  {
  }

  lemma {:induction false} PlainRest(route: seq<Hop>)
    requires PlainRoute(route) && route != []
    ensures PlainRoute(route[1..]) && (route[0].Named? ==> PlainName(route[0].name))
  {
    hide PlainName;
    assert forall i :: 0 <= i < |route[1..]| ==> route[1..][i] == route[i + 1];
  }

  /** The step through the first item of an array field. */
  lemma {:induction false} AssignInItems(re: Regex, s: Schema, v: Value, name: string, rest: seq<Hop>, leaf: Schema, text: string)
    requires Valid(re, s, v) && PlainKeys(v) && v.Obj? && PlainName(name) && PlainRoute(rest)
    requires Settable(s) && name in s.properties
    requires Follow(s.properties[name], [Element] + rest) == Some(leaf) && SettableAlong(s.properties[name], [Element] + rest)
    requires forall w :: w == Str(text) ==> Valid(re, leaf, w)
    ensures Valid(re, s, Assign(v, Group(name + "[]", rest), Str(text)))
    decreases |rest|
  {
    hide Valid, Settable, SettableAlong, Follow, Split, PlainName;
    var list := s.properties[name];
    AlongItems(list, rest);
    BracketedKey(name);
    if rest != [] && rest[0].Element? {
      PiledUpGoesNowhere(v, name, rest, Str(text));
    } else if name in v.fields && v.fields[name].Arr? && v.fields[name].elems != [] {
      var elems := v.fields[name].elems;
      var first := if rest == [] then Str(text) else Assign(elems[0], Group(rest[0].name, rest[1..]), Str(text));
      PartsValid(re, s, v);
      if s.kw.typ == Some(TObject) {
        PartsValid(re, list, v.fields[name]);
        SettableNoPrefix(list);
        if rest == [] {
          FollowHere(list.items.value);
        } else if list.kw.typ == Some(TArray) {
          PlainRest(rest);
          assert rest == [rest[0]] + rest[1..];
          AssignKeepsValid(re, list.items.value, elems[0], rest[0].name, rest[1..], leaf, text);
        }
        FirstReplaced(re, list, elems, first);
      }
      FieldReplaced(re, s, v.fields, name, Arr(elems[0 := first]));
    }
  }

  lemma {:induction false} SettableNoPrefix(s: Schema)
    requires Settable(s)
    ensures s.prefixItems == []
  {
  }

  lemma {:induction false} PiledUpGoesNowhere(v: Value, name: string, rest: seq<Hop>, leaf: Value)
    requires PlainKeys(v) && rest != [] && rest[0].Element?
    ensures Assign(v, Group(name + "[]", rest), leaf) == v && Lands(v, Group(name + "[]", rest)) == Nowhere
  {
    var parts := Group(name + "[]", rest);
    var inner := BracketsPileUp(name + "[]", rest[1..]);
    var key := name + "[]" + inner;
    assert parts[0] == key + "[]";
    BracketedKey(key);
    assert key[|name|] == '[';
    assert !PlainName(key);
  }

  /** A valid body stays valid when the text at a listed path is replaced by one that fits. */
  lemma {:induction false} SetLeafKeepsValid(re: Regex, s: Schema, body: Value, route: seq<Hop>, leaf: Schema, text: string)
    requires Valid(re, s, body) && PlainKeys(body) && PlainRoute(route)
    requires Follow(s, route) == Some(leaf) && SettableAlong(s, route)
    requires Settable(leaf) && leaf.kw.typ == Some(TString) && leaf.kw.pattern.None? && Fits(leaf, text)
    ensures Valid(re, s, SetLeaf(body, if Render("", route) == "" then "$" else Render("", route), Str(text)))
  {
    LeafValid(re, leaf, text);
    if route != [] {
      RoutePartsOf(route);
      PlainRest(route);
      assert route == [route[0]] + route[1..];
      if route[0].Named? {
        AssignKeepsValid(re, s, body, route[0].name, route[1..], leaf, text);
      } else {
        RootListUntouched(body, route[1..], Str(text));
      }
    }
    hide Valid, Settable, SettableAlong;
  }

  lemma {:induction false} RootListUntouched(v: Value, rest: seq<Hop>, leaf: Value)
    requires PlainKeys(v)
    ensures Assign(v, Group("[]", rest), leaf) == v
  {
    var parts := Group("" + "[]", rest);
    var inner := BracketsPileUp("", rest);
    assert "" + "[]" == "[]";
    BracketedKey(inner);
    assert parts[0] == inner + "[]";
    assert !PlainName(inner);
  }

  predicate PlainNames(s: Schema) {
    && (forall x :: x in s.properties ==> PlainName(x) && PlainNames(s.properties[x]))
    && (s.items.Some? ==> PlainNames(s.items.value))
  }

  lemma {:induction false} PlainNamesRoute(s: Schema, route: seq<Hop>)
    requires PlainNames(s) && Follow(s, route).Some?
    ensures PlainRoute(route)
    decreases |route|
  {
    hide PlainName;
    if route != [] {
      PlainNamesRoute(if route[0].Named? then s.properties[route[0].name] else s.items.value, route[1..]);
      assert route == [route[0]] + route[1..];
    }
  }

  /** The route leads to the leaf, and is written so. */
  ghost predicate Leads(s: Schema, route: seq<Hop>, dotted: string, leaf: Schema) {
    Follow(s, route) == Some(leaf) && dotted == if Render("", route) == "" then "$" else Render("", route)
  }

  /** For any listed leaf without a pattern, a fitting text can be put there and the body is still accepted, whatever the
      rest of the schema states, as long as nothing on the leaf and on the way to it could mind. */
  lemma {:induction false} FittingTextKeepsValid(re: Regex, s: Schema, body: Value, dotted: string, leaf: Schema, text: string)
    requires PlainNames(s) && Valid(re, s, body) && PlainKeys(body)
    requires Listed(s, "", dotted, leaf) && Settable(leaf) && leaf.kw.pattern.None? && Fits(leaf, text)
    requires forall route :: Leads(s, route, dotted, leaf) ==> SettableAlong(s, route)
    ensures Valid(re, s, SetLeaf(body, dotted, Str(text)))
  {
    hide Valid, Settable, PlainNames, SettableAlong, SetLeaf;
    var route := ListedRoute(s, "", dotted, leaf);
    PlainNamesRoute(s, route);
    assert Leads(s, route, dotted, leaf);
    SetLeafKeepsValid(re, s, body, route, leaf, text);
  }

  // ------------------------------------------------------------------ exactly when it stays valid

  /** Every node on the way is an object or a list, says so, and looks inside values only through its properties and items. */
  predicate PassiveAlong(s: Schema, route: seq<Hop>)
    decreases |route|
  {
    route != [] && Follow(s, route).Some? ==>
      && Passive(s) && s.kw.typ == Some(if route[0].Named? then TObject else TArray)
      && PassiveAlong(if route[0].Named? then s.properties[route[0].name] else s.items.value, route[1..])
  }

  /** Where an assignment ends: nowhere, over something that is there, or as a new field beside the others. */
  datatype Landing = Nowhere | Over | Beside(fields: map<string, Value>)

  function Lands(v: Value, parts: seq<string>): Landing
    requires parts != []
    decreases |parts|
  {
    if |parts| == 1 then
      if Lead(v, parts[0]).Some? then Over else if Bracketed(parts[0]) || !v.Obj? then Nowhere else Beside(v.fields)
    else if Bracketed(parts[0]) then
      if Lead(v, parts[0]).Some? then Lands(v.fields[Key(parts[0])].elems[0], parts[1..]) else Nowhere
    else if Lead(v, parts[0]).Some? then Lands(v.fields[parts[0]], parts[1..])
    else Nowhere
  }

  /** Nothing the object states depends on the new field, or all that does is met. */
  ghost predicate Welcome(re: Regex, s: Schema, fields: map<string, Value>, name: string) {
    && (name in s.kw.dependentRequired ==> forall d :: d in s.kw.dependentRequired[name] ==> d == name || d in fields)
    && (s.propertyNames.Some? ==> Valid(re, s.propertyNames.value, Str(name)))
  }

  /** The node that owns the last hop of a route. */
  function Owner(s: Schema, route: seq<Hop>): Schema
    requires route != [] && Follow(s, route).Some?
    decreases |route|
  {
    if |route| == 1 then s
    else Owner(if route[0].Named? then s.properties[route[0].name] else s.items.value, route[1..])
  }

  ghost predicate Suits(re: Regex, owner: Schema, landing: Landing, leaf: Schema, last: Hop, text: string) {
    match landing
    case Nowhere => true
    case Over => Valid(re, leaf, Str(text))
    case Beside(fields) => Valid(re, leaf, Str(text)) && last.Named? && Welcome(re, owner, fields, last.name)
  }

  lemma {:induction false} FieldExactly(re: Regex, s: Schema, fields: map<string, Value>, name: string, w: Value)
    requires Passive(s) && s.kw.typ == Some(TObject) && Valid(re, s, Obj(fields)) && name in s.properties
    ensures Valid(re, s, Obj(fields[name := w])) <==>
      Valid(re, s.properties[name], w) && (name in fields || Welcome(re, s, fields, name))
  {
    var after := fields[name := w];
    assert ObjectValid(re, s, fields);
    assert Valid(re, s, Obj(after)) <==> ObjectValid(re, s, after);
    assert FieldsValid(re, s, fields) && ExtrasValid(re, s, fields) && RequiredOk(s.kw.required, fields);
    assert FieldsValid(re, s, after) <==> Valid(re, s.properties[name], w);
    assert Undeclared(re, s, after) == Undeclared(re, s, fields);
    assert ExtrasValid(re, s, after) && RequiredOk(s.kw.required, after);
    assert DependentsValid(re, s, after) && PatternsValid(re, s, after) && ConditionalValid(re, s, after);
    DependentsExactly(s.kw.dependentRequired, fields, name, w);
    assert NamesValid(re, s, fields);
    if s.propertyNames.Some? {
      forall k | k in after && k != name ensures Valid(re, s.propertyNames.value, Str(k)) { assert k in fields; }
      assert name in after;
    }
    assert NamesValid(re, s, after) <==> name in fields || (s.propertyNames.Some? ==> Valid(re, s.propertyNames.value, Str(name)));
  }

  lemma {:induction false} DependentsExactly(deps: map<string, seq<string>>, fields: map<string, Value>, name: string, w: Value)
    requires DependentRequiredOk(deps, fields)
    ensures DependentRequiredOk(deps, fields[name := w]) <==>
      name in fields || (name in deps ==> forall d :: d in deps[name] ==> d == name || d in fields)
  {
    var after := fields[name := w];
    forall t | t in deps && t in fields ensures RequiredOk(deps[t], after) {}
    if name in deps {
      assert RequiredOk(deps[name], after) <==> forall d :: d in deps[name] ==> d == name || d in fields by {
        forall i | 0 <= i < |deps[name]| ensures deps[name][i] in deps[name] {}
      }
    }
  }

  lemma {:induction false} FirstExactly(re: Regex, s: Schema, elems: seq<Value>, w: Value)
    requires Passive(s) && s.kw.typ == Some(TArray) && Valid(re, s, Arr(elems)) && elems != [] && s.items.Some?
    ensures Valid(re, s, Arr(elems[0 := w])) <==> Valid(re, s.items.value, w)
  {
    var after := elems[0 := w];
    assert ArrayValid(re, s, elems);
    assert ItemsValid(re, s, elems);
    assert PrefixValid(re, s, after);
    assert ItemsValid(re, s, after) <==> Valid(re, s.items.value, w) by { assert after[0] == w; }
    assert Valid(re, s, Arr(after)) <==> ArrayValid(re, s, after);
  }

  lemma {:induction false} AlongPassive(s: Schema, hop: Hop, rest: seq<Hop>)
    requires Follow(s, [hop] + rest).Some? && PassiveAlong(s, [hop] + rest)
    ensures Passive(s) && s.kw.typ == Some(if hop.Named? then TObject else TArray)
    ensures if hop.Named? then hop.name in s.properties else s.items.Some?
    ensures
      var child := if hop.Named? then s.properties[hop.name] else s.items.value;
      && Follow(child, rest) == Follow(s, [hop] + rest) && PassiveAlong(child, rest)
      && Owner(s, [hop] + rest) == (if rest == [] then s else Owner(child, rest))
  {
    assert ([hop] + rest)[1..] == rest;
  }

  lemma {:induction false} LastHop(hop: Hop, rest: seq<Hop>)
    ensures ([hop] + rest)[|rest|] == if rest == [] then hop else rest[|rest| - 1]
  {
  }

  lemma {:induction false} AssignExactly(re: Regex, s: Schema, v: Value, name: string, rest: seq<Hop>, leaf: Schema, text: string)
    requires Valid(re, s, v) && PlainKeys(v) && PlainName(name) && PlainRoute(rest)
    requires Follow(s, [Named(name)] + rest) == Some(leaf) && PassiveAlong(s, [Named(name)] + rest)
    ensures Valid(re, s, Assign(v, Group(name, rest), Str(text))) <==>
      Suits(re, Owner(s, [Named(name)] + rest), Lands(v, Group(name, rest)), leaf, ([Named(name)] + rest)[|rest|], text)
    decreases |rest|
  {
    hide Valid, Passive, PassiveAlong, Follow, Split, PlainName, Owner, Welcome;
    AlongPassive(s, Named(name), rest);
    NotBracketed(name);
    LastHop(Named(name), rest);
    var child := s.properties[name];
    if !v.Obj? {
    } else if rest == [] {
      assert child == leaf by { FollowHere(child); }
      FieldExactly(re, s, v.fields, name, Str(text));
    } else if rest[0].Named? {
      assert rest == [rest[0]] + rest[1..];
      if name in v.fields {
        var w := Assign(v.fields[name], Group(rest[0].name, rest[1..]), Str(text));
        PartsValid(re, s, v);
        PlainRest(rest);
        AssignExactly(re, child, v.fields[name], rest[0].name, rest[1..], leaf, text);
        FieldExactly(re, s, v.fields, name, w);
      }
    } else {
      assert rest == [Element] + rest[1..];
      AssignItemsExactly(re, s, v, name, rest[1..], leaf, text);
    }
  }

  lemma {:induction false} AssignItemsExactly(re: Regex, s: Schema, v: Value, name: string, rest: seq<Hop>, leaf: Schema, text: string)
    requires Valid(re, s, v) && PlainKeys(v) && v.Obj? && PlainName(name) && PlainRoute(rest)
    requires Passive(s) && s.kw.typ == Some(TObject) && name in s.properties
    requires Follow(s.properties[name], [Element] + rest) == Some(leaf) && PassiveAlong(s.properties[name], [Element] + rest)
    ensures Valid(re, s, Assign(v, Group(name + "[]", rest), Str(text))) <==>
      Suits(re, Owner(s.properties[name], [Element] + rest), Lands(v, Group(name + "[]", rest)), leaf, ([Element] + rest)[|rest|], text)
    decreases |rest|
  {
    hide Valid, Passive, PassiveAlong, Follow, Split, PlainName, Owner, Welcome;
    var list := s.properties[name];
    AlongPassive(list, Element, rest);
    BracketedKey(name);
    LastHop(Element, rest);
    if rest != [] && rest[0].Element? {
      PiledUpGoesNowhere(v, name, rest, Str(text));
    } else if name in v.fields && v.fields[name].Arr? && v.fields[name].elems != [] {
      var elems := v.fields[name].elems;
      var first := if rest == [] then Str(text) else Assign(elems[0], Group(rest[0].name, rest[1..]), Str(text));
      PartsValid(re, s, v);
      PartsValid(re, list, v.fields[name]);
      PassiveNoPrefix(list);
      if rest == [] {
        FollowHere(list.items.value);
      } else {
        PlainRest(rest);
        assert rest == [rest[0]] + rest[1..];
        AssignExactly(re, list.items.value, elems[0], rest[0].name, rest[1..], leaf, text);
      }
      FirstExactly(re, list, elems, first);
      FieldExactly(re, s, v.fields, name, Arr(elems[0 := first]));
    }
  }

  lemma {:induction false} PassiveNoPrefix(s: Schema)
    requires Passive(s)
    ensures s.prefixItems == []
  {
  }

  /** Where the assignment at a rendered route ends. */
  function LandsAt(body: Value, route: seq<Hop>): Landing {
    if route == [] then Over else Lands(body, Group(if route[0].Named? then route[0].name else "[]", route[1..]))
  }

  lemma {:induction false} SetRouted(body: Value, route: seq<Hop>, leaf: Value)
    requires PlainRoute(route) && route != []
    ensures SetLeaf(body, if Render("", route) == "" then "$" else Render("", route), leaf) ==
      Assign(body, Group(if route[0].Named? then route[0].name else "[]", route[1..]), leaf)
    ensures LandsAt(body, route) == Lands(body, Group(if route[0].Named? then route[0].name else "[]", route[1..]))
  {
    hide Assign, Split, Group, Render, Lands;
    RoutePartsOf(route);
  }

  lemma {:induction false} SuitsMeans(re: Regex, owner: Schema, landing: Landing, leaf: Schema, last: Hop, text: string)
    ensures Suits(re, owner, landing, leaf, last, text) <==>
      || landing.Nowhere?
      || (Valid(re, leaf, Str(text)) && (landing.Over? || (last.Named? && Welcome(re, owner, landing.fields, last.name))))
  {
    hide Valid, Welcome;
  }

  lemma {:induction false} RootListNowhere(body: Value, route: seq<Hop>)
    requires route != [] && route[0].Element? && !body.Obj?
    ensures LandsAt(body, route) == Nowhere
  {
    var inner := BracketsPileUp("", route[1..]);
    assert "" + "[]" == "[]";
    BracketedKey(inner);
  }

  /** The changed body stays valid if and only if the path leads nowhere, or the leaf accepts the text and the field was
      there or nothing on its object depends on it that is not met. */
  lemma {:induction false} SetLeafExactly(re: Regex, s: Schema, body: Value, route: seq<Hop>, leaf: Schema, text: string)
    requires Valid(re, s, body) && PlainKeys(body) && PlainRoute(route)
    requires Follow(s, route) == Some(leaf) && PassiveAlong(s, route)
    ensures
      var landing := LandsAt(body, route);
      Valid(re, s, SetLeaf(body, if Render("", route) == "" then "$" else Render("", route), Str(text))) <==>
        || landing.Nowhere?
        || (Valid(re, leaf, Str(text)) &&
            (landing.Over? || (route != [] && route[|route| - 1].Named? && Welcome(re, Owner(s, route), landing.fields, route[|route| - 1].name))))
  {
    if route == [] {
      FollowHere(s);
      hide Valid;
    } else {
      assert PassiveAlong(s, route) && route[0].Element? ==> s.kw.typ == Some(TArray);
      assert s.kw.typ == Some(TArray) ==> !body.Obj?;
      hide *;
      RoutePartsOf(route);
      PlainRest(route);
      assert route == [route[0]] + route[1..];
      SetRouted(body, route, Str(text));
      if route[0].Named? {
        AssignExactly(re, s, body, route[0].name, route[1..], leaf, text);
        SuitsMeans(re, Owner(s, route), LandsAt(body, route), leaf, route[|route| - 1], text);
      } else {
        RootListUntouched(body, route[1..], Str(text));
        RootListNowhere(body, route);
      }
    }
  }

  /** The bodies of the unicode generator: every leaf with every sample that fits it, and no others. */
  method UnicodeBodies(s: Schema, body: Value, samples: seq<string>) returns (cases: seq<Value>)
    ensures forall c :: c in cases <==> UnicodeCase(s, body, samples, c)
  {
    hide Listed, SetLeaf;
    cases := [];
    var found := StringFields(s, "");
    for k := 0 to |found|
      invariant forall c :: c in cases <==> CaseAmong(found, k, body, samples, 0, c)
    {
      for m := 0 to |samples|
        invariant forall c :: c in cases <==> CaseAmong(found, k, body, samples, m, c)
      {
        if Fits(found[k].1, samples[m]) {
          var changed := SetAt(body, found[k].0, Str(samples[m]));
          cases := cases + [changed];
        }
      }
      assert forall c :: CaseAmong(found, k, body, samples, |samples|, c) <==> CaseAmong(found, k + 1, body, samples, 0, c);
    }
    forall c ensures CaseAmong(found, |found|, body, samples, 0, c) <==> UnicodeCase(s, body, samples, c) {
      if CaseAmong(found, |found|, body, samples, 0, c) {
        var i, j :| 0 <= i < |found| && 0 <= j < |samples| && IsCase(found[i].1, found[i].0, body, samples[j], c);
        assert (found[i].0, found[i].1) in found;
      }
      if UnicodeCase(s, body, samples, c) {
        var dotted, leaf, j :| Listed(s, "", dotted, leaf) && 0 <= j < |samples| && IsCase(leaf, dotted, body, samples[j], c);
        assert (dotted, leaf) in found;
        var i :| 0 <= i < |found| && found[i] == (dotted, leaf);
        assert IsCase(found[i].1, found[i].0, body, samples[j], c);
      }
    }
  }

  predicate IsCase(leaf: Schema, dotted: string, body: Value, text: string, c: Value) {
    var b := leaf.kw.bounds;
    && (b.maxLength.Some? ==> |text| <= b.maxLength.value) && (b.minLength.Some? ==> b.minLength.value <= |text|)
    && c == SetLeaf(body, dotted, Str(text))
  }

  ghost predicate UnicodeCase(s: Schema, body: Value, samples: seq<string>, c: Value) {
    exists dotted, leaf, j :: Listed(s, "", dotted, leaf) && 0 <= j < |samples| && IsCase(leaf, dotted, body, samples[j], c)
  }

  /** A case of the first `k` leaves, or of the first `m` samples of the next one. */
  predicate CaseAmong(found: seq<(string, Schema)>, k: nat, body: Value, samples: seq<string>, m: nat, c: Value) {
    exists i, j :: 0 <= i < |found| && 0 <= j < |samples| && (i < k || (i == k && j < m)) && IsCase(found[i].1, found[i].0, body, samples[j], c)
  }

  /** All of them are accepted where nothing on the leaves and on the ways to them could mind. */
  lemma {:induction false} UnicodeAccepted(re: Regex, s: Schema, body: Value, samples: seq<string>, c: Value)
    requires PlainNames(s) && Valid(re, s, body) && PlainKeys(body) && UnicodeCase(s, body, samples, c)
    requires forall dotted, leaf :: Listed(s, "", dotted, leaf) ==> Settable(leaf) && leaf.kw.pattern.None?
    requires forall route, dotted, leaf :: Leads(s, route, dotted, leaf) && leaf.kw.typ == Some(TString) ==> SettableAlong(s, route)
    ensures Valid(re, s, c)
  {
    var dotted, leaf, j :| Listed(s, "", dotted, leaf) && 0 <= j < |samples| && IsCase(leaf, dotted, body, samples[j], c);
    hide Valid, Settable, PlainNames, SettableAlong, SetLeaf, Listed;
    var route := ListedRoute(s, "", dotted, leaf);
    FittingTextKeepsValid(re, s, body, dotted, leaf, samples[j]);
  }

  // ------------------------------------------------------------------ nothing else changes

  /** The place a list of parts leads to. */
  function Target(parts: seq<string>): seq<Segment> {
    if parts == [] then []
    else (if Bracketed(parts[0]) then [Field(Key(parts[0])), Index(0)] else [Field(parts[0])]) + Target(parts[1..])
  }

  predicate Apart(a: seq<Segment>, b: seq<Segment>) { !(a <= b) && !(b <= a) }

  lemma {:induction false} ApartTail(a: seq<Segment>, b: seq<Segment>)
    requires a != [] && b != [] && a[0] == b[0] && Apart(a, b)
    ensures Apart(a[1..], b[1..])
  {
    assert a == [a[0]] + a[1..] && b == [b[0]] + b[1..];
  }

  lemma {:induction false} ApartHere(a: seq<Segment>, b: seq<Segment>)
    requires Apart(a, b)
    ensures a != [] && b != []
  {
  }

  /** Every place that is neither on the way to the target nor inside it holds what it held. */
  lemma {:induction false} OthersUnchanged(v: Value, parts: seq<string>, leaf: Value, path: seq<Segment>)
    requires parts != [] && Apart(Target(parts), path)
    ensures At(Assign(v, parts, leaf), path) == At(v, path)
    decreases |parts|, 1
  {
    if Bracketed(parts[0]) { OthersUnchangedInList(v, parts, leaf, path); } else { OthersUnchangedInField(v, parts, leaf, path); }
    hide At, Assign, Target;
  }

  lemma {:induction false} OthersUnchangedInField(v: Value, parts: seq<string>, leaf: Value, path: seq<Segment>)
    requires parts != [] && Apart(Target(parts), path) && !Bracketed(parts[0])
    ensures At(Assign(v, parts, leaf), path) == At(v, path)
    decreases |parts|, 0
  {
    var target := Target(parts);
    ApartHere(target, path);
    if Lead(v, parts[0]).Some? && path[0] == target[0] {
      ApartTail(target, path);
      assert target[1..] == Target(parts[1..]);
      NotTheEnd(parts, path[1..]);
      OthersUnchanged(v.fields[parts[0]], parts[1..], leaf, path[1..]);
    }
  }

  lemma {:induction false} OthersUnchangedInList(v: Value, parts: seq<string>, leaf: Value, path: seq<Segment>)
    requires parts != [] && Apart(Target(parts), path) && Bracketed(parts[0])
    ensures At(Assign(v, parts, leaf), path) == At(v, path)
    decreases |parts|, 0
  {
    var target := Target(parts);
    ApartHere(target, path);
    if Lead(v, parts[0]).Some? && path[0] == target[0] {
      ApartTail(target, path);
      ApartHere(target[1..], path[1..]);
      assert target[2..] == Target(parts[1..]);
      var elems := v.fields[Key(parts[0])].elems;
      if path[1] == Index(0) {
        ApartTail(target[1..], path[1..]);
        assert target[1..][1..] == target[2..] && path[1..][1..] == path[2..];
        NotTheEnd(parts, path[2..]);
        OthersUnchanged(elems[0], parts[1..], leaf, path[2..]);
      }
    }
  }

  lemma {:induction false} NotTheEnd(parts: seq<string>, path: seq<Segment>)
    requires parts != [] && Apart(Target(parts[1..]), path)
    ensures |parts| > 1
  {
    ApartHere(Target(parts[1..]), path);
  }

  // ------------------------------------------------------------------ names that are taken for paths

  /** A property called `$` is listed under the path that means the whole body. */
  lemma {:induction false} DollarReplacesTheBody(re: Regex, text: string, other: string)
    ensures
      var s := Typed(TObject).(properties := map["$" := Typed(TString)]);
      var body := Obj(map["$" := Str(text)]);
      && Listed(s, "", "$", Typed(TString)) && Valid(re, s, body)
      && SetLeaf(body, "$", Str(other)) == Str(other) && !Valid(re, s, Str(other))
  {
    var s := Typed(TObject).(properties := map["$" := Typed(TString)]);
    assert Listed(s.properties["$"], Joined("", "$"), "$", Typed(TString));
    assert Valid(re, Typed(TString), Str(text));
    assert FieldsValid(re, s, map["$" := Str(text)]);
  }

  // ------------------------------------------------------------------ positive cases that are refused

  /** An absent field is put in: where it calls for another, the valid empty body becomes invalid. */
  lemma {:induction false} NewFieldBreaksBody(re: Regex, text: string)
    ensures
      var leaf := Typed(TString);
      var s := Typed(TObject).(kw := NO_KEYWORDS.(typ := Some(TObject), dependentRequired := map["a" := ["b"]]), properties := map["a" := leaf]);
      && Listed(s, "", "a", leaf) && Fits(leaf, text) && Valid(re, s, Obj(map[])) && !Valid(re, s, SetLeaf(Obj(map[]), "a", Str(text)))
  {
    var leaf := Typed(TString);
    var s := Typed(TObject).(kw := NO_KEYWORDS.(typ := Some(TObject), dependentRequired := map["a" := ["b"]]), properties := map["a" := leaf]);
    assert Listed(leaf, Joined("", "a"), "a", leaf);
    assert FieldsValid(re, s, map[]) && DependentsValid(re, s, map[]) && NamesValid(re, s, map[]) && PatternsValid(re, s, map[]);
    assert ConditionalValid(re, s, map[]) && ExtrasValid(re, s, map[]);
    assert ObjectValid(re, s, map[]);
    assert Split("a"[1..], '.') == [""];
    assert ['a'] + "" == "a";
    var after := map["a" := Str(text)];
    assert SetLeaf(Obj(map[]), "a", Str(text)) == Obj(after);
    assert s.kw.dependentRequired["a"][0] !in after;
    assert !DependentRequiredOk(s.kw.dependentRequired, after);
    assert !ObjectValid(re, s, after);
  }

  /** Lengths are all that `_fits` looks at: a leaf with an enum or a pattern gets texts it refuses. */
  lemma {:induction false} FittingTextRefused(re: Regex, text: string, only: string, pattern: string)
    ensures
      var leaf := Typed(TString).(kw := NO_KEYWORDS.(typ := Some(TString), enum := Some([Str(only)])));
      Fits(leaf, text) && (Valid(re, leaf, Str(text)) <==> text == only)
    ensures
      var leaf := Typed(TString).(kw := NO_KEYWORDS.(typ := Some(TString), pattern := Some(pattern)));
      Fits(leaf, text) && (Valid(re, leaf, Str(text)) <==> re.search(pattern, text))
  {
    assert [Str(only)][0] == Str(only);
    assert PyEq(Str(text), Str(only)) <==> text == only;
  }
}
