/** What canonicalization computes: `_merge_into`, `_collapse_all_of` and `canonicalize_schema` as functions of the tree.
    `Aliasing` proves that the in-place code, which shares nodes between the merged tree and the branches, computes
    exactly these functions. */
module Canonical {
  import opened Model
  import opened Ordering
  import opened Validation

  // ------------------------------------------------------------------ merging keywords

  function First<T>(ours: Option<T>, theirs: Option<T>): Option<T> {
    if ours.None? then theirs else ours
  }

  function FirstValue(ours: Value, theirs: Value): Value {
    if ours.Null? then theirs else ours
  }

  function LargerInt(ours: Option<int>, theirs: Option<int>): Option<int> {
    if theirs.None? || (ours.Some? && theirs.value <= ours.value) then ours else theirs
  }

  function SmallerInt(ours: Option<int>, theirs: Option<int>): Option<int> {
    if theirs.None? || (ours.Some? && ours.value <= theirs.value) then ours else theirs
  }

  function LargerReal(ours: Option<real>, theirs: Option<real>): Option<real> {
    if theirs.None? || (ours.Some? && theirs.value <= ours.value) then ours else theirs
  }

  function SmallerReal(ours: Option<real>, theirs: Option<real>): Option<real> {
    if theirs.None? || (ours.Some? && ours.value <= theirs.value) then ours else theirs
  }

  /** `_tighten`, over the two tables of bounds. */
  function Tighten(t: Bounds, b: Bounds): Bounds {
    Bounds(LargerReal(t.minimum, b.minimum), LargerReal(t.exclusiveMinimum, b.exclusiveMinimum),
           LargerInt(t.minLength, b.minLength), LargerInt(t.minItems, b.minItems), LargerInt(t.minProperties, b.minProperties),
           SmallerReal(t.maximum, b.maximum), SmallerReal(t.exclusiveMaximum, b.exclusiveMaximum),
           SmallerInt(t.maxLength, b.maxLength), SmallerInt(t.maxItems, b.maxItems), SmallerInt(t.maxProperties, b.maxProperties))
  }

  /** The members of `ours` that are `==` to some member of `theirs`. */
  function Common(ours: seq<Value>, theirs: seq<Value>): seq<Value> {
    if ours == [] then []
    else (if Member(ours[0], theirs) then [ours[0]] else []) + Common(ours[1..], theirs)
  }

  lemma {:induction false} CommonElements(ours: seq<Value>, theirs: seq<Value>)
    ensures forall v :: v in Common(ours, theirs) <==> v in ours && Member(v, theirs)
  {
    if ours != [] {
      CommonElements(ours[1..], theirs);
      assert ours == [ours[0]] + ours[1..];
    }
  }

  function MeetEnums(ours: Option<seq<Value>>, theirs: Option<seq<Value>>): Option<seq<Value>> {
    if theirs.None? then ours
    else if ours.None? then Some(StableUnique(theirs.value))
    else Some(StableUnique(Common(ours.value, theirs.value)))
  }

  function MergeKeywords(t: Keywords, b: Keywords): Keywords {
    t.(typ := First(t.typ, b.typ),
       required := SortedNames(t.required + b.required),
       enum := MeetEnums(t.enum, b.enum),
       bounds := Tighten(t.bounds, b.bounds),
       format := First(t.format, b.format),
       pattern := First(t.pattern, b.pattern),
       constant := FirstValue(t.constant, b.constant),
       default := FirstValue(t.default, b.default),
       example := FirstValue(t.example, b.example),
       nullable := t.nullable || b.nullable)
  }

  // ------------------------------------------------------------------ merging nodes

  predicate TypesDisagree(t: Option<JType>, b: Option<JType>) {
    t.Some? && b.Some? && t != b
  }

  /** The guard on shared properties tests truthiness, so an empty type name does not count as stated. */
  predicate PropertyTypesDisagree(t: Option<JType>, b: Option<JType>) {
    TypesDisagree(t, b) && t != Some(TOther("")) && b != Some(TOther(""))
  }

  /** A branch keyword that cannot be merged, so that the composition is kept. */
  predicate CarriesUnmergeable(b: Schema) {
    b.kw.dependentRequired != map[] || b.dependentSchemas != map[] || b.patternProperties != map[] ||
    b.prefixItems != [] || b.ifSchema.Some? || b.contains.Some? || b.propertyNames.Some?
  }

  /** `_merge_into`: what the target becomes. */
  function MergeNode(t: Schema, b: Schema): Schema
    decreases b
  {
    if TypesDisagree(t.kw.typ, b.kw.typ) then t
    else t.(kw := MergeKeywords(t.kw, b.kw),
            properties := map x | x in t.properties.Keys + b.properties.Keys ::
              if x !in t.properties then b.properties[x]
              else if x !in b.properties || PropertyTypesDisagree(t.properties[x].kw.typ, b.properties[x].kw.typ) then t.properties[x]
              else MergeNode(t.properties[x], b.properties[x]),
            items := First(t.items, b.items))
  }

  /** `_merge_into`: whether it appends to `conflicts`. */
  predicate MergeConflicts(t: Schema, b: Schema)
    decreases b, 1
  {
    || TypesDisagree(t.kw.typ, b.kw.typ)
    || CarriesUnmergeable(b)
    || exists x :: x in b.properties && ConflictAt(t, b, x)
  }

  predicate ConflictAt(t: Schema, b: Schema, x: string)
    decreases b, 0
  {
    x in t.properties && x in b.properties &&
    (PropertyTypesDisagree(t.properties[x].kw.typ, b.properties[x].kw.typ) || MergeConflicts(t.properties[x], b.properties[x]))
  }

  /** The target after the first `i` branches. */
  function Stage(t: Schema, branches: seq<Schema>, i: nat): Schema
    requires i <= |branches|
  {
    if i == 0 then t else MergeNode(Stage(t, branches, i - 1), branches[i - 1])
  }

  predicate ConflictsAt(t: Schema, branches: seq<Schema>, i: nat)
    requires i < |branches|
  {
    MergeConflicts(Stage(t, branches, i), branches[i])
  }

  predicate CollapseConflicts(t: Schema, branches: seq<Schema>) {
    exists i :: 0 <= i < |branches| && ConflictsAt(t, branches, i)
  }

  /** What has become of branch `b`, merged when the target was `t`, once the target is `m`. A property the target did
      not have was given to it, and the one node is now part of both trees. */
  function WriteBack(b: Schema, t: Schema, m: Schema): Schema
    decreases b
  {
    if TypesDisagree(t.kw.typ, b.kw.typ) then b
    else b.(properties := map x | x in b.properties ::
              if x !in m.properties then b.properties[x]
              else if x !in t.properties then m.properties[x]
              else if PropertyTypesDisagree(t.properties[x].kw.typ, b.properties[x].kw.typ) then b.properties[x]
              else WriteBack(b.properties[x], t.properties[x], m.properties[x]))
  }

  function WriteBacks(t: Schema, branches: seq<Schema>): seq<Schema> {
    seq(|branches|, i requires 0 <= i < |branches| =>
      WriteBack(branches[i], Stage(t, branches, i), Stage(t, branches, |branches|)))
  }

  /** `_collapse_all_of`: the merged node, or the composition as the merge left it. */
  function Collapse(n: Schema, branches: seq<Schema>): Schema {
    var host := n.(allOf := []);
    if CollapseConflicts(host, branches) then n.(allOf := WriteBacks(host, branches))
    else Stage(host, branches, |branches|)
  }

  // ------------------------------------------------------------------ canonical form

  function CanonOpt(o: Option<Schema>): Option<Schema>
    decreases o, 0
  {
    if o.None? then None else Some(Canon(o.value))
  }

  function CanonSeq(ss: seq<Schema>): seq<Schema>
    decreases ss, 0
  {
    seq(|ss|, i requires 0 <= i < |ss| => Canon(ss[i]))
  }

  function CanonAdditional(a: Additional): Additional
    decreases a, 0
  {
    if a.Described? then Described(Canon(a.schema)) else a
  }

  function SortKeywords(kw: Keywords): Keywords {
    kw.(enum := if kw.enum.Some? then Some(StableUnique(kw.enum.value)) else None,
        required := SortedNames(kw.required))
  }

  /** The node with its sub-schemas in canonical form; `allOf` and `not` are still as written. */
  function CanonParts(s: Schema): Schema
    decreases s, 0
  {
    s.(kw := s.kw.(dependentRequired := map t | t in s.kw.dependentRequired :: SortedNames(s.kw.dependentRequired[t])),
       properties := (map x | x in s.properties :: Canon(s.properties[x])),
       additional := CanonAdditional(s.additional),
       items := CanonOpt(s.items),
       prefixItems := CanonSeq(s.prefixItems),
       contains := CanonOpt(s.contains),
       patternProperties := (map x | x in s.patternProperties :: Canon(s.patternProperties[x])),
       propertyNames := CanonOpt(s.propertyNames),
       dependentSchemas := (map x | x in s.dependentSchemas :: Canon(s.dependentSchemas[x])),
       ifSchema := CanonOpt(s.ifSchema), thenSchema := CanonOpt(s.thenSchema), elseSchema := CanonOpt(s.elseSchema),
       oneOf := CanonSeq(s.oneOf), anyOf := CanonSeq(s.anyOf))
  }

  /** `canonicalize_schema`. */
  function Canon(s: Schema): Schema
    decreases s, 1
  {
    var n := CanonParts(s);
    var c := if s.allOf == [] then n else Collapse(n, CanonSeq(s.allOf));
    c.(kw := SortKeywords(c.kw))
  }

  // ------------------------------------------------------------------ what is reported

  predicate ReportsOpt(o: Option<Schema>)
    decreases o, 0
  {
    o.Some? && Reports(o.value)
  }

  predicate ReportsSeq(ss: seq<Schema>)
    decreases ss, 0
  {
    exists i :: 0 <= i < |ss| && Reports(ss[i])
  }

  predicate ReportsMap(s: Schema, m: map<string, Schema>)
    requires m == s.properties || m == s.patternProperties || m == s.dependentSchemas
    decreases s, 0, 0
  {
    exists x :: x in m && Reports(m[x])
  }

  predicate ReportsParts(s: Schema)
    decreases s, 0, 1
  {
    || ReportsMap(s, s.properties) || (s.additional.Described? && Reports(s.additional.schema))
    || ReportsOpt(s.items) || ReportsSeq(s.prefixItems) || ReportsOpt(s.contains)
    || ReportsMap(s, s.patternProperties) || ReportsOpt(s.propertyNames) || ReportsMap(s, s.dependentSchemas)
    || ReportsOpt(s.ifSchema) || ReportsOpt(s.thenSchema) || ReportsOpt(s.elseSchema)
    || ReportsSeq(s.oneOf) || ReportsSeq(s.anyOf) || ReportsSeq(s.allOf)
  }

  /** Whether canonicalizing the schema emits a SPEC-ALLOF-CONFLICT finding. */
  predicate Reports(s: Schema)
    decreases s, 1
  {
    || ReportsParts(s)
    || (s.allOf != [] && CollapseConflicts(CanonParts(s).(allOf := []), CanonSeq(s.allOf)))
  }
}
