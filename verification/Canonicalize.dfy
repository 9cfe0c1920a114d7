/** `canonicalize_schema` and `_collapse_all_of` as code: copies are allocated, merged in place, and read back. */
module Canonicalize {
  import opened Model
  import opened Ordering
  import opened Canonical
  import opened Aliasing
  import opened Clashes
  import Collapsed

  // ------------------------------------------------------------------ copies

  lemma {:induction false} ReadsLarger(h: Store, h': Store, n: Node, s: Schema)
    requires Forest(h) && Reads(h, n, s) && h.Keys <= h'.Keys
    requires forall k :: k in h ==> h'[k] == h[k]
    ensures Reads(h', n, s)
  {
    forall k, x | k in h && x in h[k].properties ensures h[k].properties[x] in h.Keys {
      assert ChildOk(h, k, x, h[k].properties[x]);
    }
    ReadsFrame(h, h', n, s, h.Keys);
  }

  /** Two disjoint parts of the heap, each closed, are closed together. */
  lemma {:induction false} ForestUnion(h1: Store, h2: Store, h: Store)
    requires Forest(h1) && Forest(h2) && h1.Keys !! h2.Keys && h == h1 + h2
    ensures Forest(h)
  {
    forall n, x | n in h && x in h[n].properties ensures ChildOk(h, n, x, h[n].properties[x]) {
      if n in h2 {
        assert ChildOk(h2, n, x, h2[n].properties[x]);
      } else {
        assert ChildOk(h1, n, x, h1[n].properties[x]);
      }
    }
  }

  lemma {:induction false} SnapUnion(S: set<Node>, T: set<Node>)
    ensures Snap(S + T) == Snap(S) + Snap(T)
  {
  }

  ghost predicate Uniform(h: Store, tree: int, path: seq<string>, shared: bool) {
    forall k :: k in h ==> k.tree == tree && Below(path, k) && h[k].shared == shared
  }

  /** The copies of the properties not in `todo`, strictly below the node being copied. */
  ghost predicate Kids(h: Store, kids: map<string, Node>, s: Schema, todo: set<string>, path: seq<string>) {
    && Forest(h) && todo <= s.properties.Keys && kids.Keys == s.properties.Keys - todo
    && (forall k :: k in h ==> k.path != path)
    && (forall x :: x in kids ==> kids[x] in h && kids[x].path == path + [x] && Reads(h, kids[x], s.properties[x]))
  }

  lemma {:induction false} KidsStart(h: Store, s: Schema, tree: int, path: seq<string>, shared: bool)
    requires h.Keys == {}
    ensures Kids(h, map[], s, s.properties.Keys, path) && Uniform(h, tree, path, shared)
  {
  }

  lemma {:induction false} KidsStep(h1: Store, h2: Store, h: Store, kids: map<string, Node>, s: Schema, todo: set<string>, x: string, c: Node,
                 tree: int, path: seq<string>, shared: bool)
    requires Kids(h1, kids, s, todo, path) && Uniform(h1, tree, path, shared) && x in todo
    requires c in h2 && Forest(h2) && Reads(h2, c, s.properties[x]) && c.path == path + [x] && Uniform(h2, tree, path + [x], shared)
    requires h1.Keys !! h2.Keys && h == h1 + h2
    ensures Kids(h, kids[x := c], s, todo - {x}, path) && Uniform(h, tree, path, shared)
  {
    hide Reads, Forest;
    ForestUnion(h1, h2, h);
    forall y | y in kids ensures Reads(h, kids[y], s.properties[y]) { ReadsLarger(h1, h, kids[y], s.properties[y]); }
    ReadsLarger(h2, h, c, s.properties[x]);
    forall k | k in h2 ensures Below(path, k) && k.path != path { assert path <= path + [x] <= k.path; }
  }

  lemma {:induction false} RootForest(h: Store, h': Store, n: Node)
    requires Forest(h) && n !in h && h'.Keys == h.Keys + {n} && forall k :: k in h ==> h'[k] == h[k]
    requires forall x :: x in h'[n].properties ==> ChildOk(h', n, x, h'[n].properties[x])
    ensures Forest(h')
  {
    forall k, x | k in h' && x in h'[k].properties ensures ChildOk(h', k, x, h'[k].properties[x]) {
      if k != n { assert ChildOk(h, k, x, h[k].properties[x]); }
    }
  }

  lemma {:induction false} RootReads(h: Store, h': Store, n: Node, kids: map<string, Node>, s: Schema)
    requires Kids(h, kids, s, {}, n.path) && n !in h && h'.Keys == h.Keys + {n} && forall k :: k in h ==> h'[k] == h[k]
    requires h'[n] == Cell(s.kw, s.items, kids, h'[n].shared) && n.shell == s
    ensures Reads(h', n, s)
  {
    forall x | x in s.properties ensures Reads(h', kids[x], s.properties[x]) {
      hide Reads, Forest;
      ReadsLarger(h, h', kids[x], s.properties[x]);
    }
    hide Forest;
  }

  lemma {:induction false} CopyRoot(h: Store, h': Store, n: Node, kids: map<string, Node>, s: Schema)
    requires Kids(h, kids, s, {}, n.path) && n !in h && h'.Keys == h.Keys + {n} && forall k :: k in h ==> h'[k] == h[k]
    requires h'[n] == Cell(s.kw, s.items, kids, h'[n].shared) && n.shell == s
    requires Uniform(h, n.tree, n.path, h'[n].shared)
    ensures Forest(h') && Reads(h', n, s) && Uniform(h', n.tree, n.path, h'[n].shared)
  {
    hide Reads, Forest;
    forall x | x in kids ensures ChildOk(h', n, x, kids[x]) {}
    RootForest(h, h', n);
    RootReads(h, h', n, kids, s);
    assert n.path <= n.path;
  }

  /** A deep copy: a tree of new nodes. */
  method Copy(s: Schema, ghost tree: int, ghost path: seq<string>, ghost shared: bool) returns (n: Node, ghost S: set<Node>)
    ensures fresh(S) && n in S && Forest(Snap(S)) && Reads(Snap(S), n, s)
    ensures n.tree == tree && n.path == path && Uniform(Snap(S), tree, path, shared)
    decreases s
  {
    hide Reads, Forest, Kids, Uniform;
    var kids: map<string, Node> := map[];
    S := {};
    KidsStart(Snap(S), s, tree, path, shared);
    var todo := s.properties.Keys;
    while todo != {}
      invariant fresh(S) && Kids(Snap(S), kids, s, todo, path) && Uniform(Snap(S), tree, path, shared) && todo <= s.properties.Keys
    {
      var x :| x in todo;
      var c, T := Copy(s.properties[x], tree, path + [x], shared);
      SnapUnion(S, T);
      KidsStep(Snap(S), Snap(T), Snap(S + T), kids, s, todo, x, c, tree, path, shared);
      kids := kids[x := c];
      S := S + T;
      todo := todo - {x};
    }
    ghost var h := Snap(S);
    n := new Node(s, kids, tree, path, shared);
    S := S + {n};
    CopyRoot(h, Snap(S), n, kids, s);
  }

  lemma {:induction false} ReadsParts(S: set<Node>, n: Node, s: Schema)
    requires n in S && Reads(Snap(S), n, s)
    ensures n.properties.Keys == s.properties.Keys
    ensures n.shell.(kw := n.kw, items := n.items, properties := s.properties) == s
    ensures forall x :: x in s.properties ==> n.properties[x] in S && Reads(Snap(S), n.properties[x], s.properties[x])
  {
    assert Snap(S)[n] == Cell(n.kw, n.items, n.properties, n.shared);
  }

  /** Reading a tree of nodes back as a value. */
  method Freeze(n: Node, ghost s: Schema, ghost S: set<Node>) returns (r: Schema)
    requires n in S && Reads(Snap(S), n, s)
    ensures r == s
    decreases s
  {
    hide Reads;
    ReadsParts(S, n, s);
    var properties: map<string, Schema> := map[];
    var todo := n.properties.Keys;
    while todo != {}
      invariant todo <= s.properties.Keys && properties.Keys == s.properties.Keys - todo
      invariant forall x :: x in properties ==> properties[x] == s.properties[x]
    {
      var x :| x in todo;
      var c := Freeze(n.properties[x], s.properties[x], S);
      properties := properties[x := c];
      todo := todo - {x};
    }
    assert properties == s.properties;
    r := n.shell.(kw := n.kw, items := n.items, properties := properties);
  }

  // ------------------------------------------------------------------ collapsing

  /** After `i` branches: the target reads as stage `i`, merged branches are linked to it, the others are untouched. */
  ghost predicate Chain(h: Store, merged: Node, nodes: seq<Node>, host: Schema, branches: seq<Schema>, i: nat) {
    && Forest(h) && i <= |branches| == |nodes|
    && merged in h && h[merged].shared && merged.path == [] && Reads(h, merged, Stage(host, branches, i))
    && (forall j :: 0 <= j < |nodes| ==> nodes[j] in h && nodes[j].path == [] && nodes[j].tree == j + 1)
    && (forall j :: 0 <= j < i ==> LinkedBranch(h, merged, nodes[j], host, branches, j))
    && (forall j :: i <= j < |nodes| ==> Pristine(h, nodes[j], branches[j]))
  }

  ghost predicate LinkedBranch(h: Store, merged: Node, n: Node, host: Schema, branches: seq<Schema>, j: nat)
    requires j < |branches|
  {
    Linked(h, n, merged, branches[j], Stage(host, branches, j))
  }

  lemma {:induction false} ChainStep(h: Store, h': Store, merged: Node, nodes: seq<Node>, host: Schema, branches: seq<Schema>, i: nat)
    requires i < |branches| && Chain(h, merged, nodes, host, branches, i)
    requires Forest(h') && WritesBelow(h, h', [], i + 1)
    requires Reads(h', merged, MergeNode(Stage(host, branches, i), branches[i]))
    requires LinkedBranch(h', merged, nodes[i], host, branches, i)
    ensures Chain(h', merged, nodes, host, branches, i + 1)
  {
    hide Reads, Pristine, Linked, MergeNode;
    forall j | 0 <= j < |nodes| && j != i ensures SharesNone(h, h', nodes[j].tree, nodes[j].path) {}
    forall j | 0 <= j < i ensures LinkedBranch(h', merged, nodes[j], host, branches, j) {
      assert LinkedBranch(h, merged, nodes[j], host, branches, j);
      LinkedStep(h, h', nodes[j], merged, branches[j], Stage(host, branches, j));
    }
    forall j | i + 1 <= j < |nodes| ensures Pristine(h', nodes[j], branches[j]) {
      PristineStep(h, h', nodes[j], branches[j]);
    }
  }

  lemma {:induction false} CopyPristine(S: set<Node>, n: Node, b: Schema)
    requires n in S && Forest(Snap(S)) && Reads(Snap(S), n, b) && Uniform(Snap(S), n.tree, n.path, false)
    ensures Pristine(Snap(S), n, b)
  {
    var h := Snap(S);
    forall k | k in Own(h, n) ensures Private(h, k, n.tree) {
      forall x | x in h[k].properties ensures h[k].properties[x].tree == n.tree {
        assert ChildOk(h, k, x, h[k].properties[x]);
      }
    }
  }

  lemma {:induction false} PristineLarger(h: Store, h': Store, n: Node, b: Schema, tree: int)
    requires Forest(h) && Pristine(h, n, b) && h.Keys <= h'.Keys && n.tree != tree
    requires forall k :: k in h ==> h'[k] == h[k]
    requires forall k :: k in h' && k !in h ==> k.tree == tree
    ensures Pristine(h', n, b)
  {
    ReadsLarger(h, h', n, b);
    forall k | k in Own(h', n) ensures Private(h', k, n.tree) {
      assert k in Own(h, n) && Private(h, k, n.tree);
    }
  }

  lemma {:induction false} PristineNew(h: Store, h': Store, n: Node, b: Schema)
    requires Forest(h) && Pristine(h, n, b) && h.Keys <= h'.Keys
    requires forall k :: k in h ==> h'[k] == h[k]
    requires forall k :: k in h' && k !in h ==> k.tree < n.tree
    ensures Pristine(h', n, b)
  {
    ReadsLarger(h, h', n, b);
    forall k | k in Own(h', n) ensures Private(h', k, n.tree) {
      assert k in Own(h, n) && Private(h, k, n.tree);
    }
  }

  /** The merged copy and the branch copies, before anything is merged. */
  method CopyAll(host: Schema, branches: seq<Schema>) returns (merged: Node, nodes: seq<Node>, ghost S: set<Node>)
    ensures fresh(S) && Chain(Snap(S), merged, nodes, host, branches, 0)
  {
    hide Reads, Forest, Pristine;
    merged, S := Copy(host, 0, [], true);
    nodes := [];
    for i := 0 to |branches|
      invariant |nodes| == i && fresh(S) && Forest(Snap(S))
      invariant forall k :: k in S ==> k.tree <= i
      invariant merged in S && merged.shared && merged.path == [] && Reads(Snap(S), merged, host)
      invariant forall j :: 0 <= j < i ==>
        nodes[j] in S && nodes[j].path == [] && nodes[j].tree == j + 1 && Pristine(Snap(S), nodes[j], branches[j])
    {
      var n, T := Copy(branches[i], i + 1, [], false);
      CopyPristine(T, n, branches[i]);
      SnapUnion(S, T);
      ghost var h, h' := Snap(S), Snap(S + T);
      ForestUnion(h, Snap(T), h');
      ReadsLarger(h, h', merged, host);
      forall j | 0 <= j < i ensures Pristine(h', nodes[j], branches[j]) {
        PristineLarger(h, h', nodes[j], branches[j], i + 1);
      }
      PristineNew(Snap(T), h', n, branches[i]);
      nodes := nodes + [n];
      S := S + T;
    }
  }

  lemma {:induction false} ChainNext(h: Store, merged: Node, nodes: seq<Node>, host: Schema, branches: seq<Schema>, i: nat)
    requires i < |branches| && Chain(h, merged, nodes, host, branches, i)
    ensures Forest(h) && |nodes| == |branches| && merged in h && nodes[i] in h && h[merged].shared
    ensures nodes[i].path == merged.path == [] && nodes[i].tree == i + 1
    ensures Reads(h, merged, Stage(host, branches, i)) && Pristine(h, nodes[i], branches[i])
  {
  }

  lemma {:induction false} ChainEnd(h: Store, merged: Node, nodes: seq<Node>, host: Schema, branches: seq<Schema>, i: nat)
    requires i < |branches| && Chain(h, merged, nodes, host, branches, |branches|)
    ensures |nodes| == |branches| && nodes[i] in h
    ensures Reads(h, nodes[i], WriteBack(branches[i], Stage(host, branches, i), Stage(host, branches, |branches|)))
  {
    hide Linked, Reads;
    assert LinkedBranch(h, merged, nodes[i], host, branches, i);
    LinkedReads(h, nodes[i], merged, branches[i], Stage(host, branches, i), Stage(host, branches, |branches|));
  }

  lemma {:induction false} ChainLength(h: Store, merged: Node, nodes: seq<Node>, host: Schema, branches: seq<Schema>, i: nat)
    requires Chain(h, merged, nodes, host, branches, i)
    ensures |nodes| == |branches|
  {
  }

  lemma {:induction false} CollapseConflictsMeans(host: Schema, branches: seq<Schema>)
    ensures CollapseConflicts(host, branches) <==> exists j :: 0 <= j < |branches| && ConflictsAt(host, branches, j)
  {
  }

  /** Merging every branch into the copy of the host, in order. */
  method MergeBranches(merged: Node, nodes: seq<Node>, ghost host: Schema, ghost branches: seq<Schema>, ghost S: set<Node>)
    returns (conflicts: seq<Conflict>)
    requires Chain(Snap(S), merged, nodes, host, branches, 0)
    modifies S
    ensures Chain(Snap(S), merged, nodes, host, branches, |branches|)
    ensures conflicts != [] <==> CollapseConflicts(host, branches)
  {
    hide Chain, ConflictsAt, CollapseConflicts;
    ChainLength(Snap(S), merged, nodes, host, branches, 0);
    conflicts := [];
    for i := 0 to |nodes|
      invariant Chain(Snap(S), merged, nodes, host, branches, i)
      invariant conflicts != [] <==> exists j :: 0 <= j < i && ConflictsAt(host, branches, j)
    {
      var found := MergeBranch(merged, nodes, i, host, branches, S);
      conflicts := conflicts + found;
    }
    CollapseConflictsMeans(host, branches);
  }

  method MergeBranch(merged: Node, nodes: seq<Node>, i: nat, ghost host: Schema, ghost branches: seq<Schema>, ghost S: set<Node>)
    returns (found: seq<Conflict>)
    requires i < |nodes| == |branches| && Chain(Snap(S), merged, nodes, host, branches, i)
    modifies S
    ensures Chain(Snap(S), merged, nodes, host, branches, i + 1)
    ensures found != [] <==> ConflictsAt(host, branches, i)
  {
    hide Chain, Reads, Pristine, Linked, MergeNode, MergeConflicts, Forest, WritesBelow, Stage;
    ghost var h := Snap(S);
    ChainNext(h, merged, nodes, host, branches, i);
    assert h[merged].shared == merged.shared;
    found := MergeInto(merged, nodes[i], Stage(host, branches, i), branches[i], S);
    ChainStep(h, Snap(S), merged, nodes, host, branches, i);
  }

  /** The branches as the merge left them. */
  method ReadBack(merged: Node, nodes: seq<Node>, ghost host: Schema, ghost branches: seq<Schema>, ghost S: set<Node>)
    returns (kept: seq<Schema>)
    requires Chain(Snap(S), merged, nodes, host, branches, |branches|)
    ensures kept == WriteBacks(host, branches)
  {
    hide Chain, Reads, WriteBack, Stage;
    assert |nodes| == |branches| by { ChainLength(Snap(S), merged, nodes, host, branches, |branches|); }
    kept := [];
    for i := 0 to |nodes|
      invariant kept == WriteBacks(host, branches)[..i]
    {
      ChainEnd(Snap(S), merged, nodes, host, branches, i);
      var b := Freeze(nodes[i], WriteBack(branches[i], Stage(host, branches, i), Stage(host, branches, |branches|)), S);
      kept := kept + [b];
    }
  }

  /** `_collapse_all_of`. */
  method CollapseAllOf(n: Schema, branches: seq<Schema>) returns (r: Schema, conflicts: seq<Conflict>)
    ensures r == Collapse(n, branches)
    ensures conflicts != [] <==> CollapseConflicts(n.(allOf := []), branches)
    ensures conflicts != [] <==> AnyClash(n.(allOf := []), branches)
    ensures conflicts == [] ==> forall route: seq<string> :: Collapsed.Together(n, branches, r, route)
  {
    hide Reads, Pristine, Linked, MergeNode, MergeConflicts, CollapseConflicts, Forest, AnyClash, Collapsed.Together;
    ConflictsExactly(n.(allOf := []), branches);
    if !AnyClash(n.(allOf := []), branches) {
      forall route: seq<string> ensures Collapsed.Together(n, branches, Collapse(n, branches), route) { Collapsed.SaysTogether(n, branches, route); }
    }
    hide Collapse;
    ghost var host := n.(allOf := []);
    var merged, nodes, S := CopyAll(n.(allOf := []), branches);
    conflicts := MergeBranches(merged, nodes, host, branches, S);
    if conflicts != [] {
      var kept := ReadBack(merged, nodes, host, branches, S);
      r := n.(allOf := kept);
    } else {
      r := Freeze(merged, Stage(host, branches, |branches|), S);
    }
  }

  // ------------------------------------------------------------------ canonicalizing

  method CanonicalizeOption(o: Option<Schema>) returns (r: Option<Schema>, findings: seq<seq<Conflict>>)
    ensures r == CanonOpt(o) && (findings != [] <==> ReportsOpt(o))
    decreases o, 0
  {
    if o.None? { return None, []; }
    var c, f := CanonicalizeSchema(o.value);
    r, findings := Some(c), f;
  }

  method CanonicalizeList(ss: seq<Schema>) returns (r: seq<Schema>, findings: seq<seq<Conflict>>)
    ensures r == CanonSeq(ss) && (findings != [] <==> ReportsSeq(ss))
    decreases ss, 0
  {
    hide Canon, Reports;
    r, findings := [], [];
    for i := 0 to |ss|
      invariant |r| == i && forall j :: 0 <= j < i ==> r[j] == Canon(ss[j])
      invariant findings != [] <==> exists j :: 0 <= j < i && Reports(ss[j])
    {
      var c, f := CanonicalizeSchema(ss[i]);
      r, findings := r + [c], findings + f;
    }
  }

  lemma {:induction false} ReportsMapMeans(s: Schema, m: map<string, Schema>)
    requires m == s.properties || m == s.patternProperties || m == s.dependentSchemas
    ensures ReportsMap(s, m) <==> exists x :: x in m && Reports(m[x])
  {
  }

  method CanonicalizeMap(s: Schema, m: map<string, Schema>) returns (r: map<string, Schema>, findings: seq<seq<Conflict>>)
    requires m == s.properties || m == s.patternProperties || m == s.dependentSchemas
    ensures r == map x | x in m :: Canon(m[x])
    ensures findings != [] <==> ReportsMap(s, m)
    decreases s, 0
  {
    hide *;
    ReportsMapMeans(s, m);
    ghost var any := false;
    assert forall x :: x in m ==> m[x] < s;
    r, findings := map[], [];
    var todo := m.Keys;
    while todo != {}
      invariant todo <= m.Keys && r.Keys == m.Keys - todo
      invariant forall x :: x in r ==> r[x] == Canon(m[x])
      invariant any <==> findings != []
      invariant any <==> exists x :: x in m && x !in todo && Reports(m[x])
    {
      var x :| x in todo;
      var c, f := CanonicalizeSchema(m[x]);
      any := any || f != [];
      r, findings := r[x := c], findings + f;
      todo := todo - {x};
    }
  }

  method CanonicalizeDependents(m: map<string, seq<string>>) returns (r: map<string, seq<string>>)
    ensures r == map t | t in m :: SortedNames(m[t])
  {
    r := map[];
    var todo := m.Keys;
    while todo != {}
      invariant todo <= m.Keys && r.Keys == m.Keys - todo
      invariant forall t :: t in r ==> r[t] == SortedNames(m[t])
    {
      var t :| t in todo;
      r := r[t := SortedNames(m[t])];
      todo := todo - {t};
    }
  }

  /** `_stable_unique`'s first loop: a value is kept the first time its type and value are seen. */
  method Unique(values: seq<Value>) returns (seen: seq<Value>)
    ensures seen == Dedupe(values)
  {
    seen := [];
    for i := 0 to |values|
      invariant seen == Dedupe(values[..i])
    {
      assert values[..i + 1][..i] == values[..i];
      if values[i] !in seen { seen := seen + [values[i]]; }
    }
    assert values[..|values|] == values;
  }

  /** `_stable_unique`. */
  method StableUniqueOf(values: seq<Value>) returns (r: seq<Value>)
    ensures r == StableUnique(values)
  {
    var seen := Unique(values);
    DedupeElements(values);
    AllScalarSame(values, seen);
    if AllScalar(seen) {
      StableUniqueSame(values, seen);
      r := SortedSet(ScalarLess, seen);
    } else {
      r := seen;
    }
  }

  /** Properties, items, additional properties and the two lists of variants. */
  method CanonicalizeMain(s: Schema) returns (n: Schema, findings: seq<seq<Conflict>>)
    ensures n == s.(properties := (map x | x in s.properties :: Canon(s.properties[x])), items := CanonOpt(s.items),
                    additional := CanonAdditional(s.additional), oneOf := CanonSeq(s.oneOf), anyOf := CanonSeq(s.anyOf))
    ensures findings != [] <==>
      ReportsMap(s, s.properties) || ReportsOpt(s.items) || (s.additional.Described? && Reports(s.additional.schema)) ||
      ReportsSeq(s.oneOf) || ReportsSeq(s.anyOf)
    decreases s, 1
  {
    hide Canon, Reports, CanonSeq, CanonOpt, CanonAdditional, ReportsSeq, ReportsOpt, ReportsMap;
    var properties, f1 := CanonicalizeMap(s, s.properties);
    var items, f2 := CanonicalizeOption(s.items);
    var additional, f3 := CanonicalizeAdditional(s.additional);
    var oneOf, f4 := CanonicalizeList(s.oneOf);
    var anyOf, f5 := CanonicalizeList(s.anyOf);
    n := s.(properties := properties, items := items, additional := additional, oneOf := oneOf, anyOf := anyOf);
    findings := f1 + f2 + f3 + f4 + f5;
  }

  /** `_canonicalize_2020_12`. */
  method Canonicalize2020(n: Schema, s: Schema) returns (r: Schema, findings: seq<seq<Conflict>>)
    requires n.prefixItems == s.prefixItems && n.contains == s.contains && n.propertyNames == s.propertyNames
    requires n.patternProperties == s.patternProperties && n.dependentSchemas == s.dependentSchemas
    requires n.ifSchema == s.ifSchema && n.thenSchema == s.thenSchema && n.elseSchema == s.elseSchema
    ensures r == n.(kw := n.kw.(dependentRequired := map t | t in n.kw.dependentRequired :: SortedNames(n.kw.dependentRequired[t])),
                    prefixItems := CanonSeq(s.prefixItems), contains := CanonOpt(s.contains),
                    propertyNames := CanonOpt(s.propertyNames),
                    patternProperties := (map x | x in s.patternProperties :: Canon(s.patternProperties[x])),
                    dependentSchemas := (map x | x in s.dependentSchemas :: Canon(s.dependentSchemas[x])),
                    ifSchema := CanonOpt(s.ifSchema), thenSchema := CanonOpt(s.thenSchema), elseSchema := CanonOpt(s.elseSchema))
    ensures findings != [] <==>
      ReportsSeq(s.prefixItems) || ReportsOpt(s.contains) || ReportsOpt(s.propertyNames) ||
      ReportsMap(s, s.patternProperties) || ReportsMap(s, s.dependentSchemas) ||
      ReportsOpt(s.ifSchema) || ReportsOpt(s.thenSchema) || ReportsOpt(s.elseSchema)
    decreases s, 1
  {
    hide Canon, Reports, CanonSeq, CanonOpt, CanonAdditional, ReportsSeq, ReportsOpt, ReportsMap;
    var prefixItems, f1 := CanonicalizeList(s.prefixItems);
    var contains, f2 := CanonicalizeOption(s.contains);
    var propertyNames, f3 := CanonicalizeOption(s.propertyNames);
    var patternProperties, f4 := CanonicalizeMap(s, s.patternProperties);
    var dependentSchemas, f5 := CanonicalizeMap(s, s.dependentSchemas);
    var dependentRequired := CanonicalizeDependents(n.kw.dependentRequired);
    var ifSchema, f6 := CanonicalizeOption(s.ifSchema);
    var thenSchema, f7 := CanonicalizeOption(s.thenSchema);
    var elseSchema, f8 := CanonicalizeOption(s.elseSchema);
    r := n.(kw := n.kw.(dependentRequired := dependentRequired), prefixItems := prefixItems, contains := contains,
            propertyNames := propertyNames, patternProperties := patternProperties, dependentSchemas := dependentSchemas,
            ifSchema := ifSchema, thenSchema := thenSchema, elseSchema := elseSchema);
    findings := f1 + f2 + f3 + f4 + f5 + f6 + f7 + f8;
  }

  /** The node with its sub-schemas canonical; `allOf` is left as written. */
  method CanonicalizeParts(s: Schema) returns (n: Schema, findings: seq<seq<Conflict>>)
    ensures n == CanonParts(s)
    ensures findings != [] || ReportsSeq(s.allOf) <==> ReportsParts(s)
    decreases s, 2
  {
    hide Canon, Reports, CanonSeq, CanonOpt, CanonAdditional, ReportsSeq, ReportsOpt, ReportsMap;
    var f: seq<seq<Conflict>>;
    n, findings := CanonicalizeMain(s);
    n, f := Canonicalize2020(n, s);
    findings := findings + f;
  }

  method CanonicalizeAdditional(a: Additional) returns (r: Additional, findings: seq<seq<Conflict>>)
    ensures r == CanonAdditional(a) && (findings != [] <==> a.Described? && Reports(a.schema))
    decreases a, 0
  {
    if !a.Described? { return a, []; }
    var c, f := CanonicalizeSchema(a.schema);
    r, findings := Described(c), f;
  }

  /** `canonicalize_schema`: the canonical form, and one finding for every composition that was kept. */
  method CanonicalizeSchema(s: Schema) returns (node: Schema, findings: seq<seq<Conflict>>)
    ensures node == Canon(s)
    ensures findings != [] <==> Reports(s)
    ensures findings == [] <==> !AnyTroubled(s)
    ensures node.allOf == [] <==> !Troubled(s)
    decreases s, 3
  {
    TroubledWithin(s);
    KeptExactly(s);
    hide CanonParts, Collapse, CollapseConflicts, CanonSeq, ReportsParts, ReportsSeq, AnyTroubled, Troubled;
    node, findings := CanonicalizeParts(s);
    if s.allOf != [] {
      var branches, f := CanonicalizeList(s.allOf);
      var conflicts: seq<Conflict>;
      ghost var n := node;
      node, conflicts := CollapseAllOf(node, branches);
      findings := findings + f + if conflicts != [] then [conflicts] else [];
    } else {
      NothingReported(s.allOf);
    }
    if node.kw.enum.Some? {
      var enum := StableUniqueOf(node.kw.enum.value);
      node := node.(kw := node.kw.(enum := Some(enum)));
    }
    node := node.(kw := node.kw.(required := SortedNames(node.kw.required)));
  }

  lemma {:induction false} NothingReported(ss: seq<Schema>)
    requires ss == []
    ensures !ReportsSeq(ss)
  {
  }
}
