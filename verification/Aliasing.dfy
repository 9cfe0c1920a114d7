/** `_collapse_all_of` and `_merge_into` in place. A property the target lacks is attached to it as the very node the
    branch holds, so later merges into the target also write into that branch. The proof ties every node to its tree
    of origin and its path, and shows that the merged tree and the branches end up as `Canonical` says. */
module Aliasing {
  import opened Model
  import opened Ordering
  import opened Canonical
  import Clashes

  /** A mutable schema node. Merging writes `kw`, `items` and `properties`, and never the other sub-schemas. */
  class Node {
    var kw: Keywords
    var items: Option<Schema>
    var properties: map<string, Node>
    const shell: Schema
    ghost const tree: int
    ghost const path: seq<string>
    ghost var shared: bool   // reachable from the merged root

    constructor (s: Schema, properties: map<string, Node>, ghost tree: int, ghost path: seq<string>, ghost shared: bool)
      ensures this.kw == s.kw && this.items == s.items && this.properties == properties && this.shell == s
      ensures this.tree == tree && this.path == path && this.shared == shared
    {
      this.kw, this.items, this.properties, this.shell := s.kw, s.items, properties, s;
      this.tree, this.path, this.shared := tree, path, shared;
    }
  }

  // ------------------------------------------------------------------ stores

  datatype Cell = Cell(kw: Keywords, items: Option<Schema>, properties: map<string, Node>, shared: bool)

  type Store = map<Node, Cell>

  ghost function Snap(S: set<Node>): Store
    reads S
  {
    map k | k in S :: Cell(k.kw, k.items, k.properties, k.shared)
  }

  /** Children extend the path; below a shared node everything is shared; a private child stays in its tree. */
  ghost predicate ChildOk(h: Store, n: Node, x: string, c: Node)
    requires n in h
  {
    c in h && c.path == n.path + [x] && (h[c].shared || (!h[n].shared && c.tree == n.tree))
  }

  ghost predicate Forest(h: Store) {
    forall n, x :: n in h && x in h[n].properties ==> ChildOk(h, n, x, h[n].properties[x])
  }

  /** The tree hanging from `n` reads as the schema `s`. */
  ghost predicate Reads(h: Store, n: Node, s: Schema)
    decreases s
  {
    && n in h
    && h[n].kw == s.kw && h[n].items == s.items
    && n.shell.(kw := s.kw, items := s.items, properties := s.properties) == s
    && h[n].properties.Keys == s.properties.Keys
    && forall x :: x in s.properties ==> Reads(h, h[n].properties[x], s.properties[x])
  }

  ghost predicate Below(path: seq<string>, k: Node) {
    path <= k.path
  }

  /** The nodes allocated below `n` in its own tree. */
  ghost function Own(h: Store, n: Node): set<Node> {
    set k | k in h && k.tree == n.tree && Below(n.path, k)
  }

  ghost predicate Private(h: Store, k: Node, tree: int)
    requires k in h
  {
    !h[k].shared && forall x :: x in h[k].properties ==> h[k].properties[x].tree == tree
  }

  /** `n` still is the tree it was built as, and none of its nodes belongs to the merged tree. */
  ghost predicate Pristine(h: Store, n: Node, b: Schema) {
    Reads(h, n, b) && forall k :: k in Own(h, n) ==> Private(h, k, n.tree)
  }

  /** `n` was built as `b` and merged when the target `m` read as `t`: what it gave away, it shares with `m`. */
  ghost predicate Linked(h: Store, n: Node, m: Node, b: Schema, t: Schema)
    decreases b, 1
  {
    && n in h && m in h && !h[n].shared
    && h[n].kw == b.kw && h[n].items == b.items
    && n.shell.(kw := b.kw, items := b.items, properties := b.properties) == b
    && h[n].properties.Keys == b.properties.Keys
    && forall x :: x in b.properties ==> LinkedAt(h, n, m, b, t, x)
  }

  ghost predicate LinkedAt(h: Store, n: Node, m: Node, b: Schema, t: Schema, x: string)
    requires n in h && m in h && x in b.properties && x in h[n].properties
    decreases b, 0
  {
    var c := h[n].properties[x];
    if !TypesDisagree(t.kw.typ, b.kw.typ) && x !in t.properties then x in h[m].properties && c == h[m].properties[x]
    else
      c.tree == n.tree &&
      if TypesDisagree(t.kw.typ, b.kw.typ) || PropertyTypesDisagree(t.properties[x].kw.typ, b.properties[x].kw.typ)
      then Pristine(h, c, b.properties[x])
      else x in h[m].properties && Linked(h, c, h[m].properties[x], b.properties[x], t.properties[x])
  }

  // ------------------------------------------------------------------ what a write leaves alone

  ghost predicate Untouched(h: Store, h': Store, k: Node) {
    k in h && k in h' && h'[k].(shared := h[k].shared) == h[k]
  }

  /** Nodes outside the merged tree are not written, sharing is never undone, and no property is ever re-pointed. */
  ghost predicate Grows(h: Store, h': Store) {
    && h.Keys == h'.Keys
    && (forall k :: k in h && h[k].shared ==> h'[k].shared)
    && (forall k :: k in h && !h[k].shared ==> Untouched(h, h', k))
    && (forall k, x :: k in h && x in h[k].properties ==> x in h'[k].properties && h'[k].properties[x] == h[k].properties[x])
  }

  /** A write at or below `path` that shares nodes of one tree, strictly below it. */
  ghost predicate WritesBelow(h: Store, h': Store, path: seq<string>, tree: int) {
    && Grows(h, h')
    && (forall k :: k in h && !Below(path, k) ==> Untouched(h, h', k))
    && (forall k :: k in h && !h[k].shared && h'[k].shared ==> k.tree == tree && Below(path, k) && k.path != path)
  }

  ghost predicate SharesNone(h: Store, h': Store, tree: int, path: seq<string>) {
    forall k :: k in h && k in h' && k.tree == tree && Below(path, k) && !h[k].shared ==> !h'[k].shared
  }

  ghost predicate Downward(h: Store, U: set<Node>) {
    forall k, x :: k in U && k in h && x in h[k].properties ==> h[k].properties[x] in U
  }

  lemma {:induction false} ReadsFrame(h: Store, h': Store, n: Node, s: Schema, U: set<Node>)
    requires n in U && Downward(h, U) && Reads(h, n, s)
    requires forall k :: k in U && k in h ==> Untouched(h, h', k)
    ensures Reads(h', n, s)
    decreases s
  {
    forall x | x in s.properties ensures Reads(h', h[n].properties[x], s.properties[x]) {
      ReadsFrame(h, h', h[n].properties[x], s.properties[x], U);
    }
  }

  /** A tree hanging at `path` is not affected by writes that are not below `path`. */
  lemma {:induction false} ReadsElsewhere(h: Store, h': Store, n: Node, s: Schema)
    requires Forest(h) && Reads(h, n, s)
    requires forall k :: k in h && Below(n.path, k) ==> Untouched(h, h', k)
    ensures Reads(h', n, s)
  {
    var U := set k | k in h && Below(n.path, k);
    forall k, x | k in U && x in h[k].properties ensures h[k].properties[x] in U {
      assert ChildOk(h, k, x, h[k].properties[x]);
    }
    ReadsFrame(h, h', n, s, U);
  }

  lemma {:induction false} PristineStep(h: Store, h': Store, n: Node, b: Schema)
    requires Forest(h) && Pristine(h, n, b) && Grows(h, h') && SharesNone(h, h', n.tree, n.path)
    ensures Pristine(h', n, b)
  {
    var U := Own(h, n);
    forall k, x | k in U && x in h[k].properties ensures h[k].properties[x] in U {
      assert Private(h, k, n.tree) && ChildOk(h, k, x, h[k].properties[x]);
    }
    forall k | k in U ensures Untouched(h, h', k) { assert Private(h, k, n.tree); }
    forall k | k in Own(h', n) ensures Private(h', k, n.tree) {
      assert k in U && Private(h, k, n.tree);
    }
    ReadsFrame(h, h', n, b, U);
  }

  lemma {:induction false} ChildBelow(path: seq<string>, x: string, tree: int, h: Store, h': Store)
    requires SharesNone(h, h', tree, path)
    ensures SharesNone(h, h', tree, path + [x])
  {
    assert path <= path + [x];
  }

  /** A link survives any growth that shares no further node of its branch below it. */
  lemma {:induction false} LinkedStep(h: Store, h': Store, n: Node, m: Node, b: Schema, t: Schema)
    requires Forest(h) && Linked(h, n, m, b, t) && Grows(h, h') && SharesNone(h, h', n.tree, n.path)
    ensures Linked(h', n, m, b, t)
    decreases b, 1
  {
    assert n.path <= n.path;
    forall x | x in b.properties ensures LinkedAt(h', n, m, b, t, x) {
      ChildBelow(n.path, x, n.tree, h, h');
      LinkedAtStep(h, h', n, m, b, t, x);
    }
  }

  lemma {:induction false} LinkedAtStep(h: Store, h': Store, n: Node, m: Node, b: Schema, t: Schema, x: string)
    requires Forest(h) && n in h && m in h && x in b.properties && x in h[n].properties && LinkedAt(h, n, m, b, t, x)
    requires Grows(h, h') && SharesNone(h, h', n.tree, n.path + [x])
    ensures x in h'[n].properties && LinkedAt(h', n, m, b, t, x)
    decreases b, 0
  {
    var c := h[n].properties[x];
    assert ChildOk(h, n, x, c);
    assert h'[n].properties[x] == c;
    if TypesDisagree(t.kw.typ, b.kw.typ) ||
       (x in t.properties && PropertyTypesDisagree(t.properties[x].kw.typ, b.properties[x].kw.typ)) {
      PristineStep(h, h', c, b.properties[x]);
    } else if x in t.properties {
      LinkedStep(h, h', c, h[m].properties[x], b.properties[x], t.properties[x]);
    }
  }

  /** What a linked branch now reads as. */
  lemma {:induction false} LinkedReads(h: Store, n: Node, m: Node, b: Schema, t: Schema, mv: Schema)
    requires Linked(h, n, m, b, t) && Reads(h, m, mv)
    ensures Reads(h, n, WriteBack(b, t, mv))
    decreases b
  {
    var w := WriteBack(b, t, mv);
    forall x | x in b.properties ensures Reads(h, h[n].properties[x], w.properties[x]) {
      assert LinkedAt(h, n, m, b, t, x);
      if !TypesDisagree(t.kw.typ, b.kw.typ) && x in t.properties &&
         !PropertyTypesDisagree(t.properties[x].kw.typ, b.properties[x].kw.typ) {
        LinkedReads(h, h[n].properties[x], h[m].properties[x], b.properties[x], t.properties[x], mv.properties[x]);
      }
    }
  }

  lemma {:induction false} PristineChild(h: Store, n: Node, b: Schema, x: string)
    requires Forest(h) && Pristine(h, n, b) && x in b.properties
    ensures h[n].properties[x].tree == n.tree && h[n].properties[x].path == n.path + [x]
    ensures Pristine(h, h[n].properties[x], b.properties[x])
  {
    var c := h[n].properties[x];
    assert n in Own(h, n) by { assert n.path <= n.path; }
    assert Private(h, n, n.tree) && ChildOk(h, n, x, c);
    forall k | k in Own(h, c) ensures Private(h, k, c.tree) {
      assert n.path <= c.path <= k.path;
      assert k in Own(h, n);
    }
  }

  lemma {:induction false} SiblingsApart(path: seq<string>, x: string, y: string, k: Node)
    requires Below(path + [x], k) && Below(path + [y], k)
    ensures x == y
  {
    assert k.path[|path|] == (path + [x])[|path|] == (path + [y])[|path|];
  }

  // ------------------------------------------------------------------ the loop over a branch's properties

  /** What a property present on both sides becomes. */
  ghost function MergedProperty(tv: Schema, bv: Schema): Schema {
    if PropertyTypesDisagree(tv.kw.typ, bv.kw.typ) then tv else MergeNode(tv, bv)
  }

  /** What the target's properties read as while the names in `todo` are still to be merged. */
  ghost function Targets(tv: Schema, bv: Schema, todo: set<string>): map<string, Schema> {
    map x | x in tv.properties.Keys + (bv.properties.Keys - todo) ::
      if x in todo || x !in bv.properties then tv.properties[x]
      else if x !in tv.properties then bv.properties[x]
      else MergedProperty(tv.properties[x], bv.properties[x])
  }

  ghost predicate TargetState(h: Store, t: Node, targets: map<string, Schema>) {
    && t in h
    && h[t].properties.Keys == targets.Keys
    && forall x :: x in targets ==> Reads(h, h[t].properties[x], targets[x])
  }

  ghost predicate BranchState(h: Store, t: Node, b: Node, tv: Schema, bv: Schema, todo: set<string>) {
    && t in h && b in h && !h[b].shared
    && h[b].properties.Keys == bv.properties.Keys && todo <= bv.properties.Keys
    && (forall x :: x in todo ==> h[b].properties[x].tree == b.tree && Pristine(h, h[b].properties[x], bv.properties[x]))
    && (forall x :: x in bv.properties && x !in todo ==> LinkedAt(h, b, t, bv, tv, x))
  }

  ghost predicate FrameState(h0: Store, h: Store, t: Node, b: Node) {
    && Forest(h0) && Forest(h)
    && t in h0 && b in h0 && h0[t].shared && !h0[b].shared && b.path == t.path
    && WritesBelow(h0, h, t.path, b.tree)
    && h[t].kw == h0[t].kw && h[t].items == h0[t].items
  }

  ghost predicate Partway(h0: Store, h: Store, t: Node, b: Node, tv: Schema, bv: Schema, todo: set<string>) {
    && !TypesDisagree(tv.kw.typ, bv.kw.typ)
    && FrameState(h0, h, t, b) && TargetState(h, t, Targets(tv, bv, todo)) && BranchState(h, t, b, tv, bv, todo)
  }

  lemma {:induction false} PartwayStart(h: Store, t: Node, b: Node, tv: Schema, bv: Schema)
    requires Forest(h) && t in h && h[t].shared && b.path == t.path && !TypesDisagree(tv.kw.typ, bv.kw.typ)
    requires h[t].properties.Keys == tv.properties.Keys
    requires forall x :: x in tv.properties ==> Reads(h, h[t].properties[x], tv.properties[x])
    requires Pristine(h, b, bv)
    ensures Partway(h, h, t, b, tv, bv, bv.properties.Keys)
  {
    assert b in Own(h, b) by { assert b.path <= b.path; }
    assert Private(h, b, b.tree);
    forall x | x in bv.properties
      ensures h[b].properties[x].tree == b.tree && Pristine(h, h[b].properties[x], bv.properties[x])
    {
      PristineChild(h, b, bv, x);
    }
    assert Targets(tv, bv, bv.properties.Keys) == tv.properties;
  }

  /** One step of the loop: the target's property `x` was handled, and every other property is as it was. */
  ghost predicate Handled(h: Store, h': Store, t: Node, b: Node, x: string) {
    && Forest(h) && Forest(h') && Grows(h, h') && t in h && b in h && b.path == t.path && t != b
    && (forall k :: k in h && k != t && !Below(t.path + [x], k) ==> Untouched(h, h', k))
    && (forall k :: k in h && !h[k].shared && h'[k].shared ==> k.tree == b.tree && Below(t.path + [x], k))
    && h'[t].kw == h[t].kw && h'[t].items == h[t].items && h'[t].properties.Keys == h[t].properties.Keys + {x}
  }

  lemma {:induction false} HandledSibling(h: Store, h': Store, t: Node, b: Node, x: string, y: string, s: Schema)
    requires Handled(h, h', t, b, x) && y != x && y in h[t].properties && Reads(h, h[t].properties[y], s)
    ensures Reads(h', h'[t].properties[y], s)
  {
    var c := h[t].properties[y];
    assert ChildOk(h, t, y, c);
    forall k | k in h && Below(c.path, k) ensures Untouched(h, h', k) {
      if Below(t.path + [x], k) { SiblingsApart(t.path, x, y, k); }
      assert k.path != t.path;
    }
    ReadsElsewhere(h, h', c, s);
  }

  lemma {:induction false} HandledSharesNone(h: Store, h': Store, t: Node, b: Node, x: string, y: string)
    requires Handled(h, h', t, b, x) && y != x
    ensures SharesNone(h, h', b.tree, b.path + [y])
  {
    forall k | k in h && Below(b.path + [y], k) && !h[k].shared ensures !h'[k].shared {
      if Below(t.path + [x], k) { SiblingsApart(t.path, x, y, k); }
    }
  }

  lemma {:induction false} HandledPristine(h: Store, h': Store, t: Node, b: Node, x: string, y: string, s: Schema)
    requires Handled(h, h', t, b, x) && y != x && y in h[b].properties && !h[b].shared
    requires h[b].properties[y].tree == b.tree && Pristine(h, h[b].properties[y], s)
    ensures y in h'[b].properties && h'[b].properties[y] == h[b].properties[y] && Pristine(h', h'[b].properties[y], s)
  {
    HandledSharesNone(h, h', t, b, x, y);
    assert ChildOk(h, b, y, h[b].properties[y]);
    PristineStep(h, h', h[b].properties[y], s);
  }

  lemma {:induction false} HandledLinked(h: Store, h': Store, t: Node, b: Node, bv: Schema, tv: Schema, x: string, y: string)
    requires Handled(h, h', t, b, x) && y != x && y in h[b].properties && y in bv.properties && LinkedAt(h, b, t, bv, tv, y)
    ensures y in h'[b].properties && LinkedAt(h', b, t, bv, tv, y)
  {
    HandledSharesNone(h, h', t, b, x, y);
    LinkedAtStep(h, h', b, t, bv, tv, y);
  }

  lemma {:induction false} GrowsCompose(h0: Store, h: Store, h': Store)
    requires Grows(h0, h) && Grows(h, h')
    requires forall k :: k in h && !h0[k].shared && h[k].shared ==> Untouched(h, h', k)
    ensures Grows(h0, h')
  {
    forall k | k in h0 && !h0[k].shared ensures Untouched(h0, h', k) {
      assert Untouched(h0, h, k) && Untouched(h, h', k);
    }
    forall k, x | k in h0 && x in h0[k].properties
      ensures x in h'[k].properties && h'[k].properties[x] == h0[k].properties[x]
    {
      assert h[k].properties[x] == h0[k].properties[x];
    }
  }

  lemma {:induction false} WritesCompose(h0: Store, h: Store, h': Store, t: Node, b: Node, x: string)
    requires WritesBelow(h0, h, t.path, b.tree) && Handled(h, h', t, b, x)
    requires forall k :: k in h && !h0[k].shared && h[k].shared ==> !Below(t.path + [x], k)
    requires h0[t].shared
    ensures WritesBelow(h0, h', t.path, b.tree)
  {
    GrowsCompose(h0, h, h');
    forall k | k in h && Below(t.path + [x], k) ensures Below(t.path, k) && k.path != t.path {
      assert t.path <= t.path + [x];
    }
    forall k | k in h0 && !Below(t.path, k) ensures Untouched(h0, h', k) {
      assert Untouched(h0, h, k) && Untouched(h, h', k);
    }
  }

  /** What is still to be merged has not been shared. */
  lemma {:induction false} TodoUnshared(h: Store, t: Node, b: Node, tv: Schema, bv: Schema, todo: set<string>, x: string, k: Node)
    requires Forest(h) && BranchState(h, t, b, tv, bv, todo) && b.path == t.path && x in todo
    requires k in h && k.tree == b.tree && Below(t.path + [x], k)
    ensures !h[k].shared
  {
    assert ChildOk(h, b, x, h[b].properties[x]);
    assert k in Own(h, h[b].properties[x]);
    assert Private(h, k, b.tree);
  }

  lemma {:induction false} FrameStep(h0: Store, h: Store, h': Store, t: Node, b: Node, tv: Schema, bv: Schema, todo: set<string>, x: string)
    requires FrameState(h0, h, t, b) && BranchState(h, t, b, tv, bv, todo) && x in todo && Handled(h, h', t, b, x)
    ensures FrameState(h0, h', t, b)
  {
    forall k | k in h && !h0[k].shared && h[k].shared ensures !Below(t.path + [x], k) {
      if Below(t.path + [x], k) { TodoUnshared(h, t, b, tv, bv, todo, x, k); }
    }
    WritesCompose(h0, h, h', t, b, x);
  }

  lemma {:induction false} HandledKeys(h: Store, h': Store, t: Node, b: Node, x: string)
    requires Handled(h, h', t, b, x)
    ensures t in h' && h'[t].properties.Keys == h[t].properties.Keys + {x}
  {
  }

  lemma {:induction false} TargetStep(h: Store, h': Store, t: Node, b: Node, targets: map<string, Schema>, x: string, s: Schema)
    requires TargetState(h, t, targets) && Handled(h, h', t, b, x) && Reads(h', h'[t].properties[x], s)
    ensures TargetState(h', t, targets[x := s])
  {
    hide *;
    HandledKeys(h, h', t, b, x);
    TargetKeys(h, t, targets);
    forall y | y in targets[x := s] ensures Reads(h', h'[t].properties[y], targets[x := s][y]) {
      if y != x { TargetSibling(h, h', t, b, targets, x, y); }
    }
    TargetIntro(h', t, targets[x := s]);
  }

  lemma {:induction false} TargetKeys(h: Store, t: Node, targets: map<string, Schema>)
    requires TargetState(h, t, targets)
    ensures t in h && h[t].properties.Keys == targets.Keys
  {
    hide Reads;
  }

  lemma {:induction false} TargetIntro(h: Store, t: Node, targets: map<string, Schema>)
    requires t in h && h[t].properties.Keys == targets.Keys
    requires forall y :: y in targets ==> Reads(h, h[t].properties[y], targets[y])
    ensures TargetState(h, t, targets)
  {
    hide Reads;
  }

  lemma {:induction false} TargetSibling(h: Store, h': Store, t: Node, b: Node, targets: map<string, Schema>, x: string, y: string)
    requires TargetState(h, t, targets) && Handled(h, h', t, b, x) && y in targets && y != x
    ensures t in h' && y in h'[t].properties && Reads(h', h'[t].properties[y], targets[y])
  {
    hide Reads;
    HandledSibling(h, h', t, b, x, y, targets[y]);
  }

  lemma {:induction false} TargetsStep(tv: Schema, bv: Schema, todo: set<string>, x: string)
    requires todo <= bv.properties.Keys && x in todo
    ensures x in Targets(tv, bv, todo - {x})
    ensures Targets(tv, bv, todo - {x}) == Targets(tv, bv, todo)[x := Targets(tv, bv, todo - {x})[x]]
  {
  }

  lemma {:induction false} BranchStep(h: Store, h': Store, t: Node, b: Node, tv: Schema, bv: Schema, todo: set<string>, x: string)
    requires BranchState(h, t, b, tv, bv, todo) && x in todo && Handled(h, h', t, b, x)
    requires x in h'[b].properties && LinkedAt(h', b, t, bv, tv, x)
    ensures BranchState(h', t, b, tv, bv, todo - {x})
  {
    assert Untouched(h, h', b);
    assert !Below(t.path + [x], b);
    forall y | y in todo - {x}
      ensures h'[b].properties[y].tree == b.tree && Pristine(h', h'[b].properties[y], bv.properties[y])
    {
      HandledPristine(h, h', t, b, x, y, bv.properties[y]);
    }
    forall y | y in bv.properties && y !in todo - {x} ensures LinkedAt(h', b, t, bv, tv, y) {
      if y != x { HandledLinked(h, h', t, b, bv, tv, x, y); }
    }
  }

  lemma {:induction false} PartwayStep(h0: Store, h: Store, h': Store, t: Node, b: Node, tv: Schema, bv: Schema, todo: set<string>, x: string)
    requires Partway(h0, h, t, b, tv, bv, todo) && x in todo && Handled(h, h', t, b, x)
    requires Reads(h', h'[t].properties[x],
                   if x in tv.properties then MergedProperty(tv.properties[x], bv.properties[x]) else bv.properties[x])
    requires x in h'[b].properties && LinkedAt(h', b, t, bv, tv, x)
    ensures Partway(h0, h', t, b, tv, bv, todo - {x})
  {
    FrameStep(h0, h, h', t, b, tv, bv, todo, x);
    TargetsStep(tv, bv, todo, x);
    TargetStep(h, h', t, b, Targets(tv, bv, todo), x, Targets(tv, bv, todo - {x})[x]);
    BranchStep(h, h', t, b, tv, bv, todo, x);
  }

  // ------------------------------------------------------------------ single writes

  /** Only the keywords and `items` of the node itself were assigned. */
  ghost predicate OnlyHead(h: Store, h': Store, t: Node) {
    && t in h && h.Keys == h'.Keys
    && h'[t] == h[t].(kw := h'[t].kw, items := h'[t].items)
    && forall k :: k in h && k != t ==> h'[k] == h[k]
  }

  lemma {:induction false} HeadWrite(h: Store, h': Store, t: Node)
    requires Forest(h) && OnlyHead(h, h', t) && h[t].shared
    ensures Forest(h') && Grows(h, h')
    ensures forall tree, path :: SharesNone(h, h', tree, path)
  {
    forall n, x | n in h' && x in h'[n].properties ensures ChildOk(h', n, x, h'[n].properties[x]) {
      assert ChildOk(h, n, x, h[n].properties[x]);
    }
  }

  lemma {:induction false} HeadChildren(h: Store, h': Store, t: Node, m: map<string, Schema>)
    requires Forest(h) && OnlyHead(h, h', t) && TargetState(h, t, m)
    ensures TargetState(h', t, m)
  {
    forall x | x in m ensures Reads(h', h'[t].properties[x], m[x]) {
      var c := h[t].properties[x];
      assert ChildOk(h, t, x, c);
      assert !Below(c.path, t);
      ReadsElsewhere(h, h', c, m[x]);
    }
  }

  lemma {:induction false} HeadFirst(h0: Store, h1: Store, h2: Store, t: Node, tree: int)
    requires OnlyHead(h0, h1, t) && h0[t].shared && WritesBelow(h1, h2, t.path, tree)
    ensures WritesBelow(h0, h2, t.path, tree)
  {
    assert Below(t.path, t);
    forall k | k in h0 && k != t ensures h1[k] == h0[k] {}
    forall k, x | k in h0 && x in h0[k].properties
      ensures x in h2[k].properties && h2[k].properties[x] == h0[k].properties[x]
    {
      assert h1[k].properties[x] == h0[k].properties[x];
    }
    forall k | k in h0 && !h0[k].shared ensures Untouched(h0, h2, k) { assert Untouched(h1, h2, k); }
    forall k | k in h0 && !Below(t.path, k) ensures Untouched(h0, h2, k) { assert Untouched(h1, h2, k); }
  }

  lemma {:induction false} HeadLast(h0: Store, h1: Store, h2: Store, t: Node, tree: int)
    requires WritesBelow(h0, h1, t.path, tree) && OnlyHead(h1, h2, t) && h0[t].shared
    ensures WritesBelow(h0, h2, t.path, tree)
  {
    assert Below(t.path, t);
    forall k, x | k in h0 && x in h0[k].properties
      ensures x in h2[k].properties && h2[k].properties[x] == h0[k].properties[x]
    {
      assert h1[k].properties[x] == h0[k].properties[x];
    }
    forall k | k in h0 && !h0[k].shared ensures Untouched(h0, h2, k) { assert Untouched(h0, h1, k); }
    forall k | k in h0 && !Below(t.path, k) ensures Untouched(h0, h2, k) { assert Untouched(h0, h1, k); }
  }

  /** The branch's node was attached to the target, and everything below it became shared. */
  ghost predicate Attached(h: Store, h': Store, t: Node, x: string, c: Node) {
    && t in h && c in h && h.Keys == h'.Keys && t !in Own(h, c)
    && h'[t] == h[t].(properties := h[t].properties[x := c])
    && forall k :: k in h && k != t ==> h'[k] == if k in Own(h, c) then h[k].(shared := true) else h[k]
  }

  lemma {:induction false} AttachForest(h: Store, h': Store, t: Node, b: Node, x: string, c: Node, s: Schema)
    requires Forest(h) && Attached(h, h', t, x, c) && h[t].shared && x !in h[t].properties
    requires c.path == t.path + [x] && Pristine(h, c, s)
    ensures Forest(h')
  {
    assert c in Own(h, c) by { assert c.path <= c.path; }
    forall n, y | n in h' && y in h'[n].properties ensures ChildOk(h', n, y, h'[n].properties[y]) {
      if n != t || y != x {
        var d := h[n].properties[y];
        assert ChildOk(h, n, y, d);
        if n in Own(h, c) {
          assert Private(h, n, c.tree);
          assert c.path <= n.path <= d.path;
          assert d in Own(h, c);
        }
      }
    }
  }

  lemma {:induction false} AttachHandled(h: Store, h': Store, t: Node, b: Node, x: string, c: Node, s: Schema)
    requires Forest(h) && Attached(h, h', t, x, c) && h[t].shared && x !in h[t].properties && b in h && !h[b].shared
    requires b.path == t.path && c.tree == b.tree && c.path == t.path + [x] && Pristine(h, c, s)
    ensures Handled(h, h', t, b, x) && Reads(h', h'[t].properties[x], s)
  {
    AttachForest(h, h', t, b, x, c, s);
    forall k | k in h && Below(c.path, k) ensures Untouched(h, h', k) { assert k.path != t.path; }
    ReadsElsewhere(h, h', c, s);
  }

  lemma {:induction false} MergedHandled(h: Store, h': Store, t: Node, b: Node, x: string)
    requires Forest(h) && Forest(h') && t in h && b in h && h[t].shared && !h[b].shared && b.path == t.path
    requires x in h[t].properties && WritesBelow(h, h', t.path + [x], b.tree)
    ensures Handled(h, h', t, b, x)
  {
    assert !Below(t.path + [x], t);
    assert Untouched(h, h', t);
  }

  lemma {:induction false} AttachStep(h0: Store, h: Store, h': Store, t: Node, b: Node, tv: Schema, bv: Schema, todo: set<string>, x: string, c: Node)
    requires Partway(h0, h, t, b, tv, bv, todo) && x in todo && x !in h[t].properties && c == h[b].properties[x]
    requires Attached(h, h', t, x, c)
    ensures Partway(h0, h', t, b, tv, bv, todo - {x})
  {
    assert ChildOk(h, b, x, c);
    assert h[t].shared;
    AttachHandled(h, h', t, b, x, c, bv.properties[x]);
    assert h'[b].properties == h[b].properties;
    assert LinkedAt(h', b, t, bv, tv, x);
    PartwayStep(h0, h, h', t, b, tv, bv, todo, x);
  }

  /** Both sides have property `x`: the two nodes are at the same path, one shared, the other pristine. */
  lemma {:induction false} BothSides(h0: Store, h: Store, t: Node, b: Node, tv: Schema, bv: Schema, todo: set<string>, x: string)
    requires Partway(h0, h, t, b, tv, bv, todo) && x in todo && x in h[t].properties
    ensures x in tv.properties && Reads(h, h[t].properties[x], tv.properties[x])
    ensures Pristine(h, h[b].properties[x], bv.properties[x]) && h[b].properties[x].tree == b.tree
    ensures h[t].properties[x].path == h[b].properties[x].path == t.path + [x]
    ensures h[t].properties[x] in h && h[b].properties[x] in h && h[h[t].properties[x]].shared
  {
    assert Targets(tv, bv, todo)[x] == tv.properties[x];
    assert ChildOk(h, t, x, h[t].properties[x]) && ChildOk(h, b, x, h[b].properties[x]);
  }

  lemma {:induction false} HandledSelf(h: Store, t: Node, b: Node, x: string)
    requires Forest(h) && t in h && b in h && b.path == t.path && t != b && x in h[t].properties
    ensures Handled(h, h, t, b, x)
  {
  }

  lemma {:induction false} RefusedLink(h: Store, t: Node, b: Node, tv: Schema, bv: Schema, x: string)
    requires t in h && b in h && x in tv.properties && x in bv.properties && x in h[b].properties
    requires PropertyTypesDisagree(tv.properties[x].kw.typ, bv.properties[x].kw.typ)
    requires h[b].properties[x].tree == b.tree && Pristine(h, h[b].properties[x], bv.properties[x])
    ensures LinkedAt(h, b, t, bv, tv, x)
  {
  }

  lemma {:induction false} RefuseStep(h0: Store, h: Store, t: Node, b: Node, tv: Schema, bv: Schema, todo: set<string>, x: string)
    requires Partway(h0, h, t, b, tv, bv, todo) && x in todo && x in h[t].properties && x in tv.properties
    requires PropertyTypesDisagree(tv.properties[x].kw.typ, bv.properties[x].kw.typ)
    ensures Partway(h0, h, t, b, tv, bv, todo - {x})
  {
    BothSides(h0, h, t, b, tv, bv, todo, x);
    HandledSelf(h, t, b, x);
    RefusedLink(h, t, b, tv, bv, x);
    hide Reads, LinkedAt, Handled, Targets, Pristine, Grows, Forest;
    PartwayStep(h0, h, h, t, b, tv, bv, todo, x);
  }

  lemma {:induction false} MergedStep(h0: Store, h: Store, h': Store, t: Node, b: Node, tv: Schema, bv: Schema, todo: set<string>, x: string)
    requires Partway(h0, h, t, b, tv, bv, todo) && x in todo && x in h[t].properties && x in tv.properties
    requires !PropertyTypesDisagree(tv.properties[x].kw.typ, bv.properties[x].kw.typ)
    requires Forest(h') && WritesBelow(h, h', t.path + [x], b.tree)
    requires Reads(h', h[t].properties[x], MergeNode(tv.properties[x], bv.properties[x]))
    requires Linked(h', h[b].properties[x], h[t].properties[x], bv.properties[x], tv.properties[x])
    ensures Partway(h0, h', t, b, tv, bv, todo - {x})
  {
    BothSides(h0, h, t, b, tv, bv, todo, x);
    MergedHandled(h, h', t, b, x);
    assert h'[t].properties[x] == h[t].properties[x] && h'[b].properties[x] == h[b].properties[x];
    assert LinkedAt(h', b, t, bv, tv, x);
    PartwayStep(h0, h, h', t, b, tv, bv, todo, x);
  }

  // ------------------------------------------------------------------ the code

  datatype Conflict =
    | Types(target: JType, branch: JType)
    | PropertyTypes(name: string)
    | Keyword(name: string)

  /** The branch keywords that stop a merge, each reported on its own. */
  method UnmergeableKeywords(b: Node) returns (found: seq<Conflict>)
    ensures found != [] <==>
      b.kw.dependentRequired != map[] || b.shell.dependentSchemas != map[] || b.shell.patternProperties != map[] ||
      b.shell.prefixItems != [] || b.shell.ifSchema.Some? || b.shell.contains.Some? || b.shell.propertyNames.Some?
  {
    found := [];
    if b.kw.dependentRequired != map[] { found := found + [Keyword("dependentRequired")]; }
    if b.shell.dependentSchemas != map[] { found := found + [Keyword("dependentSchemas")]; }
    if b.shell.patternProperties != map[] { found := found + [Keyword("patternProperties")]; }
    if b.shell.prefixItems != [] { found := found + [Keyword("prefixItems")]; }
    if b.shell.ifSchema.Some? { found := found + [Keyword("if")]; }
    if b.shell.contains.Some? { found := found + [Keyword("contains")]; }
    if b.shell.propertyNames.Some? { found := found + [Keyword("propertyNames")]; }
  }

  /** `_merge_into`. */
  method MergeInto(t: Node, b: Node, ghost tv: Schema, ghost bv: Schema, ghost S: set<Node>) returns (conflicts: seq<Conflict>)
    requires t in S && b in S && Forest(Snap(S)) && t.shared && b.path == t.path
    requires Reads(Snap(S), t, tv) && Pristine(Snap(S), b, bv)
    modifies S
    ensures Forest(Snap(S)) && WritesBelow(old(Snap(S)), Snap(S), t.path, b.tree)
    ensures Reads(Snap(S), t, MergeNode(tv, bv))
    ensures Linked(Snap(S), b, t, bv, tv)
    ensures conflicts != [] <==> MergeConflicts(tv, bv)
    ensures conflicts != [] <==> Clashes.Clash(tv, bv)
    decreases bv, 2
  {
    hide Partway, Forest, Reads, Pristine, Linked, WritesBelow, MergeNode, MergeConflicts, Targets, ConflictAt, Clashes.Clash;
    Clashes.MergeClashes(tv, bv);
    conflicts := [];
    ghost var h0 := Snap(S);
    assert h0[t] == Cell(t.kw, t.items, t.properties, t.shared) && h0[b] == Cell(b.kw, b.items, b.properties, b.shared);
    MergeInputs(h0, t, b, tv, bv);
    if b.kw.typ.Some? {
      if t.kw.typ.None? {
        SetType(t, b.kw.typ);
      } else if t.kw.typ != b.kw.typ {
        conflicts := [Types(t.kw.typ.value, b.kw.typ.value)];
        TypeConflictLinks(h0, t, b, tv, bv);
        return;
      }
    }
    ghost var h1 := Snap(S);
    assert OnlyHead(h0, h1, t);
    MergeStart(h0, h1, t, b, tv, bv);
    conflicts := MergeTyped(t, b, tv, bv, h0, S);
  }

  /** The rest of `_merge_into`, once the types agree. */
  method MergeTyped(t: Node, b: Node, ghost tv: Schema, ghost bv: Schema, ghost h0: Store, ghost S: set<Node>)
    returns (conflicts: seq<Conflict>)
    requires t in S && b in S && t != b && Partway(Snap(S), Snap(S), t, b, tv, bv, bv.properties.Keys)
    requires Reads(h0, t, tv) && Reads(h0, b, bv) && !h0[b].shared && h0[t].shared && OnlyHead(h0, Snap(S), t)
    requires t.kw == tv.kw.(typ := First(tv.kw.typ, bv.kw.typ)) && t.items == tv.items
    requires b.shell == bv.(kw := b.shell.kw, items := b.shell.items, properties := b.shell.properties)
    modifies S
    ensures Forest(Snap(S)) && WritesBelow(h0, Snap(S), t.path, b.tree)
    ensures Reads(Snap(S), t, MergeNode(tv, bv))
    ensures Linked(Snap(S), b, t, bv, tv)
    ensures conflicts != [] <==> MergeConflicts(tv, bv)
    decreases bv, 1
  {
    hide Partway, Forest, Reads, Pristine, Linked, WritesBelow, MergeNode, MergeConflicts, Targets, ConflictAt;
    ghost var h1 := Snap(S);
    PartwayKeys(h1, h1, t, b, tv, bv, bv.properties.Keys);
    conflicts := MergeProperties(t, b, tv, bv, S);
    ghost var h2 := Snap(S);
    HeadsKept(h0, h1, h2, t, b, tv, bv);
    assert h2[t] == Cell(t.kw, t.items, t.properties, t.shared) && h2[b] == Cell(b.kw, b.items, b.properties, b.shared);

    var found := MergeHead(t, b);
    conflicts := conflicts + found;
    ghost var h3 := Snap(S);
    assert OnlyHead(h2, h3, t);
    assert h3[t] == Cell(t.kw, t.items, t.properties, t.shared);
    MergeFinish(h0, h1, h2, h3, t, b, tv, bv);
    ConflictsMean(tv, bv);
  }

  lemma {:induction false} HeadsKept(h0: Store, h1: Store, h2: Store, t: Node, b: Node, tv: Schema, bv: Schema)
    requires Reads(h0, t, tv) && Reads(h0, b, bv) && OnlyHead(h0, h1, t) && Partway(h1, h2, t, b, tv, bv, {}) && t != b
    ensures h2[t].kw == h1[t].kw && h2[t].items == h1[t].items
    ensures h2[b].kw == bv.kw && h2[b].items == bv.items
  {
    assert Untouched(h1, h2, b);
  }

  /** Everything `_merge_into` does to the node itself after its loop over the properties. */
  method MergeHead(t: Node, b: Node) returns (found: seq<Conflict>)
    requires t != b
    modifies t`kw, t`items
    ensures t.kw == MergeKeywords(old(t.kw), b.kw).(typ := old(t.kw.typ))
    ensures t.items == First(old(t.items), b.items)
    ensures found != [] <==>
      b.kw.dependentRequired != map[] || b.shell.dependentSchemas != map[] || b.shell.patternProperties != map[] ||
      b.shell.prefixItems != [] || b.shell.ifSchema.Some? || b.shell.contains.Some? || b.shell.propertyNames.Some?
  {
    t.kw := t.kw.(required := SortedNames(t.kw.required + b.kw.required));
    t.kw := t.kw.(enum := MeetEnums(t.kw.enum, b.kw.enum));
    t.kw := t.kw.(bounds := Tighten(t.kw.bounds, b.kw.bounds));
    t.kw := t.kw.(format := First(t.kw.format, b.kw.format),
                  pattern := First(t.kw.pattern, b.kw.pattern),
                  constant := FirstValue(t.kw.constant, b.kw.constant),
                  default := FirstValue(t.kw.default, b.kw.default),
                  example := FirstValue(t.kw.example, b.kw.example));
    if b.items.Some? && t.items.None? { t.items := b.items; }
    found := UnmergeableKeywords(b);
    if b.kw.nullable { t.kw := t.kw.(nullable := t.kw.nullable || b.kw.nullable); }
  }

  lemma {:induction false} MergeInputs(h: Store, t: Node, b: Node, tv: Schema, bv: Schema)
    requires Reads(h, t, tv) && Pristine(h, b, bv) && h[t].shared
    ensures t != b && h[t].kw == tv.kw && h[t].items == tv.items
    ensures Reads(h, b, bv) && !h[b].shared && h[b].kw == bv.kw && h[b].items == bv.items
    ensures b.shell == bv.(kw := b.shell.kw, items := b.shell.items, properties := b.shell.properties)
  {
    assert b in Own(h, b) by { assert b.path <= b.path; }
    assert Private(h, b, b.tree);
  }

  lemma {:induction false} ConflictsMean(tv: Schema, bv: Schema)
    requires !TypesDisagree(tv.kw.typ, bv.kw.typ)
    ensures MergeConflicts(tv, bv) <==> CarriesUnmergeable(bv) || exists x :: x in bv.properties && ConflictAt(tv, bv, x)
  {
  }

  method SetType(t: Node, typ: Option<JType>)
    modifies t`kw
    ensures t.kw == old(t.kw).(typ := typ)
  {
    t.kw := t.kw.(typ := typ);
  }

  lemma {:induction false} TypeConflictLinks(h: Store, t: Node, b: Node, tv: Schema, bv: Schema)
    requires Forest(h) && Reads(h, t, tv) && Pristine(h, b, bv) && TypesDisagree(tv.kw.typ, bv.kw.typ)
    ensures Linked(h, b, t, bv, tv) && WritesBelow(h, h, t.path, b.tree)
    ensures MergeNode(tv, bv) == tv && MergeConflicts(tv, bv)
  {
    assert b in Own(h, b) by { assert b.path <= b.path; }
    assert Private(h, b, b.tree);
    forall x | x in bv.properties ensures LinkedAt(h, b, t, bv, tv, x) { PristineChild(h, b, bv, x); }
  }

  lemma {:induction false} MergeStart(h0: Store, h1: Store, t: Node, b: Node, tv: Schema, bv: Schema)
    requires Forest(h0) && OnlyHead(h0, h1, t) && h0[t].shared && b.path == t.path && !TypesDisagree(tv.kw.typ, bv.kw.typ)
    requires Reads(h0, t, tv) && Pristine(h0, b, bv)
    ensures Partway(h1, h1, t, b, tv, bv, bv.properties.Keys)
  {
    HeadWrite(h0, h1, t);
    PristineStep(h0, h1, b, bv);
    HeadChildren(h0, h1, t, tv.properties);
    PartwayStart(h1, t, b, tv, bv);
  }

  lemma {:induction false} MergedReads(h2: Store, h3: Store, t: Node, tv: Schema, bv: Schema)
    requires Forest(h2) && OnlyHead(h2, h3, t) && TargetState(h2, t, Targets(tv, bv, {}))
    requires t.shell.(kw := tv.kw, items := tv.items, properties := tv.properties) == tv && !TypesDisagree(tv.kw.typ, bv.kw.typ)
    requires h3[t].kw == MergeKeywords(tv.kw, bv.kw) && h3[t].items == First(tv.items, bv.items)
    ensures Reads(h3, t, MergeNode(tv, bv))
  {
    HeadChildren(h2, h3, t, Targets(tv, bv, {}));
    TargetsFinal(tv, bv);
  }

  lemma {:induction false} TargetsFinal(tv: Schema, bv: Schema)
    requires !TypesDisagree(tv.kw.typ, bv.kw.typ)
    ensures MergeNode(tv, bv).properties == Targets(tv, bv, {})
  {
  }

  lemma {:induction false} MergedLinks(h2: Store, h3: Store, t: Node, b: Node, tv: Schema, bv: Schema)
    requires Forest(h2) && OnlyHead(h2, h3, t) && h2[t].shared && BranchState(h2, t, b, tv, bv, {})
    requires h3[b].kw == bv.kw && h3[b].items == bv.items
    requires b.shell.(kw := bv.kw, items := bv.items, properties := bv.properties) == bv
    ensures Linked(h3, b, t, bv, tv)
  {
    HeadWrite(h2, h3, t);
    forall x | x in bv.properties ensures LinkedAt(h3, b, t, bv, tv, x) {
      assert SharesNone(h2, h3, b.tree, b.path + [x]);
      LinkedAtStep(h2, h3, b, t, bv, tv, x);
    }
  }

  lemma {:induction false} MergeFinish(h0: Store, h1: Store, h2: Store, h3: Store, t: Node, b: Node, tv: Schema, bv: Schema)
    requires Reads(h0, t, tv) && Reads(h0, b, bv) && !h0[b].shared
    requires OnlyHead(h0, h1, t) && Partway(h1, h2, t, b, tv, bv, {}) && OnlyHead(h2, h3, t) && h0[t].shared
    requires h3[t].kw == MergeKeywords(tv.kw, bv.kw) && h3[t].items == First(tv.items, bv.items)
    ensures Forest(h3) && WritesBelow(h0, h3, t.path, b.tree)
    ensures Reads(h3, t, MergeNode(tv, bv)) && Linked(h3, b, t, bv, tv)
  {
    HeadFirst(h0, h1, h2, t, b.tree);
    HeadLast(h0, h2, h3, t, b.tree);
    HeadWrite(h2, h3, t);
    assert Untouched(h0, h3, b);
    MergedReads(h2, h3, t, tv, bv);
    MergedLinks(h2, h3, t, b, tv, bv);
  }

  lemma {:induction false} PartwayKeys(h0: Store, h: Store, t: Node, b: Node, tv: Schema, bv: Schema, todo: set<string>)
    requires Partway(h0, h, t, b, tv, bv, todo)
    ensures b in h && h[b].properties.Keys == bv.properties.Keys && !TypesDisagree(tv.kw.typ, bv.kw.typ)
  {
  }

  /** The loop over the branch's properties. */
  method MergeProperties(t: Node, b: Node, ghost tv: Schema, ghost bv: Schema, ghost S: set<Node>) returns (conflicts: seq<Conflict>)
    requires t in S && b in S && Partway(Snap(S), Snap(S), t, b, tv, bv, bv.properties.Keys)
    modifies S
    ensures Partway(old(Snap(S)), Snap(S), t, b, tv, bv, {})
    ensures conflicts != [] <==> exists x :: x in bv.properties && ConflictAt(tv, bv, x)
    decreases bv, 0
  {
    hide Partway;
    conflicts := [];
    ghost var h0 := Snap(S);
    PartwayKeys(h0, h0, t, b, tv, bv, bv.properties.Keys);
    assert h0[b] == Cell(b.kw, b.items, b.properties, b.shared);
    var todo := b.properties.Keys;
    while todo != {}
      invariant todo <= bv.properties.Keys && Partway(h0, Snap(S), t, b, tv, bv, todo)
      invariant conflicts != [] <==> exists x :: x in bv.properties && x !in todo && ConflictAt(tv, bv, x)
    {
      var x :| x in todo;
      var found := MergeProperty(t, b, x, tv, bv, todo, h0, S);
      conflicts := conflicts + found;
      todo := todo - {x};
    }
  }

  /** Attach the branch's property, refuse it, or merge one level down. */
  method MergeProperty(t: Node, b: Node, x: string, ghost tv: Schema, ghost bv: Schema, ghost todo: set<string>, ghost h0: Store, ghost S: set<Node>)
    returns (conflicts: seq<Conflict>)
    requires t in S && b in S && x in todo && todo <= bv.properties.Keys && Partway(h0, Snap(S), t, b, tv, bv, todo)
    modifies S
    ensures Partway(h0, Snap(S), t, b, tv, bv, todo - {x})
    ensures conflicts != [] <==> ConflictAt(tv, bv, x)
    decreases bv, 0, 0
  {
    conflicts := [];
    ghost var h := Snap(S);
    assert h[t] == Cell(t.kw, t.items, t.properties, t.shared) && h[b] == Cell(b.kw, b.items, b.properties, b.shared);
    var child := b.properties[x];
    if x !in t.properties {
      Attach(t, b, x, child, S);
      AttachStep(h0, h, Snap(S), t, b, tv, bv, todo, x, child);
    } else {
      var existing := t.properties[x];
      BothSides(h0, h, t, b, tv, bv, todo, x);
      assert existing.kw == tv.properties[x].kw && child.kw == bv.properties[x].kw;
      if PropertyTypesDisagree(existing.kw.typ, child.kw.typ) {
        conflicts := [PropertyTypes(x)];
        RefuseStep(h0, h, t, b, tv, bv, todo, x);
      } else {
        conflicts := MergeInto(existing, child, tv.properties[x], bv.properties[x], S);
        MergedStep(h0, h, Snap(S), t, b, tv, bv, todo, x);
      }
    }
  }

  /** `target.properties[name] = child`: the branch's own node, not a copy. */
  method Attach(t: Node, ghost b: Node, x: string, child: Node, ghost S: set<Node>)
    requires t in S && child in S && child.path == t.path + [x]
    modifies S
    ensures Attached(old(Snap(S)), Snap(S), t, x, child)
  {
    ghost var own := Own(Snap(S), child);
    assert t !in own;
    t.properties := t.properties[x := child];
    forall k | k in own { k.shared := true; }
  }
}
