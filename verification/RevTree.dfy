/** The revision tree CouchDB keeps for one document, and the calls the hub makes on it.

    A revision is a generation and an id; ids are named by their rank in CouchDB's own order.
    Nodes are immutable and never pruned: every write adds exactly one node. */
module RevTree {

  newtype byte = x: int | 0 <= x < 256
  type Bytes = seq<byte>
  type Path = string

  datatype Option<+T> = None | Some(value: T)

  datatype Rev = Rev(gen: nat, hash: nat)

  /** `content` is the `content` attachment; a node written by `put_doc` has none yet. */
  datatype Node = Node(parent: Option<Rev>, deleted: bool, mtime: int, ctype: string, content: Option<Bytes>)

  type Tree = map<Rev, Node>

  const OCTET_STREAM := "application/octet-stream"

  /** Parents are present and one generation below; roots are generation 1. */
  ghost predicate Wf(t: Tree) {
    forall r :: r in t ==> Grounded(t, r, t[r].parent)
  }

  ghost predicate Grounded(t: Tree, r: Rev, parent: Option<Rev>) {
    match parent
    case None => r.gen == 1
    case Some(q) => q in t && q.gen + 1 == r.gen
  }

  predicate IsLeaf(t: Tree, r: Rev) {
    r in t && forall c :: c in t ==> t[c].parent != Some(r)
  }

  predicate IsAlive(t: Tree, r: Rev) {
    IsLeaf(t, r) && !t[r].deleted
  }

  function Leaves(t: Tree): set<Rev> {
    set r | r in t && IsLeaf(t, r)
  }

  function AliveLeaves(t: Tree): set<Rev> {
    set r | r in t && IsAlive(t, r)
  }

  /** CouchDB's order among leaves of the same kind: generation, then id. */
  predicate Below(a: Rev, b: Rev) {
    a.gen < b.gen || (a.gen == b.gen && a.hash <= b.hash)
  }

  lemma {:induction false} HasHighest(s: set<Rev>)
    requires s != {}
    ensures exists r :: r in s && forall x :: x in s ==> Below(x, r)
  {
    var a :| a in s;
    if s == {a} {
      assert forall x :: x in s ==> Below(x, a);
    } else {
      assert s - {a} != {};
      HasHighest(s - {a});
      var b :| b in s - {a} && forall x :: x in s - {a} ==> Below(x, b);
      var m := if Below(a, b) then b else a;
      assert forall x :: x in s ==> x == a || x in s - {a};
      assert m in s && forall x :: x in s ==> Below(x, m);
    }
  }

  function Highest(s: set<Rev>): (r: Rev)
    requires s != {}
    ensures r in s && forall x :: x in s ==> Below(x, r)
  {
    HasHighest(s);
    var r :| r in s && forall x :: x in s ==> Below(x, r);
    r
  }

  /** The winning revision of a document that is not deleted. */
  function Winner(t: Tree): Rev
    requires AliveLeaves(t) != {}
  {
    Highest(AliveLeaves(t))
  }

  ghost predicate Distinct(revs: seq<Rev>) {
    forall i, j :: 0 <= i < j < |revs| ==> revs[i] != revs[j]
  }

  /** `_conflicts`: the alive leaves that lost, each once, in any order. */
  ghost predicate Lists(t: Tree, conflicts: seq<Rev>) {
    && AliveLeaves(t) != {}
    && Distinct(conflicts) && Winner(t) !in conflicts
    && forall r :: r in conflicts || r == Winner(t) <==> r in AliveLeaves(t)
  }

  lemma LeafAfterAdd(t: Tree, r: Rev, n: Node, x: Rev)
    requires Wf(t) && r !in t && Grounded(t, r, n.parent)
    ensures if x == r then IsLeaf(t[r := n], x) else IsLeaf(t[r := n], x) <==> IsLeaf(t, x) && n.parent != Some(x)
  {
    var t' := t[r := n];
    assert forall c :: c in t ==> Grounded(t, c, t[c].parent);
    if x != r {
      assert t'[r] == n;
      assert forall c :: c in t ==> t'[c] == t[c];
    }
  }

  /** Adding a node retires its parent as a leaf and nothing else. */
  lemma AliveAfterAdd(t: Tree, r: Rev, n: Node)
    requires Wf(t) && r !in t && Grounded(t, r, n.parent)
    ensures Wf(t[r := n])
    ensures IsLeaf(t[r := n], r)
    ensures forall x :: x != r ==> (IsLeaf(t[r := n], x) <==> IsLeaf(t, x) && n.parent != Some(x))
    ensures AliveLeaves(t[r := n]) ==
      (set x | x in AliveLeaves(t) && n.parent != Some(x)) + if n.deleted then {} else {r}
  {
    LeafAfterAdd(t, r, n, r);
    forall x | x != r ensures IsLeaf(t[r := n], x) <==> IsLeaf(t, x) && n.parent != Some(x) {
      LeafAfterAdd(t, r, n, x);
    }
  }

  lemma {:induction false} DistinctCount(revs: seq<Rev>, s: set<Rev>)
    requires Distinct(revs) && forall r :: r in s <==> r in revs
    ensures |s| == |revs|
  {
    if revs == [] {
      assert s == {};
    } else {
      assert revs == [revs[0]] + revs[1..];
      DistinctCount(revs[1..], s - {revs[0]});
    }
  }

  // ---- the calls ----

  /** `put_doc` is a compare-and-swap: the base must be a current leaf, and with no base the
      document must not exist (or be deleted). */
  predicate AcceptsPut(t: Tree, base: Option<Rev>) {
    match base
    case None => AliveLeaves(t) == {}
    case Some(r) => IsLeaf(t, r)
  }

  /** A write with no base on a deleted document continues its winning tombstone. */
  function PutParent(t: Tree, base: Option<Rev>): Option<Rev> {
    if base == None && Leaves(t) != {} then Some(Highest(Leaves(t))) else base
  }

  function ChildRev(parent: Option<Rev>, hash: nat): Rev {
    match parent
    case None => Rev(1, hash)
    case Some(r) => Rev(r.gen + 1, hash)
  }

  function DocNode(parent: Option<Rev>, mtime: int, ctype: string): Node {
    Node(parent, false, mtime, ctype, None)
  }

  /** `put_attachment` is a second revision on top of the one `put_doc` made. */
  function AttachedNode(t: Tree, on: Rev, bytes: Bytes): Node
    requires on in t
  {
    Node(Some(on), false, t[on].mtime, t[on].ctype, Some(bytes))
  }

  function Tombstone(on: Rev): Node {
    Node(Some(on), true, 0, OCTET_STREAM, None)
  }

  /** An accepted `put_doc` always has a place in the tree. */
  lemma PutIsGrounded(t: Tree, base: Option<Rev>, hash: nat)
    requires Wf(t) && AcceptsPut(t, base)
    ensures var parent := PutParent(t, base); Grounded(t, ChildRev(parent, hash), parent)
    ensures base.Some? ==> PutParent(t, base) == base
    ensures base.None? && Leaves(t) == {} ==> PutParent(t, base) == None
    ensures base.None? && Leaves(t) != {} ==>
      && PutParent(t, base).Some? && IsLeaf(t, PutParent(t, base).value) && t[PutParent(t, base).value].deleted
      && forall x :: IsLeaf(t, x) ==> Below(x, PutParent(t, base).value)
  {
    if base == None && Leaves(t) != {} {
      var h := Highest(Leaves(t));
      assert h in Leaves(t) && h !in AliveLeaves(t);
      forall x | IsLeaf(t, x) ensures Below(x, h) {
        assert x in Leaves(t);
      }
    }
  }

  /** There is always an id CouchDB has not used yet. */
  lemma {:induction false} UnusedHash(s: set<Rev>) returns (bound: nat)
    ensures forall r :: r in s ==> r.hash < bound
  {
    if s == {} {
      bound := 0;
    } else {
      var a :| a in s;
      var b := UnusedHash(s - {a});
      bound := if b <= a.hash then a.hash + 1 else b;
      assert forall r :: r in s ==> r == a || r in s - {a};
    }
  }

  // ---- growth ----

  ghost predicate Extends(t: Tree, t': Tree) {
    forall r :: r in t ==> r in t' && t'[r] == t[r]
  }

  /** The ancestry of `r`, newest first (`revs=true`). */
  function History(t: Tree, r: Rev): (h: seq<Rev>)
    requires Wf(t) && r in t
    ensures |h| == r.gen && h[0] == r
    ensures forall i :: 0 <= i < |h| ==> h[i] in t && h[i].gen == r.gen - i
    decreases r.gen
  {
    assert Grounded(t, r, t[r].parent);
    match t[r].parent
    case None => [r]
    case Some(q) =>
      assert q.gen >= 1 by { assert Grounded(t, q, t[q].parent); }
      [r] + History(t, q)
  }

  lemma {:induction false} HistoryStable(t: Tree, t': Tree, r: Rev)
    requires Wf(t) && Wf(t') && Extends(t, t') && r in t
    ensures History(t, r) == History(t', r)
    decreases r.gen
  {
    assert Grounded(t, r, t[r].parent);
    match t[r].parent
    case None =>
    case Some(q) => HistoryStable(t, t', q);
  }

  // ---- a database of trees ----

  type Docs = map<Path, Tree>

  function DocIn(docs: Docs, q: Path): Tree {
    if q in docs then docs[q] else map[]
  }

  ghost predicate WfDocs(docs: Docs) {
    forall q :: q in docs ==> Wf(docs[q])
  }

  ghost predicate Grew(docs: Docs, docs': Docs) {
    forall q :: Extends(DocIn(docs, q), DocIn(docs', q))
  }

  /** `docs` with one more node on document `q`. */
  function Added(docs: Docs, q: Path, r: Rev, n: Node): Docs {
    docs[q := DocIn(docs, q)[r := n]]
  }

  ghost predicate Fresh(docs: Docs, q: Path, r: Rev, n: Node) {
    r !in DocIn(docs, q) && Grounded(DocIn(docs, q), r, n.parent)
  }

  lemma AddedGrows(docs: Docs, q: Path, r: Rev, n: Node)
    requires WfDocs(docs) && Fresh(docs, q, r, n)
    ensures WfDocs(Added(docs, q, r, n)) && Grew(docs, Added(docs, q, r, n))
  {
    AliveAfterAdd(DocIn(docs, q), r, n);
  }
}
