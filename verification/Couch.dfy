/** One CouchDB database, and the calls of `couch.rs` the hub makes on it. */
module CouchDb {
  import opened RevTree
  import opened Ancestry

  class Couch {
    var docs: Docs

    ghost predicate Valid()
      reads this
    {
      WfDocs(docs)
    }

    function Doc(q: Path): Tree
      reads this
    {
      DocIn(docs, q)
    }

    /** The winning revision and its `_conflicts`; `None` when the document is absent or deleted. */
    method GetDoc(q: Path) returns (r: Option<(Rev, seq<Rev>)>)
      requires Valid()
      ensures r.None? <==> AliveLeaves(Doc(q)) == {}
      ensures r.Some? ==> r.value.0 == Winner(Doc(q)) && Lists(Doc(q), r.value.1)
    {
      var alive := AliveLeaves(Doc(q));
      if alive == {} {
        return None;
      }
      var win := Winner(Doc(q));
      var todo, conflicts := alive - {win}, [];
      while todo != {}
        invariant Distinct(conflicts) && win !in conflicts && win !in todo
        invariant forall r :: r in conflicts ==> r !in todo
        invariant forall r :: r in conflicts || r in todo || r == win <==> r in alive
        decreases todo
      {
        var x :| x in todo;
        todo, conflicts := todo - {x}, conflicts + [x];
      }
      return Some((win, conflicts));
    }

    /** A revision with its history; `None` when the document has no such revision. */
    method GetDocAtRev(q: Path, rev: Rev) returns (r: Option<(Node, Revisions)>)
      requires Valid()
      ensures r.Some? <==> rev in Doc(q)
      ensures r.Some? ==> r.value == (Doc(q)[rev], RevisionsOf(Doc(q), rev))
    {
      return if rev in Doc(q) then Some((Doc(q)[rev], RevisionsOf(Doc(q), rev))) else None;
    }

    /** `open_revs=all`: every leaf, tombstones included. */
    method GetDocLeaves(q: Path) returns (leaves: seq<Rev>)
      requires Valid()
      ensures Distinct(leaves) && forall r :: r in leaves <==> r in Leaves(Doc(q))
    {
      var todo := Leaves(Doc(q));
      leaves := [];
      while todo != {}
        invariant Distinct(leaves) && forall r :: r in leaves ==> r !in todo
        invariant forall r :: r in leaves || r in todo <==> r in Leaves(Doc(q))
        decreases todo
      {
        var x :| x in todo;
        todo, leaves := todo - {x}, leaves + [x];
      }
    }

    /** A revision id the document does not use. */
    method UnusedRev(q: Path, parent: Option<Rev>) returns (r: Rev)
      requires Valid()
      ensures r !in Doc(q) && r == ChildRev(parent, r.hash)
    {
      ghost var bound := UnusedHash(Doc(q).Keys);
      assert ChildRev(parent, bound).hash == bound;
      var hash: nat :| ChildRev(parent, hash) !in Doc(q);
      r := ChildRev(parent, hash);
    }

    /** `None` is `RevConflict`. */
    method PutDoc(q: Path, base: Option<Rev>, mtime: int, ctype: string) returns (r: Option<Rev>)
      requires Valid()
      modifies this
      ensures Valid() && Grew(old(docs), docs)
      ensures r.Some? <==> old(AcceptsPut(Doc(q), base))
      ensures r.None? ==> docs == old(docs)
      ensures r.Some? ==>
        var node := DocNode(old(PutParent(Doc(q), base)), mtime, ctype);
        old(Fresh(docs, q, r.value, node)) && docs == Added(old(docs), q, r.value, node)
    {
      if !AcceptsPut(Doc(q), base) {
        return None;
      }
      var parent := PutParent(Doc(q), base);
      var rev := UnusedRev(q, parent);
      PutIsGrounded(Doc(q), base, rev.hash);
      AddedGrows(docs, q, rev, DocNode(parent, mtime, ctype));
      docs := Added(docs, q, rev, DocNode(parent, mtime, ctype));
      return Some(rev);
    }

    method PutAttachment(q: Path, on: Rev, bytes: Bytes) returns (r: Option<Rev>)
      requires Valid()
      modifies this
      ensures Valid() && Grew(old(docs), docs)
      ensures r.Some? <==> old(IsLeaf(Doc(q), on))
      ensures r.None? ==> docs == old(docs)
      ensures r.Some? ==>
        var node := AttachedNode(old(Doc(q)), on, bytes);
        old(Fresh(docs, q, r.value, node)) && docs == Added(old(docs), q, r.value, node)
    {
      if !IsLeaf(Doc(q), on) {
        return None;
      }
      var rev := UnusedRev(q, Some(on));
      AddedGrows(docs, q, rev, AttachedNode(Doc(q), on, bytes));
      docs := Added(docs, q, rev, AttachedNode(Doc(q), on, bytes));
      return Some(rev);
    }

    method DeleteDoc(q: Path, on: Rev) returns (r: Option<Rev>)
      requires Valid()
      modifies this
      ensures Valid() && Grew(old(docs), docs)
      ensures r.Some? <==> old(IsLeaf(Doc(q), on))
      ensures r.None? ==> docs == old(docs)
      ensures r.Some? ==>
        old(Fresh(docs, q, r.value, Tombstone(on))) && docs == Added(old(docs), q, r.value, Tombstone(on))
    {
      if !IsLeaf(Doc(q), on) {
        return None;
      }
      var rev := UnusedRev(q, Some(on));
      AddedGrows(docs, q, rev, Tombstone(on));
      docs := Added(docs, q, rev, Tombstone(on));
      return Some(rev);
    }

    /** Inserts a revision verbatim; a revision already present is left alone. */
    method PutRevision(q: Path, rev: Rev, node: Node)
      requires Valid() && Grounded(Doc(q), rev, node.parent)
      modifies this
      ensures Valid() && Grew(old(docs), docs)
      ensures docs == if rev in old(Doc(q)) then old(docs) else Added(old(docs), q, rev, node)
    {
      if rev !in Doc(q) {
        AddedGrows(docs, q, rev, node);
        docs := Added(docs, q, rev, node);
      }
    }
  }
}
