/** `resolver.rs` with no other writer: the retry loop, the plan carried out, the copy names. */
module Resolver {
  import opened RevTree
  import opened Planning
  import opened CopyNames
  import opened CouchDb

  datatype Applied = Written(names: seq<Path>) | CasConflict

  datatype Resolution =
    | NoConflict
    | Resolved(kind: Kind, copies: seq<Path>)
    | MissingContent
    | MaxRetries

  // ---- what carrying out a plan means ----

  /** The document is exactly one alive leaf, holding `c`. */
  ghost predicate OnlyHolds(t: Tree, c: Copy) {
    exists a :: AliveLeaves(t) == {a} && Holds(t, a, c)
  }

  /** `copy` is stored under `name`, a free copy name of `path`. */
  ghost predicate CopyStored(docs: Docs, docs': Docs, path: Path, name: Path, copy: Copy) {
    IsCopyName(path, name) && AliveLeaves(DocIn(docs, name)) == {} && OnlyHolds(DocIn(docs', name), copy)
  }

  /** The first `|names|` copies are stored, each under its own free copy name, and nothing else changed. */
  ghost predicate CopiesStored(docs: Docs, docs': Docs, path: Path, plan: Plan, names: seq<Path>) {
    && |names| <= |plan.copies|
    && (forall i, j :: 0 <= i < j < |names| ==> names[i] != names[j])
    && (forall i :: 0 <= i < |names| ==> CopyStored(docs, docs', path, names[i], plan.copies[i]))
    && (forall q :: q !in names ==> DocIn(docs', q) == DocIn(docs, q))
  }

  /** The winner and the losers are leaves, and there is no other alive leaf. */
  ghost predicate Ready(t: Tree, plan: Plan) {
    && plan.finalContent.Some? && PlanShape(plan) && Uncontested(t, plan)
    && forall r :: r in AliveLeaves(t) ==> r == plan.winnerRev || r in plan.loserRevs
  }

  /** One alive leaf is left, two revisions above the winner, with what the plan decided. */
  ghost predicate ResultStored(t: Tree, t': Tree, plan: Plan) {
    exists y :: AliveLeaves(t') == {y} && y.gen == plan.winnerRev.gen + 2 && y !in t
             && plan.finalContent.Some? && Holds(t', y, Copy(plan.finalContent.value, plan.finalMtime, plan.finalCtype))
  }

  ghost predicate CarriedOut(docs: Docs, docs': Docs, path: Path, plan: Plan, names: seq<Path>) {
    && Grew(docs, docs') && |names| == |plan.copies|
    && CopiesStored(docs, docs'[path := DocIn(docs, path)], path, plan, names)
    && ResultStored(DocIn(docs, path), DocIn(docs', path), plan)
  }

  // ---- the copies ----

  /** `conflict_copy_path`: the first candidate with no live document. At most as many candidates are
      probed as there are documents, and one more. */
  method ConflictCopyPath(couch: Couch, base: Path, today: string) returns (name: Path)
    requires couch.Valid()
    ensures IsCopyName(base, name) && AliveLeaves(couch.Doc(name)) == {}
    ensures exists n :: 0 <= n <= |couch.docs| && name == Candidate(base, today, n)
                     && forall k :: 0 <= k < n ==> AliveLeaves(couch.Doc(Candidate(base, today, k))) != {}
  {
    var n := 0;
    while true
      invariant 0 <= n <= |couch.docs|
      invariant forall k :: 0 <= k < n ==> AliveLeaves(couch.Doc(Candidate(base, today, k))) != {}
      decreases |couch.docs| - n
    {
      name := Candidate(base, today, n);
      var found := couch.GetDoc(name);
      if found.None? {
        return;
      }
      forall k | 0 <= k < n + 1 ensures Candidate(base, today, k) in couch.docs.Keys {
        assert AliveLeaves(couch.Doc(Candidate(base, today, k))) != {};
      }
      ProbesAreBounded(base, today, couch.docs.Keys, n + 1);
      n := n + 1;
    }
  }

  lemma DocThenAttachment(docs: Docs, q: Path, d: Rev, n: Node, a: Rev, bytes: Bytes)
    requires WfDocs(docs) && Fresh(docs, q, d, n) && !n.deleted
    requires var docs1 := Added(docs, q, d, n);
             Fresh(docs1, q, a, AttachedNode(DocIn(docs1, q), d, bytes))
    ensures var docs1 := Added(docs, q, d, n);
            var docs2 := Added(docs1, q, a, AttachedNode(DocIn(docs1, q), d, bytes));
            && IsLeaf(DocIn(docs1, q), d)
            && AliveLeaves(DocIn(docs2, q)) == (set x | x in AliveLeaves(DocIn(docs, q)) && n.parent != Some(x)) + {a}
            && Holds(DocIn(docs2, q), a, Copy(bytes, n.mtime, n.ctype))
            && (forall x :: IsLeaf(DocIn(docs, q), x) && n.parent != Some(x) ==> IsLeaf(DocIn(docs2, q), x))
            && a !in DocIn(docs, q) && a.gen == d.gen + 1
            && (forall p :: p != q ==> DocIn(docs2, p) == DocIn(docs, p))
  {
    var docs1 := Added(docs, q, d, n);
    AliveAfterAdd(DocIn(docs, q), d, n);
    AliveAfterAdd(DocIn(docs1, q), a, AttachedNode(DocIn(docs1, q), d, bytes));
  }

  method WriteCopy(couch: Couch, path: Path, copy: Copy) returns (r: Option<Path>)
    requires couch.Valid()
    modifies couch
    ensures couch.Valid() && Grew(old(couch.docs), couch.docs)
    ensures r.Some?
    ensures IsCopyName(path, r.value) && old(AliveLeaves(couch.Doc(r.value))) == {}
    ensures OnlyHolds(couch.Doc(r.value), copy)
    ensures forall q :: q != r.value ==> DocIn(couch.docs, q) == DocIn(old(couch.docs), q)
  {
    var today: string := *;
    var name := ConflictCopyPath(couch, path, today);
    var doc := couch.PutDoc(name, None, copy.mtime, copy.ctype);
    if doc.None? {
      return None;
    }
    ghost var docs, docs1 := old(couch.docs), couch.docs;
    AliveAfterAdd(DocIn(docs, name), doc.value, DocIn(docs1, name)[doc.value]);
    var att := couch.PutAttachment(name, doc.value, copy.content);
    if att.None? {
      return None;
    }
    FreeNameHolds(docs, name, doc.value, DocIn(docs1, name)[doc.value], att.value, copy);
    return Some(name);
  }

  lemma FreeNameHolds(docs: Docs, name: Path, d: Rev, n: Node, a: Rev, copy: Copy)
    requires WfDocs(docs) && AliveLeaves(DocIn(docs, name)) == {}
    requires Fresh(docs, name, d, n) && !n.deleted && n.mtime == copy.mtime && n.ctype == copy.ctype
    requires var docs1 := Added(docs, name, d, n);
             Fresh(docs1, name, a, AttachedNode(DocIn(docs1, name), d, copy.content))
    ensures var docs1 := Added(docs, name, d, n);
            var docs2 := Added(docs1, name, a, AttachedNode(DocIn(docs1, name), d, copy.content));
            OnlyHolds(DocIn(docs2, name), copy) && forall q :: q != name ==> DocIn(docs2, q) == DocIn(docs, q)
  {
    DocThenAttachment(docs, name, d, n, a, copy.content);
    var docs1 := Added(docs, name, d, n);
    var docs2 := Added(docs1, name, a, AttachedNode(DocIn(docs1, name), d, copy.content));
    assert AliveLeaves(DocIn(docs2, name)) == {a};
  }

  /** The copies of a plan, in order; the names they got. */
  method WriteCopies(couch: Couch, path: Path, plan: Plan) returns (r: Option<seq<Path>>)
    requires couch.Valid()
    modifies couch
    ensures couch.Valid() && Grew(old(couch.docs), couch.docs)
    ensures r.Some? && |r.value| == |plan.copies|
    ensures CopiesStored(old(couch.docs), couch.docs, path, plan, r.value)
  {
    var names: seq<Path> := [];
    for i := 0 to |plan.copies|
      invariant couch.Valid() && Grew(old(couch.docs), couch.docs) && |names| == i
      invariant CopiesStored(old(couch.docs), couch.docs, path, plan, names)
    {
      ghost var docs := couch.docs;
      var name := WriteCopy(couch, path, plan.copies[i]);
      if name.None? {
        return None;
      }
      OneMoreCopy(old(couch.docs), docs, couch.docs, path, plan, names, name.value);
      names := names + [name.value];
    }
    return Some(names);
  }

  lemma OneMoreCopy(docs: Docs, mid: Docs, docs': Docs, path: Path, plan: Plan, names: seq<Path>, name: Path)
    requires CopiesStored(docs, mid, path, plan, names) && |names| < |plan.copies|
    requires IsCopyName(path, name) && AliveLeaves(DocIn(mid, name)) == {}
    requires OnlyHolds(DocIn(docs', name), plan.copies[|names|])
    requires forall q :: q != name ==> DocIn(docs', q) == DocIn(mid, q)
    ensures CopiesStored(docs, docs', path, plan, names + [name])
  {
    forall i | 0 <= i < |names| ensures names[i] != name && CopyStored(docs, docs', path, names[i], plan.copies[i]) {
      assert CopyStored(docs, mid, path, names[i], plan.copies[i]);
    }
    assert DocIn(mid, name) == DocIn(docs, name);
  }

  // ---- the result and the losers ----

  /** After the result is written: one new alive leaf, the losers untouched. */
  ghost predicate ResultIn(t: Tree, t': Tree, plan: Plan, y: Rev) {
    && Wf(t') && plan.finalContent.Some? && y !in t && y.gen == plan.winnerRev.gen + 2
    && Holds(t', y, Copy(plan.finalContent.value, plan.finalMtime, plan.finalCtype))
  }

  method WriteResult(couch: Couch, path: Path, plan: Plan) returns (r: Option<Rev>)
    requires couch.Valid() && plan.finalContent.Some?
    modifies couch
    ensures couch.Valid() && Grew(old(couch.docs), couch.docs)
    ensures forall q :: q != path ==> DocIn(couch.docs, q) == DocIn(old(couch.docs), q)
    ensures old(Ready(couch.Doc(path), plan)) ==>
      && r.Some? && ResultIn(old(couch.Doc(path)), couch.Doc(path), plan, r.value)
      && AliveLeaves(couch.Doc(path)) == (set x | x in old(AliveLeaves(couch.Doc(path))) && x != plan.winnerRev) + {r.value}
      && AllLeaves(couch.Doc(path), plan.loserRevs) && r.value !in plan.loserRevs
  {
    var doc := couch.PutDoc(path, Some(plan.winnerRev), plan.finalMtime, plan.finalCtype);
    if doc.None? {
      return None;
    }
    AliveAfterAdd(old(couch.Doc(path)), doc.value, couch.Doc(path)[doc.value]);
    ghost var docs1 := couch.docs;
    var att := couch.PutAttachment(path, doc.value, plan.finalContent.value);
    if att.None? {
      return None;
    }
    DocThenAttachment(old(couch.docs), path, doc.value, DocIn(docs1, path)[doc.value], att.value, plan.finalContent.value);
    if old(Ready(couch.Doc(path), plan)) {
      assert forall x :: x in plan.loserRevs ==> old(IsLeaf(couch.Doc(path), x)) && x != plan.winnerRev;
    }
    return att;
  }

  /** `rest` are leaves, and all that is alive beside `keep`. */
  ghost predicate Doomed(t: Tree, rest: seq<Rev>, keep: Rev)
    requires Wf(t)
  {
    && AllLeaves(t, rest) && Distinct(rest) && keep !in rest && keep in AliveLeaves(t)
    && forall x :: x in AliveLeaves(t) ==> x == keep || x in rest
  }

  /** Tombstones on every loser, in order. */
  method DeleteLosers(couch: Couch, path: Path, losers: seq<Rev>, ghost keep: Rev) returns (ok: bool)
    requires couch.Valid()
    modifies couch
    ensures couch.Valid() && Grew(old(couch.docs), couch.docs)
    ensures forall q :: q != path ==> DocIn(couch.docs, q) == DocIn(old(couch.docs), q)
    ensures old(Doomed(couch.Doc(path), losers, keep)) ==> ok && AliveLeaves(couch.Doc(path)) == {keep}
  {
    ghost var doomed := Doomed(couch.Doc(path), losers, keep);
    for i := 0 to |losers|
      invariant couch.Valid() && Grew(old(couch.docs), couch.docs)
      invariant forall q :: q != path ==> DocIn(couch.docs, q) == DocIn(old(couch.docs), q)
      invariant doomed ==> Doomed(couch.Doc(path), losers[i..], keep)
    {
      ghost var t := couch.Doc(path);
      assert losers[i] == losers[i..][0] && losers[i + 1..] == losers[i..][1..];
      assert doomed ==> IsLeaf(t, losers[i]);
      var r := couch.DeleteDoc(path, losers[i]);
      if r.None? {
        return false;
      }
      if doomed {
        TombstoneOne(t, r.value, losers[i..], keep);
      }
    }
    return true;
  }

  lemma TombstoneOne(t: Tree, r: Rev, rest: seq<Rev>, keep: Rev)
    requires Wf(t) && rest != [] && Doomed(t, rest, keep) && r !in t && r.gen == rest[0].gen + 1
    ensures Wf(t[r := Tombstone(rest[0])]) && Doomed(t[r := Tombstone(rest[0])], rest[1..], keep)
  {
    assert IsLeaf(t, rest[0]);
    AliveAfterAdd(t, r, Tombstone(rest[0]));
    var t' := t[r := Tombstone(rest[0])];
    forall k | 0 <= k < |rest| - 1 ensures IsLeaf(t', rest[1..][k]) {
      assert rest[1..][k] == rest[k + 1] != rest[0];
      assert IsLeaf(t, rest[k + 1]);
    }
  }

  /** `apply_plan`. Undisturbed, on a document that is still as planned, it always completes. */
  method ApplyPlan(couch: Couch, path: Path, plan: Plan) returns (r: Applied)
    requires couch.Valid()
    modifies couch
    ensures couch.Valid() && Grew(old(couch.docs), couch.docs)
    ensures old(Ready(couch.Doc(path), plan)) ==>
      r.Written? && CarriedOut(old(couch.docs), couch.docs, path, plan, r.names)
  {
    var copied := WriteCopies(couch, path, plan);
    if copied.None? {
      return CasConflict;
    }
    ghost var docs1 := couch.docs;
    OwnDocUntouched(old(couch.docs), docs1, path, plan, copied.value);
    ghost var keep := plan.winnerRev;
    if plan.finalContent.Some? {
      var y := WriteResult(couch, path, plan);
      if y.None? {
        return CasConflict;
      }
      keep := y.value;
    }
    ghost var t2 := couch.Doc(path);
    var ok := DeleteLosers(couch, path, plan.loserRevs, keep);
    if !ok {
      return CasConflict;
    }
    if Ready(DocIn(old(couch.docs), path), plan) {
      PlanCarriedOut(old(couch.docs), docs1, t2, couch.docs, path, plan, copied.value, keep);
    }
    return Written(copied.value);
  }

  lemma PlanCarriedOut(docs: Docs, docs1: Docs, t2: Tree, docs': Docs, path: Path, plan: Plan, names: seq<Path>, y: Rev)
    requires Grew(docs, docs') && |names| == |plan.copies| && CopiesStored(docs, docs1, path, plan, names)
    requires forall q :: q != path ==> DocIn(docs', q) == DocIn(docs1, q)
    requires ResultIn(DocIn(docs, path), t2, plan, y) && Extends(t2, DocIn(docs', path))
    requires AliveLeaves(DocIn(docs', path)) == {y}
    ensures CarriedOut(docs, docs', path, plan, names)
  {
    assert Holds(DocIn(docs', path), y, Copy(plan.finalContent.value, plan.finalMtime, plan.finalCtype));
    OnlyCopiesElsewhere(docs, docs1, docs', path, plan, names);
  }

  lemma OwnDocUntouched(docs: Docs, docs': Docs, path: Path, plan: Plan, names: seq<Path>)
    requires CopiesStored(docs, docs', path, plan, names)
    ensures DocIn(docs', path) == DocIn(docs, path)
  {
    if path in names {
      CopyNameDiffers(path, path);
    }
  }

  lemma OnlyCopiesElsewhere(docs: Docs, mid: Docs, docs': Docs, path: Path, plan: Plan, names: seq<Path>)
    requires CopiesStored(docs, mid, path, plan, names)
    requires forall q :: q != path ==> DocIn(docs', q) == DocIn(mid, q)
    ensures CopiesStored(docs, docs'[path := DocIn(docs, path)], path, plan, names)
  {
    OwnDocUntouched(docs, mid, path, plan, names);
    var out := docs'[path := DocIn(docs, path)];
    assert forall q :: DocIn(out, q) == DocIn(mid, q);
  }

  // ---- the whole of `resolve` ----

  ghost predicate AtMostOneAlive(t: Tree) {
    forall a, b :: a in AliveLeaves(t) && b in AliveLeaves(t) ==> a == b
  }

  ghost predicate AllReadable(t: Tree) {
    forall r :: r in AliveLeaves(t) ==> t[r].content.Some?
  }

  ghost predicate ReadAs(t: Tree, revs: seq<Rev>, leaves: seq<Leaf>)
    requires Wf(t)
  {
    |leaves| == |revs| && ReadSoFar(t, revs, leaves)
  }

  /** `plan` is what `plan_resolution` makes of the alive leaves of `t`, in some listing order. */
  ghost predicate Planned(merge: Merge, t: Tree, plan: Plan)
    requires Wf(t)
  {
    exists conflicts, leaves ::
      && Lists(t, conflicts) && ReadAs(t, [Winner(t)] + conflicts, leaves)
      && PlanResolution(leaves, Winner(t), LookupIn(t), merge) == Some(plan)
  }

  /** `plan` was made from `docs` and carried out, giving `docs'`. */
  ghost predicate Executed(merge: Merge, docs: Docs, docs': Docs, path: Path, plan: Plan, names: seq<Path>)
    requires WfDocs(docs)
  {
    Planned(merge, DocIn(docs, path), plan) && CarriedOut(docs, docs', path, plan, names)
  }

  /** The effect of an undisturbed `resolve`. */
  ghost predicate Resolves(merge: Merge, docs: Docs, docs': Docs, path: Path, res: Resolution)
    requires WfDocs(docs)
  {
    var t := DocIn(docs, path);
    match res
    case NoConflict => docs' == docs && AtMostOneAlive(t)
    case MissingContent => docs' == docs && !AtMostOneAlive(t) && !AllReadable(t)
    case MaxRetries => false
    case Resolved(kind, copies) =>
      && !AtMostOneAlive(t) && AllReadable(t)
      && exists plan: Plan :: plan.kind == kind && Executed(merge, docs, docs', path, plan, copies)
  }

  method FetchLeaves(couch: Couch, path: Path, revs: seq<Rev>) returns (r: Option<seq<Leaf>>)
    requires couch.Valid()
    ensures r.Some? ==> ReadAs(couch.Doc(path), revs, r.value)
    ensures r.None? ==> exists x :: x in revs && ReadLeaf(couch.Doc(path), x).None?
  {
    var leaves: seq<Leaf> := [];
    for i := 0 to |revs|
      invariant ReadAs(couch.Doc(path), revs[..i], leaves)
    {
      var leaf := ReadLeaf(couch.Doc(path), revs[i]);
      if leaf.None? {
        assert revs[i] in revs;
        return None;
      }
      leaves := leaves + [leaf.value];
    }
    assert revs[..|revs|] == revs;
    return Some(leaves);
  }

  lemma ListedLeaves(t: Tree, conflicts: seq<Rev>, leaves: seq<Leaf>)
    requires Wf(t) && Lists(t, conflicts) && ReadAs(t, [Winner(t)] + conflicts, leaves)
    ensures DistinctRevs(leaves) && |leaves| > 0 && leaves[0].rev == Winner(t)
    ensures forall l :: l in leaves ==> !l.deleted && l.rev in AliveLeaves(t)
    ensures forall r :: r in AliveLeaves(t) ==> exists l :: l in leaves && l.rev == r
  {
    var revs := [Winner(t)] + conflicts;
    forall i | 0 <= i < |leaves| ensures leaves[i].rev == revs[i] && !leaves[i].deleted && revs[i] in AliveLeaves(t) {
      assert ReadLeaf(t, revs[i]) == Some(leaves[i]);
      assert revs[i] in revs;
    }
    forall r | r in AliveLeaves(t) ensures exists l :: l in leaves && l.rev == r {
      assert r in revs;
      var i :| 0 <= i < |revs| && revs[i] == r;
      assert leaves[i] in leaves;
    }
  }

  /** A plan made from the current alive leaves finds every one of them still in place. */
  lemma PlannedIsReady(merge: Merge, t: Tree, conflicts: seq<Rev>, leaves: seq<Leaf>)
    requires Wf(t) && Lists(t, conflicts) && ReadAs(t, [Winner(t)] + conflicts, leaves)
    ensures var plan := PlanResolution(leaves, Winner(t), LookupIn(t), merge);
            plan.Some? && plan.value.winnerRev == Winner(t) && Ready(t, plan.value)
  {
    ListedLeaves(t, conflicts, leaves);
    AlivePlanWrites(leaves, LookupIn(t), merge);
    var plan := PlanResolution(leaves, Winner(t), LookupIn(t), merge).value;
    assert Winner(t) in AliveLeaves(t);
    forall r | r in plan.loserRevs ensures r in AliveLeaves(t) {
      var l :| l in leaves && l.rev == r;
    }
  }

  lemma AliveCount(t: Tree, conflicts: seq<Rev>)
    requires Lists(t, conflicts)
    ensures |AliveLeaves(t)| == 1 + |conflicts|
  {
    DistinctCount([Winner(t)] + conflicts, AliveLeaves(t));
  }

  lemma SeveralAlive(t: Tree, conflicts: seq<Rev>)
    requires Lists(t, conflicts)
    ensures AtMostOneAlive(t) <==> conflicts == []
  {
    if conflicts != [] {
      assert conflicts[0] in conflicts;
      assert conflicts[0] in AliveLeaves(t) && Winner(t) in AliveLeaves(t);
    }
  }

  lemma ReadableOrNot(t: Tree, conflicts: seq<Rev>, fetched: Option<seq<Leaf>>)
    requires Wf(t) && Lists(t, conflicts)
    requires var revs := [Winner(t)] + conflicts;
             match fetched
             case Some(leaves) => ReadAs(t, revs, leaves)
             case None => exists x :: x in revs && ReadLeaf(t, x).None?
    ensures AllReadable(t) <==> fetched.Some?
  {
    var revs := [Winner(t)] + conflicts;
    if fetched.Some? {
      forall r | r in AliveLeaves(t) ensures t[r].content.Some? {
        assert r in revs;
        var i :| 0 <= i < |revs| && revs[i] == r;
        assert ReadLeaf(t, revs[i]) == Some(fetched.value[i]);
      }
    } else {
      var x :| x in revs && ReadLeaf(t, x).None?;
      assert x in AliveLeaves(t);
    }
  }

  /** `resolve`. */
  method Resolve(couch: Couch, merge: Merge, path: Path) returns (res: Resolution)
    requires couch.Valid()
    modifies couch
    ensures couch.Valid() && Grew(old(couch.docs), couch.docs)
    ensures Resolves(merge, old(couch.docs), couch.docs, path, res)
  {
    for attempt := 0 to MAX_RETRIES
      invariant attempt == 0 && couch.docs == old(couch.docs)
    {
      ghost var t := couch.Doc(path);
      var found := couch.GetDoc(path);
      if found.None? {
        res := ResolveDeleteWinner(couch, path);
        return;
      }
      var (winner, conflicts) := found.value;
      SeveralAlive(t, conflicts);
      if conflicts == [] {
        return NoConflict;
      }
      var leaves := FetchLeaves(couch, path, [winner] + conflicts);
      ReadableOrNot(t, conflicts, leaves);
      if leaves.None? {
        return MissingContent;
      }
      PlannedIsReady(merge, t, conflicts, leaves.value);
      var plan := PlanResolution(leaves.value, winner, LookupIn(couch.Doc(path)), merge);
      assert Planned(merge, t, plan.value);
      var applied := ApplyPlan(couch, path, plan.value);
      assert applied.Written? ==> Executed(merge, old(couch.docs), couch.docs, path, plan.value, applied.names);
      match applied
      case Written(names) => return Resolved(plan.value.kind, names);
      case CasConflict =>
    }
    return MaxRetries;
  }

  /** `max_by_key` keeps the last of equal elements. */
  function LastByMtime(s: seq<Leaf>): (l: Leaf)
    requires s != []
    ensures l in s && forall x :: x in s ==> x.mtime <= l.mtime
  {
    if |s| == 1 then s[0] else
      var best := LastByMtime(s[1..]);
      if best.mtime >= s[0].mtime then best else s[0]
  }

  function LastByGeneration(s: seq<Leaf>): (l: Leaf)
    requires s != []
    ensures l in s && forall x :: x in s ==> x.rev.gen <= l.rev.gen
  {
    if |s| == 1 then s[0] else
      var best := LastByGeneration(s[1..]);
      if best.rev.gen >= s[0].rev.gen then best else s[0]
  }

  /** Both an edit and a tombstone are among the leaves. */
  ghost predicate Mixed(t: Tree) {
    AliveLeaves(t) != {} && exists d :: d in Leaves(t) && t[d].deleted
  }

  /** The newest of the alive leaves' contents, with its mtime and type, is all that is left. */
  ghost predicate NewestEditWon(t: Tree, t': Tree) {
    exists e :: e in AliveLeaves(t) && HasContent(t, e) && OnlyHolds(t', NodeCopy(t[e]))
             && forall x :: x in AliveLeaves(t) ==> t[x].mtime <= t[e].mtime
  }

  /** The effect of an undisturbed `resolve_delete_winner`. */
  ghost predicate EditsWin(docs: Docs, docs': Docs, path: Path, res: Resolution) {
    var t := DocIn(docs, path);
    if |Leaves(t)| < 2 then res == NoConflict && docs' == docs
    else if !AllReadable(t) then res == MissingContent && docs' == docs
    else if !Mixed(t) then res == NoConflict && docs' == docs
    else
      && res == Resolved(EditWon, []) && NewestEditWon(t, DocIn(docs', path))
      && forall q :: q != path ==> DocIn(docs', q) == DocIn(docs, q)
  }

  function DeleteWinnerPlan(leaves: seq<Leaf>, edit: Leaf, base: Leaf): Plan {
    Plan(EditWon, base.rev, Some(edit.content), edit.mtime, edit.ctype, [], RevsOf(Filter(IsNotRev(base.rev), leaves)))
  }

  lemma LeavesRead(t: Tree, revs: seq<Rev>, leaves: seq<Leaf>)
    requires Wf(t) && Distinct(revs) && (forall r :: r in revs <==> r in Leaves(t)) && ReadAs(t, revs, leaves)
    ensures DistinctRevs(leaves)
    ensures forall l :: l in leaves ==>
      l.rev in Leaves(t) && l.deleted == t[l.rev].deleted && (!l.deleted ==> HasContent(t, l.rev) && CopyOf(l) == NodeCopy(t[l.rev]))
    ensures forall r :: r in Leaves(t) ==> exists l :: l in leaves && l.rev == r
  {
    forall i | 0 <= i < |leaves|
      ensures leaves[i].rev == revs[i] && revs[i] in Leaves(t) && leaves[i].deleted == t[revs[i]].deleted
      ensures !leaves[i].deleted ==> HasContent(t, revs[i]) && CopyOf(leaves[i]) == NodeCopy(t[revs[i]])
    {
      assert ReadLeaf(t, revs[i]) == Some(leaves[i]);
      assert revs[i] in revs;
    }
    forall r | r in Leaves(t) ensures exists l :: l in leaves && l.rev == r {
      var i :| 0 <= i < |revs| && revs[i] == r;
      assert leaves[i] in leaves;
    }
  }

  lemma MixedByLists(t: Tree, revs: seq<Rev>, leaves: seq<Leaf>)
    requires Wf(t) && Distinct(revs) && (forall r :: r in revs <==> r in Leaves(t)) && ReadAs(t, revs, leaves)
    ensures Mixed(t) <==> Filter(NotDeleted, leaves) != [] && Filter(Deleted, leaves) != []
  {
    LeavesRead(t, revs, leaves);
    if Mixed(t) {
      var a :| a in AliveLeaves(t);
      var d :| d in Leaves(t) && t[d].deleted;
      assert a in Leaves(t);
      var x: Leaf :| x in leaves && x.rev == a;
      var y: Leaf :| y in leaves && y.rev == d;
      InFilter(NotDeleted, leaves, x);
      InFilter(Deleted, leaves, y);
    }
    if Filter(NotDeleted, leaves) != [] && Filter(Deleted, leaves) != [] {
      var x, y := Filter(NotDeleted, leaves)[0], Filter(Deleted, leaves)[0];
      InFilter(NotDeleted, leaves, x);
      InFilter(Deleted, leaves, y);
      assert x.rev in AliveLeaves(t);
    }
  }

  /** The plan can be carried out as it stands, and its content is the newest edit's. */
  lemma DeleteWinnerPlanIsReady(t: Tree, revs: seq<Rev>, leaves: seq<Leaf>, edit: Leaf, base: Leaf)
    requires Wf(t) && Distinct(revs) && (forall r :: r in revs <==> r in Leaves(t)) && ReadAs(t, revs, leaves)
    requires edit in leaves && !edit.deleted && base in leaves && base.deleted
    ensures Ready(t, DeleteWinnerPlan(leaves, edit, base))
  {
    LeavesRead(t, revs, leaves);
    LosersPartition(leaves, base);
    var losers := RevsOf(Filter(IsNotRev(base.rev), leaves));
    forall r | r in losers ensures IsLeaf(t, r) {
      var l: Leaf :| l in leaves && l.rev == r;
      assert r in Leaves(t);
    }
    assert base.rev in Leaves(t);
    forall r | r in AliveLeaves(t) ensures r in losers {
      assert r in Leaves(t);
      var l: Leaf :| l in leaves && l.rev == r;
      assert l.rev != base.rev;
    }
  }

  lemma NewestIsNewest(t: Tree, revs: seq<Rev>, leaves: seq<Leaf>, edit: Leaf)
    requires Wf(t) && Distinct(revs) && (forall r :: r in revs <==> r in Leaves(t)) && ReadAs(t, revs, leaves)
    requires edit in Filter(NotDeleted, leaves) && forall x :: x in Filter(NotDeleted, leaves) ==> x.mtime <= edit.mtime
    ensures edit in leaves && !edit.deleted
    ensures edit.rev in AliveLeaves(t) && HasContent(t, edit.rev) && CopyOf(edit) == NodeCopy(t[edit.rev])
    ensures forall x :: x in AliveLeaves(t) ==> t[x].mtime <= t[edit.rev].mtime
  {
    LeavesRead(t, revs, leaves);
    InFilter(NotDeleted, leaves, edit);
    forall x | x in AliveLeaves(t) ensures t[x].mtime <= t[edit.rev].mtime {
      assert x in Leaves(t);
      var l: Leaf :| l in leaves && l.rev == x;
      InFilter(NotDeleted, leaves, l);
      assert CopyOf(l) == NodeCopy(t[l.rev]);
    }
  }

  lemma EditWonOutright(docs: Docs, docs': Docs, path: Path, plan: Plan, names: seq<Path>, e: Rev)
    requires CarriedOut(docs, docs', path, plan, names) && plan.copies == []
    requires var t := DocIn(docs, path);
             && e in AliveLeaves(t) && HasContent(t, e)
             && Some(t[e].content.value) == plan.finalContent && t[e].mtime == plan.finalMtime && t[e].ctype == plan.finalCtype
             && forall x :: x in AliveLeaves(t) ==> t[x].mtime <= t[e].mtime
    ensures names == [] && NewestEditWon(DocIn(docs, path), DocIn(docs', path))
    ensures forall q :: q != path ==> DocIn(docs', q) == DocIn(docs, q)
  {
    assert names == [];
    var out := docs'[path := DocIn(docs, path)];
    forall q | q != path ensures DocIn(docs', q) == DocIn(docs, q) {
      assert q !in names;
      assert DocIn(out, q) == DocIn(docs', q);
    }
    assert OnlyHolds(DocIn(docs', path), NodeCopy(DocIn(docs, path)[e]));
  }

  /** `resolve_delete_winner`: with edits beside tombstones the newest edit wins outright. `resolve` calls
      it when no leaf is alive, and then there is never an edit for it to find: it writes nothing. */
  method ResolveDeleteWinner(couch: Couch, path: Path) returns (res: Resolution)
    requires couch.Valid()
    modifies couch
    ensures couch.Valid() && Grew(old(couch.docs), couch.docs)
    ensures EditsWin(old(couch.docs), couch.docs, path, res)
    ensures old(AliveLeaves(couch.Doc(path))) == {} ==> res == NoConflict && couch.docs == old(couch.docs)
  {
    for attempt := 0 to MAX_RETRIES
      invariant attempt == 0 && couch.docs == old(couch.docs)
    {
      ghost var t := couch.Doc(path);
      var revs := couch.GetDocLeaves(path);
      DistinctCount(revs, Leaves(t));
      if |revs| < 2 {
        return NoConflict;
      }
      var leaves := FetchLeaves(couch, path, revs);
      LeavesReadableOrNot(t, revs, leaves);
      if leaves.None? {
        return MissingContent;
      }
      var edits, tombstones := Filter(NotDeleted, leaves.value), Filter(Deleted, leaves.value);
      MixedByLists(t, revs, leaves.value);
      if edits == [] || tombstones == [] {
        return NoConflict;
      }
      var edit, base := LastByMtime(edits), LastByGeneration(tombstones);
      var plan := DeleteWinnerPlan(leaves.value, edit, base);
      NewestIsNewest(t, revs, leaves.value, edit);
      InFilter(Deleted, leaves.value, base);
      DeleteWinnerPlanIsReady(t, revs, leaves.value, edit, base);
      var applied := ApplyPlan(couch, path, plan);
      match applied
      case Written(names) =>
        EditWonOutright(old(couch.docs), couch.docs, path, plan, names, edit.rev);
        return Resolved(plan.kind, names);
      case CasConflict =>
    }
    return MaxRetries;
  }

  lemma LeavesReadableOrNot(t: Tree, revs: seq<Rev>, fetched: Option<seq<Leaf>>)
    requires Wf(t) && Distinct(revs) && forall r :: r in revs <==> r in Leaves(t)
    requires match fetched
             case Some(leaves) => ReadAs(t, revs, leaves)
             case None => exists x :: x in revs && ReadLeaf(t, x).None?
    ensures AllReadable(t) <==> fetched.Some?
  {
    match fetched
    case Some(leaves) =>
      LeavesRead(t, revs, leaves);
      forall r | r in AliveLeaves(t) ensures t[r].content.Some? {
        assert r in Leaves(t);
        var l: Leaf :| l in leaves && l.rev == r;
      }
    case None =>
      var x :| x in revs && ReadLeaf(t, x).None?;
      assert x in Leaves(t);
      assert x in AliveLeaves(t);
  }

  // ---- a leaf without content ----

  /** While an alive leaf lacks its content, every `resolve` that finds a conflict fails and changes nothing,
      and that is the only way an undisturbed one fails. */
  lemma ResolveFailsIff(merge: Merge, docs: Docs, docs': Docs, path: Path, res: Resolution)
    requires WfDocs(docs) && Resolves(merge, docs, docs', path, res)
    ensures var t := DocIn(docs, path);
            && (res == MissingContent <==> !AtMostOneAlive(t) && exists d :: d in AliveLeaves(t) && t[d].content.None?)
            && (res == MissingContent ==> docs' == docs)
            && res != MaxRetries
  {
  }

  // ---- uninterrupted resolution settles the document ----

  /** `t'` is one alive leaf holding what a plan made from `t` decided. */
  ghost predicate SettledBy(merge: Merge, t: Tree, t': Tree, plan: Plan, y: Rev)
    requires Wf(t)
  {
    && Planned(merge, t, plan) && AliveLeaves(t') == {y} && plan.finalContent.Some?
    && Holds(t', y, Copy(plan.finalContent.value, plan.finalMtime, plan.finalCtype))
  }

  lemma OneAlive(t: Tree, y: Rev)
    requires AliveLeaves(t) == {y}
    ensures AtMostOneAlive(t) && AliveLeaves(t) != {}
  {
    assert y in AliveLeaves(t);
  }

  lemma PlanSettles(merge: Merge, t: Tree, t': Tree, plan: Plan)
    requires Wf(t) && Planned(merge, t, plan) && ResultStored(t, t', plan)
    ensures exists y :: SettledBy(merge, t, t', plan, y)
    ensures AtMostOneAlive(t') && AliveLeaves(t') != {}
  {
    var y :| AliveLeaves(t') == {y} && plan.finalContent.Some?
             && Holds(t', y, Copy(plan.finalContent.value, plan.finalMtime, plan.finalCtype));
    OneAlive(t', y);
    assert SettledBy(merge, t, t', plan, y);
  }

  lemma ResolvedSettles(merge: Merge, docs: Docs, docs': Docs, path: Path, res: Resolution)
    requires WfDocs(docs) && Resolves(merge, docs, docs', path, res) && res.Resolved?
    ensures exists plan, y :: SettledBy(merge, DocIn(docs, path), DocIn(docs', path), plan, y)
    ensures AtMostOneAlive(DocIn(docs', path)) && AliveLeaves(DocIn(docs', path)) != {}
  {
    var plan: Plan :| plan.kind == res.kind && Executed(merge, docs, docs', path, plan, res.copies);
    PlanSettles(merge, DocIn(docs, path), DocIn(docs', path), plan);
  }

  /** Undisturbed and with every alive leaf readable, `resolve` leaves exactly one alive leaf holding
      what its plan decided; a second `resolve` finds no conflict and changes nothing. */
  lemma ResolveSettles(merge: Merge, docs: Docs, docs': Docs, docs'': Docs, path: Path, res: Resolution, again: Resolution)
    requires WfDocs(docs) && WfDocs(docs') && AllReadable(DocIn(docs, path))
    requires Resolves(merge, docs, docs', path, res) && Resolves(merge, docs', docs'', path, again)
    ensures AtMostOneAlive(DocIn(docs', path))
    ensures AtMostOneAlive(DocIn(docs, path)) ==> res == NoConflict && docs' == docs
    ensures !AtMostOneAlive(DocIn(docs, path)) ==>
      exists plan, y :: SettledBy(merge, DocIn(docs, path), DocIn(docs', path), plan, y)
    ensures again == NoConflict && docs'' == docs'
  {
    if res.Resolved? {
      ResolvedSettles(merge, docs, docs', path, res);
    }
  }
}
