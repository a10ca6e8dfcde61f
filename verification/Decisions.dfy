/** What `resolve` decides about the leaves of a document, in terms of what is stored in its tree. */
module Decisions {
  import opened RevTree
  import opened Ancestry
  import opened Planning
  import opened CopyNames
  import opened Resolver

  /** `c` is what two leaves are merged over: the content of the deepest revision they share, or nothing if they
      share none or it has no content. */
  ghost predicate BaseIs(t: Tree, a: Rev, b: Rev, c: Bytes)
    requires Wf(t) && a in t && b in t
  {
    || (IsDeepest(t, a, b, None) && c == [])
    || (exists x :: IsDeepest(t, a, b, Some(x)) && c == if t[x].content.Some? then t[x].content.value else [])
  }

  lemma DeepestIsUnique(t: Tree, a: Rev, b: Rev, f: Option<Rev>, g: Option<Rev>)
    requires Wf(t) && a in t && b in t && IsDeepest(t, a, b, f) && IsDeepest(t, a, b, g)
    ensures f == g
  {
    if f.Some? && g.Some? {
      OnePerGeneration(t, a, f.value, g.value);
    }
  }

  /** The content of the revision found, or nothing. */
  function ContentAt(t: Tree, found: Option<Rev>): Bytes
    requires found.Some? ==> found.value in t
  {
    match found
    case Some(x) => if t[x].content.Some? then t[x].content.value else []
    case None => []
  }

  lemma BaseIsUnique(t: Tree, a: Rev, b: Rev, c: Bytes, found: Option<Rev>)
    requires Wf(t) && a in t && b in t && BaseIs(t, a, b, c) && IsDeepest(t, a, b, found)
    ensures found.Some? ==> found.value in t
    ensures c == ContentAt(t, found)
  {
    if IsDeepest(t, a, b, None) && c == [] {
      DeepestIsUnique(t, a, b, found, None);
    } else {
      var x :| IsDeepest(t, a, b, Some(x)) && c == if t[x].content.Some? then t[x].content.value else [];
      DeepestIsUnique(t, a, b, found, Some(x));
    }
  }

  lemma MergeBaseReads(t: Tree, w: Rev, l: Rev, wl: Leaf, ll: Leaf)
    requires Wf(t) && ReadLeaf(t, w) == Some(wl) && ReadLeaf(t, l) == Some(ll)
    ensures AncestorOf(t, w, l).Some? ==> AncestorOf(t, w, l).value in t
    ensures MergeBase(wl, ll, LookupIn(t)) == ContentAt(t, AncestorOf(t, w, l))
  {
    AncestorIsPresent(t, w, l);
  }

  lemma MergeBaseIs(t: Tree, w: Rev, l: Rev, wl: Leaf, ll: Leaf, c: Bytes)
    requires Wf(t) && ReadLeaf(t, w) == Some(wl) && ReadLeaf(t, l) == Some(ll)
    requires NoMisleadingId(t, w, l) && BaseIs(t, w, l, c)
    ensures MergeBase(wl, ll, LookupIn(t)) == c
  {
    AncestorIsDeepestIff(t, w, l);
    BaseIsUnique(t, w, l, c, AncestorOf(t, w, l));
    MergeBaseReads(t, w, l, wl, ll);
  }

  // ---- two leaves ----

  /** `w` is the winner and `l` the only other alive leaf. */
  ghost predicate TwoAlive(t: Tree, w: Rev, l: Rev) {
    w != l && AliveLeaves(t) == {w, l} && Winner(t) == w
  }

  lemma TwoListed(t: Tree, w: Rev, l: Rev, conflicts: seq<Rev>)
    requires TwoAlive(t, w, l) && Lists(t, conflicts)
    ensures conflicts == [l]
  {
    AliveCount(t, conflicts);
    assert conflicts[0] in conflicts;
    assert conflicts[0] in AliveLeaves(t);
  }

  ghost predicate Decides(plan: Plan, kind: Kind, c: Copy, copies: seq<Copy>, losers: seq<Rev>) {
    && plan.kind == kind && plan.finalContent == Some(c.content) && plan.finalMtime == c.mtime && plan.finalCtype == c.ctype
    && plan.copies == copies && plan.loserRevs == losers
  }

  function Later(t: Tree, w: Rev, l: Rev): Rev
    requires w in t && l in t
  {
    if t[l].mtime > t[w].mtime then l else w
  }

  function Earlier(t: Tree, w: Rev, l: Rev): Rev
    requires w in t && l in t
  {
    if t[l].mtime > t[w].mtime then w else l
  }

  lemma PairPlan(wl: Leaf, ll: Leaf, lookup: Lookup, merge: Merge)
    requires wl.rev != ll.rev && !wl.deleted && !ll.deleted
    ensures PlanResolution([wl, ll], wl.rev, lookup, merge) == Some(PlanEditVsEdit(wl, ll, [ll.rev], lookup, merge))
  {
    var s := [wl, ll];
    assert s[0] == wl;
    AliveWinnerPlans(s, wl, lookup, merge);
    FilterPair(NotDeleted, wl, ll);
    FilterPair(IsNotRev(wl.rev), wl, ll);
    assert Filter(NotDeleted, s) == [wl, ll] && Filter(IsNotRev(wl.rev), s) == [ll];
    assert RevsOf([ll]) == [ll.rev];
    assert AliveWinnerPlan(s, wl, lookup, merge) == PlanEditVsEdit(wl, ll, [ll.rev], lookup, merge);
  }

  lemma TwoPlanned(merge: Merge, t: Tree, plan: Plan, w: Rev, l: Rev) returns (wl: Leaf, ll: Leaf)
    requires Wf(t) && Planned(merge, t, plan) && TwoAlive(t, w, l)
    ensures ReadLeaf(t, w) == Some(wl) && ReadLeaf(t, l) == Some(ll)
    ensures PlanResolution([wl, ll], w, LookupIn(t), merge) == Some(plan)
  {
    var conflicts, leaves: seq<Leaf> :| Lists(t, conflicts) && ReadAs(t, [Winner(t)] + conflicts, leaves)
                             && PlanResolution(leaves, Winner(t), LookupIn(t), merge) == Some(plan);
    TwoListed(t, w, l, conflicts);
    wl, ll := leaves[0], leaves[1];
    assert ([w] + [l])[0] == w && ([w] + [l])[1] == l;
    assert leaves == [wl, ll];
  }

  lemma PairDecides(merge: Merge, t: Tree, w: Rev, l: Rev, wl: Leaf, ll: Leaf, c: Bytes)
    requires Wf(t) && ReadLeaf(t, w) == Some(wl) && ReadLeaf(t, l) == Some(ll)
    requires HasContent(t, w) && HasContent(t, l) && MergeBase(wl, ll, LookupIn(t)) == c
    ensures var plan := PlanEditVsEdit(wl, ll, [l], LookupIn(t), merge);
            && plan.winnerRev == w
            && TwoLeavesDecided(merge, t, plan, w, l, c)
  {
  }

  /** Merged over `c`, with the later time and the winner's type, if that succeeds; otherwise the later one stays
      as it is and the other one becomes the only copy. */
  ghost predicate TwoLeavesDecided(merge: Merge, t: Tree, plan: Plan, w: Rev, l: Rev, c: Bytes)
    requires HasContent(t, w) && HasContent(t, l)
  {
    match merge(c, t[w].content.value, t[l].content.value)
    case Some(m) => Decides(plan, Merged, Copy(m, t[Later(t, w, l)].mtime, t[w].ctype), [], [l])
    case None => Decides(plan, KeptNewer, NodeCopy(t[Later(t, w, l)]), [NodeCopy(t[Earlier(t, w, l)])], [l])
  }

  /** Two alive leaves are merged over the content of the deepest revision they share. */
  lemma TwoLeavesPlan(merge: Merge, t: Tree, plan: Plan, w: Rev, l: Rev, c: Bytes)
    requires Wf(t) && Planned(merge, t, plan) && TwoAlive(t, w, l)
    requires HasContent(t, w) && HasContent(t, l) && NoMisleadingId(t, w, l) && BaseIs(t, w, l, c)
    ensures plan.winnerRev == w && TwoLeavesDecided(merge, t, plan, w, l, c)
  {
    var wl, ll := TwoPlanned(merge, t, plan, w, l);
    MergeBaseIs(t, w, l, wl, ll, c);
    PairPlan(wl, ll, LookupIn(t), merge);
    PairDecides(merge, t, w, l, wl, ll, c);
  }

  // ---- three leaves or more ----

  function ManyDecision(w: Leaf, others: seq<Leaf>): Plan {
    Plan(KeptWinner, w.rev, Some(w.content), w.mtime, w.ctype, CopiesOf(others), RevsOf(others))
  }

  lemma AllAlivePlan(leaves: seq<Leaf>, w: Leaf, lookup: Lookup, merge: Merge)
    requires |leaves| >= 3 && Filter(NotDeleted, leaves) == leaves
    requires Filter(NotDeletedBut(w.rev), leaves) == Filter(IsNotRev(w.rev), leaves)
    ensures AliveWinnerPlan(leaves, w, lookup, merge) == ManyDecision(w, Filter(IsNotRev(w.rev), leaves))
  {
  }

  lemma ManyPlan(leaves: seq<Leaf>, w: Leaf, lookup: Lookup, merge: Merge)
    requires |leaves| >= 3 && DistinctRevs(leaves) && w in leaves && forall l :: l in leaves ==> NotDeleted(l)
    ensures PlanResolution(leaves, w.rev, lookup, merge) == Some(ManyDecision(w, Filter(IsNotRev(w.rev), leaves)))
  {
    FilterAll(NotDeleted, leaves);
    FilterTwice(leaves, w.rev);
    AllAlivePlan(leaves, w, lookup, merge);
    AliveWinnerPlans(leaves, w, lookup, merge);
  }

  lemma ManyPlanned(merge: Merge, t: Tree, plan: Plan) returns (leaves: seq<Leaf>)
    requires Wf(t) && Planned(merge, t, plan) && |AliveLeaves(t)| >= 3
    ensures |leaves| >= 3 && DistinctRevs(leaves) && leaves[0].rev == Winner(t)
    ensures PlanResolution(leaves, Winner(t), LookupIn(t), merge) == Some(plan)
    ensures forall l :: l in leaves ==> NotDeleted(l) && l.rev in AliveLeaves(t) && HasContent(t, l.rev) && CopyOf(l) == NodeCopy(t[l.rev])
    ensures forall r :: r in AliveLeaves(t) ==> exists l :: l in leaves && l.rev == r
  {
    var conflicts;
    conflicts, leaves :| Lists(t, conflicts) && ReadAs(t, [Winner(t)] + conflicts, leaves)
                         && PlanResolution(leaves, Winner(t), LookupIn(t), merge) == Some(plan);
    ListedLeaves(t, conflicts, leaves);
    AliveCount(t, conflicts);
    forall i | 0 <= i < |leaves| ensures HasContent(t, leaves[i].rev) && CopyOf(leaves[i]) == NodeCopy(t[leaves[i].rev]) {
      assert ReadLeaf(t, ([Winner(t)] + conflicts)[i]) == Some(leaves[i]);
    }
  }

  /** The winner stays as it is; every other alive leaf becomes a copy, and a loser. */
  lemma ManyLeavesPlan(merge: Merge, t: Tree, plan: Plan)
    requires Wf(t) && Planned(merge, t, plan) && |AliveLeaves(t)| >= 3
    ensures plan.winnerRev == Winner(t) && HasContent(t, Winner(t)) && |plan.copies| == |plan.loserRevs|
    ensures Decides(plan, KeptWinner, NodeCopy(t[Winner(t)]), plan.copies, plan.loserRevs)
    ensures Distinct(plan.loserRevs) && forall r :: r in plan.loserRevs <==> r in AliveLeaves(t) && r != Winner(t)
    ensures forall i :: 0 <= i < |plan.copies| ==>
      HasContent(t, plan.loserRevs[i]) && plan.copies[i] == NodeCopy(t[plan.loserRevs[i]])
  {
    var leaves := ManyPlanned(merge, t, plan);
    var w := leaves[0];
    assert w in leaves;
    ManyPlan(leaves, w, LookupIn(t), merge);
    LosersPartition(leaves, w);
    var others := Filter(IsNotRev(w.rev), leaves);
    forall i | 0 <= i < |others| ensures HasContent(t, others[i].rev) && CopyOf(others[i]) == NodeCopy(t[others[i].rev]) {
      InFilter(IsNotRev(w.rev), leaves, others[i]);
    }
    forall r ensures r in plan.loserRevs <==> r in AliveLeaves(t) && r != Winner(t) {
      if r in AliveLeaves(t) {
        var x: Leaf :| x in leaves && x.rev == r;
      }
    }
  }

  // ---- what is stored afterwards ----

  ghost predicate CopiedTo(docs: Docs, docs': Docs, path: Path, names: seq<Path>, copies: seq<Copy>) {
    && |names| == |copies|
    && (forall i, j :: 0 <= i < j < |names| ==> names[i] != names[j])
    && (forall i :: 0 <= i < |names| ==> CopyStored(docs, docs', path, names[i], copies[i]))
    && (forall q :: q !in names && q != path ==> DocIn(docs', q) == DocIn(docs, q))
  }

  lemma ExecutedStores(merge: Merge, docs: Docs, docs': Docs, path: Path, plan: Plan, names: seq<Path>, kind: Kind, c: Copy,
                       copies: seq<Copy>, losers: seq<Rev>)
    requires WfDocs(docs) && Executed(merge, docs, docs', path, plan, names) && Decides(plan, kind, c, copies, losers)
    ensures OnlyHolds(DocIn(docs', path), c) && CopiedTo(docs, docs', path, names, copies)
  {
    var out := docs'[path := DocIn(docs, path)];
    forall i | 0 <= i < |names| ensures CopyStored(docs, docs', path, names[i], copies[i]) {
      assert CopyStored(docs, out, path, names[i], plan.copies[i]);
      CopyNameDiffers(path, names[i]);
    }
    forall q | q !in names && q != path ensures DocIn(docs', q) == DocIn(docs, q) {
      assert DocIn(out, q) == DocIn(docs', q);
    }
    var y :| AliveLeaves(DocIn(docs', path)) == {y} && Holds(DocIn(docs', path), y, Copy(plan.finalContent.value, plan.finalMtime, plan.finalCtype));
  }

  lemma ResolvedExecutes(merge: Merge, docs: Docs, docs': Docs, path: Path, res: Resolution) returns (plan: Plan)
    requires WfDocs(docs) && Resolves(merge, docs, docs', path, res)
    requires !AtMostOneAlive(DocIn(docs, path)) && AllReadable(DocIn(docs, path))
    ensures res.Resolved? && plan.kind == res.kind && Executed(merge, docs, docs', path, plan, res.copies)
  {
    plan :| plan.kind == res.kind && Executed(merge, docs, docs', path, plan, res.copies);
  }

  ghost predicate TwoLeavesOutcome(merge: Merge, docs: Docs, docs': Docs, path: Path, kind: Kind, names: seq<Path>, w: Rev, l: Rev, c: Bytes)
    requires HasContent(DocIn(docs, path), w) && HasContent(DocIn(docs, path), l)
  {
    var t, t' := DocIn(docs, path), DocIn(docs', path);
    match merge(c, t[w].content.value, t[l].content.value)
    case Some(m) =>
      && kind == Merged && OnlyHolds(t', Copy(m, t[Later(t, w, l)].mtime, t[w].ctype))
      && CopiedTo(docs, docs', path, names, [])
    case None =>
      && kind == KeptNewer && OnlyHolds(t', NodeCopy(t[Later(t, w, l)]))
      && CopiedTo(docs, docs', path, names, [NodeCopy(t[Earlier(t, w, l)])])
  }

  lemma TwoLeavesExecuted(merge: Merge, docs: Docs, docs': Docs, path: Path, plan: Plan, names: seq<Path>, w: Rev, l: Rev, c: Bytes)
    requires WfDocs(docs) && Executed(merge, docs, docs', path, plan, names)
    requires HasContent(DocIn(docs, path), w) && HasContent(DocIn(docs, path), l)
    requires TwoLeavesDecided(merge, DocIn(docs, path), plan, w, l, c)
    ensures TwoLeavesOutcome(merge, docs, docs', path, plan.kind, names, w, l, c)
  {
    var t := DocIn(docs, path);
    match merge(c, t[w].content.value, t[l].content.value)
    case Some(m) =>
      ExecutedStores(merge, docs, docs', path, plan, names, Merged, Copy(m, t[Later(t, w, l)].mtime, t[w].ctype), [], [l]);
    case None =>
      ExecutedStores(merge, docs, docs', path, plan, names, KeptNewer, NodeCopy(t[Later(t, w, l)]),
                     [NodeCopy(t[Earlier(t, w, l)])], [l]);
  }

  lemma BothReadable(t: Tree, w: Rev, l: Rev)
    requires TwoAlive(t, w, l) && HasContent(t, w) && HasContent(t, l)
    ensures AllReadable(t) && !AtMostOneAlive(t)
  {
    assert w in AliveLeaves(t) && l in AliveLeaves(t);
  }

  /** What an undisturbed resolve makes of two leaves. */
  lemma TwoLeavesResolved(merge: Merge, docs: Docs, docs': Docs, path: Path, res: Resolution, w: Rev, l: Rev, c: Bytes)
    requires WfDocs(docs) && Resolves(merge, docs, docs', path, res)
    requires TwoAlive(DocIn(docs, path), w, l) && HasContent(DocIn(docs, path), w) && HasContent(DocIn(docs, path), l)
    requires NoMisleadingId(DocIn(docs, path), w, l) && BaseIs(DocIn(docs, path), w, l, c)
    ensures res.Resolved? && TwoLeavesOutcome(merge, docs, docs', path, res.kind, res.copies, w, l, c)
  {
    BothReadable(DocIn(docs, path), w, l);
    var plan := ResolvedExecutes(merge, docs, docs', path, res);
    TwoLeavesPlan(merge, DocIn(docs, path), plan, w, l, c);
    TwoLeavesExecuted(merge, docs, docs', path, plan, res.copies, w, l, c);
  }

  /** The winner alone is left, and every other alive leaf is stored under a name of its own. */
  ghost predicate ManyLeavesOutcome(docs: Docs, docs': Docs, path: Path, names: seq<Path>)
    requires AliveLeaves(DocIn(docs, path)) != {} && HasContent(DocIn(docs, path), Winner(DocIn(docs, path)))
  {
    var t := DocIn(docs, path);
    && OnlyHolds(DocIn(docs', path), NodeCopy(t[Winner(t)])) && |names| == |AliveLeaves(t)| - 1
    && (forall i, j :: 0 <= i < j < |names| ==> names[i] != names[j])
    && (forall r :: r in AliveLeaves(t) && r != Winner(t) ==> KeptIn(docs, docs', path, names, r))
  }

  ghost predicate KeptIn(docs: Docs, docs': Docs, path: Path, names: seq<Path>, r: Rev) {
    HasContent(DocIn(docs, path), r)
    && exists i :: 0 <= i < |names| && CopyStored(docs, docs', path, names[i], NodeCopy(DocIn(docs, path)[r]))
  }

  lemma ManyLeavesExecuted(merge: Merge, docs: Docs, docs': Docs, path: Path, plan: Plan, names: seq<Path>)
    requires WfDocs(docs) && Executed(merge, docs, docs', path, plan, names) && |AliveLeaves(DocIn(docs, path))| >= 3
    ensures plan.kind == KeptWinner && HasContent(DocIn(docs, path), Winner(DocIn(docs, path)))
    ensures ManyLeavesOutcome(docs, docs', path, names)
  {
    var t := DocIn(docs, path);
    ManyLeavesPlan(merge, t, plan);
    ExecutedStores(merge, docs, docs', path, plan, names, KeptWinner, NodeCopy(t[Winner(t)]), plan.copies, plan.loserRevs);
    DistinctCount([Winner(t)] + plan.loserRevs, AliveLeaves(t));
    forall r | r in AliveLeaves(t) && r != Winner(t) ensures KeptIn(docs, docs', path, names, r) {
      var i :| 0 <= i < |plan.loserRevs| && plan.loserRevs[i] == r;
      assert CopyStored(docs, docs', path, names[i], plan.copies[i]);
    }
  }

  lemma SeveralNotOne(t: Tree)
    requires AtMostOneAlive(t)
    ensures |AliveLeaves(t)| <= 1
  {
    if AliveLeaves(t) != {} {
      var a :| a in AliveLeaves(t);
      assert AliveLeaves(t) == {a};
    }
  }

  /** What an undisturbed resolve makes of three readable leaves or more. */
  lemma ManyLeavesResolved(merge: Merge, docs: Docs, docs': Docs, path: Path, res: Resolution)
    requires WfDocs(docs) && Resolves(merge, docs, docs', path, res)
    requires |AliveLeaves(DocIn(docs, path))| >= 3 && AllReadable(DocIn(docs, path))
    ensures res.Resolved? && res.kind == KeptWinner && HasContent(DocIn(docs, path), Winner(DocIn(docs, path)))
    ensures ManyLeavesOutcome(docs, docs', path, res.copies)
  {
    if AtMostOneAlive(DocIn(docs, path)) {
      SeveralNotOne(DocIn(docs, path));
    }
    var plan := ResolvedExecutes(merge, docs, docs', path, res);
    ManyLeavesExecuted(merge, docs, docs', path, plan, res.copies);
  }
}
