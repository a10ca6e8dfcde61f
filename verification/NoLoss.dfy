/** No data is lost, and nothing alive dies, in any interleaving of resolvers and pushers on a
    document that starts alive and whose current leaves nobody but a resolver deletes. */
module NoLoss {
  import opened RevTree
  import opened Ancestry
  import opened Planning
  import opened CopyNames
  import opened Protocol

  // ---- what "preserved" means ----

  ghost function BaseContent(t: Tree, win: Rev, l: Rev): Bytes
    requires Wf(t) && win in t && l in t
  {
    match AncestorOf(t, win, l)
    case Some(a) => (match LookupIn(t)(a) case Some(c) => c case None => [])
    case None => []
  }

  /** `result` is the three-way merge of `win`'s and `l`'s contents over their ancestor's, or over nothing if that
      could not be read. */
  ghost predicate MergesTo(merge: Merge, t: Tree, win: Rev, l: Rev, result: Bytes)
    requires Wf(t)
  {
    && HasContent(t, win) && HasContent(t, l)
    && (|| merge(BaseContent(t, win, l), t[win].content.value, t[l].content.value) == Some(result)
        || merge([], t[win].content.value, t[l].content.value) == Some(result))
  }

  /** `y` holds content and was written on `win` in two steps, as `put_doc` and `put_attachment` do. */
  ghost predicate WrittenOn(t: Tree, win: Rev, y: Rev) {
    && HasContent(t, y) && t[y].parent.Some? && t[y].parent.value in t
    && t[t[y].parent.value].parent == Some(win)
  }

  /** Some document under a copy name of `p` holds this content with this mtime and type. */
  ghost predicate Durable(w: World, p: Path, c: Copy) {
    exists q, r :: IsCopyName(p, q) && Holds(Doc(w, q), r, c)
  }

  /** The result `y`, written on `win`, carries `x`'s content: unchanged, or as an input of the merge. */
  ghost predicate CarriedBy(merge: Merge, t: Tree, x: Rev, win: Rev, y: Rev)
    requires Wf(t)
  {
    && HasContent(t, x) && WrittenOn(t, win, y) && x.gen < y.gen
    && (t[y].content == t[x].content
        || exists l :: MergesTo(merge, t, win, l, t[y].content.value) && (x == win || x == l))
  }

  ghost predicate Preserved(merge: Merge, w: World, p: Path, x: Rev)
    requires Basic(w)
  {
    var t := Doc(w, p);
    || (exists win, y :: CarriedBy(merge, t, x, win, y))
    || (HasContent(t, x) && Durable(w, p, NodeCopy(t[x])))
  }

  // ---- plans made from a snapshot ----

  /** `x` will be preserved once `plan` is carried out as far as writing its result. */
  ghost predicate Provided(merge: Merge, t: Tree, plan: Plan, x: Rev)
    requires Wf(t)
  {
    && HasContent(t, x)
    && (|| plan.finalContent == t[x].content
        || NodeCopy(t[x]) in plan.copies
        || (plan.finalContent.Some? && exists l :: MergesTo(merge, t, plan.winnerRev, l, plan.finalContent.value)
                                               && (x == plan.winnerRev || x == l)))
  }

  ghost predicate PlanOk(merge: Merge, t: Tree, plan: Plan)
    requires Wf(t)
  {
    && plan.finalContent.Some? && Provided(merge, t, plan, plan.winnerRev)
    && forall x :: x in plan.loserRevs ==> Provided(merge, t, plan, x) && x.gen <= plan.winnerRev.gen
  }

  /** What `get_doc` returned: distinct alive revisions, the winner first and of highest generation. */
  ghost predicate Snapshot(t: Tree, winner: Rev, revs: seq<Rev>) {
    && |revs| >= 2 && revs[0] == winner && Distinct(revs)
    && forall r :: r in revs ==> r in t && !t[r].deleted && r.gen <= winner.gen
  }

  lemma ReadsAreAlive(t: Tree, winner: Rev, revs: seq<Rev>, leaves: seq<Leaf>)
    requires Wf(t) && Snapshot(t, winner, revs) && ReadSoFar(t, revs, leaves) && |leaves| == |revs|
    ensures leaves[0].rev == winner && DistinctRevs(leaves) && forall l :: l in leaves ==> NotDeleted(l)
  {
    forall i | 0 <= i < |leaves| ensures leaves[i].rev == revs[i] && !leaves[i].deleted {
      assert ReadLeaf(t, revs[i]) == Some(leaves[i]);
    }
  }

  lemma MergeOfReads(t: Tree, wl: Leaf, ll: Leaf, plan: Plan, lookup: Lookup, merge: Merge)
    requires lookup == LookupIn(t) || lookup == Unreadable()
    requires Wf(t) && HasContent(t, wl.rev) && HasContent(t, ll.rev)
    requires ReadLeaf(t, wl.rev) == Some(wl) && ReadLeaf(t, ll.rev) == Some(ll)
    requires MergedFrom(plan, wl, ll, lookup, merge)
    ensures MergesTo(merge, t, wl.rev, ll.rev, plan.finalContent.value)
  {
    assert MergeBase(wl, ll, LookupIn(t)) == BaseContent(t, wl.rev, ll.rev);
    assert MergeBase(wl, ll, Unreadable()) == [];
  }

  lemma ReadsHaveContent(t: Tree, winner: Rev, revs: seq<Rev>, leaves: seq<Leaf>, l: Leaf)
    requires Wf(t) && Snapshot(t, winner, revs) && ReadSoFar(t, revs, leaves) && l in leaves
    ensures HasContent(t, l.rev) && ReadLeaf(t, l.rev) == Some(l) && CopyOf(l) == NodeCopy(t[l.rev])
  {
    var j :| 0 <= j < |leaves| && leaves[j] == l;
    assert ReadLeaf(t, revs[j]) == Some(l);
  }

  lemma LeafIsProvided(t: Tree, revs: seq<Rev>, leaves: seq<Leaf>, plan: Plan, lookup: Lookup, merge: Merge, x: Leaf)
    requires lookup == LookupIn(t) || lookup == Unreadable()
    requires Wf(t) && Snapshot(t, plan.winnerRev, revs) && ReadSoFar(t, revs, leaves)
    requires x in leaves && Conserved(plan, leaves, x, lookup, merge)
    ensures Provided(merge, t, plan, x.rev)
  {
    ReadsHaveContent(t, plan.winnerRev, revs, leaves, x);
    if plan.finalContent != Some(x.content) && CopyOf(x) !in plan.copies {
      var wl, ll :| wl in leaves && ll in leaves && wl.rev == plan.winnerRev && ll.rev != plan.winnerRev
                    && MergedFrom(plan, wl, ll, lookup, merge) && (x == wl || x == ll);
      ReadsHaveContent(t, plan.winnerRev, revs, leaves, wl);
      ReadsHaveContent(t, plan.winnerRev, revs, leaves, ll);
      MergeOfReads(t, wl, ll, plan, lookup, merge);
    }
  }

  /** The plan a resolver makes from what it read provides for every leaf it read. */
  lemma SnapshotPlanIsOk(merge: Merge, t: Tree, winner: Rev, revs: seq<Rev>, leaves: seq<Leaf>, lookup: Lookup)
    requires lookup == LookupIn(t) || lookup == Unreadable()
    requires Wf(t) && Snapshot(t, winner, revs) && ReadSoFar(t, revs, leaves) && |leaves| == |revs|
    ensures var plan := PlanResolution(leaves, winner, lookup, merge);
            plan.Some? && PlanOk(merge, t, plan.value)
  {
    ReadsAreAlive(t, winner, revs, leaves);
    AlivePlanWrites(leaves, lookup, merge);
    var plan := PlanResolution(leaves, winner, lookup, merge).value;
    forall i | 0 <= i < |revs| ensures Provided(merge, t, plan, revs[i]) && revs[i].gen <= winner.gen {
      PlanConserves(leaves, leaves[0], lookup, merge, leaves[i]);
      assert ReadLeaf(t, revs[i]) == Some(leaves[i]);
      LeafIsProvided(t, revs, leaves, plan, lookup, merge, leaves[i]);
    }
    forall x | x in plan.loserRevs ensures exists i :: 0 <= i < |revs| && revs[i] == x {
      var l :| l in leaves && l.rev == x;
      var i :| 0 <= i < |leaves| && leaves[i] == l;
      assert revs[i] == x;
    }
  }

  // ---- everything above survives later writes ----

  lemma BaseContentStable(t: Tree, t': Tree, win: Rev, l: Rev)
    requires Wf(t) && Wf(t') && Extends(t, t') && win in t && l in t
    ensures BaseContent(t, win, l) == BaseContent(t', win, l)
  {
    AncestorStable(t, t', win, l);
    AncestorIsPresent(t, win, l);
  }

  lemma ProvidedStable(merge: Merge, t: Tree, t': Tree, plan: Plan, x: Rev)
    requires Wf(t) && Wf(t') && Extends(t, t') && Provided(merge, t, plan, x)
    ensures Provided(merge, t', plan, x)
  {
    if plan.finalContent != t[x].content && NodeCopy(t[x]) !in plan.copies {
      var l :| MergesTo(merge, t, plan.winnerRev, l, plan.finalContent.value) && (x == plan.winnerRev || x == l);
      BaseContentStable(t, t', plan.winnerRev, l);
      assert MergesTo(merge, t', plan.winnerRev, l, plan.finalContent.value);
    }
  }

  lemma PlanStable(merge: Merge, t: Tree, t': Tree, plan: Plan)
    requires Wf(t) && Wf(t') && Extends(t, t') && PlanOk(merge, t, plan)
    ensures PlanOk(merge, t', plan)
  {
    ProvidedStable(merge, t, t', plan, plan.winnerRev);
    forall x | x in plan.loserRevs ensures Provided(merge, t', plan, x) {
      ProvidedStable(merge, t, t', plan, x);
    }
  }

  lemma ReadStable(t: Tree, t': Tree, revs: seq<Rev>, leaves: seq<Leaf>)
    requires Wf(t) && Wf(t') && Extends(t, t') && ReadSoFar(t, revs, leaves)
    ensures ReadSoFar(t', revs, leaves)
  {
    forall i | 0 <= i < |leaves| ensures ReadLeaf(t', revs[i]) == Some(leaves[i]) {
      assert ReadLeaf(t, revs[i]) == Some(leaves[i]);
      HistoryStable(t, t', revs[i]);
    }
  }

  lemma DurableStable(w: World, w': World, p: Path, c: Copy)
    requires Grows(w, w') && Durable(w, p, c)
    ensures Durable(w', p, c)
  {
    var q, r :| IsCopyName(p, q) && Holds(Doc(w, q), r, c);
    assert Extends(Doc(w, q), Doc(w', q));
    assert Holds(Doc(w', q), r, c);
  }

  lemma PreservedStable(merge: Merge, w: World, w': World, p: Path, x: Rev)
    requires Basic(w) && Basic(w') && Grows(w, w') && Preserved(merge, w, p, x)
    ensures Preserved(merge, w', p, x)
  {
    var t, t' := Doc(w, p), Doc(w', p);
    assert Extends(t, t');
    if win, y :| CarriedBy(merge, t, x, win, y) {
      if t[y].content != t[x].content {
        var l :| MergesTo(merge, t, win, l, t[y].content.value) && (x == win || x == l);
        BaseContentStable(t, t', win, l);
        assert MergesTo(merge, t', win, l, t'[y].content.value);
      }
      assert CarriedBy(merge, t', x, win, y);
    } else {
      DurableStable(w, w', p, NodeCopy(t[x]));
    }
  }

  // ---- alive at some generation ----

  ghost predicate AliveAt(t: Tree, gen: nat) {
    exists l :: IsAlive(t, l) && l.gen >= gen
  }

  /** A write keeps the level unless it buries the only leaf that holds it. */
  lemma AddKeepsLevel(t: Tree, r: Rev, n: Node, gen: nat)
    requires Wf(t) && r !in t && Grounded(t, r, n.parent) && AliveAt(t, gen)
    requires n.deleted && n.parent.Some? && IsLeaf(t, n.parent.value) ==> AliveAt(t, n.parent.value.gen + 1)
    ensures AliveAt(t[r := n], gen)
  {
    AliveAfterAdd(t, r, n);
    var l :| IsAlive(t, l) && l.gen >= gen;
    if n.parent != Some(l) {
      assert IsAlive(t[r := n], l);
    } else if !n.deleted {
      assert IsAlive(t[r := n], r);
    } else {
      var higher :| IsAlive(t, higher) && higher.gen >= l.gen + 1;
      assert IsAlive(t[r := n], higher);
    }
  }

  // ---- the invariant ----

  ghost predicate CopiesDone(w: World, p: Path, plan: Plan, n: nat) {
    n <= |plan.copies| && forall i :: 0 <= i < n ==> Durable(w, p, plan.copies[i])
  }

  ghost predicate PhaseOk(merge: Merge, w: World, p: Path, f: Phase)
    requires Basic(w)
  {
    var t := Doc(w, p);
    match f
    case Fetching(winner, revs, leaves) => Snapshot(t, winner, revs) && ReadSoFar(t, revs, leaves)
    case Probing(plan, copy, _, _) => PlanOk(merge, t, plan) && CopiesDone(w, p, plan, copy) && copy < |plan.copies|
    case CopyPut(plan, copy, name) =>
      PlanOk(merge, t, plan) && CopiesDone(w, p, plan, copy) && copy < |plan.copies| && IsCopyName(p, name)
    case CopyAttach(plan, copy, name, doc) =>
      && PlanOk(merge, t, plan) && CopiesDone(w, p, plan, copy) && copy < |plan.copies| && IsCopyName(p, name)
      && doc in Doc(w, name) && Doc(w, name)[doc].mtime == plan.copies[copy].mtime
      && Doc(w, name)[doc].ctype == plan.copies[copy].ctype
    case Writing(plan) => PlanOk(merge, t, plan) && CopiesDone(w, p, plan, |plan.copies|)
    case Attaching(plan, doc) =>
      && PlanOk(merge, t, plan) && CopiesDone(w, p, plan, |plan.copies|)
      && doc in t && t[doc].parent == Some(plan.winnerRev) && !t[doc].deleted
    case Deleting(plan, y, _) =>
      && PlanOk(merge, t, plan) && CopiesDone(w, p, plan, |plan.copies|)
      && WrittenOn(t, plan.winnerRev, y) && t[y].content == plan.finalContent
      && AliveAt(t, y.gen)
    case InDeleteWinner => false
    case _ => true
  }

  ghost predicate Safe(merge: Merge, w: World, p: Path) {
    && Basic(w) && AliveAt(Doc(w, p), 0)
    && forall pid :: pid in w.procs && w.procs[pid].job.path == p ==> PhaseOk(merge, w, p, w.procs[pid].phase)
  }

  lemma TwoUp(t: Tree, win: Rev, y: Rev)
    requires Wf(t) && WrittenOn(t, win, y)
    ensures y.gen == win.gen + 2 && win in t
  {
    var d := t[y].parent.value;
    assert Grounded(t, y, t[y].parent) && Grounded(t, d, t[d].parent);
  }

  /** A resolver that has written its result has preserved every leaf it planned for: the losers it is
      about to tombstone, and the winner it wrote over. */
  lemma ResultPreserves(merge: Merge, w: World, p: Path, plan: Plan, y: Rev, x: Rev)
    requires Basic(w) && PhaseOk(merge, w, p, Deleting(plan, y, 0))
    requires x in plan.loserRevs || x == plan.winnerRev
    ensures Preserved(merge, w, p, x) && x.gen < y.gen
  {
    var t := Doc(w, p);
    TwoUp(t, plan.winnerRev, y);
    assert Provided(merge, t, plan, x);
    if NodeCopy(t[x]) in plan.copies {
      var i :| 0 <= i < |plan.copies| && plan.copies[i] == NodeCopy(t[x]);
      assert Durable(w, p, plan.copies[i]);
    } else {
      assert CarriedBy(merge, t, x, plan.winnerRev, y);
    }
  }

  lemma PhaseStable(merge: Merge, w: World, w': World, p: Path, f: Phase)
    requires Basic(w) && Basic(w') && Grows(w, w') && PhaseOk(merge, w, p, f)
    requires f.Deleting? ==> AliveAt(Doc(w', p), f.result.gen)
    ensures PhaseOk(merge, w', p, f)
  {
    var t, t' := Doc(w, p), Doc(w', p);
    assert Extends(t, t');
    if f.Fetching? {
      ReadStable(t, t', f.revs, f.leaves);
    } else if !f.Reading? && !f.Finished? {
      PlanStable(merge, t, t', f.plan);
      forall c | Durable(w, p, c) ensures Durable(w', p, c) {
        DurableStable(w, w', p, c);
      }
    }
    if f.CopyAttach? {
      assert Extends(Doc(w, f.name), Doc(w', f.name));
    }
  }

  // ---- one call keeps the invariant ----

  lemma ExternalKeepsLevels(t: Tree, r: Rev, c: Call, gen: nat)
    requires Wf(t) && AcceptedBy(t, c) && r !in t && Grounded(t, r, NodeOf(t, c).parent)
    requires !DeletesCurrent(t, c) && AliveAt(t, gen)
    ensures AliveAt(t[r := NodeOf(t, c)], gen)
  {
    AddKeepsLevel(t, r, NodeOf(t, c), gen);
  }

  /** What a resolver's own write does to the levels: a tombstone always leaves a higher leaf alive. */
  lemma AttemptKeepsLevels(merge: Merge, w: World, p: Path, job: Job, f: Phase, ch: Choice, gen: nat)
    requires Safe(merge, w, p) && Possible(w, job, f, ch) && AliveAt(Doc(w, p), gen)
    requires job.path == p ==> PhaseOk(merge, w, p, f)
    requires var a := AttemptOf(w, job, f, ch); a.Accepted? && a.path == p
    requires job.path != p ==> !AttemptOf(w, job, f, ch).node.deleted
    ensures var a := AttemptOf(w, job, f, ch); AliveAt(Doc(w, p)[a.rev := a.node], gen)
  {
    var a := AttemptOf(w, job, f, ch);
    AttemptIsGrounded(w, job, f, ch);
    if a.node.deleted {
      var x := f.plan.loserRevs[f.next];
      ResultPreserves(merge, w, p, f.plan, f.result, x);
    }
    AddKeepsLevel(Doc(w, p), a.rev, a.node, gen);
  }

  /** Tombstones are only written on the resolver's own document. */
  lemma TombstonesStayHome(w: World, job: Job, f: Phase, ch: Choice)
    requires AttemptOf(w, job, f, ch).Accepted? && AttemptOf(w, job, f, ch).node.deleted
    ensures f.Deleting? && AttemptOf(w, job, f, ch).path == job.path
  {
  }

  lemma ActKeepsLevels(merge: Merge, w: World, pid: Pid, ch: Choice, p: Path, gen: nat)
    requires Safe(merge, w, p) && pid in w.procs && AliveAt(Doc(w, p), gen)
    requires Possible(w, w.procs[pid].job, w.procs[pid].phase, ch)
    ensures AliveAt(Doc(Act(merge, w, pid, ch), p), gen)
  {
    var Proc(job, f) := w.procs[pid];
    var a := AttemptOf(w, job, f, ch);
    if a.Accepted? {
      AttemptIsGrounded(w, job, f, ch);
      WroteGrows(w, Some(pid), a.path, a.rev, a.node);
      if a.path == p {
        if a.node.deleted {
          TombstonesStayHome(w, job, f, ch);
        }
        AttemptKeepsLevels(merge, w, p, job, f, ch, gen);
      }
    }
  }

  lemma LevelsKept(merge: Merge, guarded: set<Path>, w: World, step: Label, w': World, p: Path, gen: nat)
    requires Safe(merge, w, p) && p in guarded && Next(merge, guarded, w, step, w') && AliveAt(Doc(w, p), gen)
    ensures AliveAt(Doc(w', p), gen)
  {
    match step
    case External(q, r, c) =>
      WroteGrows(w, None, q, r, NodeOf(Doc(w, q), c));
      if q == p {
        ExternalKeepsLevels(Doc(w, p), r, c, gen);
      }
    case Step(pid, ch) => ActKeepsLevels(merge, w, pid, ch, p, gen);
    case _ =>
  }

  // ---- the resolver's next phase is fine ----

  lemma ReadingIsOk(merge: Merge, w: World, p: Path, ch: Choice)
    requires Basic(w) && AliveAt(Doc(w, p), 0) && Lists(Doc(w, p), ch.conflicts) && ch.conflicts != []
    ensures AliveLeaves(Doc(w, p)) != {}
    ensures PhaseOk(merge, w, p, Fetching(Winner(Doc(w, p)), [Winner(Doc(w, p))] + ch.conflicts, []))
  {
    var t := Doc(w, p);
    var win := Winner(t);
    var revs := [win] + ch.conflicts;
    forall r | r in revs ensures r in t && !t[r].deleted && r.gen <= win.gen {
      assert r in AliveLeaves(t);
      assert Below(r, win);
    }
    assert Snapshot(t, win, revs);
  }

  lemma FetchingIsOk(merge: Merge, w: World, pid: Pid, p: Path, job: Job, f: Phase, ch: Choice)
    requires Basic(w) && f.Fetching? && PhaseOk(merge, w, p, f) && job.path == p
    ensures PhaseOk(merge, w, p, ActFetching(merge, w, pid, job, f, ch).procs[pid].phase)
  {
    var t := Doc(w, p);
    if |f.leaves| == |f.revs| {
      SnapshotPlanIsOk(merge, t, f.winner, f.revs, f.leaves, LookupBy(t, ch));
    }
  }

  lemma ReadOnlyIsOk(merge: Merge, w: World, pid: Pid, p: Path, job: Job, f: Phase, ch: Choice)
    requires Safe(merge, w, p) && PhaseOk(merge, w, p, f) && job.path == p && Possible(w, job, f, ch)
    requires AttemptOf(w, job, f, ch) == NoWrite && pid in w.procs && w.procs[pid] == Proc(job, f)
    ensures var w' := ActReadOnly(merge, w, pid, job, f, ch);
            pid in w'.procs && PhaseOk(merge, w, p, w'.procs[pid].phase)
  {
    match f
    case Reading =>
      var l :| IsAlive(Doc(w, p), l);
      assert l in AliveLeaves(Doc(w, p));
      if ch.conflicts != [] {
        ReadingIsOk(merge, w, p, ch);
      }
    case Fetching(_, _, _) => FetchingIsOk(merge, w, pid, p, job, f, ch);
    case Probing(plan, copy, today, n) => assert IsCopyName(p, Candidate(p, today, n));
    case _ =>
  }

  lemma CopyIsDurable(w: World, w': World, p: Path, name: Path, doc: Rev, r: Rev, c: Copy)
    requires doc in Doc(w, name) && IsCopyName(p, name)
    requires Doc(w, name)[doc].mtime == c.mtime && Doc(w, name)[doc].ctype == c.ctype
    requires Doc(w', name) == Doc(w, name)[r := AttachedNode(Doc(w, name), doc, c.content)]
    ensures Durable(w', p, c)
  {
    assert Holds(Doc(w', name), r, c);
  }

  lemma AttachedIsOk(merge: Merge, w: World, p: Path, plan: Plan, doc: Rev, y: Rev)
    requires Basic(w) && PhaseOk(merge, w, p, Attaching(plan, doc)) && IsAlive(Doc(w, p), y)
    requires Doc(w, p)[y].parent == Some(doc) && Doc(w, p)[y].content == plan.finalContent
    ensures PhaseOk(merge, w, p, Deleting(plan, y, 0))
  {
    assert WrittenOn(Doc(w, p), plan.winnerRev, y);
  }

  lemma CopiedIsOk(merge: Merge, w: World, p: Path, f: Phase, ch: Choice)
    requires Basic(w) && f.CopyAttach? && PhaseOk(merge, w, p, f) && Durable(w, p, f.plan.copies[f.copy])
    ensures PhaseOk(merge, w, p, AfterCopies(f.plan, f.copy + 1, ch))
  {
    assert CopiesDone(w, p, f.plan, f.copy + 1);
  }

  /** With the write in place, the phase after it is as good as the phase before it was. */
  lemma WrittenPhaseIsOk(merge: Merge, w: World, w': World, p: Path, job: Job, f: Phase, ch: Choice)
    requires Basic(w) && Basic(w') && PhaseOk(merge, w', p, f) && job.path == p
    requires AttemptOf(w, job, f, ch).Accepted?
    requires var a := AttemptOf(w, job, f, ch); Doc(w', a.path) == Doc(w, a.path)[a.rev := a.node]
    requires f.CopyAttach? ==> Durable(w', p, f.plan.copies[f.copy])
    requires f.Attaching? ==> IsAlive(Doc(w', p), AttemptOf(w, job, f, ch).rev)
    ensures PhaseOk(merge, w', p, AttemptOf(w, job, f, ch).after)
  {
    var a := AttemptOf(w, job, f, ch);
    if f.CopyAttach? {
      CopiedIsOk(merge, w', p, f, ch);
    } else if f.Attaching? {
      AttachedIsOk(merge, w', p, f.plan, f.doc, a.rev);
    } else if f.Writing? {
      assert PhaseOk(merge, w', p, Attaching(f.plan, a.rev));
    } else if f.CopyPut? {
      assert PhaseOk(merge, w', p, CopyAttach(f.plan, f.copy, f.name, a.rev));
    }
  }

  lemma WriteIsOk(merge: Merge, w: World, pid: Pid, p: Path, job: Job, f: Phase, ch: Choice)
    requires Safe(merge, w, p) && PhaseOk(merge, w, p, f) && job.path == p && Possible(w, job, f, ch)
    requires AttemptOf(w, job, f, ch).Accepted?
    ensures var a := AttemptOf(w, job, f, ch);
            var w' := Wrote(w, Some(pid), a.path, a.rev, a.node);
            Basic(w') && PhaseOk(merge, w', p, a.after)
  {
    var a := AttemptOf(w, job, f, ch);
    var w' := Wrote(w, Some(pid), a.path, a.rev, a.node);
    AttemptIsGrounded(w, job, f, ch);
    WroteGrows(w, Some(pid), a.path, a.rev, a.node);
    AliveAfterAdd(Doc(w, a.path), a.rev, a.node);
    if f.Deleting? {
      AttemptKeepsLevels(merge, w, p, job, f, ch, f.result.gen);
    }
    PhaseStable(merge, w, w', p, f);
    if f.CopyAttach? {
      CopyIsDurable(w, w', p, f.name, f.doc, a.rev, f.plan.copies[f.copy]);
    }
    WrittenPhaseIsOk(merge, w, w', p, job, f, ch);
  }

  lemma StepIsOk(merge: Merge, w: World, pid: Pid, p: Path, ch: Choice)
    requires Safe(merge, w, p) && pid in w.procs && w.procs[pid].job.path == p
    requires Possible(w, w.procs[pid].job, w.procs[pid].phase, ch)
    ensures var w' := Act(merge, w, pid, ch);
            Basic(w') && pid in w'.procs && PhaseOk(merge, w', p, w'.procs[pid].phase)
  {
    var Proc(job, f) := w.procs[pid];
    ActGrows(merge, w, pid, ch);
    var w' := Act(merge, w, pid, ch);
    match AttemptOf(w, job, f, ch)
    case NoWrite =>
      ReadOnlyIsOk(merge, w, pid, p, job, f, ch);
      SameDocsSamePhase(merge, w, w', p, w'.procs[pid].phase);
    case Refused =>
    case Accepted(q, r, n, _) =>
      WriteIsOk(merge, w, pid, p, job, f, ch);
      SameDocsSamePhase(merge, Wrote(w, Some(pid), q, r, n), w', p, w'.procs[pid].phase);
  }

  lemma SameDocsSamePhase(merge: Merge, w: World, w': World, p: Path, f: Phase)
    requires Basic(w) && w'.docs == w.docs && PhaseOk(merge, w, p, f)
    ensures Basic(w') && PhaseOk(merge, w', p, f)
  {
    PhaseStable(merge, w, w', p, f);
  }

  /** Whoever did not take the step is where it was, has just begun, or is done. */
  lemma ElsewhereUnmoved(merge: Merge, guarded: set<Path>, w: World, step: Label, w': World, pid: Pid)
    requires Basic(w) && Next(merge, guarded, w, step, w') && pid in w'.procs && !(step.Step? && step.pid == pid)
    ensures (pid in w.procs && w'.procs[pid] == w.procs[pid]) || w'.procs[pid].phase.Reading? || w'.procs[pid].phase.Finished?
  {
  }

  lemma WaitingIsOk(merge: Merge, w: World, w': World, p: Path, pid: Pid)
    requires Safe(merge, w, p) && Basic(w') && Grows(w, w') && pid in w.procs && w.procs[pid].job.path == p
    requires w.procs[pid].phase.Deleting? ==> AliveAt(Doc(w', p), w.procs[pid].phase.result.gen)
    ensures PhaseOk(merge, w', p, w.procs[pid].phase)
  {
    PhaseStable(merge, w, w', p, w.procs[pid].phase);
  }

  lemma MoverIsOk(merge: Merge, guarded: set<Path>, w: World, pid: Pid, ch: Choice, w': World, p: Path)
    requires Safe(merge, w, p) && Next(merge, guarded, w, Step(pid, ch), w') && pid in w'.procs && w'.procs[pid].job.path == p
    ensures Basic(w') && PhaseOk(merge, w', p, w'.procs[pid].phase)
  {
    StepIsOk(merge, w, pid, p, ch);
  }

  lemma DeletersKeepALevel(merge: Merge, guarded: set<Path>, w: World, step: Label, w': World, p: Path, pid: Pid)
    requires Safe(merge, w, p) && p in guarded && Next(merge, guarded, w, step, w')
    requires pid in w.procs && w.procs[pid].job.path == p
    ensures w.procs[pid].phase.Deleting? ==> AliveAt(Doc(w', p), w.procs[pid].phase.result.gen)
  {
    var f := w.procs[pid].phase;
    assert PhaseOk(merge, w, p, f);
    if f.Deleting? {
      LevelsKept(merge, guarded, w, step, w', p, f.result.gen);
    }
  }

  lemma NextIsSafe(merge: Merge, guarded: set<Path>, w: World, step: Label, w': World, p: Path)
    requires Safe(merge, w, p) && p in guarded && Next(merge, guarded, w, step, w')
    ensures Safe(merge, w', p)
  {
    NextGrows(merge, guarded, w, step, w');
    LevelsKept(merge, guarded, w, step, w', p, 0);
    forall pid | pid in w'.procs && w'.procs[pid].job.path == p
      ensures PhaseOk(merge, w', p, w'.procs[pid].phase)
    {
      if step.Step? && step.pid == pid {
        MoverIsOk(merge, guarded, w, pid, step.choice, w', p);
      } else {
        ElsewhereUnmoved(merge, guarded, w, step, w', pid);
        if pid in w.procs && w'.procs[pid] == w.procs[pid] {
          DeletersKeepALevel(merge, guarded, w, step, w', p, pid);
          WaitingIsOk(merge, w, w', p, pid);
        }
      }
    }
  }

  /** `p` is alive and no resolver is at work on it beyond its `get_doc`. */
  ghost predicate StartsAlive(w: World, p: Path) {
    && AliveLeaves(Doc(w, p)) != {}
    && forall pid :: pid in w.procs && w.procs[pid].job.path == p ==> w.procs[pid].phase.Reading? || w.procs[pid].phase.Finished?
  }

  lemma StepKeepsSafe(merge: Merge, guarded: set<Path>, ws: seq<World>, steps: seq<Label>, p: Path, i: nat)
    requires IsRun(merge, guarded, ws, steps) && p in guarded && i < |steps| && Safe(merge, ws[i], p)
    ensures Safe(merge, ws[i + 1], p)
  {
    assert Follows(merge, guarded, ws, steps, i);
    NextIsSafe(merge, guarded, ws[i], steps[i], ws[i + 1], p);
  }

  /** From any moment `s` at which `p` starts alive, be it created by then or by this run. */
  lemma {:induction false} RunIsSafe(merge: Merge, guarded: set<Path>, ws: seq<World>, steps: seq<Label>, p: Path, s: nat, i: nat)
    requires IsRun(merge, guarded, ws, steps) && p in guarded && s <= i < |ws| && StartsAlive(ws[s], p)
    ensures Safe(merge, ws[i], p)
  {
    if i == s {
      var l :| l in AliveLeaves(Doc(ws[s], p));
      assert IsAlive(Doc(ws[s], p), l);
      RunGrows(merge, guarded, ws, steps, s, s);
    } else {
      RunIsSafe(merge, guarded, ws, steps, p, s, i - 1);
      StepKeepsSafe(merge, guarded, ws, steps, p, i - 1);
    }
  }

  // ---- the theorems ----

  /** `steps[i]` is a resolver tombstoning the leaf `x` of `p`. */
  ghost predicate Tombstones(ws: seq<World>, steps: seq<Label>, p: Path, i: nat, x: Rev)
    requires i < |steps| && i < |ws|
  {
    && steps[i].Step? && steps[i].pid in ws[i].procs
    && var proc := ws[i].procs[steps[i].pid];
    && proc.job.path == p && proc.phase.Deleting?
    && proc.phase.next < |proc.phase.plan.loserRevs| && x == proc.phase.plan.loserRevs[proc.phase.next]
    && IsLeaf(Doc(ws[i], p), x)
  }

  /** `steps[i]` is a resolver completing its result on `p`, written over the winner `x`. */
  ghost predicate WritesOver(ws: seq<World>, steps: seq<Label>, p: Path, i: nat, x: Rev)
    requires i < |steps| && i < |ws|
  {
    && steps[i].Step? && steps[i].pid in ws[i].procs
    && var proc := ws[i].procs[steps[i].pid];
    && proc.job.path == p && proc.phase.Attaching? && x == proc.phase.plan.winnerRev
    && IsLeaf(Doc(ws[i], p), proc.phase.doc)
  }

  lemma GrowsTransitive(w: World, w': World, w'': World)
    requires Grows(w, w') && Grows(w', w'')
    ensures Grows(w, w'')
  {
    forall q ensures Extends(Doc(w, q), Doc(w'', q)) {
      assert Extends(Doc(w, q), Doc(w', q)) && Extends(Doc(w', q), Doc(w'', q));
    }
  }

  lemma StepGrows(merge: Merge, guarded: set<Path>, ws: seq<World>, steps: seq<Label>, i: nat)
    requires IsRun(merge, guarded, ws, steps) && i < |steps|
    ensures Basic(ws[i]) && Basic(ws[i + 1]) && Grows(ws[i], ws[i + 1])
  {
    assert Follows(merge, guarded, ws, steps, i);
    NextGrows(merge, guarded, ws[i], steps[i], ws[i + 1]);
  }

  lemma {:induction false} RunGrows(merge: Merge, guarded: set<Path>, ws: seq<World>, steps: seq<Label>, i: nat, j: nat)
    requires IsRun(merge, guarded, ws, steps) && i <= j < |ws|
    ensures Basic(ws[i]) && Basic(ws[j]) && Grows(ws[i], ws[j])
    decreases j
  {
    if i < j {
      StepGrows(merge, guarded, ws, steps, j - 1);
      RunGrows(merge, guarded, ws, steps, i, j - 1);
      GrowsTransitive(ws[i], ws[j - 1], ws[j]);
    } else if j > 0 {
      StepGrows(merge, guarded, ws, steps, j - 1);
    }
  }

  /** No data loss, in every interleaving: when a resolver tombstones a leaf, the leaf's exact content
      is already stored as a written result, as an input of the merge whose result was written, or as
      a conflict copy, and from then on it stays there. */
  lemma TombstonedIsPreserved(merge: Merge, guarded: set<Path>, ws: seq<World>, steps: seq<Label>, p: Path, s: nat, i: nat, j: nat, x: Rev)
    requires IsRun(merge, guarded, ws, steps) && p in guarded && s < |ws| && StartsAlive(ws[s], p)
    requires s <= i < |steps| && i <= j < |ws| && Tombstones(ws, steps, p, i, x)
    ensures Basic(ws[j]) && Preserved(merge, ws[j], p, x)
  {
    RunIsSafe(merge, guarded, ws, steps, p, s, i);
    var f := ws[i].procs[steps[i].pid].phase;
    assert PhaseOk(merge, ws[i], p, f);
    ResultPreserves(merge, ws[i], p, f.plan, f.result, x);
    RunGrows(merge, guarded, ws, steps, i, j);
    PreservedStable(merge, ws[i], ws[j], p, x);
  }

  /** The same for the winner a resolver writes its result over. */
  lemma OverwrittenIsPreserved(merge: Merge, guarded: set<Path>, ws: seq<World>, steps: seq<Label>, p: Path, s: nat, i: nat, j: nat, x: Rev)
    requires IsRun(merge, guarded, ws, steps) && p in guarded && s < |ws| && StartsAlive(ws[s], p)
    requires s <= i < |steps| && i < j < |ws| && WritesOver(ws, steps, p, i, x)
    ensures Basic(ws[j]) && Preserved(merge, ws[j], p, x)
  {
    RunIsSafe(merge, guarded, ws, steps, p, s, i);
    RunIsSafe(merge, guarded, ws, steps, p, s, i + 1);
    assert Follows(merge, guarded, ws, steps, i);
    var f := ws[i + 1].procs[steps[i].pid].phase;
    assert PhaseOk(merge, ws[i], p, ws[i].procs[steps[i].pid].phase);
    assert f.Deleting? && f.plan.winnerRev == x;
    assert PhaseOk(merge, ws[i + 1], p, f);
    ResultPreserves(merge, ws[i + 1], p, f.plan, f.result, x);
    RunGrows(merge, guarded, ws, steps, i + 1, j);
    PreservedStable(merge, ws[i + 1], ws[j], p, x);
  }

  /** A document that starts alive stays alive in every interleaving: `get_doc` always finds it, so
      `resolve_delete_winner` is never entered. */
  lemma NeverFullyDeleted(merge: Merge, guarded: set<Path>, ws: seq<World>, steps: seq<Label>, p: Path, s: nat, i: nat, pid: Pid)
    requires IsRun(merge, guarded, ws, steps) && p in guarded && s <= i < |ws| && StartsAlive(ws[s], p)
    ensures AliveLeaves(Doc(ws[i], p)) != {}
    ensures pid in ws[i].procs && ws[i].procs[pid].job.path == p ==> ws[i].procs[pid].phase != InDeleteWinner
  {
    RunIsSafe(merge, guarded, ws, steps, p, s, i);
    var l :| IsAlive(Doc(ws[i], p), l);
    assert l in AliveLeaves(Doc(ws[i], p));
  }

  /** Every resolver in its delete phase leaves some alive leaf outside its own list of losers. */
  lemma DeletersSpareALeaf(merge: Merge, guarded: set<Path>, ws: seq<World>, steps: seq<Label>, p: Path, s: nat, i: nat, pid: Pid)
    requires IsRun(merge, guarded, ws, steps) && p in guarded && s <= i < |ws| && StartsAlive(ws[s], p)
    requires pid in ws[i].procs && ws[i].procs[pid].job.path == p && ws[i].procs[pid].phase.Deleting?
    ensures exists l :: l in AliveLeaves(Doc(ws[i], p)) && l !in ws[i].procs[pid].phase.plan.loserRevs
  {
    RunIsSafe(merge, guarded, ws, steps, p, s, i);
    var f := ws[i].procs[pid].phase;
    var t := Doc(ws[i], p);
    assert PhaseOk(merge, ws[i], p, f);
    var l :| IsAlive(t, l) && l.gen >= f.result.gen;
    TwoUp(t, f.plan.winnerRev, f.result);
    assert l in AliveLeaves(t);
  }
}
