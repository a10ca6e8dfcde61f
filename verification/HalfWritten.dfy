/** The gap between `put_doc` and `put_attachment`: what becomes of a winner whose result is half written. */
module HalfWritten {
  import opened RevTree
  import opened Ancestry
  import opened Planning
  import opened CopyNames
  import opened Protocol
  import opened NoLoss

  // ---- at the step that retires the winner ----

  /** `steps[i]` is a resolver's accepted `put_doc` on its winner `x`: from here on `x` is no leaf, and the
      revision above it has no content yet. */
  ghost predicate Retires(ws: seq<World>, steps: seq<Label>, p: Path, i: nat, x: Rev)
    requires i < |steps| && i < |ws|
  {
    && steps[i].Step? && steps[i].pid in ws[i].procs
    && var proc := ws[i].procs[steps[i].pid];
    && proc.job.path == p && proc.phase.Writing? && proc.phase.plan.finalContent.Some?
    && x == proc.phase.plan.winnerRev && IsLeaf(Doc(ws[i], p), x)
  }

  /** The plan being carried out at `steps[i]` lists `x` as a conflict copy. */
  ghost predicate CopiedBy(ws: seq<World>, steps: seq<Label>, p: Path, i: nat, x: Rev)
    requires i < |steps| && i < |ws| && Retires(ws, steps, p, i, x)
  {
    HasContent(Doc(ws[i], p), x) && NodeCopy(Doc(ws[i], p)[x]) in ws[i].procs[steps[i].pid].phase.plan.copies
  }

  /** `steps[k]` is the accepted `put_attachment` on the result, by the resolver that made `steps[i]`. */
  ghost predicate OwnAttachment(ws: seq<World>, steps: seq<Label>, p: Path, i: nat, k: nat, x: Rev)
    requires i < |steps| && k < |steps| && |ws| == |steps| + 1
  {
    steps[k].Step? && steps[i].Step? && steps[k].pid == steps[i].pid && WritesOver(ws, steps, p, k, x)
  }

  /** The resolver that retired `x` had its `put_attachment` accepted between `i` and `j`. */
  ghost predicate Completed(ws: seq<World>, steps: seq<Label>, p: Path, i: nat, j: nat, x: Rev)
    requires i < |steps| && j < |ws| == |steps| + 1
  {
    exists k :: i < k < j && OwnAttachment(ws, steps, p, i, k, x)
  }

  lemma CopiedIsPreserved(merge: Merge, guarded: set<Path>, ws: seq<World>, steps: seq<Label>, p: Path, s: nat, i: nat, j: nat, x: Rev)
    requires IsRun(merge, guarded, ws, steps) && p in guarded && s < |ws| && StartsAlive(ws[s], p)
    requires s <= i < |steps| && i <= j < |ws| && Retires(ws, steps, p, i, x) && CopiedBy(ws, steps, p, i, x)
    ensures Basic(ws[j]) && Preserved(merge, ws[j], p, x)
  {
    RunIsSafe(merge, guarded, ws, steps, p, s, i);
    var plan := ws[i].procs[steps[i].pid].phase.plan;
    assert PhaseOk(merge, ws[i], p, Writing(plan));
    var k :| 0 <= k < |plan.copies| && plan.copies[k] == NodeCopy(Doc(ws[i], p)[x]);
    assert Durable(ws[i], p, plan.copies[k]);
    RunGrows(merge, guarded, ws, steps, i, j);
    PreservedStable(merge, ws[i], ws[j], p, x);
  }

  // ---- a revision without content preserves nothing ----

  lemma CarriedBefore(merge: Merge, t: Tree, r: Rev, n: Node, x: Rev, win: Rev, y: Rev)
    requires Wf(t) && r !in t && Grounded(t, r, n.parent) && n.content.None? && Wf(t[r := n])
    requires CarriedBy(merge, t[r := n], x, win, y)
    ensures CarriedBy(merge, t, x, win, y)
  {
    var t' := t[r := n];
    assert y in t && x in t;
    assert Grounded(t, y, t[y].parent);
    var d := t[y].parent.value;
    assert d in t && Grounded(t, d, t[d].parent);
    assert win in t;
    if t[y].content != t[x].content {
      var l :| MergesTo(merge, t', win, l, t'[y].content.value) && (x == win || x == l);
      assert l in t;
      BaseContentStable(t, t', win, l);
      assert MergesTo(merge, t, win, l, t[y].content.value);
    }
  }

  lemma DurableBefore(w: World, w': World, p: Path, q0: Path, r: Rev, n: Node, c: Copy)
    requires w'.docs == Added(w.docs, q0, r, n) && r !in Doc(w, q0) && Durable(w', p, c)
    requires IsCopyName(p, q0) ==> n.content.None?
    ensures Durable(w, p, c)
  {
    var q, y :| IsCopyName(p, q) && Holds(Doc(w', q), y, c);
    assert Holds(Doc(w, q), y, c);
  }

  /** The step from `w` to `w'` writes a revision with content to `p` or under a name for its copies. */
  ghost predicate WritesContent(w: World, w': World, p: Path) {
    && |w'.log| == |w.log| + 1
    && var e := w'.log[|w.log|];
       && (e.path == p || IsCopyName(p, e.path))
       && e.path in w'.docs && e.rev in w'.docs[e.path] && w'.docs[e.path][e.rev].content.Some?
  }

  ghost predicate ContentAt(ws: seq<World>, p: Path, k: nat)
    requires k + 1 < |ws|
  {
    WritesContent(ws[k], ws[k + 1], p)
  }

  lemma OnlyContentPreserves(merge: Merge, w: World, w': World, who: Option<Pid>, p: Path, x: Rev)
    requires Basic(w) && Basic(w') && AtMostOneWrite(w, w', who) && x in Doc(w, p)
    requires !WritesContent(w, w', p) && Preserved(merge, w', p, x)
    ensures Preserved(merge, w, p, x)
  {
    var t, t' := Doc(w, p), Doc(w', p);
    if w'.log == w.log {
      SameDocument(merge, w, w', p, x);
    } else {
      var e := w'.log[|w.log|];
      var n := w'.docs[e.path][e.rev];
      if win, y :| CarriedBy(merge, t', x, win, y) {
        if e.path == p {
          assert Grounded(t', e.rev, n.parent);
          CarriedBefore(merge, t, e.rev, n, x, win, y);
        } else {
          assert CarriedBy(merge, t, x, win, y);
        }
      } else {
        DurableBefore(w, w', p, e.path, e.rev, n, NodeCopy(t'[x]));
      }
    }
  }

  lemma SameDocument(merge: Merge, w: World, w': World, p: Path, x: Rev)
    requires Basic(w) && w'.docs == w.docs && Preserved(merge, w', p, x)
    ensures Preserved(merge, w, p, x)
  {
    var t := Doc(w, p);
    assert Doc(w', p) == t;
    if win, y :| CarriedBy(merge, t, x, win, y) {
    } else {
      var q, r :| IsCopyName(p, q) && Holds(Doc(w', q), r, NodeCopy(t[x]));
      assert Holds(Doc(w, q), r, NodeCopy(t[x]));
    }
  }

  lemma StepWritesOnce(merge: Merge, guarded: set<Path>, ws: seq<World>, steps: seq<Label>, i: nat)
    requires IsRun(merge, guarded, ws, steps) && i < |steps|
    ensures Basic(ws[i]) && Basic(ws[i + 1]) && Grows(ws[i], ws[i + 1]) && AtMostOneWrite(ws[i], ws[i + 1], Author(steps[i]))
  {
    assert Follows(merge, guarded, ws, steps, i);
    NextGrows(merge, guarded, ws[i], steps[i], ws[i + 1]);
  }

  /** Between two moments of a run a revision comes to be preserved only by a write with content. */
  lemma {:induction false} PreservedBySomeWrite(merge: Merge, guarded: set<Path>, ws: seq<World>, steps: seq<Label>, p: Path, i: nat, j: nat,
                                                x: Rev)
    requires IsRun(merge, guarded, ws, steps) && i <= j < |ws| && x in Doc(ws[i], p)
    ensures Basic(ws[i]) && Basic(ws[j])
    ensures Preserved(merge, ws[j], p, x) ==>
      Preserved(merge, ws[i], p, x) || exists k :: i <= k < j && ContentAt(ws, p, k)
    decreases j
  {
    RunGrows(merge, guarded, ws, steps, i, j);
    if i < j {
      PreservedBySomeWrite(merge, guarded, ws, steps, p, i, j - 1, x);
      RunGrows(merge, guarded, ws, steps, i, j - 1);
      StepWritesOnce(merge, guarded, ws, steps, j - 1);
      assert Extends(Doc(ws[i], p), Doc(ws[j - 1], p));
      if Preserved(merge, ws[j], p, x) && !ContentAt(ws, p, j - 1) {
        OnlyContentPreserves(merge, ws[j - 1], ws[j], Author(steps[j - 1]), p, x);
      }
    }
  }

  lemma RetiringWritesNoContent(merge: Merge, guarded: set<Path>, ws: seq<World>, steps: seq<Label>, p: Path, i: nat, x: Rev)
    requires IsRun(merge, guarded, ws, steps) && i < |steps| && Retires(ws, steps, p, i, x)
    ensures !ContentAt(ws, p, i) && !IsLeaf(Doc(ws[i + 1], p), x)
  {
    assert Follows(merge, guarded, ws, steps, i);
    var Proc(job, f) := ws[i].procs[steps[i].pid];
    var a := AttemptOf(ws[i], job, f, steps[i].choice);
    assert a.Accepted? && a.path == p && a.node == DocNode(Some(x), f.plan.finalMtime, f.plan.finalCtype);
    assert Doc(ws[i + 1], p)[a.rev].parent == Some(x);
  }

  // ---- the theorem ----

  /** A resolver's winner is no leaf any more once its `put_doc` is accepted. It is preserved for good if the
      plan had it as a copy, or once the same resolver's attachment lands. Otherwise it is preserved only if
      it was before, or if somebody writes a revision with content afterwards: half a result preserves
      nothing. */
  lemma RetiredIsPreserved(merge: Merge, guarded: set<Path>, ws: seq<World>, steps: seq<Label>, p: Path, s: nat, i: nat, j: nat, x: Rev)
    requires IsRun(merge, guarded, ws, steps) && p in guarded && s < |ws| && StartsAlive(ws[s], p)
    requires s <= i < |steps| && i < j < |ws| && Retires(ws, steps, p, i, x)
    ensures Basic(ws[i]) && Basic(ws[j]) && !IsLeaf(Doc(ws[i + 1], p), x)
    ensures CopiedBy(ws, steps, p, i, x) || Completed(ws, steps, p, i, j, x) || Preserved(merge, ws[i], p, x) ==>
      Preserved(merge, ws[j], p, x)
    ensures Preserved(merge, ws[j], p, x) ==>
      Preserved(merge, ws[i], p, x) || exists k :: i < k < j && ContentAt(ws, p, k)
  {
    RunGrows(merge, guarded, ws, steps, i, j);
    if CopiedBy(ws, steps, p, i, x) {
      CopiedIsPreserved(merge, guarded, ws, steps, p, s, i, j, x);
    }
    if Completed(ws, steps, p, i, j, x) {
      var k :| i < k < j && OwnAttachment(ws, steps, p, i, k, x);
      OverwrittenIsPreserved(merge, guarded, ws, steps, p, s, k, j, x);
    }
    if Preserved(merge, ws[i], p, x) {
      PreservedStable(merge, ws[i], ws[j], p, x);
    }
    RetiringWritesNoContent(merge, guarded, ws, steps, p, i, x);
    PreservedBySomeWrite(merge, guarded, ws, steps, p, i, j, x);
  }

  /** Nobody but the resolver that retired `x` writes content to `p`, or under a name for its copies, between
      `i` and `j`. */
  ghost predicate OnlyOwnContent(ws: seq<World>, steps: seq<Label>, p: Path, i: nat, j: nat, x: Rev)
    requires i < |steps| && j < |ws| == |steps| + 1
  {
    forall k :: i < k < j && ContentAt(ws, p, k) ==> OwnAttachment(ws, steps, p, i, k, x)
  }

  /** Left to its resolver, a retired winner is preserved exactly when it was before, when the plan had it as a
      copy, or when the attachment landed. */
  lemma RetiredIsPreservedIff(merge: Merge, guarded: set<Path>, ws: seq<World>, steps: seq<Label>, p: Path, s: nat, i: nat, j: nat, x: Rev)
    requires IsRun(merge, guarded, ws, steps) && p in guarded && s < |ws| && StartsAlive(ws[s], p)
    requires s <= i < |steps| && i < j < |ws| && Retires(ws, steps, p, i, x) && OnlyOwnContent(ws, steps, p, i, j, x)
    ensures Basic(ws[i]) && Basic(ws[j])
    ensures Preserved(merge, ws[j], p, x) <==>
      Preserved(merge, ws[i], p, x) || CopiedBy(ws, steps, p, i, x) || Completed(ws, steps, p, i, j, x)
  {
    RetiredIsPreserved(merge, guarded, ws, steps, p, s, i, j, x);
    if Preserved(merge, ws[j], p, x) && !Preserved(merge, ws[i], p, x) {
      var k :| i < k < j && ContentAt(ws, p, k);
      assert OwnAttachment(ws, steps, p, i, k, x);
    }
  }

  // ---- who meets the half-written revision ----

  /** What `pid` has fetched is what is stored. */
  ghost predicate FetchedSoFar(w: World, pid: Pid)
    requires Basic(w)
  {
    pid in w.procs && w.procs[pid].phase.Fetching? ==>
      ReadSoFar(Doc(w, w.procs[pid].job.path), w.procs[pid].phase.revs, w.procs[pid].phase.leaves)
  }

  lemma OwnStepFetches(merge: Merge, w: World, pid: Pid, ch: Choice)
    requires Basic(w) && pid in w.procs && Possible(w, w.procs[pid].job, w.procs[pid].phase, ch) && FetchedSoFar(w, pid)
    requires Basic(Act(merge, w, pid, ch))
    ensures FetchedSoFar(Act(merge, w, pid, ch), pid)
  {
    var Proc(job, f) := w.procs[pid];
    var w' := Act(merge, w, pid, ch);
    if f.Fetching? {
      assert Doc(w', job.path) == Doc(w, job.path);
    }
  }

  lemma ForeignStepFetches(w: World, w': World, pid: Pid)
    requires Basic(w) && Basic(w') && Grows(w, w') && FetchedSoFar(w, pid)
    requires pid in w.procs && pid in w'.procs && w'.procs[pid] == w.procs[pid]
    ensures FetchedSoFar(w', pid)
  {
    var Proc(job, f) := w.procs[pid];
    assert Extends(Doc(w, job.path), Doc(w', job.path));
    if f.Fetching? {
      ReadStable(Doc(w, job.path), Doc(w', job.path), f.revs, f.leaves);
    }
  }

  lemma StepFetches(merge: Merge, guarded: set<Path>, w: World, step: Label, w': World, pid: Pid)
    requires Basic(w) && Next(merge, guarded, w, step, w') && Basic(w') && Grows(w, w') && FetchedSoFar(w, pid)
    ensures FetchedSoFar(w', pid)
  {
    if step.Step? && step.pid == pid {
      OwnStepFetches(merge, w, pid, step.choice);
    } else if pid in w'.procs {
      ElsewhereUnmoved(merge, guarded, w, step, w', pid);
      if pid in w.procs && w'.procs[pid] == w.procs[pid] {
        ForeignStepFetches(w, w', pid);
      }
    }
  }

  lemma StepKeepsFetched(merge: Merge, guarded: set<Path>, ws: seq<World>, steps: seq<Label>, i: nat, pid: Pid)
    requires IsRun(merge, guarded, ws, steps) && i < |steps| && Basic(ws[i]) && FetchedSoFar(ws[i], pid)
    ensures Basic(ws[i + 1]) && FetchedSoFar(ws[i + 1], pid)
  {
    StepGrows(merge, guarded, ws, steps, i);
    assert Follows(merge, guarded, ws, steps, i);
    StepFetches(merge, guarded, ws[i], steps[i], ws[i + 1], pid);
  }

  lemma {:induction false} RunFetches(merge: Merge, guarded: set<Path>, ws: seq<World>, steps: seq<Label>, i: nat, pid: Pid)
    requires IsRun(merge, guarded, ws, steps) && pid !in ws[0].procs && i < |ws|
    ensures Basic(ws[i]) && FetchedSoFar(ws[i], pid)
  {
    if i > 0 {
      RunFetches(merge, guarded, ws, steps, i - 1, pid);
      StepKeepsFetched(merge, guarded, ws, steps, i - 1, pid);
    }
  }

  /** Still fetching `revs` on `p`, or failed. */
  ghost predicate Stuck(w: World, pid: Pid, p: Path, revs: seq<Rev>) {
    && pid in w.procs && w.procs[pid].job.path == p
    && (w.procs[pid].phase == Finished(Failed) || (w.procs[pid].phase.Fetching? && w.procs[pid].phase.revs == revs))
  }

  ghost predicate HalfDone(t: Tree, d: Rev) {
    d in t && !t[d].deleted && t[d].content.None?
  }

  lemma OwnStepStuck(merge: Merge, w: World, pid: Pid, ch: Choice, p: Path, revs: seq<Rev>, d: Rev)
    requires Basic(w) && Stuck(w, pid, p, revs) && d in revs && HalfDone(Doc(w, p), d) && FetchedSoFar(w, pid)
    ensures Stuck(Act(merge, w, pid, ch), pid, p, revs) && Act(merge, w, pid, ch).log == w.log
  {
    var f := w.procs[pid].phase;
    if f.Fetching? {
      var k :| 0 <= k < |revs| && revs[k] == d;
      assert ReadLeaf(Doc(w, p), d).None?;
      assert k >= |f.leaves|;
    }
  }

  lemma StepStuck(merge: Merge, guarded: set<Path>, w: World, step: Label, w': World, pid: Pid, p: Path, revs: seq<Rev>, d: Rev)
    requires Basic(w) && Next(merge, guarded, w, step, w')
    requires Stuck(w, pid, p, revs) && d in revs && HalfDone(Doc(w, p), d) && FetchedSoFar(w, pid)
    ensures Stuck(w', pid, p, revs) && w.log <= w'.log
    ensures forall k :: |w.log| <= k < |w'.log| ==> w'.log[k].author != Some(pid)
  {
    NextGrows(merge, guarded, w, step, w');
    if step.Step? && step.pid == pid {
      OwnStepStuck(merge, w, pid, step.choice, p, revs, d);
    }
  }

  /** A resolver that finds a revision without content among its leaves never plans and never writes: at every
      later moment of every run it is fetching still or has failed. */
  lemma {:induction false} HalfDoneStopsResolvers(merge: Merge, guarded: set<Path>, ws: seq<World>, steps: seq<Label>, p: Path, i: nat, j: nat,
                                                  pid: Pid, d: Rev)
    requires IsRun(merge, guarded, ws, steps) && pid !in ws[0].procs && i <= j < |ws|
    requires pid in ws[i].procs && ws[i].procs[pid].job.path == p && ws[i].procs[pid].phase.Fetching?
    requires d in ws[i].procs[pid].phase.revs && HalfDone(Doc(ws[i], p), d)
    ensures Stuck(ws[j], pid, p, ws[i].procs[pid].phase.revs) && HalfDone(Doc(ws[j], p), d) && ws[i].log <= ws[j].log
    ensures forall k :: |ws[i].log| <= k < |ws[j].log| ==> ws[j].log[k].author != Some(pid)
    decreases j
  {
    if i < j {
      HalfDoneStopsResolvers(merge, guarded, ws, steps, p, i, j - 1, pid, d);
      RunFetches(merge, guarded, ws, steps, j - 1, pid);
      StepGrows(merge, guarded, ws, steps, j - 1);
      assert Extends(Doc(ws[j - 1], p), Doc(ws[j], p));
      assert Follows(merge, guarded, ws, steps, j - 1);
      StepStuck(merge, guarded, ws[j - 1], steps[j - 1], ws[j], pid, p, ws[i].procs[pid].phase.revs, d);
    }
  }

  // ---- a run that ends half-way ----

  const FILE: Path := "f"
  const A: Rev := Rev(1, 2)
  const B: Rev := Rev(1, 1)
  const D: Rev := Rev(2, 7)
  const NODE_A: Node := Node(None, false, 0, "", Some([1]))
  const NODE_B: Node := Node(None, false, 0, "", Some([2]))
  const LEAF_A: Leaf := Leaf(A, false, 0, "", [1], Some(Revisions(1, [2])))
  const LEAF_B: Leaf := Leaf(B, false, 0, "", [2], Some(Revisions(1, [1])))
  const JOB: Job := Job(FILE, 0, 0, 0)
  const CHOICE: Choice := Choice(7, [B], "", true)

  /** Two devices created the same file; nothing else is stored. */
  const TWO_ROOTS: Tree := map[A := NODE_A, B := NODE_B]

  lemma TwoRoots()
    ensures Wf(TWO_ROOTS) && AliveLeaves(TWO_ROOTS) == {A, B} && Winner(TWO_ROOTS) == A && Lists(TWO_ROOTS, [B])
    ensures ReadLeaf(TWO_ROOTS, A) == Some(LEAF_A) && ReadLeaf(TWO_ROOTS, B) == Some(LEAF_B)
  {
    var t := TWO_ROOTS;
    assert Grounded(t, A, t[A].parent) && Grounded(t, B, t[B].parent);
    assert IsAlive(t, A) && IsAlive(t, B);
    assert AliveLeaves(t) == {A, B};
    assert Below(A, Winner(t));
    assert Ids(History(t, A)) == [2] && Ids(History(t, B)) == [1];
  }

  function MergedPlan(merged: Bytes): Plan {
    Plan(Merged, A, Some(merged), 0, "", [], [B])
  }

  lemma TwoRootsMerge(merge: Merge, lookup: Lookup, merged: Bytes)
    requires merge([], [1], [2]) == Some(merged)
    ensures PlanResolution([LEAF_A, LEAF_B], A, lookup, merge) == Some(MergedPlan(merged))
  {
    var leaves := [LEAF_A, LEAF_B];
    FilterPair(IsRev(A), LEAF_A, LEAF_B);
    FilterPair(IsNotRev(A), LEAF_A, LEAF_B);
    FilterPair(NotDeleted, LEAF_A, LEAF_B);
    assert leaves[0] == LEAF_A;
    AliveWinnerPlans(leaves, LEAF_A, lookup, merge);
    assert RevsOf([LEAF_B]) == [B];
    assert CommonAncestor([2], 1, [1]) == None;
    assert MergeBase(LEAF_A, LEAF_B, lookup) == [];
    assert PlanEditVsEdit(LEAF_A, LEAF_B, [B], lookup, merge) == MergedPlan(merged);
    assert LEAF_A.rev == A;
    assert PlanResolution(leaves, A, lookup, merge) == Some(AliveWinnerPlan(leaves, LEAF_A, lookup, merge));
    assert Filter(IsNotRev(A), leaves) == [LEAF_B];
    assert Filter(NotDeleted, leaves) == [LEAF_A, LEAF_B];
    assert AliveWinnerPlan(leaves, LEAF_A, lookup, merge) == PlanEditVsEdit(LEAF_A, LEAF_B, [B], lookup, merge);
  }

  function Start(): World {
    World(map[FILE := TWO_ROOTS], [], map[])
  }

  function At(f: Phase): World {
    Moved(Start(), 0, JOB, f)
  }

  function Written(merged: Bytes): World {
    Wrote(At(Writing(MergedPlan(merged))), Some(0), FILE, D, DocNode(Some(A), 0, ""))
  }

  function Worlds(merged: Bytes): seq<World> {
    [Start(), At(Reading), At(Fetching(A, [A, B], [])), At(Fetching(A, [A, B], [LEAF_A])),
     At(Fetching(A, [A, B], [LEAF_A, LEAF_B])), At(Writing(MergedPlan(merged))),
     Moved(Written(merged), 0, JOB, Attaching(MergedPlan(merged), D)),
     Moved(Written(merged), 0, JOB, Finished(Failed))]
  }

  function Steps(): seq<Label> {
    [Spawn(0, FILE), Step(0, CHOICE), Step(0, CHOICE), Step(0, CHOICE), Step(0, CHOICE), Step(0, CHOICE), Crash(0)]
  }

  lemma OneMove(merge: Merge, f: Phase, f': Phase)
    requires WfDocs(Start().docs) && Possible(At(f), JOB, f, CHOICE) && Act(merge, At(f), 0, CHOICE) == Moved(At(f), 0, JOB, f')
    ensures Next(merge, {FILE}, At(f), Step(0, CHOICE), At(f'))
  {
    assert Moved(At(f), 0, JOB, f') == At(f');
  }

  lemma SpawnFollows(merge: Merge, merged: Bytes)
    ensures Follows(merge, {FILE}, Worlds(merged), Steps(), 0)
  {
    TwoRoots();
    assert At(Reading) == Moved(Start(), 0, Job(FILE, 0, 0, 0), Reading);
  }

  lemma ReadingFollows(merge: Merge, merged: Bytes)
    ensures Follows(merge, {FILE}, Worlds(merged), Steps(), 1)
  {
    TwoRoots();
    assert [A] + [B] == [A, B];
    OneMove(merge, Reading, Fetching(A, [A, B], []));
  }

  lemma FirstFetchFollows(merge: Merge, merged: Bytes)
    ensures Follows(merge, {FILE}, Worlds(merged), Steps(), 2)
  {
    TwoRoots();
    assert [] + [LEAF_A] == [LEAF_A];
    OneMove(merge, Fetching(A, [A, B], []), Fetching(A, [A, B], [LEAF_A]));
  }

  lemma SecondFetchFollows(merge: Merge, merged: Bytes)
    ensures Follows(merge, {FILE}, Worlds(merged), Steps(), 3)
  {
    TwoRoots();
    assert [LEAF_A] + [LEAF_B] == [LEAF_A, LEAF_B];
    OneMove(merge, Fetching(A, [A, B], [LEAF_A]), Fetching(A, [A, B], [LEAF_A, LEAF_B]));
  }

  lemma PlanFollows(merge: Merge, merged: Bytes)
    requires merge([], [1], [2]) == Some(merged)
    ensures Follows(merge, {FILE}, Worlds(merged), Steps(), 4)
  {
    TwoRoots();
    TwoRootsMerge(merge, LookupIn(TWO_ROOTS), merged);
    OneMove(merge, Fetching(A, [A, B], [LEAF_A, LEAF_B]), Writing(MergedPlan(merged)));
  }

  lemma WriteFollows(merge: Merge, merged: Bytes)
    ensures Follows(merge, {FILE}, Worlds(merged), Steps(), 5)
  {
    TwoRoots();
    var w := At(Writing(MergedPlan(merged)));
    assert IsLeaf(Doc(w, FILE), A);
    assert AttemptOf(w, JOB, Writing(MergedPlan(merged)), CHOICE)
        == Accepted(FILE, D, DocNode(Some(A), 0, ""), Attaching(MergedPlan(merged), D));
  }

  lemma CrashFollows(merge: Merge, merged: Bytes)
    ensures Follows(merge, {FILE}, Worlds(merged), Steps(), 6)
  {
    TwoRoots();
    AddedGrows(Start().docs, FILE, D, DocNode(Some(A), 0, ""));
    assert Written(merged).docs == Added(Start().docs, FILE, D, DocNode(Some(A), 0, ""));
    assert Worlds(merged)[7] == Moved(Worlds(merged)[6], 0, JOB, Finished(Failed));
  }

  lemma SevenSteps(merge: Merge, ws: seq<World>, steps: seq<Label>)
    requires |ws| == 8 && |steps| == 7 && Basic(ws[0])
    requires Follows(merge, {FILE}, ws, steps, 0) && Follows(merge, {FILE}, ws, steps, 1)
    requires Follows(merge, {FILE}, ws, steps, 2) && Follows(merge, {FILE}, ws, steps, 3)
    requires Follows(merge, {FILE}, ws, steps, 4) && Follows(merge, {FILE}, ws, steps, 5) && Follows(merge, {FILE}, ws, steps, 6)
    ensures IsRun(merge, {FILE}, ws, steps)
  {
    forall i: nat | i < |steps| ensures Follows(merge, {FILE}, ws, steps, i) {
      assert i == 0 || i == 1 || i == 2 || i == 3 || i == 4 || i == 5 || i == 6;
    }
  }

  lemma WorldsFollow(merge: Merge, merged: Bytes)
    requires merge([], [1], [2]) == Some(merged)
    ensures IsRun(merge, {FILE}, Worlds(merged), Steps())
  {
    TwoRoots();
    SpawnFollows(merge, merged);
    ReadingFollows(merge, merged);
    FirstFetchFollows(merge, merged);
    SecondFetchFollows(merge, merged);
    PlanFollows(merge, merged);
    WriteFollows(merge, merged);
    CrashFollows(merge, merged);
    SevenSteps(merge, Worlds(merged), Steps());
  }

  /** A resolver that stops between its two writes: the winner it wrote on is no leaf any more, its content is
      preserved nowhere, and what stands above it has no content. */
  lemma HalfWrittenLosesTheWinner(merge: Merge, merged: Bytes) returns (ws: seq<World>, steps: seq<Label>)
    requires merge([], [1], [2]) == Some(merged)
    ensures IsRun(merge, {FILE}, ws, steps) && StartsAlive(ws[0], FILE) && |steps| == 7
    ensures HasContent(Doc(ws[0], FILE), A) && Retires(ws, steps, FILE, 5, A)
    ensures Basic(ws[7]) && !Preserved(merge, ws[7], FILE, A)
    ensures AliveLeaves(Doc(ws[7], FILE)) == {B, D} && Doc(ws[7], FILE)[D].content == None
    ensures forall l :: l in AliveLeaves(Doc(ws[7], FILE)) ==> Doc(ws[7], FILE)[l].content != Doc(ws[0], FILE)[A].content
  {
    ws, steps := Worlds(merged), Steps();
    WorldsFollow(merge, merged);
    TwoRoots();
    var t := Doc(ws[7], FILE);
    AliveAfterAdd(TWO_ROOTS, D, DocNode(Some(A), 0, ""));
    AddedGrows(Start().docs, FILE, D, DocNode(Some(A), 0, ""));
    assert t == TWO_ROOTS[D := DocNode(Some(A), 0, "")];
    forall win, y ensures !CarriedBy(merge, t, A, win, y) {
    }
    forall q, r | IsCopyName(FILE, q) ensures !Holds(Doc(ws[7], q), r, NodeCopy(t[A])) {
      CopyNameDiffers(FILE, q);
      assert Doc(ws[7], q) == map[];
    }
  }

  // ---- a run in which the attachment is refused ----

  const E: Rev := Rev(3, 9)

  /** Somebody else attaches `bytes` to the half-written revision. */
  function Overtaken(merged: Bytes, bytes: Bytes): World {
    var w := Worlds(merged)[6];
    Wrote(w, None, FILE, E, AttachedNode(Doc(w, FILE), D, bytes))
  }

  function OvertakenWorlds(merged: Bytes, bytes: Bytes): seq<World> {
    Worlds(merged)[..7] + [Overtaken(merged, bytes), Retried(Overtaken(merged, bytes), 0, JOB)]
  }

  function OvertakenSteps(bytes: Bytes): seq<Label> {
    Steps()[..6] + [External(FILE, E, Attach(D, bytes)), Step(0, CHOICE)]
  }

  lemma OvertakingFollows(merge: Merge, merged: Bytes, bytes: Bytes)
    ensures WfDocs(Worlds(merged)[6].docs)
    ensures Next(merge, {FILE}, Worlds(merged)[6], External(FILE, E, Attach(D, bytes)), Overtaken(merged, bytes))
  {
    CrashFollows(merge, merged);
    AliveAfterAdd(TWO_ROOTS, D, DocNode(Some(A), 0, ""));
    assert Doc(Worlds(merged)[6], FILE) == TWO_ROOTS[D := DocNode(Some(A), 0, "")];
  }

  lemma RefusalFollows(merge: Merge, merged: Bytes, bytes: Bytes)
    ensures WfDocs(Overtaken(merged, bytes).docs)
    ensures Next(merge, {FILE}, Overtaken(merged, bytes), Step(0, CHOICE), Retried(Overtaken(merged, bytes), 0, JOB))
  {
    OvertakingFollows(merge, merged, bytes);
    var w, w' := Worlds(merged)[6], Overtaken(merged, bytes);
    WroteGrows(w, None, FILE, E, AttachedNode(Doc(w, FILE), D, bytes));
    assert w'.procs[0] == Proc(JOB, Attaching(MergedPlan(merged), D));
    assert Doc(w', FILE)[E].parent == Some(D);
    assert AttemptOf(w', JOB, Attaching(MergedPlan(merged), D), CHOICE) == Refused;
  }

  lemma EightSteps(merge: Merge, ws: seq<World>, steps: seq<Label>, ws': seq<World>, steps': seq<Label>)
    requires IsRun(merge, {FILE}, ws, steps) && |steps| == 7 && |ws'| == 9 && |steps'| == 8
    requires ws'[..7] == ws[..7] && steps'[..6] == steps[..6]
    requires Basic(ws'[6]) && Next(merge, {FILE}, ws'[6], steps'[6], ws'[7])
    requires Basic(ws'[7]) && Next(merge, {FILE}, ws'[7], steps'[7], ws'[8])
    ensures IsRun(merge, {FILE}, ws', steps')
  {
    forall i: nat | i < 7 ensures ws'[i] == ws[i] && (i < 6 ==> steps'[i] == steps[i]) {
      assert ws'[..7][i] == ws[..7][i] && (i < 6 ==> steps'[..6][i] == steps[..6][i]);
    }
    forall i: nat | i < |steps'| ensures Follows(merge, {FILE}, ws', steps', i) {
      if i < 6 {
        assert Follows(merge, {FILE}, ws, steps, i);
      } else {
        assert i == 6 || i == 7;
      }
    }
  }

  lemma OvertakenFollows(merge: Merge, merged: Bytes, bytes: Bytes)
    requires merge([], [1], [2]) == Some(merged)
    ensures IsRun(merge, {FILE}, OvertakenWorlds(merged, bytes), OvertakenSteps(bytes))
  {
    WorldsFollow(merge, merged);
    OvertakingFollows(merge, merged, bytes);
    RefusalFollows(merge, merged, bytes);
    EightSteps(merge, Worlds(merged), Steps(), OvertakenWorlds(merged, bytes), OvertakenSteps(bytes));
  }

  lemma OvertakenStarts(merged: Bytes, bytes: Bytes)
    ensures var ws, steps := OvertakenWorlds(merged, bytes), OvertakenSteps(bytes);
            && |ws| == 9 && |steps| == 8 && StartsAlive(ws[0], FILE) && HasContent(Doc(ws[0], FILE), A)
            && Retires(ws, steps, FILE, 5, A)
  {
    TwoRoots();
    assert Doc(Start(), FILE) == TWO_ROOTS;
    assert A in AliveLeaves(TWO_ROOTS);
  }

  lemma OvertakenEnds(merged: Bytes, bytes: Bytes)
    ensures var ws := OvertakenWorlds(merged, bytes);
            var t6 := TWO_ROOTS[D := DocNode(Some(A), 0, "")];
            && 0 in ws[8].procs && ws[8].procs[0].phase == Reading
            && ws[8].docs == map[FILE := t6[E := AttachedNode(t6, D, bytes)]]
  {
    assert Doc(Worlds(merged)[6], FILE) == TWO_ROOTS[D := DocNode(Some(A), 0, "")];
  }

  /** Nobody stops here: somebody writes on the half-written revision before the resolver does. Its attachment
      is refused, it starts over, and the winner it had retired is preserved nowhere. */
  lemma OvertakenLosesTheWinner(merge: Merge, merged: Bytes, bytes: Bytes) returns (ws: seq<World>, steps: seq<Label>)
    requires merge([], [1], [2]) == Some(merged)
    requires bytes != [1] && forall b, x, y :: merge(b, x, y) != Some(bytes)
    ensures IsRun(merge, {FILE}, ws, steps) && StartsAlive(ws[0], FILE) && |steps| == 8 && Crash(0) !in steps
    ensures HasContent(Doc(ws[0], FILE), A) && Retires(ws, steps, FILE, 5, A)
    ensures 0 in ws[8].procs && ws[8].procs[0].phase == Reading
    ensures Basic(ws[8]) && !Preserved(merge, ws[8], FILE, A)
  {
    ws, steps := OvertakenWorlds(merged, bytes), OvertakenSteps(bytes);
    OvertakenFollows(merge, merged, bytes);
    OvertakenStarts(merged, bytes);
    OvertakenEnds(merged, bytes);
    RunGrows(merge, {FILE}, ws, steps, 0, 8);
    OvertakenKeepsNothing(merge, ws[8], bytes);
  }

  lemma OvertakenKeepsNothing(merge: Merge, w: World, bytes: Bytes)
    requires Basic(w) && bytes != [1] && forall b, x, y :: merge(b, x, y) != Some(bytes)
    requires var t6 := TWO_ROOTS[D := DocNode(Some(A), 0, "")];
             w.docs == map[FILE := t6[E := AttachedNode(t6, D, bytes)]]
    ensures !Preserved(merge, w, FILE, A)
  {
    var t := Doc(w, FILE);
    forall win, y ensures !CarriedBy(merge, t, A, win, y) {
    }
    forall q, r | IsCopyName(FILE, q) ensures !Holds(Doc(w, q), r, NodeCopy(t[A])) {
      CopyNameDiffers(FILE, q);
      assert Doc(w, q) == map[];
    }
  }
}
