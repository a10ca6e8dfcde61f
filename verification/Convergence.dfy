/** Racing resolvers converge: once one of them is through and nobody else writes, one alive leaf is left. */
module Convergence {
  import opened RevTree
  import opened Planning
  import opened CopyNames
  import opened Protocol
  import opened NoLoss

  // ---- a resolver's write never adds an alive leaf ----

  lemma ReplacedOne(s: set<Rev>, x: Rev, r: Rev)
    requires x in s
    ensures |(set a | a in s && a != x) + {r}| <= |s|
    ensures |set a | a in s && a != x| == |s| - 1
  {
    assert (set a | a in s && a != x) == s - {x};
    assert |(s - {x}) + {r}| <= |s - {x}| + 1;
  }

  /** A write on an alive leaf replaces it, or buries it. */
  lemma WriteOnLeaf(t: Tree, r: Rev, n: Node)
    requires Wf(t) && r !in t && Grounded(t, r, n.parent) && n.parent.Some? && IsAlive(t, n.parent.value)
    ensures |AliveLeaves(t[r := n])| <= |AliveLeaves(t)|
    ensures n.deleted ==> |AliveLeaves(t[r := n])| == |AliveLeaves(t)| - 1
  {
    AliveAfterAdd(t, r, n);
    var x := n.parent.value;
    ReplacedOne(AliveLeaves(t), x, r);
    assert (set a | a in AliveLeaves(t) && n.parent != Some(a)) == (set a | a in AliveLeaves(t) && a != x);
    assert (set a | a in AliveLeaves(t) && a != x) + {} == (set a | a in AliveLeaves(t) && a != x);
  }

  /** A resolver of `p` writes on `p` on an alive leaf only. */
  lemma OwnParentIsAlive(merge: Merge, w: World, p: Path, job: Job, f: Phase, ch: Choice)
    requires Safe(merge, w, p) && job.path == p && PhaseOk(merge, w, p, f)
    requires AttemptOf(w, job, f, ch).Accepted? && AttemptOf(w, job, f, ch).path == p
    ensures var a := AttemptOf(w, job, f, ch); a.node.parent.Some? && IsAlive(Doc(w, p), a.node.parent.value)
    ensures AttemptOf(w, job, f, ch).node.deleted <==> f.Deleting?
  {
    match f
    case CopyPut(_, _, name) => CopyNameDiffers(p, name);
    case CopyAttach(_, _, name, _) => CopyNameDiffers(p, name);
    case Writing(plan) => assert Provided(merge, Doc(w, p), plan, plan.winnerRev);
    case Deleting(plan, _, next) => assert Provided(merge, Doc(w, p), plan, plan.loserRevs[next]);
    case _ =>
  }

  function AliveCount(w: World, p: Path): nat {
    |AliveLeaves(Doc(w, p))|
  }

  lemma OwnWriteCounts(merge: Merge, w: World, pid: Pid, p: Path, ch: Choice)
    requires Safe(merge, w, p) && pid in w.procs && w.procs[pid].job.path == p
    requires Possible(w, w.procs[pid].job, w.procs[pid].phase, ch)
    ensures AliveCount(Act(merge, w, pid, ch), p) <= AliveCount(w, p)
    ensures w.procs[pid].phase.Deleting? && AttemptOf(w, w.procs[pid].job, w.procs[pid].phase, ch).Accepted? ==>
      AliveCount(Act(merge, w, pid, ch), p) == AliveCount(w, p) - 1
  {
    var Proc(job, f) := w.procs[pid];
    var a := AttemptOf(w, job, f, ch);
    if a.Accepted? {
      AttemptIsGrounded(w, job, f, ch);
      if a.path == p {
        OwnParentIsAlive(merge, w, p, job, f, ch);
        WriteOnLeaf(Doc(w, p), a.rev, a.node);
      }
    }
  }

  // ---- what a resolver has still to bury ----

  /** At most as many alive leaves as the resolver knows of and has not buried. */
  ghost predicate Accounted(w: World, p: Path, f: Phase) {
    match f
    case Fetching(_, revs, leaves) => |leaves| <= |revs| && AliveCount(w, p) <= |revs|
    case Probing(plan, _, _, _) => AliveCount(w, p) <= 1 + |plan.loserRevs|
    case CopyPut(plan, _, _) => AliveCount(w, p) <= 1 + |plan.loserRevs|
    case CopyAttach(plan, _, _, _) => AliveCount(w, p) <= 1 + |plan.loserRevs|
    case Writing(plan) => AliveCount(w, p) <= 1 + |plan.loserRevs|
    case Attaching(plan, _) => AliveCount(w, p) <= 1 + |plan.loserRevs|
    case Deleting(plan, _, next) => next <= |plan.loserRevs| && AliveCount(w, p) <= 1 + |plan.loserRevs| - next
    case Finished(outcome) => outcome == Resolved || outcome == NoConflict ==> AliveCount(w, p) <= 1
    case _ => true
  }

  lemma FewerIsAccounted(w: World, w': World, p: Path, f: Phase)
    requires Accounted(w, p, f) && AliveCount(w', p) <= AliveCount(w, p)
    ensures Accounted(w', p, f)
  {
  }

  lemma ReadingIsAccounted(merge: Merge, w: World, pid: Pid, p: Path, job: Job, ch: Choice)
    requires Safe(merge, w, p) && job.path == p && Possible(w, job, Reading, ch)
    ensures Accounted(w, p, ActReading(w, pid, job, ch).procs[pid].phase)
  {
    var t := Doc(w, p);
    var l :| IsAlive(t, l);
    assert l in AliveLeaves(t);
    assert Lists(t, ch.conflicts);
    DistinctCount([Winner(t)] + ch.conflicts, AliveLeaves(t));
  }

  lemma PlanningIsAccounted(merge: Merge, w: World, pid: Pid, p: Path, job: Job, f: Phase, ch: Choice)
    requires Safe(merge, w, p) && job.path == p && f.Fetching? && PhaseOk(merge, w, p, f) && Accounted(w, p, f)
    ensures Accounted(w, p, ActFetching(merge, w, pid, job, f, ch).procs[pid].phase)
  {
    if |f.leaves| == |f.revs| {
      ReadsAreAlive(Doc(w, p), f.winner, f.revs, f.leaves);
      AlivePlanWrites(f.leaves, LookupBy(Doc(w, p), ch), merge);
    }
  }

  lemma OwnReadIsAccounted(merge: Merge, w: World, pid: Pid, p: Path, ch: Choice)
    requires Safe(merge, w, p) && pid in w.procs && w.procs[pid].job.path == p
    requires Possible(w, w.procs[pid].job, w.procs[pid].phase, ch)
    requires AttemptOf(w, w.procs[pid].job, w.procs[pid].phase, ch) == NoWrite && Accounted(w, p, w.procs[pid].phase)
    ensures var w' := ActReadOnly(merge, w, pid, w.procs[pid].job, w.procs[pid].phase, ch);
            pid in w'.procs && Accounted(w, p, w'.procs[pid].phase)
  {
    var Proc(job, f) := w.procs[pid];
    match f
    case Reading => ReadingIsAccounted(merge, w, pid, p, job, ch);
    case Fetching(_, _, _) => PlanningIsAccounted(merge, w, pid, p, job, f, ch);
    case _ =>
  }

  lemma OwnWriteIsAccounted(merge: Merge, w: World, pid: Pid, p: Path, ch: Choice)
    requires Safe(merge, w, p) && pid in w.procs && w.procs[pid].job.path == p
    requires Possible(w, w.procs[pid].job, w.procs[pid].phase, ch) && Accounted(w, p, w.procs[pid].phase)
    requires AttemptOf(w, w.procs[pid].job, w.procs[pid].phase, ch).Accepted?
    ensures Accounted(Act(merge, w, pid, ch), p, AttemptOf(w, w.procs[pid].job, w.procs[pid].phase, ch).after)
  {
    OwnWriteCounts(merge, w, pid, p, ch);
  }

  lemma OwnStepIsAccounted(merge: Merge, w: World, pid: Pid, p: Path, ch: Choice)
    requires Safe(merge, w, p) && pid in w.procs && w.procs[pid].job.path == p
    requires Possible(w, w.procs[pid].job, w.procs[pid].phase, ch) && Accounted(w, p, w.procs[pid].phase)
    ensures var w' := Act(merge, w, pid, ch);
            pid in w'.procs && w'.procs[pid].job.path == p && Accounted(w', p, w'.procs[pid].phase)
  {
    var Proc(job, f) := w.procs[pid];
    var w' := Act(merge, w, pid, ch);
    match AttemptOf(w, job, f, ch)
    case NoWrite =>
      OwnReadIsAccounted(merge, w, pid, p, ch);
      FewerIsAccounted(w, w', p, w'.procs[pid].phase);
    case Refused =>
    case Accepted(_, _, _, _) => OwnWriteIsAccounted(merge, w, pid, p, ch);
  }

  // ---- runs ----

  /** Whatever `steps[k]` writes to `p`, a resolver of `p` writes. */
  ghost predicate LeftAlone(ws: seq<World>, steps: seq<Label>, p: Path, k: nat)
    requires k < |steps| && |ws| == |steps| + 1
  {
    || Doc(ws[k + 1], p) == Doc(ws[k], p)
    || (steps[k].Step? && steps[k].pid in ws[k].procs && ws[k].procs[steps[k].pid].job.path == p)
  }

  ghost predicate LeftAloneBetween(ws: seq<World>, steps: seq<Label>, p: Path, i: nat, j: nat)
    requires j <= |steps| && |ws| == |steps| + 1
  {
    forall k :: i <= k < j ==> LeftAlone(ws, steps, p, k)
  }

  lemma StepCountsDown(merge: Merge, guarded: set<Path>, ws: seq<World>, steps: seq<Label>, p: Path, k: nat)
    requires IsRun(merge, guarded, ws, steps) && k < |steps| && Safe(merge, ws[k], p) && LeftAlone(ws, steps, p, k)
    ensures AliveCount(ws[k + 1], p) <= AliveCount(ws[k], p)
  {
    assert Follows(merge, guarded, ws, steps, k);
    if Doc(ws[k + 1], p) != Doc(ws[k], p) {
      OwnWriteCounts(merge, ws[k], steps[k].pid, p, steps[k].choice);
    }
  }

  /** No resolver ever adds an alive leaf. */
  lemma {:induction false} CountsDown(merge: Merge, guarded: set<Path>, ws: seq<World>, steps: seq<Label>, p: Path, s: nat, i: nat, j: nat)
    requires IsRun(merge, guarded, ws, steps) && p in guarded && s <= i <= j < |ws| && StartsAlive(ws[s], p)
    requires LeftAloneBetween(ws, steps, p, i, j)
    ensures AliveCount(ws[j], p) <= AliveCount(ws[i], p)
    decreases j
  {
    if i < j {
      CountsDown(merge, guarded, ws, steps, p, s, i, j - 1);
      RunIsSafe(merge, guarded, ws, steps, p, s, j - 1);
      assert LeftAlone(ws, steps, p, j - 1);
      StepCountsDown(merge, guarded, ws, steps, p, j - 1);
    }
  }

  ghost predicate AccountedFor(w: World, p: Path, pid: Pid) {
    pid in w.procs && w.procs[pid].job.path == p && Accounted(w, p, w.procs[pid].phase)
  }

  lemma StepIsAccounted(merge: Merge, guarded: set<Path>, ws: seq<World>, steps: seq<Label>, p: Path, k: nat, pid: Pid)
    requires IsRun(merge, guarded, ws, steps) && k < |steps| && Safe(merge, ws[k], p) && LeftAlone(ws, steps, p, k)
    requires AccountedFor(ws[k], p, pid)
    ensures AccountedFor(ws[k + 1], p, pid)
  {
    assert Follows(merge, guarded, ws, steps, k);
    StepCountsDown(merge, guarded, ws, steps, p, k);
    if steps[k].Step? && steps[k].pid == pid {
      OwnStepIsAccounted(merge, ws[k], pid, p, steps[k].choice);
    } else if steps[k].Crash? && steps[k].pid == pid {
      assert ws[k + 1].procs[pid].phase == Finished(Failed);
    } else {
      FewerIsAccounted(ws[k], ws[k + 1], p, ws[k].procs[pid].phase);
    }
  }

  lemma {:induction false} RunIsAccounted(merge: Merge, guarded: set<Path>, ws: seq<World>, steps: seq<Label>, p: Path, s: nat, i: nat, j: nat,
                                          pid: Pid)
    requires IsRun(merge, guarded, ws, steps) && p in guarded && s <= i <= j < |ws| && StartsAlive(ws[s], p)
    requires LeftAloneBetween(ws, steps, p, i, j)
    requires pid in ws[i].procs && ws[i].procs[pid].job.path == p && ws[i].procs[pid].phase == Reading
    ensures AccountedFor(ws[j], p, pid)
    decreases j
  {
    if i < j {
      RunIsAccounted(merge, guarded, ws, steps, p, s, i, j - 1, pid);
      RunIsSafe(merge, guarded, ws, steps, p, s, j - 1);
      assert LeftAlone(ws, steps, p, j - 1);
      StepIsAccounted(merge, guarded, ws, steps, p, j - 1, pid);
    }
  }

  lemma OneAliveNoConflict(t: Tree, conflicts: seq<Rev>)
    requires |AliveLeaves(t)| <= 1 && Lists(t, conflicts)
    ensures conflicts == []
  {
    DistinctCount([Winner(t)] + conflicts, AliveLeaves(t));
  }

  /** Any number of resolvers race on `p`. If one of them, having called `get_doc` after everybody else's last
      write to `p`, is through at `m` - it resolved, or found nothing to resolve - then from there on `p` has
      exactly one alive leaf, and whoever calls `get_doc` finds no conflict. */
  lemma RacingResolversConverge(merge: Merge, guarded: set<Path>, ws: seq<World>, steps: seq<Label>, p: Path, s: nat, i: nat, m: nat, j: nat,
                                pid: Pid)
    requires IsRun(merge, guarded, ws, steps) && p in guarded && s <= i <= m <= j < |ws| && StartsAlive(ws[s], p)
    requires LeftAloneBetween(ws, steps, p, i, j)
    requires pid in ws[i].procs && ws[i].procs[pid].job.path == p && ws[i].procs[pid].phase == Reading
    requires pid in ws[m].procs && (ws[m].procs[pid].phase == Finished(Resolved) || ws[m].procs[pid].phase == Finished(NoConflict))
    ensures |AliveLeaves(Doc(ws[j], p))| == 1
    ensures forall conflicts :: Lists(Doc(ws[j], p), conflicts) ==> conflicts == []
  {
    RunIsAccounted(merge, guarded, ws, steps, p, s, i, m, pid);
    CountsDown(merge, guarded, ws, steps, p, s, m, j);
    NeverFullyDeleted(merge, guarded, ws, steps, p, s, j, pid);
    forall conflicts | Lists(Doc(ws[j], p), conflicts) ensures conflicts == [] {
      OneAliveNoConflict(Doc(ws[j], p), conflicts);
    }
  }
}
