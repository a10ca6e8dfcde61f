/** Why `resolve` may give up: every refused call is somebody else's doing. */
module Retries {
  import opened RevTree
  import opened Planning
  import opened CopyNames
  import opened Protocol

  /** A write by anyone but `pid` to the document `path` or to one under a name for its copies. */
  ghost predicate Concerns(e: Event, pid: Pid, path: Path) {
    e.author != Some(pid) && (e.path == path || IsCopyName(path, e.path))
  }

  /** How many such writes are at log positions `lo..hi`. */
  ghost function Others(log: seq<Event>, pid: Pid, path: Path, lo: nat, hi: nat): nat
    requires lo <= hi <= |log|
  {
    if lo == hi then 0
    else Others(log, pid, path, lo, hi - 1) + if Concerns(log[hi - 1], pid, path) then 1 else 0
  }

  lemma {:induction false} OthersSplit(log: seq<Event>, pid: Pid, path: Path, lo: nat, mid: nat, hi: nat)
    requires lo <= mid <= hi <= |log|
    ensures Others(log, pid, path, lo, hi) == Others(log, pid, path, lo, mid) + Others(log, pid, path, mid, hi)
  {
    if mid < hi {
      OthersSplit(log, pid, path, lo, mid, hi - 1);
    }
  }

  lemma {:induction false} OthersPrefix(log: seq<Event>, log': seq<Event>, pid: Pid, path: Path, lo: nat, hi: nat)
    requires lo <= hi <= |log| && log <= log'
    ensures Others(log, pid, path, lo, hi) == Others(log', pid, path, lo, hi)
  {
    if lo < hi {
      OthersPrefix(log, log', pid, path, lo, hi - 1);
    }
  }

  // ---- what an undisturbed attempt can rely on ----

  /** The phase is consistent in itself, whatever others do. */
  ghost predicate Shape(path: Path, f: Phase) {
    match f
    case Fetching(winner, revs, leaves) =>
      && Distinct(revs) && |revs| > 0 && revs[0] == winner && |leaves| <= |revs|
      && forall i :: 0 <= i < |leaves| ==> leaves[i].rev == revs[i]
    case Probing(plan, _, _, _) => PlanShape(plan)
    case CopyPut(plan, _, name) => PlanShape(plan) && IsCopyName(path, name) && name != path
    case CopyAttach(plan, _, name, _) => PlanShape(plan) && IsCopyName(path, name) && name != path
    case Writing(plan) => PlanShape(plan)
    case Attaching(plan, _) => PlanShape(plan)
    case Deleting(plan, _, next) => PlanShape(plan) && next <= |plan.loserRevs|
    case _ => true
  }

  /** If nobody else wrote since the attempt began, its next compare-and-swap must succeed. */
  ghost predicate Quiet(w: World, path: Path, f: Phase) {
    var t := Doc(w, path);
    match f
    case Fetching(_, revs, _) => AllLeaves(t, revs)
    case Probing(plan, _, _, _) => Uncontested(t, plan)
    case CopyPut(plan, _, name) => Uncontested(t, plan) && AliveLeaves(Doc(w, name)) == {}
    case CopyAttach(plan, _, name, doc) => Uncontested(t, plan) && IsLeaf(Doc(w, name), doc)
    case Writing(plan) => Uncontested(t, plan)
    case Attaching(plan, doc) => IsLeaf(t, doc) && doc !in plan.loserRevs && AllLeaves(t, plan.loserRevs)
    case Deleting(plan, _, next) =>
      next <= |plan.loserRevs| && AllLeaves(t, plan.loserRevs[next..])
    case _ => true
  }

  ghost predicate Charged(w: World, pid: Pid, p: Proc) {
    && p.job.begun <= p.job.since <= |w.log|
    && Others(w.log, pid, p.job.path, p.job.begun, p.job.since) >= p.job.attempt
    && p.job.attempt <= 5 && (p.phase == Finished(MaxRetries) <==> p.job.attempt == 5)
    && Shape(p.job.path, p.phase)
    && (Others(w.log, pid, p.job.path, p.job.since, |w.log|) == 0 ==> Quiet(w, p.job.path, p.phase))
  }

  // ---- a refusal is charged to somebody else ----

  /** A call refused inside an attempt: somebody else wrote inside that attempt's window. */
  lemma RefusalIsCharged(w: World, pid: Pid, p: Proc, ch: Choice)
    requires Basic(w) && Charged(w, pid, p) && AttemptOf(w, p.job, p.phase, ch) == Refused
    ensures Others(w.log, pid, p.job.path, p.job.since, |w.log|) >= 1
  {
    match p.phase
    case Deleting(plan, _, next) =>
      assert plan.loserRevs[next] == plan.loserRevs[next..][0];
    case _ =>
  }

  lemma RetriedKeeps(w: World, pid: Pid, p: Proc)
    requires Charged(w, pid, p) && !p.phase.Finished? && Others(w.log, pid, p.job.path, p.job.since, |w.log|) >= 1
    ensures var w' := Retried(w, pid, p.job); Charged(w', pid, w'.procs[pid])
  {
    OthersSplit(w.log, pid, p.job.path, p.job.begun, p.job.since, |w.log|);
  }

  // ---- the resolver's own calls ----

  lemma PlanFits(leaves: seq<Leaf>, revs: seq<Rev>, lookup: Lookup, merge: Merge)
    requires Distinct(revs) && |revs| > 0 && |leaves| == |revs|
    requires forall i :: 0 <= i < |leaves| ==> leaves[i].rev == revs[i]
    ensures var plan := PlanResolution(leaves, revs[0], lookup, merge);
            && plan.Some? && plan.value.winnerRev == revs[0] && PlanShape(plan.value)
            && forall r :: r in plan.value.loserRevs ==> r in revs
  {
    PlanPartitions(leaves, leaves[0], lookup, merge);
  }

  /** A read that moves the resolver to a phase that fits leaves its charges alone. */
  lemma MovedKeeps(w: World, pid: Pid, p: Proc, f: Phase)
    requires Charged(w, pid, p) && !p.phase.Finished? && Shape(p.job.path, f) && f != Finished(MaxRetries)
    requires Quiet(w, p.job.path, p.phase) ==> Quiet(w, p.job.path, f)
    ensures var w' := Moved(w, pid, p.job, f); Charged(w', pid, w'.procs[pid])
  {
    assert forall q :: Doc(Moved(w, pid, p.job, f), q) == Doc(w, q);
  }

  lemma FetchingKeeps(merge: Merge, w: World, pid: Pid, p: Proc, ch: Choice)
    requires Basic(w) && Charged(w, pid, p) && p.phase.Fetching?
    ensures var w' := ActFetching(merge, w, pid, p.job, p.phase, ch); Charged(w', pid, w'.procs[pid])
  {
    var t, f := Doc(w, p.job.path), p.phase;
    if |f.leaves| < |f.revs| {
      var leaf := ReadLeaf(t, f.revs[|f.leaves|]);
      MovedKeeps(w, pid, p, if leaf.Some? then f.(leaves := f.leaves + [leaf.value]) else Finished(Failed));
    } else {
      PlanFits(f.leaves, f.revs, LookupBy(t, ch), merge);
      MovedKeeps(w, pid, p, AfterCopies(PlanResolution(f.leaves, f.winner, LookupBy(t, ch), merge).value, 0, ch));
    }
  }

  /** Opening the attempt's window charges nothing less. */
  lemma OpenedKeeps(w: World, pid: Pid, p: Proc, f: Phase)
    requires Charged(w, pid, p) && !p.phase.Finished? && Shape(p.job.path, f) && f != Finished(MaxRetries) && Quiet(w, p.job.path, f)
    ensures var w' := Moved(w, pid, p.job.(since := |w.log|), f); Charged(w', pid, w'.procs[pid])
  {
    OthersSplit(w.log, pid, p.job.path, p.job.begun, p.job.since, |w.log|);
    assert forall q :: Doc(Moved(w, pid, p.job.(since := |w.log|), f), q) == Doc(w, q);
  }

  lemma ReadingKeeps(w: World, pid: Pid, p: Proc, ch: Choice)
    requires Basic(w) && Charged(w, pid, p) && p.phase.Reading? && Possible(w, p.job, p.phase, ch)
    ensures var w' := ActReading(w, pid, p.job, ch); Charged(w', pid, w'.procs[pid])
  {
    var t := Doc(w, p.job.path);
    if AliveLeaves(t) == {} {
      MovedKeeps(w, pid, p, InDeleteWinner);
    } else if ch.conflicts == [] {
      MovedKeeps(w, pid, p, Finished(NoConflict));
    } else {
      var revs := [Winner(t)] + ch.conflicts;
      forall r | r in revs ensures IsLeaf(t, r) {
        assert r in AliveLeaves(t);
      }
      OpenedKeeps(w, pid, p, Fetching(Winner(t), revs, []));
    }
  }

  lemma ProbingKeeps(w: World, pid: Pid, p: Proc)
    requires Basic(w) && Charged(w, pid, p) && p.phase.Probing?
    ensures var w' := ActProbing(w, pid, p.job, p.phase); Charged(w', pid, w'.procs[pid])
  {
    var f := p.phase;
    var name := Candidate(p.job.path, f.today, f.n);
    assert IsCopyName(p.job.path, name);
    CopyNameDiffers(p.job.path, name);
    MovedKeeps(w, pid, p, if AliveLeaves(Doc(w, name)) == {} then CopyPut(f.plan, f.copy, name) else f.(n := f.n + 1));
  }

  lemma OwnReadKeeps(merge: Merge, w: World, pid: Pid, p: Proc, ch: Choice)
    requires Basic(w) && Charged(w, pid, p) && Possible(w, p.job, p.phase, ch)
    requires pid in w.procs && w.procs[pid] == p && AttemptOf(w, p.job, p.phase, ch) == NoWrite
    ensures var w' := ActReadOnly(merge, w, pid, p.job, p.phase, ch);
            pid in w'.procs && Charged(w', pid, w'.procs[pid])
  {
    match p.phase
    case Reading => ReadingKeeps(w, pid, p, ch);
    case Fetching(_, _, _) => FetchingKeeps(merge, w, pid, p, ch);
    case Probing(_, _, _, _) => ProbingKeeps(w, pid, p);
    case Writing(plan) => MovedKeeps(w, pid, p, Deleting(plan, plan.winnerRev, 0));
    case Deleting(_, _, _) => MovedKeeps(w, pid, p, Finished(Resolved));
    case _ =>
  }

  lemma ShapeAfter(w: World, job: Job, f: Phase, ch: Choice)
    requires Shape(job.path, f) && AttemptOf(w, job, f, ch).Accepted?
    ensures Shape(job.path, AttemptOf(w, job, f, ch).after)
  {
    match f
    case CopyAttach(plan, copy, _, _) => assert PlanShape(plan);
    case _ =>
  }

  /** A write leaves every leaf but its own parent a leaf. */
  lemma LeavesAfter(t: Tree, r: Rev, n: Node, revs: seq<Rev>)
    requires Wf(t) && r !in t && Grounded(t, r, n.parent) && AllLeaves(t, revs)
    requires n.parent.Some? ==> n.parent.value !in revs
    ensures AllLeaves(t[r := n], revs) && r !in revs && IsLeaf(t[r := n], r)
  {
    AliveAfterAdd(t, r, n);
    forall x | x in revs ensures IsLeaf(t[r := n], x) && x != r {
      assert IsLeaf(t, x);
    }
  }

  lemma QuietAfter(w: World, pid: Pid, job: Job, f: Phase, ch: Choice)
    requires Basic(w) && Possible(w, job, f, ch) && AttemptOf(w, job, f, ch).Accepted?
    requires Shape(job.path, f) && Quiet(w, job.path, f)
    ensures var a := AttemptOf(w, job, f, ch);
            Quiet(Wrote(w, Some(pid), a.path, a.rev, a.node), job.path, a.after)
  {
    var a := AttemptOf(w, job, f, ch);
    var t := Doc(w, a.path);
    AttemptIsGrounded(w, job, f, ch);
    WroteGrows(w, Some(pid), a.path, a.rev, a.node);
    match f
    case CopyPut(_, _, _) => LeavesAfter(t, a.rev, a.node, []);
    case CopyAttach(_, _, _, _) =>
    case Writing(plan) => LeavesAfter(t, a.rev, a.node, plan.loserRevs);
    case Attaching(plan, _) => LeavesAfter(t, a.rev, a.node, plan.loserRevs);
    case Deleting(plan, _, next) =>
      assert plan.loserRevs[next..][1..] == plan.loserRevs[next + 1..];
      LeavesAfter(t, a.rev, a.node, plan.loserRevs[next + 1..]);
    case _ =>
  }

  lemma OwnWriteKeeps(w: World, pid: Pid, p: Proc, ch: Choice)
    requires Basic(w) && Charged(w, pid, p) && Possible(w, p.job, p.phase, ch)
    requires AttemptOf(w, p.job, p.phase, ch).Accepted?
    ensures var a := AttemptOf(w, p.job, p.phase, ch);
            Charged(Wrote(w, Some(pid), a.path, a.rev, a.node), pid, Proc(p.job, a.after))
  {
    var a := AttemptOf(w, p.job, p.phase, ch);
    var w' := Wrote(w, Some(pid), a.path, a.rev, a.node);
    OthersPrefix(w.log, w'.log, pid, p.job.path, p.job.begun, p.job.since);
    OthersPrefix(w.log, w'.log, pid, p.job.path, p.job.since, |w.log|);
    ShapeAfter(w, p.job, p.phase, ch);
    if Others(w.log, pid, p.job.path, p.job.since, |w.log|) == 0 {
      QuietAfter(w, pid, p.job, p.phase, ch);
    }
  }

  // ---- everybody else's calls ----

  /** Somebody else's write is charged to the attempt, or is to a document the attempt has no part in. */
  lemma ForeignKeeps(w: World, w': World, pid: Pid, p: Proc, who: Option<Pid>)
    requires Charged(w, pid, p) && AtMostOneWrite(w, w', who) && who != Some(pid)
    ensures Charged(w', pid, p)
  {
    OthersPrefix(w.log, w'.log, pid, p.job.path, p.job.begun, p.job.since);
    if w'.log == w.log {
      assert forall q :: Doc(w', q) == Doc(w, q);
    } else {
      OthersPrefix(w.log, w'.log, pid, p.job.path, p.job.since, |w.log|);
      var e := w'.log[|w.log|];
      assert forall q :: q != e.path ==> Doc(w', q) == Doc(w, q);
    }
  }

  lemma OwnStepKeeps(merge: Merge, w: World, pid: Pid, ch: Choice)
    requires Basic(w) && pid in w.procs && Charged(w, pid, w.procs[pid])
    requires Possible(w, w.procs[pid].job, w.procs[pid].phase, ch)
    ensures var w' := Act(merge, w, pid, ch); pid in w'.procs && Charged(w', pid, w'.procs[pid])
  {
    var p := w.procs[pid];
    match AttemptOf(w, p.job, p.phase, ch)
    case NoWrite => OwnReadKeeps(merge, w, pid, p, ch);
    case Refused =>
      RefusalIsCharged(w, pid, p, ch);
      RetriedKeeps(w, pid, p);
    case Accepted(_, _, _, _) => OwnWriteKeeps(w, pid, p, ch);
  }

  lemma NextKeeps(merge: Merge, guarded: set<Path>, w: World, step: Label, w': World, pid: Pid)
    requires Basic(w) && Next(merge, guarded, w, step, w')
    requires pid in w.procs ==> Charged(w, pid, w.procs[pid])
    ensures pid in w'.procs ==> Charged(w', pid, w'.procs[pid])
  {
    NextGrows(merge, guarded, w, step, w');
    if step.Step? && step.pid == pid {
      OwnStepKeeps(merge, w, pid, step.choice);
    } else if pid in w.procs {
      ForeignKeeps(w, w', pid, w.procs[pid], Author(step));
    }
  }

  lemma {:induction false} RunIsCharged(merge: Merge, guarded: set<Path>, ws: seq<World>, steps: seq<Label>, i: nat, pid: Pid)
    requires IsRun(merge, guarded, ws, steps) && pid !in ws[0].procs && i < |ws|
    ensures Basic(ws[i]) && (pid in ws[i].procs ==> Charged(ws[i], pid, ws[i].procs[pid]))
  {
    if i > 0 {
      RunIsCharged(merge, guarded, ws, steps, i - 1, pid);
      assert Follows(merge, guarded, ws, steps, i - 1);
      NextGrows(merge, guarded, ws[i - 1], steps[i - 1], ws[i]);
      NextKeeps(merge, guarded, ws[i - 1], steps[i - 1], ws[i], pid);
    }
  }

  /** In every interleaving, a `resolve` that ends in `MaxRetries` saw at least five writes by others to its
      document, or to one under a name for its copies, land between its start and its end. */
  lemma MaxRetriesNeedsFiveWrites(merge: Merge, guarded: set<Path>, ws: seq<World>, steps: seq<Label>, i: nat, pid: Pid)
    requires IsRun(merge, guarded, ws, steps) && pid !in ws[0].procs && i < |ws|
    requires pid in ws[i].procs && ws[i].procs[pid].phase == Finished(MaxRetries)
    ensures ws[i].procs[pid].job.attempt == 5
    ensures var job := ws[i].procs[pid].job;
            job.begun <= |ws[i].log| && Others(ws[i].log, pid, job.path, job.begun, |ws[i].log|) >= 5
  {
    RunIsCharged(merge, guarded, ws, steps, i, pid);
    var job := ws[i].procs[pid].job;
    OthersSplit(ws[i].log, pid, job.path, job.begun, job.since, |ws[i].log|);
  }

  /** In every interleaving, a refused call of an attempt is matched by a write somebody else made to the
      document, or to one under a name for its copies, in the window of that very attempt: since its
      `get_doc`, before the refusal. */
  lemma EveryRefusalHasAnAuthor(merge: Merge, guarded: set<Path>, ws: seq<World>, steps: seq<Label>, i: nat)
    requires IsRun(merge, guarded, ws, steps) && i < |steps| && steps[i].Step? && steps[i].pid in ws[i].procs
    requires steps[i].pid !in ws[0].procs
    requires var p := ws[i].procs[steps[i].pid]; AttemptOf(ws[i], p.job, p.phase, steps[i].choice) == Refused
    ensures var w, job := ws[i], ws[i].procs[steps[i].pid].job;
            exists k :: job.since <= k < |w.log| && Concerns(w.log[k], steps[i].pid, job.path)
  {
    var pid := steps[i].pid;
    RunIsCharged(merge, guarded, ws, steps, i, pid);
    var p := ws[i].procs[pid];
    RefusalIsCharged(ws[i], pid, p, steps[i].choice);
    SomeOther(ws[i].log, pid, p.job.path, p.job.since, |ws[i].log|);
  }

  /** A step ends a `resolve` in failure only where the next revision on its list cannot be read: the plan made
      from what it read is always carried on. */
  lemma FailsOnlyUnread(merge: Merge, guarded: set<Path>, ws: seq<World>, steps: seq<Label>, i: nat, pid: Pid)
    requires IsRun(merge, guarded, ws, steps) && i < |steps| && steps[i].Step? && steps[i].pid == pid && pid !in ws[0].procs
    requires pid in ws[i].procs && pid in ws[i + 1].procs
    requires !ws[i].procs[pid].phase.Finished? && ws[i + 1].procs[pid].phase == Finished(Failed)
    ensures Basic(ws[i]) && ws[i].procs[pid].phase.Fetching?
    ensures var f := ws[i].procs[pid].phase;
            |f.leaves| < |f.revs| && ReadLeaf(Doc(ws[i], ws[i].procs[pid].job.path), f.revs[|f.leaves|]).None?
  {
    RunIsCharged(merge, guarded, ws, steps, i, pid);
    assert Follows(merge, guarded, ws, steps, i);
    StepFailsOnlyUnread(merge, ws[i], pid, steps[i].choice);
  }

  lemma StepFailsOnlyUnread(merge: Merge, w: World, pid: Pid, ch: Choice)
    requires Basic(w) && pid in w.procs && Shape(w.procs[pid].job.path, w.procs[pid].phase)
    requires !w.procs[pid].phase.Finished?
    ensures var p, w' := w.procs[pid], Act(merge, w, pid, ch);
            pid in w'.procs && (w'.procs[pid].phase == Finished(Failed) ==>
              p.phase.Fetching? && |p.phase.leaves| < |p.phase.revs|
              && ReadLeaf(Doc(w, p.job.path), p.phase.revs[|p.phase.leaves|]).None?)
  {
    var f := w.procs[pid].phase;
    if f.Fetching? && |f.leaves| == |f.revs| {
      PlanFits(f.leaves, f.revs, LookupBy(Doc(w, w.procs[pid].job.path), ch), merge);
    }
  }

  lemma {:induction false} SomeOther(log: seq<Event>, pid: Pid, path: Path, lo: nat, hi: nat)
    requires lo <= hi <= |log| && Others(log, pid, path, lo, hi) >= 1
    ensures exists k :: lo <= k < hi && Concerns(log[k], pid, path)
  {
    if !Concerns(log[hi - 1], pid, path) {
      SomeOther(log, pid, path, lo, hi - 1);
    }
  }
}
