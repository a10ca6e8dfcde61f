/** Any number of resolvers and pushers on one CouchDB, one call at a time.

    A resolver is `resolve` with its retry loop and `apply_plan`, cut at every call it makes. Pushers,
    clients of other documents and replication are the external calls: any accepted write, at any time. */
module Protocol {
  import opened RevTree
  import opened Planning
  import opened CopyNames

  type Pid = nat

  /** One accepted write; `author` is the resolver that made it, if a resolver did. */
  datatype Event = Event(author: Option<Pid>, path: Path, rev: Rev)

  datatype Outcome = NoConflict | Resolved | MaxRetries | Failed

  /** `begun` and `since` are positions in the log: where this `resolve` started and where its current
      attempt called `get_doc`. */
  datatype Job = Job(path: Path, attempt: nat, begun: nat, since: nat)

  datatype Phase =
    | Reading
    | Fetching(winner: Rev, revs: seq<Rev>, leaves: seq<Leaf>)
    | Probing(plan: Plan, copy: nat, today: string, n: nat)
    | CopyPut(plan: Plan, copy: nat, name: Path)
    | CopyAttach(plan: Plan, copy: nat, name: Path, doc: Rev)
    | Writing(plan: Plan)
    | Attaching(plan: Plan, doc: Rev)
    | Deleting(plan: Plan, result: Rev, next: nat)
    | InDeleteWinner
    | Finished(outcome: Outcome)

  datatype Proc = Proc(job: Job, phase: Phase)

  datatype World = World(docs: Docs, log: seq<Event>, procs: map<Pid, Proc>)

  function Doc(w: World, q: Path): Tree {
    DocIn(w.docs, q)
  }

  ghost predicate Basic(w: World) {
    WfDocs(w.docs)
  }

  // ---- moves ----

  function Moved(w: World, pid: Pid, job: Job, phase: Phase): World {
    w.(procs := w.procs[pid := Proc(job, phase)])
  }

  function Wrote(w: World, who: Option<Pid>, q: Path, r: Rev, n: Node): World {
    w.(docs := Added(w.docs, q, r, n), log := w.log + [Event(who, q, r)])
  }

  /** A `409` anywhere: `continue` with the next attempt, or give up. */
  function Retried(w: World, pid: Pid, job: Job): World {
    Moved(w, pid, job.(attempt := job.attempt + 1, since := |w.log|),
          if job.attempt + 1 < MAX_RETRIES then Reading else Finished(MaxRetries))
  }

  /** What a step leaves open: the id CouchDB derives, the order it lists `_conflicts` in, the date, and whether
      the merge base could be read. */
  datatype Choice = Choice(hash: nat, conflicts: seq<Rev>, today: string, baseRead: bool)

  function AfterCopies(plan: Plan, copy: nat, ch: Choice): Phase {
    if copy < |plan.copies| then Probing(plan, copy, ch.today, 0) else Writing(plan)
  }

  /** The call a resolver in phase `f` makes, when that call is a write. */
  datatype Attempt = NoWrite | Refused | Accepted(path: Path, rev: Rev, node: Node, after: Phase)

  /** `get_doc`: the attempt's window opens. */
  function ActReading(w: World, pid: Pid, job: Job, ch: Choice): World {
    var t := Doc(w, job.path);
    if AliveLeaves(t) == {} then Moved(w, pid, job, InDeleteWinner)
    else if ch.conflicts == [] then Moved(w, pid, job, Finished(NoConflict))
    else Moved(w, pid, job.(since := |w.log|), Fetching(Winner(t), [Winner(t)] + ch.conflicts, []))
  }

  function LookupBy(t: Tree, ch: Choice): Lookup {
    if ch.baseRead then LookupIn(t) else Unreadable()
  }

  function ActFetching(merge: Merge, w: World, pid: Pid, job: Job, f: Phase, ch: Choice): World
    requires Basic(w) && f.Fetching?
  {
    var t := Doc(w, job.path);
    if |f.leaves| < |f.revs| then
      match ReadLeaf(t, f.revs[|f.leaves|])
      case Some(leaf) => Moved(w, pid, job, f.(leaves := f.leaves + [leaf]))
      case None => Moved(w, pid, job, Finished(Failed))
    else
      match PlanResolution(f.leaves, f.winner, LookupBy(t, ch), merge)
      case Some(plan) => Moved(w, pid, job, AfterCopies(plan, 0, ch))
      case None => Moved(w, pid, job, Finished(Failed))
  }

  function ActProbing(w: World, pid: Pid, job: Job, f: Phase): World
    requires f.Probing?
  {
    var name := Candidate(job.path, f.today, f.n);
    if AliveLeaves(Doc(w, name)) == {} then Moved(w, pid, job, CopyPut(f.plan, f.copy, name))
    else Moved(w, pid, job, f.(n := f.n + 1))
  }

  function PutAttempt(w: World, q: Path, base: Option<Rev>, mtime: int, ctype: string, hash: nat, after: Rev -> Phase): Attempt {
    var parent := PutParent(Doc(w, q), base);
    var r := ChildRev(parent, hash);
    if AcceptsPut(Doc(w, q), base) then Accepted(q, r, DocNode(parent, mtime, ctype), after(r)) else Refused
  }

  function AttachAttempt(w: World, q: Path, on: Rev, bytes: Bytes, hash: nat, after: Rev -> Phase): Attempt {
    var r := ChildRev(Some(on), hash);
    if IsLeaf(Doc(w, q), on) then Accepted(q, r, AttachedNode(Doc(w, q), on, bytes), after(r)) else Refused
  }

  function DeleteAttempt(w: World, q: Path, on: Rev, hash: nat, after: Phase): Attempt {
    if IsLeaf(Doc(w, q), on) then Accepted(q, ChildRev(Some(on), hash), Tombstone(on), after) else Refused
  }

  function AttemptOf(w: World, job: Job, f: Phase, ch: Choice): Attempt {
    match f
    case CopyPut(plan, copy, name) =>
      if copy >= |plan.copies| then NoWrite else
      PutAttempt(w, name, None, plan.copies[copy].mtime, plan.copies[copy].ctype, ch.hash,
                 r => CopyAttach(plan, copy, name, r))
    case CopyAttach(plan, copy, name, doc) =>
      if copy >= |plan.copies| then NoWrite else
      AttachAttempt(w, name, doc, plan.copies[copy].content, ch.hash, _ => AfterCopies(plan, copy + 1, ch))
    case Writing(plan) =>
      if plan.finalContent.None? then NoWrite else
      PutAttempt(w, job.path, Some(plan.winnerRev), plan.finalMtime, plan.finalCtype, ch.hash, r => Attaching(plan, r))
    case Attaching(plan, doc) =>
      if plan.finalContent.None? then NoWrite else
      AttachAttempt(w, job.path, doc, plan.finalContent.value, ch.hash, r => Deleting(plan, r, 0))
    case Deleting(plan, result, next) =>
      if next >= |plan.loserRevs| then NoWrite else
      DeleteAttempt(w, job.path, plan.loserRevs[next], ch.hash, Deleting(plan, result, next + 1))
    case _ => NoWrite
  }

  /** The calls that only read, and the decisions between calls. */
  function ActReadOnly(merge: Merge, w: World, pid: Pid, job: Job, f: Phase, ch: Choice): World
    requires Basic(w)
  {
    match f
    case Reading => ActReading(w, pid, job, ch)
    case Fetching(_, _, _) => ActFetching(merge, w, pid, job, f, ch)
    case Probing(_, _, _, _) => ActProbing(w, pid, job, f)
    case Writing(plan) => Moved(w, pid, job, Deleting(plan, plan.winnerRev, 0))
    case Deleting(_, _, _) => Moved(w, pid, job, Finished(Resolved))
    case _ => w
  }

  function Act(merge: Merge, w: World, pid: Pid, ch: Choice): World
    requires Basic(w) && pid in w.procs
  {
    var Proc(job, f) := w.procs[pid];
    match AttemptOf(w, job, f, ch)
    case NoWrite => ActReadOnly(merge, w, pid, job, f, ch)
    case Refused => Retried(w, pid, job)
    case Accepted(q, r, n, after) => Moved(Wrote(w, Some(pid), q, r, n), pid, job, after)
  }

  // ---- the choices CouchDB can make ----

  /** New revisions get unused names. */
  ghost predicate Possible(w: World, job: Job, f: Phase, ch: Choice) {
    && (f.Reading? && AliveLeaves(Doc(w, job.path)) != {} ==> Lists(Doc(w, job.path), ch.conflicts))
    && (AttemptOf(w, job, f, ch).Accepted? ==>
          AttemptOf(w, job, f, ch).rev !in Doc(w, AttemptOf(w, job, f, ch).path))
  }

  // ---- everyone else ----

  datatype Call =
    | Put(base: Option<Rev>, mtime: int, ctype: string)
    | Attach(on: Rev, bytes: Bytes)
    | Branch(rev: Rev, node: Node)
    | Delete(on: Rev)

  predicate AcceptedBy(t: Tree, c: Call) {
    match c
    case Put(base, _, _) => AcceptsPut(t, base)
    case Attach(on, _) => IsLeaf(t, on)
    case Branch(_, _) => true
    case Delete(on) => IsLeaf(t, on)
  }

  function NodeOf(t: Tree, c: Call): Node
    requires AcceptedBy(t, c)
  {
    match c
    case Put(base, mtime, ctype) => DocNode(PutParent(t, base), mtime, ctype)
    case Attach(on, bytes) => AttachedNode(t, on, bytes)
    case Branch(_, node) => node
    case Delete(on) => Tombstone(on)
  }

  /** Deleting a current leaf: `delete_doc`, or a tombstone grafted onto a current leaf. */
  predicate DeletesCurrent(t: Tree, c: Call) {
    match c
    case Delete(_) => true
    case Branch(_, node) => node.deleted && (node.parent.None? || IsLeaf(t, node.parent.value))
    case _ => false
  }

  datatype Label =
    | Spawn(pid: Pid, path: Path)
    | External(path: Path, rev: Rev, call: Call)
    | Step(pid: Pid, choice: Choice)
    | Crash(pid: Pid)

  /** One call by somebody. On the documents in `guarded` nobody but a resolver deletes a current leaf. */
  ghost predicate Next(merge: Merge, guarded: set<Path>, w: World, step: Label, w': World)
    requires Basic(w)
  {
    match step
    case Spawn(pid, path) =>
      pid !in w.procs && w' == Moved(w, pid, Job(path, 0, |w.log|, |w.log|), Reading)
    case External(q, r, c) =>
      var t := Doc(w, q);
      && AcceptedBy(t, c) && r !in t && Grounded(t, r, NodeOf(t, c).parent)
      && (q in guarded ==> !DeletesCurrent(t, c))
      && w' == Wrote(w, None, q, r, NodeOf(t, c))
    case Step(pid, ch) =>
      pid in w.procs && Possible(w, w.procs[pid].job, w.procs[pid].phase, ch) && w' == Act(merge, w, pid, ch)
    case Crash(pid) =>
      pid in w.procs && !w.procs[pid].phase.Finished? && w' == Moved(w, pid, w.procs[pid].job, Finished(Failed))
  }

  // ---- one write ----

  ghost predicate Grows(w: World, w': World) {
    Grew(w.docs, w'.docs)
  }

  lemma WroteGrows(w: World, who: Option<Pid>, q: Path, r: Rev, n: Node)
    requires Basic(w) && r !in Doc(w, q) && Grounded(Doc(w, q), r, n.parent)
    ensures var w' := Wrote(w, who, q, r, n);
            && Basic(w') && Grows(w, w')
            && Doc(w', q) == Doc(w, q)[r := n]
            && forall q' :: q' != q ==> Doc(w', q') == Doc(w, q')
  {
    AddedGrows(w.docs, q, r, n);
  }

  /** Nothing is written, or `who` adds one node to one document. */
  ghost predicate AtMostOneWrite(w: World, w': World, who: Option<Pid>) {
    || (w'.log == w.log && w'.docs == w.docs)
    || (&& |w'.log| == |w.log| + 1 && w.log <= w'.log
        && var e := w'.log[|w.log|];
           && e.author == who && e.path in w'.docs && e.rev in w'.docs[e.path] && e.rev !in Doc(w, e.path)
           && w'.docs == Added(w.docs, e.path, e.rev, w'.docs[e.path][e.rev]))
  }

  function Author(step: Label): Option<Pid> {
    if step.Step? then Some(step.pid) else None
  }

  /** Every step adds at most one node, in the name of whoever took it, and changes none. */
  lemma NextGrows(merge: Merge, guarded: set<Path>, w: World, step: Label, w': World)
    requires Basic(w) && Next(merge, guarded, w, step, w')
    ensures Basic(w') && Grows(w, w')
    ensures AtMostOneWrite(w, w', Author(step))
  {
    match step
    case External(q, r, c) => WroteGrows(w, None, q, r, NodeOf(Doc(w, q), c));
    case Step(pid, ch) => ActGrows(merge, w, pid, ch);
    case _ =>
  }

  lemma AttemptIsGrounded(w: World, job: Job, f: Phase, ch: Choice)
    requires Basic(w) && AttemptOf(w, job, f, ch).Accepted?
    ensures var a := AttemptOf(w, job, f, ch); Grounded(Doc(w, a.path), a.rev, a.node.parent)
  {
    if f.CopyPut? {
      PutIsGrounded(Doc(w, f.name), None, ch.hash);
    } else if f.Writing? {
      PutIsGrounded(Doc(w, job.path), Some(f.plan.winnerRev), ch.hash);
    }
  }

  lemma ActGrows(merge: Merge, w: World, pid: Pid, ch: Choice)
    requires Basic(w) && pid in w.procs && Possible(w, w.procs[pid].job, w.procs[pid].phase, ch)
    ensures var w' := Act(merge, w, pid, ch);
            Basic(w') && Grows(w, w') && AtMostOneWrite(w, w', Some(pid))
  {
    var Proc(job, f) := w.procs[pid];
    var a := AttemptOf(w, job, f, ch);
    if a.Accepted? {
      AttemptIsGrounded(w, job, f, ch);
      WroteGrows(w, Some(pid), a.path, a.rev, a.node);
    }
  }

  // ---- runs ----

  /** `ws[i+1]` follows `ws[i]` by `steps[i]`. */
  ghost predicate IsRun(merge: Merge, guarded: set<Path>, ws: seq<World>, steps: seq<Label>) {
    && |ws| == |steps| + 1
    && Basic(ws[0])
    && forall i :: 0 <= i < |steps| ==> Follows(merge, guarded, ws, steps, i)
  }

  ghost predicate Follows(merge: Merge, guarded: set<Path>, ws: seq<World>, steps: seq<Label>, i: nat)
    requires |ws| == |steps| + 1 && i < |steps|
  {
    Basic(ws[i]) && Next(merge, guarded, ws[i], steps[i], ws[i + 1])
  }
}
