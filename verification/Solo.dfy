/** A resolver of the machine that nobody disturbs does what `resolve` does as one piece of code, and ends. */
module Solo {
  import opened RevTree
  import opened Planning
  import opened CopyNames
  import opened Protocol
  import opened Resolver

  // ---- how far a resolver has come ----

  /** `winner` and `revs` are what `get_doc` gave. */
  ghost predicate Chosen(t: Tree, winner: Rev, revs: seq<Rev>) {
    && AliveLeaves(t) != {} && winner == Winner(t)
    && |revs| >= 2 && revs == [winner] + revs[1..] && Lists(t, revs[1..])
  }

  /** A conflict that can be resolved. */
  ghost predicate Contested(t: Tree) {
    !AtMostOneAlive(t) && AllReadable(t)
  }

  /** The first `n` copies of a plan of `docs0` are stored, and nothing else is different. */
  ghost predicate Copying(merge: Merge, docs0: Docs, p: Path, docs: Docs, plan: Plan, n: nat) {
    && WfDocs(docs0) && WfDocs(docs) && Grew(docs0, docs) && DocIn(docs, p) == DocIn(docs0, p)
    && Planned(merge, DocIn(docs0, p), plan) && Ready(DocIn(docs0, p), plan) && Contested(DocIn(docs0, p))
    && exists names :: |names| == n && CopiesStored(docs0, docs, p, plan, names)
  }

  /** The first `n` names tried for a copy belong to live documents. */
  ghost predicate Taken(docs: Docs, p: Path, today: string, n: nat) {
    forall k :: 0 <= k < n ==> AliveLeaves(DocIn(docs, Candidate(p, today, k))) != {}
  }

  function CopyNode(docs: Docs, plan: Plan, copy: nat, name: Path): Node
    requires copy < |plan.copies|
  {
    DocNode(PutParent(DocIn(docs, name), None), plan.copies[copy].mtime, plan.copies[copy].ctype)
  }

  function ResultNode(plan: Plan): Node {
    DocNode(Some(plan.winnerRev), plan.finalMtime, plan.finalCtype)
  }

  ghost predicate HalfCopied(merge: Merge, docs0: Docs, p: Path, before: Docs, docs: Docs, plan: Plan, copy: nat, name: Path, doc: Rev)
    requires copy < |plan.copies|
  {
    && Copying(merge, docs0, p, before, plan, copy) && AliveLeaves(DocIn(before, name)) == {}
    && Fresh(before, name, doc, CopyNode(before, plan, copy, name)) && docs == Added(before, name, doc, CopyNode(before, plan, copy, name))
  }

  ghost predicate HalfResult(merge: Merge, docs0: Docs, p: Path, before: Docs, docs: Docs, plan: Plan, doc: Rev) {
    && Copying(merge, docs0, p, before, plan, |plan.copies|)
    && Fresh(before, p, doc, ResultNode(plan)) && docs == Added(before, p, doc, ResultNode(plan))
  }

  ghost predicate Burying(merge: Merge, docs0: Docs, p: Path, before: Docs, docs: Docs, plan: Plan, y: Rev, next: nat) {
    && Copying(merge, docs0, p, before, plan, |plan.copies|) && WfDocs(docs) && Grew(before, docs)
    && (forall q :: q != p ==> DocIn(docs, q) == DocIn(before, q))
    && next <= |plan.loserRevs| && ResultIn(DocIn(docs0, p), DocIn(docs, p), plan, y)
    && Doomed(DocIn(docs, p), plan.loserRevs[next..], y)
  }

  ghost predicate Ended(merge: Merge, docs0: Docs, p: Path, docs: Docs, outcome: Outcome) {
    WfDocs(docs0) &&
    match outcome
    case NoConflict => docs == docs0 && AtMostOneAlive(DocIn(docs0, p))
    case Failed => docs == docs0 && !AtMostOneAlive(DocIn(docs0, p)) && !AllReadable(DocIn(docs0, p))
    case Resolved => Contested(DocIn(docs0, p)) && exists plan, names :: Executed(merge, docs0, docs, p, plan, names)
    case MaxRetries => false
  }

  ghost predicate OnTrack(merge: Merge, docs0: Docs, p: Path, docs: Docs, f: Phase) {
    && WfDocs(docs0) && AliveLeaves(DocIn(docs0, p)) != {}
    && match f
       case Reading => docs == docs0
       case Fetching(winner, revs, leaves) =>
         docs == docs0 && Chosen(DocIn(docs0, p), winner, revs) && ReadSoFar(DocIn(docs0, p), revs, leaves)
       case Probing(plan, copy, today, n) =>
         copy < |plan.copies| && Copying(merge, docs0, p, docs, plan, copy) && Taken(docs, p, today, n)
       case CopyPut(plan, copy, name) =>
         && copy < |plan.copies| && Copying(merge, docs0, p, docs, plan, copy)
         && IsCopyName(p, name) && AliveLeaves(DocIn(docs, name)) == {}
       case CopyAttach(plan, copy, name, doc) =>
         && copy < |plan.copies| && IsCopyName(p, name)
         && exists before :: HalfCopied(merge, docs0, p, before, docs, plan, copy, name, doc)
       case Writing(plan) => Copying(merge, docs0, p, docs, plan, |plan.copies|)
       case Attaching(plan, doc) => exists before :: HalfResult(merge, docs0, p, before, docs, plan, doc)
       case Deleting(plan, y, next) => exists before :: Burying(merge, docs0, p, before, docs, plan, y, next)
       case InDeleteWinner => false
       case Finished(outcome) => Ended(merge, docs0, p, docs, outcome)
  }

  // ---- reading ----

  lemma ReadingOnTrack(merge: Merge, docs: Docs, p: Path, w: World, pid: Pid, job: Job, ch: Choice)
    requires w.docs == docs && job.path == p && OnTrack(merge, docs, p, docs, Reading) && Possible(w, job, Reading, ch)
    ensures OnTrack(merge, docs, p, docs, ActReading(w, pid, job, ch).procs[pid].phase)
  {
    var t := DocIn(docs, p);
    assert Lists(t, ch.conflicts);
    SeveralAlive(t, ch.conflicts);
    var revs := [Winner(t)] + ch.conflicts;
    assert revs[1..] == ch.conflicts;
    assert ReadSoFar(t, revs, []);
  }

  lemma FetchOnTrack(merge: Merge, docs: Docs, p: Path, f: Phase)
    requires f.Fetching? && OnTrack(merge, docs, p, docs, f) && |f.leaves| < |f.revs|
    ensures match ReadLeaf(DocIn(docs, p), f.revs[|f.leaves|])
            case Some(leaf) => OnTrack(merge, docs, p, docs, f.(leaves := f.leaves + [leaf]))
            case None => OnTrack(merge, docs, p, docs, Finished(Failed))
  {
    var t, conflicts := DocIn(docs, p), f.revs[1..];
    SeveralAlive(t, conflicts);
    var r := f.revs[|f.leaves|];
    if ReadLeaf(t, r).None? {
      assert r in [Winner(t)] + conflicts;
      ReadableOrNot(t, conflicts, None);
    }
  }

  lemma StartCopying(merge: Merge, docs: Docs, p: Path, plan: Plan)
    requires WfDocs(docs) && Planned(merge, DocIn(docs, p), plan) && Ready(DocIn(docs, p), plan) && Contested(DocIn(docs, p))
    ensures Copying(merge, docs, p, docs, plan, 0)
  {
    assert CopiesStored(docs, docs, p, plan, []);
  }

  lemma FetchingFacts(merge: Merge, docs0: Docs, p: Path, docs: Docs, f: Phase)
    requires f.Fetching? && OnTrack(merge, docs0, p, docs, f)
    ensures WfDocs(docs0) && docs == docs0 && Chosen(DocIn(docs0, p), f.winner, f.revs)
    ensures ReadSoFar(DocIn(docs0, p), f.revs, f.leaves)
  {
  }

  lemma ChosenIsPlanned(merge: Merge, t: Tree, winner: Rev, revs: seq<Rev>, leaves: seq<Leaf>)
    requires Wf(t) && Chosen(t, winner, revs) && ReadSoFar(t, revs, leaves) && |leaves| == |revs|
    ensures var plan := PlanResolution(leaves, winner, LookupIn(t), merge);
            plan.Some? && Planned(merge, t, plan.value) && Ready(t, plan.value) && Contested(t)
  {
    var conflicts := revs[1..];
    PlannedIsReady(merge, t, conflicts, leaves);
    SeveralAlive(t, conflicts);
    ReadableOrNot(t, conflicts, Some(leaves));
    assert Planned(merge, t, PlanResolution(leaves, winner, LookupIn(t), merge).value);
  }

  lemma StartOnTrack(merge: Merge, docs: Docs, p: Path, plan: Plan, ch: Choice)
    requires AliveLeaves(DocIn(docs, p)) != {} && Copying(merge, docs, p, docs, plan, 0)
    ensures OnTrack(merge, docs, p, docs, AfterCopies(plan, 0, ch))
  {
  }

  lemma PlanOnTrack(merge: Merge, docs: Docs, p: Path, f: Phase, ch: Choice)
    requires f.Fetching? && OnTrack(merge, docs, p, docs, f) && |f.leaves| == |f.revs|
    ensures var plan := PlanResolution(f.leaves, f.winner, LookupIn(DocIn(docs, p)), merge);
            plan.Some? && OnTrack(merge, docs, p, docs, AfterCopies(plan.value, 0, ch))
  {
    FetchingFacts(merge, docs, p, docs, f);
    ChosenIsPlanned(merge, DocIn(docs, p), f.winner, f.revs, f.leaves);
    var plan := PlanResolution(f.leaves, f.winner, LookupIn(DocIn(docs, p)), merge).value;
    StartCopying(merge, docs, p, plan);
    StartOnTrack(merge, docs, p, plan, ch);
  }

  // ---- copying ----

  lemma OneMoreTaken(docs: Docs, p: Path, today: string, n: nat)
    requires Taken(docs, p, today, n) && AliveLeaves(DocIn(docs, Candidate(p, today, n))) != {}
    ensures Taken(docs, p, today, n + 1)
  {
  }

  lemma TakenOnTrack(merge: Merge, docs0: Docs, p: Path, docs: Docs, plan: Plan, copy: nat, today: string, n: nat)
    requires OnTrack(merge, docs0, p, docs, Probing(plan, copy, today, n)) && Taken(docs, p, today, n + 1)
    ensures OnTrack(merge, docs0, p, docs, Probing(plan, copy, today, n + 1))
  {
  }

  lemma FreeOnTrack(merge: Merge, docs0: Docs, p: Path, docs: Docs, plan: Plan, copy: nat, today: string, n: nat, name: Path)
    requires OnTrack(merge, docs0, p, docs, Probing(plan, copy, today, n))
    requires IsCopyName(p, name) && AliveLeaves(DocIn(docs, name)) == {}
    ensures OnTrack(merge, docs0, p, docs, CopyPut(plan, copy, name))
  {
  }

  lemma ProbeOnTrack(merge: Merge, docs0: Docs, p: Path, docs: Docs, plan: Plan, copy: nat, today: string, n: nat)
    requires OnTrack(merge, docs0, p, docs, Probing(plan, copy, today, n))
    ensures OnTrack(merge, docs0, p, docs, AfterProbe(docs, p, plan, copy, today, n))
  {
    var name := Candidate(p, today, n);
    if AliveLeaves(DocIn(docs, name)) == {} {
      assert IsCopyName(p, name);
      FreeOnTrack(merge, docs0, p, docs, plan, copy, today, n, name);
    } else {
      OneMoreTaken(docs, p, today, n);
      TakenOnTrack(merge, docs0, p, docs, plan, copy, today, n);
    }
  }

  function AfterProbe(docs: Docs, p: Path, plan: Plan, copy: nat, today: string, n: nat): Phase {
    var name := Candidate(p, today, n);
    if AliveLeaves(DocIn(docs, name)) == {} then CopyPut(plan, copy, name) else Probing(plan, copy, today, n + 1)
  }

  lemma CopyPutOnTrack(merge: Merge, docs0: Docs, p: Path, docs: Docs, f: Phase, doc: Rev)
    requires f.CopyPut? && OnTrack(merge, docs0, p, docs, f) && Fresh(docs, f.name, doc, CopyNode(docs, f.plan, f.copy, f.name))
    ensures OnTrack(merge, docs0, p, Added(docs, f.name, doc, CopyNode(docs, f.plan, f.copy, f.name)),
                    CopyAttach(f.plan, f.copy, f.name, doc))
  {
    assert HalfCopied(merge, docs0, p, docs, Added(docs, f.name, doc, CopyNode(docs, f.plan, f.copy, f.name)), f.plan, f.copy, f.name, doc);
  }

  lemma GrewThrough(a: Docs, b: Docs, c: Docs)
    requires Grew(a, b) && Grew(b, c)
    ensures Grew(a, c)
  {
    forall q ensures Extends(DocIn(a, q), DocIn(c, q)) {
      assert Extends(DocIn(a, q), DocIn(b, q)) && Extends(DocIn(b, q), DocIn(c, q));
    }
  }

  /** With its attachment the copy is one more that is stored. */
  lemma CopyAttached(merge: Merge, docs0: Docs, p: Path, before: Docs, docs: Docs, plan: Plan, copy: nat, name: Path, doc: Rev, a: Rev)
    requires copy < |plan.copies| && IsCopyName(p, name) && HalfCopied(merge, docs0, p, before, docs, plan, copy, name, doc)
    requires Fresh(docs, name, a, AttachedNode(DocIn(docs, name), doc, plan.copies[copy].content))
    ensures Copying(merge, docs0, p, Added(docs, name, a, AttachedNode(DocIn(docs, name), doc, plan.copies[copy].content)), plan, copy + 1)
  {
    var n := CopyNode(before, plan, copy, name);
    var docs' := Added(docs, name, a, AttachedNode(DocIn(docs, name), doc, plan.copies[copy].content));
    AddedGrows(before, name, doc, n);
    AddedGrows(docs, name, a, AttachedNode(DocIn(docs, name), doc, plan.copies[copy].content));
    FreeNameHolds(before, name, doc, n, a, plan.copies[copy]);
    GrewThrough(docs0, before, docs);
    GrewThrough(docs0, docs, docs');
    CopyNameDiffers(p, name);
    var names :| |names| == copy && CopiesStored(docs0, before, p, plan, names);
    OneMoreCopy(docs0, before, docs', p, plan, names, name);
    assert |names + [name]| == copy + 1 && CopiesStored(docs0, docs', p, plan, names + [name]);
  }

  lemma AfterCopiesOnTrack(merge: Merge, docs0: Docs, p: Path, docs: Docs, plan: Plan, copy: nat, ch: Choice)
    requires AliveLeaves(DocIn(docs0, p)) != {} && copy <= |plan.copies| && Copying(merge, docs0, p, docs, plan, copy)
    ensures OnTrack(merge, docs0, p, docs, AfterCopies(plan, copy, ch))
  {
  }

  // ---- the result ----

  lemma WriteOnTrack(merge: Merge, docs0: Docs, p: Path, docs: Docs, plan: Plan, doc: Rev)
    requires OnTrack(merge, docs0, p, docs, Writing(plan)) && Fresh(docs, p, doc, ResultNode(plan))
    ensures OnTrack(merge, docs0, p, Added(docs, p, doc, ResultNode(plan)), Attaching(plan, doc))
  {
    assert HalfResult(merge, docs0, p, docs, Added(docs, p, doc, ResultNode(plan)), plan, doc);
  }

  /** With its attachment the result is the one alive leaf beside the losers. */
  lemma ResultAttached(merge: Merge, docs0: Docs, p: Path, before: Docs, docs: Docs, plan: Plan, doc: Rev, y: Rev)
    requires HalfResult(merge, docs0, p, before, docs, plan, doc)
    requires Fresh(docs, p, y, AttachedNode(DocIn(docs, p), doc, plan.finalContent.value))
    ensures Burying(merge, docs0, p, before, Added(docs, p, y, AttachedNode(DocIn(docs, p), doc, plan.finalContent.value)), plan, y, 0)
  {
    var t := DocIn(docs0, p);
    var docs' := Added(docs, p, y, AttachedNode(DocIn(docs, p), doc, plan.finalContent.value));
    AddedGrows(before, p, doc, ResultNode(plan));
    AddedGrows(docs, p, y, AttachedNode(DocIn(docs, p), doc, plan.finalContent.value));
    GrewThrough(before, docs, docs');
    DocThenAttachment(before, p, doc, ResultNode(plan), y, plan.finalContent.value);
    assert plan.loserRevs[0..] == plan.loserRevs;
    ResultDoomed(t, DocIn(docs', p), plan, y);
  }

  lemma ResultDoomed(t: Tree, t': Tree, plan: Plan, y: Rev)
    requires Wf(t) && Wf(t') && Ready(t, plan) && y !in t
    requires AliveLeaves(t') == (set x | x in AliveLeaves(t) && x != plan.winnerRev) + {y}
    requires forall x :: IsLeaf(t, x) && x != plan.winnerRev ==> IsLeaf(t', x)
    ensures Doomed(t', plan.loserRevs, y)
  {
    forall x | x in plan.loserRevs ensures IsLeaf(t', x) && x != y {
      assert IsLeaf(t, x) && x != plan.winnerRev;
    }
  }

  // ---- the losers ----

  lemma BuryOne(merge: Merge, docs0: Docs, p: Path, before: Docs, docs: Docs, plan: Plan, y: Rev, next: nat, r: Rev)
    requires Burying(merge, docs0, p, before, docs, plan, y, next) && next < |plan.loserRevs|
    requires Fresh(docs, p, r, Tombstone(plan.loserRevs[next])) && r.gen == plan.loserRevs[next].gen + 1
    ensures Burying(merge, docs0, p, before, Added(docs, p, r, Tombstone(plan.loserRevs[next])), plan, y, next + 1)
  {
    var docs' := Added(docs, p, r, Tombstone(plan.loserRevs[next]));
    AddedGrows(docs, p, r, Tombstone(plan.loserRevs[next]));
    GrewThrough(before, docs, docs');
    var rest := plan.loserRevs[next..];
    assert rest[0] == plan.loserRevs[next] && rest[1..] == plan.loserRevs[next + 1..];
    TombstoneOne(DocIn(docs, p), r, rest, y);
    assert Extends(DocIn(docs, p), DocIn(docs', p));
  }

  lemma NoneLeftToBury(t: Tree, losers: seq<Rev>, y: Rev)
    requires Wf(t) && Doomed(t, losers[|losers|..], y)
    ensures AliveLeaves(t) == {y}
  {
    assert losers[|losers|..] == [];
  }

  lemma BuriedIsCarriedOut(merge: Merge, docs0: Docs, p: Path, before: Docs, docs: Docs, plan: Plan, y: Rev) returns (names: seq<Path>)
    requires Burying(merge, docs0, p, before, docs, plan, y, |plan.loserRevs|)
    ensures WfDocs(docs0) && Contested(DocIn(docs0, p)) && Planned(merge, DocIn(docs0, p), plan) && CarriedOut(docs0, docs, p, plan, names)
  {
    NoneLeftToBury(DocIn(docs, p), plan.loserRevs, y);
    GrewThrough(docs0, before, docs);
    names :| |names| == |plan.copies| && CopiesStored(docs0, before, p, plan, names);
    PlanCarriedOut(docs0, before, DocIn(docs, p), docs, p, plan, names, y);
  }

  lemma AllBuried(merge: Merge, docs0: Docs, p: Path, before: Docs, docs: Docs, plan: Plan, y: Rev)
    requires Burying(merge, docs0, p, before, docs, plan, y, |plan.loserRevs|)
    ensures Ended(merge, docs0, p, docs, Outcome.Resolved)
  {
    var names := BuriedIsCarriedOut(merge, docs0, p, before, docs, plan, y);
    assert Executed(merge, docs0, docs, p, plan, names);
  }

  // ---- each call of the machine ----

  lemma CopyPutStep(merge: Merge, docs0: Docs, p: Path, w: World, job: Job, f: Phase, ch: Choice)
    requires f.CopyPut? && Basic(w) && OnTrack(merge, docs0, p, w.docs, f) && Possible(w, job, f, ch)
    ensures var a := AttemptOf(w, job, f, ch);
            a.Accepted? && OnTrack(merge, docs0, p, Added(w.docs, a.path, a.rev, a.node), a.after)
  {
    var a := AttemptOf(w, job, f, ch);
    assert AcceptsPut(Doc(w, f.name), None);
    AttemptIsGrounded(w, job, f, ch);
    assert a.node == CopyNode(w.docs, f.plan, f.copy, f.name);
    CopyPutOnTrack(merge, docs0, p, w.docs, f, a.rev);
  }

  lemma HalfCopiedBefore(merge: Merge, docs0: Docs, p: Path, docs: Docs, f: Phase) returns (before: Docs)
    requires f.CopyAttach? && OnTrack(merge, docs0, p, docs, f)
    ensures f.copy < |f.plan.copies| && IsCopyName(p, f.name) && AliveLeaves(DocIn(docs0, p)) != {}
    ensures HalfCopied(merge, docs0, p, before, docs, f.plan, f.copy, f.name, f.doc)
  {
    before :| HalfCopied(merge, docs0, p, before, docs, f.plan, f.copy, f.name, f.doc);
  }

  lemma HalfCopiedIsLeaf(merge: Merge, docs0: Docs, p: Path, before: Docs, docs: Docs, plan: Plan, copy: nat, name: Path, doc: Rev)
    requires copy < |plan.copies| && HalfCopied(merge, docs0, p, before, docs, plan, copy, name, doc)
    ensures IsLeaf(DocIn(docs, name), doc)
  {
    AliveAfterAdd(DocIn(before, name), doc, CopyNode(before, plan, copy, name));
  }

  lemma CopyAttachStep(merge: Merge, docs0: Docs, p: Path, w: World, job: Job, f: Phase, ch: Choice)
    requires f.CopyAttach? && Basic(w) && OnTrack(merge, docs0, p, w.docs, f) && Possible(w, job, f, ch)
    ensures var a := AttemptOf(w, job, f, ch);
            a.Accepted? && OnTrack(merge, docs0, p, Added(w.docs, a.path, a.rev, a.node), a.after)
  {
    var before := HalfCopiedBefore(merge, docs0, p, w.docs, f);
    HalfCopiedIsLeaf(merge, docs0, p, before, w.docs, f.plan, f.copy, f.name, f.doc);
    AttachIsNext(merge, docs0, p, before, w, job, f, ch);
  }

  lemma AttachIsNext(merge: Merge, docs0: Docs, p: Path, before: Docs, w: World, job: Job, f: Phase, ch: Choice)
    requires f.CopyAttach? && Basic(w) && Possible(w, job, f, ch) && AliveLeaves(DocIn(docs0, p)) != {}
    requires f.copy < |f.plan.copies| && IsCopyName(p, f.name) && IsLeaf(Doc(w, f.name), f.doc)
    requires HalfCopied(merge, docs0, p, before, w.docs, f.plan, f.copy, f.name, f.doc)
    ensures var a := AttemptOf(w, job, f, ch);
            a.Accepted? && OnTrack(merge, docs0, p, Added(w.docs, a.path, a.rev, a.node), a.after)
  {
    var a := AttemptOf(w, job, f, ch);
    AttemptIsGrounded(w, job, f, ch);
    CopyAttached(merge, docs0, p, before, w.docs, f.plan, f.copy, f.name, f.doc, a.rev);
    AfterCopiesOnTrack(merge, docs0, p, Added(w.docs, a.path, a.rev, a.node), f.plan, f.copy + 1, ch);
  }

  lemma WritingStep(merge: Merge, docs0: Docs, p: Path, w: World, job: Job, f: Phase, ch: Choice)
    requires f.Writing? && job.path == p && Basic(w) && OnTrack(merge, docs0, p, w.docs, f) && Possible(w, job, f, ch)
    ensures var a := AttemptOf(w, job, f, ch);
            a.Accepted? && OnTrack(merge, docs0, p, Added(w.docs, a.path, a.rev, a.node), a.after)
  {
    var a := AttemptOf(w, job, f, ch);
    assert Doc(w, p) == DocIn(docs0, p);
    assert a.Accepted?;
    AttemptIsGrounded(w, job, f, ch);
    WriteOnTrack(merge, docs0, p, w.docs, f.plan, a.rev);
  }

  lemma AttachingStep(merge: Merge, docs0: Docs, p: Path, w: World, job: Job, f: Phase, ch: Choice)
    requires f.Attaching? && job.path == p && Basic(w) && OnTrack(merge, docs0, p, w.docs, f) && Possible(w, job, f, ch)
    ensures var a := AttemptOf(w, job, f, ch);
            a.Accepted? && OnTrack(merge, docs0, p, Added(w.docs, a.path, a.rev, a.node), a.after)
  {
    var before :| HalfResult(merge, docs0, p, before, w.docs, f.plan, f.doc);
    AliveAfterAdd(DocIn(before, p), f.doc, ResultNode(f.plan));
    var a := AttemptOf(w, job, f, ch);
    assert a.Accepted?;
    AttemptIsGrounded(w, job, f, ch);
    ResultAttached(merge, docs0, p, before, w.docs, f.plan, f.doc, a.rev);
  }

  lemma DeletingStep(merge: Merge, docs0: Docs, p: Path, w: World, job: Job, f: Phase, ch: Choice)
    requires f.Deleting? && job.path == p && Basic(w) && OnTrack(merge, docs0, p, w.docs, f) && Possible(w, job, f, ch)
    requires f.next < |f.plan.loserRevs|
    ensures var a := AttemptOf(w, job, f, ch);
            a.Accepted? && OnTrack(merge, docs0, p, Added(w.docs, a.path, a.rev, a.node), a.after)
  {
    var before :| Burying(merge, docs0, p, before, w.docs, f.plan, f.result, f.next);
    var rest := f.plan.loserRevs[f.next..];
    assert rest[0] == f.plan.loserRevs[f.next];
    assert IsLeaf(Doc(w, p), rest[0]);
    var a := AttemptOf(w, job, f, ch);
    AttemptIsGrounded(w, job, f, ch);
    BuryOne(merge, docs0, p, before, w.docs, f.plan, f.result, f.next, a.rev);
  }

  /** A call that writes. */
  predicate WritesNow(f: Phase) {
    f.CopyPut? || f.CopyAttach? || f.Writing? || f.Attaching? || (f.Deleting? && f.next < |f.plan.loserRevs|)
  }

  lemma WriteStep(merge: Merge, docs0: Docs, p: Path, w: World, job: Job, f: Phase, ch: Choice)
    requires WritesNow(f) && job.path == p && Basic(w) && OnTrack(merge, docs0, p, w.docs, f) && Possible(w, job, f, ch)
    ensures var a := AttemptOf(w, job, f, ch);
            a.Accepted? && OnTrack(merge, docs0, p, Added(w.docs, a.path, a.rev, a.node), a.after)
  {
    if f.CopyPut? {
      CopyPutStep(merge, docs0, p, w, job, f, ch);
    } else if f.CopyAttach? {
      CopyAttachStep(merge, docs0, p, w, job, f, ch);
    } else if f.Writing? {
      WritingStep(merge, docs0, p, w, job, f, ch);
    } else if f.Attaching? {
      AttachingStep(merge, docs0, p, w, job, f, ch);
    } else {
      DeletingStep(merge, docs0, p, w, job, f, ch);
    }
  }

  /** Where a call that only reads leaves the resolver. */
  ghost predicate StaysOnTrack(merge: Merge, docs0: Docs, p: Path, w: World, pid: Pid, w': World) {
    w'.docs == w.docs && pid in w'.procs && w'.procs[pid].job.path == p && OnTrack(merge, docs0, p, w.docs, w'.procs[pid].phase)
  }

  lemma ReadingStep(merge: Merge, docs0: Docs, p: Path, w: World, pid: Pid, job: Job, ch: Choice)
    requires job.path == p && OnTrack(merge, docs0, p, w.docs, Reading) && Possible(w, job, Reading, ch)
    ensures StaysOnTrack(merge, docs0, p, w, pid, ActReading(w, pid, job, ch))
  {
    ReadingOnTrack(merge, docs0, p, w, pid, job, ch);
  }

  lemma FetchingStep(merge: Merge, docs0: Docs, p: Path, w: World, pid: Pid, job: Job, f: Phase, ch: Choice)
    requires f.Fetching? && job.path == p && Basic(w) && OnTrack(merge, docs0, p, w.docs, f) && ch.baseRead
    ensures StaysOnTrack(merge, docs0, p, w, pid, ActFetching(merge, w, pid, job, f, ch))
  {
    if |f.leaves| < |f.revs| {
      FetchOnTrack(merge, docs0, p, f);
    } else {
      PlanOnTrack(merge, docs0, p, f, ch);
    }
  }

  lemma ProbingStep(merge: Merge, docs0: Docs, p: Path, w: World, pid: Pid, job: Job, f: Phase)
    requires f.Probing? && job.path == p && OnTrack(merge, docs0, p, w.docs, f)
    ensures StaysOnTrack(merge, docs0, p, w, pid, ActProbing(w, pid, job, f))
  {
    ProbeOnTrack(merge, docs0, p, w.docs, f.plan, f.copy, f.today, f.n);
  }

  lemma LastStep(merge: Merge, docs0: Docs, p: Path, w: World, pid: Pid, job: Job, f: Phase)
    requires f.Deleting? && f.next >= |f.plan.loserRevs| && job.path == p && OnTrack(merge, docs0, p, w.docs, f)
    ensures StaysOnTrack(merge, docs0, p, w, pid, Moved(w, pid, job, Finished(Outcome.Resolved)))
  {
    var before :| Burying(merge, docs0, p, before, w.docs, f.plan, f.result, f.next);
    AllBuried(merge, docs0, p, before, w.docs, f.plan, f.result);
  }

  lemma ReadStep(merge: Merge, docs0: Docs, p: Path, w: World, pid: Pid, job: Job, f: Phase, ch: Choice)
    requires !WritesNow(f) && f != InDeleteWinner && job.path == p && Basic(w) && OnTrack(merge, docs0, p, w.docs, f)
    requires Possible(w, job, f, ch) && ch.baseRead && pid in w.procs && w.procs[pid] == Proc(job, f)
    ensures AttemptOf(w, job, f, ch) == NoWrite
    ensures StaysOnTrack(merge, docs0, p, w, pid, ActReadOnly(merge, w, pid, job, f, ch))
  {
    if f.Reading? {
      ReadingStep(merge, docs0, p, w, pid, job, ch);
    } else if f.Fetching? {
      FetchingStep(merge, docs0, p, w, pid, job, f, ch);
    } else if f.Probing? {
      ProbingStep(merge, docs0, p, w, pid, job, f);
    } else if f.Deleting? {
      LastStep(merge, docs0, p, w, pid, job, f);
    }
  }

  lemma StepOnTrack(merge: Merge, docs0: Docs, p: Path, w: World, pid: Pid, ch: Choice)
    requires Basic(w) && pid in w.procs && w.procs[pid].job.path == p && OnTrack(merge, docs0, p, w.docs, w.procs[pid].phase)
    requires Possible(w, w.procs[pid].job, w.procs[pid].phase, ch) && ch.baseRead
    ensures var w' := Act(merge, w, pid, ch);
            pid in w'.procs && w'.procs[pid].job.path == p && OnTrack(merge, docs0, p, w'.docs, w'.procs[pid].phase)
  {
    var Proc(job, f) := w.procs[pid];
    if WritesNow(f) {
      WriteStep(merge, docs0, p, w, job, f, ch);
    } else {
      assert f != InDeleteWinner;
      ReadStep(merge, docs0, p, w, pid, job, f, ch);
    }
  }

  // ---- it ends ----

  function AliveCountIn(docs: Docs, p: Path): nat {
    |AliveLeaves(DocIn(docs, p))|
  }

  /** What `k` copies can cost when at most `b` names are taken. */
  function CopyCost(k: nat, b: nat): nat {
    if k == 0 then 0 else b + 4 + CopyCost(k - 1, b)
  }

  lemma {:induction false} CopyCostGrows(k: nat, l: nat, b: nat)
    requires k <= l
    ensures CopyCost(k, b) <= CopyCost(l, b)
  {
    if k < l {
      CopyCostGrows(k, l - 1, b);
    }
  }

  /** No more names are ever taken than there are documents and copies. */
  function Names(docs0: Docs, p: Path): nat {
    |docs0| + AliveCountIn(docs0, p)
  }

  /** A bound on the calls still to be made. */
  function Left(docs0: Docs, p: Path, f: Phase): int {
    var l, b := AliveCountIn(docs0, p), Names(docs0, p);
    match f
    case Reading => CopyCost(l, b) + 2 * l + 7
    case Fetching(_, revs, leaves) => CopyCost(l, b) + l + 6 + |revs| - |leaves|
    case Probing(plan, copy, _, n) =>
      if copy < |plan.copies| then CopyCost(|plan.copies| - copy - 1, b) + |plan.loserRevs| + 6 + b - n else 0
    case CopyPut(plan, copy, _) =>
      if copy < |plan.copies| then CopyCost(|plan.copies| - copy - 1, b) + |plan.loserRevs| + 5 else 0
    case CopyAttach(plan, copy, _, _) =>
      if copy < |plan.copies| then CopyCost(|plan.copies| - copy - 1, b) + |plan.loserRevs| + 4 else 0
    case Writing(plan) => |plan.loserRevs| + 3
    case Attaching(plan, _) => |plan.loserRevs| + 2
    case Deleting(plan, _, next) => |plan.loserRevs| - next + 1
    case _ => 0
  }

  ghost predicate Sizes(docs0: Docs, p: Path, plan: Plan) {
    |plan.copies| <= AliveCountIn(docs0, p) && |plan.loserRevs| <= AliveCountIn(docs0, p)
  }

  ghost predicate InBudget(docs0: Docs, p: Path, docs: Docs, f: Phase) {
    match f
    case Fetching(_, revs, leaves) => |leaves| <= |revs| == AliveCountIn(docs0, p) && docs == docs0
    case Probing(plan, copy, _, n) => Sizes(docs0, p, plan) && copy < |plan.copies| && n <= |docs| <= |docs0| + copy
    case CopyPut(plan, copy, _) => Sizes(docs0, p, plan) && copy < |plan.copies| && |docs| <= |docs0| + copy
    case CopyAttach(plan, copy, name, _) => Sizes(docs0, p, plan) && copy < |plan.copies| && |docs| <= |docs0| + copy + 1 && name in docs
    case Writing(plan) => Sizes(docs0, p, plan)
    case Attaching(plan, _) => Sizes(docs0, p, plan)
    case Deleting(plan, _, next) => Sizes(docs0, p, plan) && next <= |plan.loserRevs|
    case _ => true
  }

  lemma UnfinishedHasLeft(docs0: Docs, p: Path, docs: Docs, f: Phase)
    requires InBudget(docs0, p, docs, f) && !f.Finished? && f != InDeleteWinner
    ensures Left(docs0, p, f) >= 1
  {
  }

  lemma PlanSizes(merge: Merge, docs0: Docs, p: Path, conflicts: seq<Rev>, leaves: seq<Leaf>)
    requires WfDocs(docs0) && Lists(DocIn(docs0, p), conflicts) && ReadAs(DocIn(docs0, p), [Winner(DocIn(docs0, p))] + conflicts, leaves)
    ensures var plan := PlanResolution(leaves, Winner(DocIn(docs0, p)), LookupIn(DocIn(docs0, p)), merge);
            plan.Some? && Sizes(docs0, p, plan.value)
  {
    var t := DocIn(docs0, p);
    ListedLeaves(t, conflicts, leaves);
    AliveCount(t, conflicts);
    AlivePlanWrites(leaves, LookupIn(t), merge);
    CopiesAtMost(leaves, Winner(t), LookupIn(t), merge);
  }

  lemma TakenAtMost(docs: Docs, p: Path, today: string, n: nat)
    requires Taken(docs, p, today, n)
    ensures n <= |docs|
  {
    forall k | 0 <= k < n ensures Candidate(p, today, k) in docs.Keys {
      assert AliveLeaves(DocIn(docs, Candidate(p, today, k))) != {};
    }
    ProbesAreBounded(p, today, docs.Keys, n);
    assert |docs.Keys| == |docs|;
  }

  lemma AddedSize(docs: Docs, q: Path, r: Rev, n: Node)
    ensures |Added(docs, q, r, n)| <= |docs| + 1
    ensures q in docs ==> |Added(docs, q, r, n)| == |docs|
  {
    var docs' := Added(docs, q, r, n);
    assert docs'.Keys == docs.Keys + {q};
    assert |docs'.Keys| == |docs'| && |docs.Keys| == |docs|;
  }

  /** A call that writes stays within the bound, and brings the end nearer. */
  lemma WriteInBudget(docs0: Docs, p: Path, w: World, job: Job, f: Phase, ch: Choice)
    requires WritesNow(f) && InBudget(docs0, p, w.docs, f) && AttemptOf(w, job, f, ch).Accepted?
    ensures var a := AttemptOf(w, job, f, ch);
            InBudget(docs0, p, Added(w.docs, a.path, a.rev, a.node), a.after) && Left(docs0, p, a.after) < Left(docs0, p, f)
  {
    var a := AttemptOf(w, job, f, ch);
    AddedSize(w.docs, a.path, a.rev, a.node);
  }

  lemma ReadingInBudget(merge: Merge, docs0: Docs, p: Path, w: World, pid: Pid, job: Job, ch: Choice)
    requires job.path == p && OnTrack(merge, docs0, p, w.docs, Reading) && Possible(w, job, Reading, ch)
    ensures var f := ActReading(w, pid, job, ch).procs[pid].phase;
            InBudget(docs0, p, w.docs, f) && Left(docs0, p, f) < Left(docs0, p, Reading)
  {
    AliveCount(DocIn(docs0, p), ch.conflicts);
  }

  lemma PlanInBudget(docs0: Docs, p: Path, plan: Plan, ch: Choice)
    requires Sizes(docs0, p, plan)
    ensures InBudget(docs0, p, docs0, AfterCopies(plan, 0, ch))
    ensures Left(docs0, p, AfterCopies(plan, 0, ch)) <= CopyCost(AliveCountIn(docs0, p), Names(docs0, p)) + AliveCountIn(docs0, p) + 5
  {
    CopyCostGrows(|plan.copies|, AliveCountIn(docs0, p), Names(docs0, p));
  }

  lemma FetchingInBudget(merge: Merge, docs0: Docs, p: Path, w: World, pid: Pid, job: Job, f: Phase, ch: Choice)
    requires f.Fetching? && job.path == p && WfDocs(docs0) && w.docs == docs0 && ch.baseRead && InBudget(docs0, p, docs0, f)
    requires Chosen(DocIn(docs0, p), f.winner, f.revs) && ReadSoFar(DocIn(docs0, p), f.revs, f.leaves)
    ensures var g := ActFetching(merge, w, pid, job, f, ch).procs[pid].phase;
            InBudget(docs0, p, w.docs, g) && Left(docs0, p, g) < Left(docs0, p, f)
  {
    if |f.leaves| == |f.revs| {
      PlanSizes(merge, docs0, p, f.revs[1..], f.leaves);
      PlanInBudget(docs0, p, PlanResolution(f.leaves, f.winner, LookupIn(DocIn(docs0, p)), merge).value, ch);
    }
  }

  lemma ProbingFacts(merge: Merge, docs0: Docs, p: Path, docs: Docs, f: Phase)
    requires f.Probing? && OnTrack(merge, docs0, p, docs, f)
    ensures Taken(docs, p, f.today, f.n)
  {
  }

  lemma ProbingInBudget(docs0: Docs, p: Path, w: World, pid: Pid, job: Job, f: Phase)
    requires f.Probing? && job.path == p && Taken(w.docs, p, f.today, f.n) && InBudget(docs0, p, w.docs, f)
    ensures var g := ActProbing(w, pid, job, f).procs[pid].phase;
            InBudget(docs0, p, w.docs, g) && Left(docs0, p, g) < Left(docs0, p, f)
  {
    if AliveLeaves(DocIn(w.docs, Candidate(p, f.today, f.n))) != {} {
      OneMoreTaken(w.docs, p, f.today, f.n);
      TakenAtMost(w.docs, p, f.today, f.n + 1);
    }
  }

  /** `w'` is within the bound, and nearer to the end than `f`. */
  ghost predicate Nearer(docs0: Docs, p: Path, f: Phase, w': World, pid: Pid) {
    && pid in w'.procs && InBudget(docs0, p, w'.docs, w'.procs[pid].phase)
    && Left(docs0, p, w'.procs[pid].phase) < Left(docs0, p, f)
  }

  lemma ReadNearer(merge: Merge, docs0: Docs, p: Path, w: World, pid: Pid, job: Job, f: Phase, ch: Choice)
    requires !WritesNow(f) && !f.Finished? && f != InDeleteWinner && job.path == p && Basic(w) && OnTrack(merge, docs0, p, w.docs, f)
    requires Possible(w, job, f, ch) && ch.baseRead && InBudget(docs0, p, w.docs, f)
    ensures Nearer(docs0, p, f, ActReadOnly(merge, w, pid, job, f, ch), pid)
  {
    if f.Reading? {
      ReadingInBudget(merge, docs0, p, w, pid, job, ch);
    } else if f.Fetching? {
      FetchingFacts(merge, docs0, p, w.docs, f);
      FetchingInBudget(merge, docs0, p, w, pid, job, f, ch);
    } else if f.Probing? {
      ProbingFacts(merge, docs0, p, w.docs, f);
      ProbingInBudget(docs0, p, w, pid, job, f);
    }
  }

  lemma StepInBudget(merge: Merge, docs0: Docs, p: Path, w: World, pid: Pid, ch: Choice)
    requires Basic(w) && pid in w.procs && w.procs[pid].job.path == p && OnTrack(merge, docs0, p, w.docs, w.procs[pid].phase)
    requires Possible(w, w.procs[pid].job, w.procs[pid].phase, ch) && ch.baseRead
    requires InBudget(docs0, p, w.docs, w.procs[pid].phase) && !w.procs[pid].phase.Finished?
    ensures Nearer(docs0, p, w.procs[pid].phase, Act(merge, w, pid, ch), pid)
  {
    var Proc(job, f) := w.procs[pid];
    if WritesNow(f) {
      WriteStep(merge, docs0, p, w, job, f, ch);
      WriteInBudget(docs0, p, w, job, f, ch);
    } else {
      ReadStep(merge, docs0, p, w, pid, job, f, ch);
      ReadNearer(merge, docs0, p, w, pid, job, f, ch);
    }
  }

  // ---- runs of one resolver ----

  ghost predicate SoloStep(merge: Merge, ws: seq<World>, chs: seq<Choice>, pid: Pid, k: nat)
    requires k < |chs| && |ws| == |chs| + 1
  {
    && Basic(ws[k]) && pid in ws[k].procs && Possible(ws[k], ws[k].procs[pid].job, ws[k].procs[pid].phase, chs[k])
    && chs[k].baseRead && ws[k + 1] == Act(merge, ws[k], pid, chs[k])
  }

  /** Nobody but `pid` makes a step, from its `get_doc` on an alive document `p`; no read of it fails. */
  ghost predicate SoloRun(merge: Merge, ws: seq<World>, chs: seq<Choice>, pid: Pid, p: Path) {
    && |ws| == |chs| + 1 && Basic(ws[0]) && AliveLeaves(Doc(ws[0], p)) != {}
    && pid in ws[0].procs && ws[0].procs[pid].job.path == p && ws[0].procs[pid].phase == Reading
    && forall k :: 0 <= k < |chs| ==> SoloStep(merge, ws, chs, pid, k)
  }

  ghost predicate Underway(merge: Merge, docs0: Docs, p: Path, w: World, pid: Pid, k: nat) {
    && pid in w.procs && w.procs[pid].job.path == p && OnTrack(merge, docs0, p, w.docs, w.procs[pid].phase)
    && InBudget(docs0, p, w.docs, w.procs[pid].phase)
    && (w.procs[pid].phase.Finished? || Left(docs0, p, w.procs[pid].phase) + k <= Left(docs0, p, Reading))
  }

  lemma OneMoreSolo(merge: Merge, docs0: Docs, p: Path, ws: seq<World>, chs: seq<Choice>, pid: Pid, k: nat)
    requires k < |chs| && |ws| == |chs| + 1 && SoloStep(merge, ws, chs, pid, k) && Underway(merge, docs0, p, ws[k], pid, k)
    ensures Underway(merge, docs0, p, ws[k + 1], pid, k + 1)
  {
    StepOnTrack(merge, docs0, p, ws[k], pid, chs[k]);
    if !ws[k].procs[pid].phase.Finished? {
      StepInBudget(merge, docs0, p, ws[k], pid, chs[k]);
    }
  }

  lemma {:induction false} SoloUnderway(merge: Merge, ws: seq<World>, chs: seq<Choice>, pid: Pid, p: Path, k: nat)
    requires SoloRun(merge, ws, chs, pid, p) && k < |ws|
    ensures Underway(merge, ws[0].docs, p, ws[k], pid, k)
  {
    if k > 0 {
      SoloUnderway(merge, ws, chs, pid, p, k - 1);
      assert SoloStep(merge, ws, chs, pid, k - 1);
      OneMoreSolo(merge, ws[0].docs, p, ws, chs, pid, k - 1);
    }
  }

  /** Undisturbed, the machine ends, within `Left` calls, and where it ends the database is what `resolve` makes
      of it: every outcome of the one is the outcome of the other. */
  lemma SoloRefinesResolve(merge: Merge, ws: seq<World>, chs: seq<Choice>, pid: Pid, p: Path)
    requires SoloRun(merge, ws, chs, pid, p)
    ensures pid in ws[|chs|].procs && WfDocs(ws[0].docs)
    ensures |chs| >= Left(ws[0].docs, p, Reading) ==> ws[|chs|].procs[pid].phase.Finished?
    ensures ws[|chs|].procs[pid].phase.Finished? ==> Matches(merge, ws[0].docs, ws[|chs|].docs, p, ws[|chs|].procs[pid].phase.outcome)
  {
    SoloUnderway(merge, ws, chs, pid, p, |chs|);
    var f := ws[|chs|].procs[pid].phase;
    if f.Finished? {
      EndedMatches(merge, ws[0].docs, p, ws[|chs|].docs, f.outcome);
    } else {
      UnfinishedHasLeft(ws[0].docs, p, ws[|chs|].docs, f);
    }
  }

  ghost predicate Matches(merge: Merge, docs: Docs, docs': Docs, p: Path, outcome: Outcome)
    requires WfDocs(docs)
  {
    match outcome
    case NoConflict => Resolves(merge, docs, docs', p, Resolution.NoConflict)
    case Failed => Resolves(merge, docs, docs', p, MissingContent)
    case Resolved => exists kind, names :: Resolves(merge, docs, docs', p, Resolution.Resolved(kind, names))
    case MaxRetries => false
  }

  lemma EndedMatches(merge: Merge, docs0: Docs, p: Path, docs: Docs, outcome: Outcome)
    requires WfDocs(docs0) && Ended(merge, docs0, p, docs, outcome)
    ensures Matches(merge, docs0, docs, p, outcome)
  {
    if outcome == Outcome.Resolved {
      var plan: Plan, names :| Executed(merge, docs0, docs, p, plan, names);
      assert Resolves(merge, docs0, docs, p, Resolution.Resolved(plan.kind, names));
    }
  }

  /** In particular a conflict of readable leaves is always resolved. */
  lemma SoloResolves(merge: Merge, ws: seq<World>, chs: seq<Choice>, pid: Pid, p: Path)
    requires SoloRun(merge, ws, chs, pid, p) && Contested(Doc(ws[0], p)) && |chs| >= Left(ws[0].docs, p, Reading)
    ensures pid in ws[|chs|].procs && WfDocs(ws[0].docs) && ws[|chs|].procs[pid].phase == Finished(Outcome.Resolved)
    ensures exists kind, names :: Resolves(merge, ws[0].docs, ws[|chs|].docs, p, Resolution.Resolved(kind, names))
  {
    SoloRefinesResolve(merge, ws, chs, pid, p);
    var outcome := ws[|chs|].procs[pid].phase.outcome;
    assert outcome != Outcome.NoConflict && outcome != Failed;
  }

  // ---- such runs exist ----

  lemma ListingExists(s: set<Rev>) returns (revs: seq<Rev>)
    ensures Distinct(revs) && forall r :: r in revs <==> r in s
  {
    revs := [];
    var todo := s;
    while todo != {}
      invariant todo <= s && Distinct(revs) && forall r :: r in revs ==> r !in todo
      invariant forall r :: r in s <==> r in revs || r in todo
      decreases todo
    {
      var x :| x in todo;
      todo, revs := todo - {x}, revs + [x];
    }
  }

  lemma FreshHash(w: World, job: Job, f: Phase, ch: Choice) returns (hash: nat)
    ensures var a := AttemptOf(w, job, f, ch.(hash := hash)); a.Accepted? ==> a.rev !in Doc(w, a.path)
  {
    var a := AttemptOf(w, job, f, ch);
    hash := 0;
    if a.Accepted? {
      hash := UnusedHash(Doc(w, a.path).Keys);
    }
  }

  /** At every moment CouchDB has some answer to give. */
  lemma StepExists(w: World, pid: Pid) returns (ch: Choice)
    requires Basic(w) && pid in w.procs
    ensures Possible(w, w.procs[pid].job, w.procs[pid].phase, ch) && ch.baseRead
  {
    var Proc(job, f) := w.procs[pid];
    var t := Doc(w, job.path);
    var conflicts: seq<Rev> := [];
    if AliveLeaves(t) != {} {
      conflicts := ListingExists(AliveLeaves(t) - {Winner(t)});
    }
    ch := Choice(0, conflicts, "", true);
    var hash := FreshHash(w, job, f, ch);
    ch := ch.(hash := hash);
  }
}
