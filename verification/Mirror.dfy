/** The client's durable state, what a hub shows it, and what it means for the one to mirror the other. */
module Mirror {
  import opened RevTree

  type RevName = string
  type HubId = string

  datatype DiskFile = DiskFile(content: Bytes, mtime: int)

  datatype FileMeta = FileMeta(rev: RevName, mtime: int, ctype: string)

  datatype PendingChange = PendingChange(path: Path, deleted: bool, baseRev: Option<RevName>, mtime: int,
                                         ctype: Option<string>)

  /** The file store, and the meta store's three key spaces: `file/`, `pending`, `checkpoint/`. */
  datatype Local = Local(files: map<Path, DiskFile>, metas: map<Path, FileMeta>, pending: seq<PendingChange>,
                         checkpoints: map<HubId, nat>)

  datatype HubFile = HubFile(rev: RevName, mtime: int, ctype: string, content: Bytes)

  datatype ChangeEntry = ChangeEntry(path: Path, deleted: bool)

  /** A hub as a client sees it; `changed` is each path's place in the feed, `last` the feed's end. */
  datatype HubState = HubState(files: map<Path, HubFile>, changed: map<Path, nat>, last: nat)

  // ---- the hub over time ----

  ghost predicate HubOk(h: HubState) {
    && (forall q :: q in h.files ==> q in h.changed)
    && (forall q :: q in h.changed ==> h.changed[q] <= h.last)
  }

  predicate ChangedAfter(h: HubState, q: Path, since: Option<nat>) {
    q in h.changed && (since.Some? ==> h.changed[q] > since.value)
  }

  ghost predicate Untouched(h: HubState, h': HubState, q: Path) {
    && (q in h.files <==> q in h'.files) && (q in h.files ==> h.files[q] == h'.files[q])
    && (q in h.changed <==> q in h'.changed) && (q in h.changed ==> h.changed[q] == h'.changed[q])
  }

  /** Whatever happens to a path puts it at the end of the feed. */
  ghost predicate Evolves(h: HubState, h': HubState) {
    && HubOk(h') && h.last <= h'.last && (h'.last == h.last ==> h' == h)
    && forall q :: Untouched(h, h', q) || ChangedAfter(h', q, Some(h.last))
  }

  lemma EvolvesTransitive(h: HubState, h': HubState, h'': HubState)
    requires Evolves(h, h') && Evolves(h', h'')
    ensures Evolves(h, h'')
  {
    forall q ensures Untouched(h, h'', q) || ChangedAfter(h'', q, Some(h.last)) {
      assert Untouched(h, h', q) || ChangedAfter(h', q, Some(h.last));
      assert Untouched(h', h'', q) || ChangedAfter(h'', q, Some(h'.last));
    }
  }

  // ---- the mirror ----

  predicate Queued(loc: Local, q: Path) {
    exists i :: 0 <= i < |loc.pending| && loc.pending[i].path == q
  }

  function Checkpoint(loc: Local, id: HubId): Option<nat> {
    if id in loc.checkpoints then Some(loc.checkpoints[id]) else None
  }

  /** Content, revision, mtime and type are the hub's; on disk too, where a positive mtime can be set. */
  ghost predicate Agrees(loc: Local, h: HubState, q: Path) {
    if q in h.files then
      && q in loc.files && q in loc.metas && loc.files[q].content == h.files[q].content
      && loc.metas[q].rev == h.files[q].rev && loc.metas[q].mtime == h.files[q].mtime && loc.metas[q].ctype == h.files[q].ctype
      && (h.files[q].mtime > 0 ==> loc.files[q].mtime == h.files[q].mtime)
    else q !in loc.files && q !in loc.metas
  }

  /** Still to be pushed, still to be pulled, or the same on both sides. */
  ghost predicate MirroredAt(loc: Local, h: HubState, id: HubId, q: Path) {
    Queued(loc, q) || ChangedAfter(h, q, Checkpoint(loc, id)) || Agrees(loc, h, q)
  }

  // ---- recording ----

  /** `FsFileStore::put`: a mtime that is not positive cannot be set, the file keeps the time of writing. */
  function OnDisk(content: Bytes, mtime: int, now: int): DiskFile {
    DiskFile(content, if mtime > 0 then mtime else now)
  }

  /** The revision to base the next push on; an empty one counts as none. */
  function BaseRevOf(loc: Local, q: Path): Option<RevName> {
    if q in loc.metas && loc.metas[q].rev != "" then Some(loc.metas[q].rev) else None
  }

  function Without(pending: seq<PendingChange>, q: Path): seq<PendingChange> {
    if pending == [] then [] else
      var n := |pending| - 1;
      if pending[n].path == q then Without(pending[..n], q) else Without(pending[..n], q) + [pending[n]]
  }

  lemma {:induction false} WithoutMembers(pending: seq<PendingChange>, q: Path)
    ensures forall c :: c in Without(pending, q) <==> c in pending && c.path != q
  {
    if pending != [] {
      var n := |pending| - 1;
      WithoutMembers(pending[..n], q);
      assert pending == pending[..n] + [pending[n]];
    }
  }

  /** `upsert_pending`: one entry per path, the newest last. */
  function Enqueued(pending: seq<PendingChange>, c: PendingChange): seq<PendingChange> {
    Without(pending, c.path) + [c]
  }

  function Upserted(loc: Local, q: Path, mtime: int, ctype: string, content: Bytes, now: int): Local {
    var base := BaseRevOf(loc, q);
    var rev := if base.Some? then base.value else "";
    loc.(files := loc.files[q := OnDisk(content, mtime, now)],
         metas := loc.metas[q := FileMeta(rev, mtime, ctype)],
         pending := Enqueued(loc.pending, PendingChange(q, false, base, mtime, Some(ctype))))
  }

  function Deleted(loc: Local, q: Path, mtime: int): Local {
    loc.(files := loc.files - {q}, metas := loc.metas - {q},
         pending := Enqueued(loc.pending, PendingChange(q, true, BaseRevOf(loc, q), mtime, None)))
  }

  lemma QueuedAfter(loc: Local, loc': Local, c: PendingChange, q: Path)
    requires loc'.pending == Enqueued(loc.pending, c)
    ensures Queued(loc', q) <==> q == c.path || Queued(loc, q)
  {
    var rest := Without(loc.pending, c.path);
    WithoutMembers(loc.pending, c.path);
    if q == c.path {
      assert loc'.pending[|rest|].path == q;
    }
    if Queued(loc, q) && q != c.path {
      var i :| 0 <= i < |loc.pending| && loc.pending[i].path == q;
      assert loc.pending[i] in rest;
      var j :| 0 <= j < |rest| && rest[j] == loc.pending[i];
      assert loc'.pending[j].path == q;
    }
    if Queued(loc', q) && q != c.path {
      var i :| 0 <= i < |loc'.pending| && loc'.pending[i].path == q;
      assert rest[i] in rest;
      assert rest[i] in loc.pending;
    }
  }

  // ---- pulling ----

  ghost predicate SameAt(loc: Local, loc': Local, q: Path) {
    && (q in loc.files <==> q in loc'.files) && (q in loc.files ==> loc.files[q] == loc'.files[q])
    && (q in loc.metas <==> q in loc'.metas) && (q in loc.metas ==> loc.metas[q] == loc'.metas[q])
  }

  /** The paths a pull from `since` rewrites. */
  ghost predicate Pullable(loc: Local, h: HubState, since: Option<nat>, q: Path) {
    ChangedAfter(h, q, since) && !Queued(loc, q)
  }

  /** A whole batch: every changed path that is not queued is the hub's, nothing else is touched, and
      the checkpoint is the end of the feed. */
  ghost predicate PullEffect(loc: Local, loc': Local, h: HubState, id: HubId) {
    && loc'.pending == loc.pending && loc'.checkpoints == loc.checkpoints[id := h.last]
    && forall q :: PulledAt(loc, loc', h, Checkpoint(loc, id), q)
  }

  ghost predicate PulledAt(loc: Local, loc': Local, h: HubState, since: Option<nat>, q: Path) {
    if Pullable(loc, h, since, q) then Agrees(loc', h, q) else SameAt(loc, loc', q)
  }

  /** Any part of a batch, down to a file without its metadata; no checkpoint has moved. */
  ghost predicate PartialEffect(loc: Local, loc': Local, h: HubState, id: HubId) {
    && loc'.pending == loc.pending && loc'.checkpoints == loc.checkpoints
    && forall q :: SameAt(loc, loc', q) || Pullable(loc, h, Checkpoint(loc, id), q)
  }

  /** Any number of interrupted pulls against the same hub are still part of one batch. */
  lemma TwoPartialPullsAreOne(loc: Local, part: Local, more: Local, h: HubState, id: HubId)
    requires PartialEffect(loc, part, h, id) && PartialEffect(part, more, h, id)
    ensures PartialEffect(loc, more, h, id)
  {
    forall q ensures SameAt(loc, more, q) || Pullable(loc, h, Checkpoint(loc, id), q) {
      assert Queued(part, q) <==> Queued(loc, q);
      assert SameAt(loc, part, q) || Pullable(loc, h, Checkpoint(loc, id), q);
      assert SameAt(part, more, q) || Pullable(part, h, Checkpoint(part, id), q);
    }
  }

  /** Retrying an interrupted pull against the same hub gives what one uninterrupted pull gives. */
  lemma RetriedPullIsOnePull(loc: Local, part: Local, done: Local, h: HubState, id: HubId)
    requires PartialEffect(loc, part, h, id) && PullEffect(part, done, h, id)
    ensures PullEffect(loc, done, h, id)
  {
    var since := Checkpoint(loc, id);
    forall q ensures PulledAt(loc, done, h, since, q) {
      assert Queued(part, q) <==> Queued(loc, q);
      assert SameAt(loc, part, q) || Pullable(loc, h, since, q);
      assert PulledAt(part, done, h, Checkpoint(part, id), q);
    }
  }

  /** Two uninterrupted pulls from the same state give the same stores, but for the time on disk of a
      file whose recorded time cannot be set. */
  lemma PullIsDetermined(loc: Local, a: Local, b: Local, h: HubState, id: HubId)
    requires PullEffect(loc, a, h, id) && PullEffect(loc, b, h, id)
    ensures a.metas == b.metas && a.files.Keys == b.files.Keys && a.checkpoints == b.checkpoints
    ensures a.pending == b.pending
    ensures forall q :: q in a.files ==> a.files[q].content == b.files[q].content
    ensures forall q :: q in a.files && q in a.metas && a.metas[q].mtime > 0 ==> a.files[q] == b.files[q]
  {
    var since := Checkpoint(loc, id);
    forall q ensures (q in a.metas <==> q in b.metas) && (q in a.metas ==> a.metas[q] == b.metas[q])
                  && (q in a.files <==> q in b.files)
                  && (q in a.files ==> a.files[q].content == b.files[q].content)
                  && (q in a.files && q in a.metas && a.metas[q].mtime > 0 ==> a.files[q] == b.files[q])
    {
      assert PulledAt(loc, a, h, since, q) && PulledAt(loc, b, h, since, q);
    }
  }

  // ---- the base revision over many edits ----

  datatype Edit =
    | Up(path: Path, mtime: int, ctype: string, content: Bytes, now: int)
    | Del(path: Path, mtime: int)

  function Edited(loc: Local, e: Edit): Local {
    match e
    case Up(q, mtime, ctype, content, now) => Upserted(loc, q, mtime, ctype, content, now)
    case Del(q, mtime) => Deleted(loc, q, mtime)
  }

  function AllEdited(loc: Local, edits: seq<Edit>): Local {
    if edits == [] then loc else Edited(AllEdited(loc, edits[..|edits| - 1]), edits[|edits| - 1])
  }

  /** The base revision queued for `q`. */
  ghost predicate QueuedWith(loc: Local, q: Path, base: Option<RevName>) {
    exists i :: 0 <= i < |loc.pending| && loc.pending[i].path == q && loc.pending[i].baseRev == base
  }

  ghost predicate OnePerPath(pending: seq<PendingChange>) {
    forall i, j :: 0 <= i < j < |pending| ==> pending[i].path != pending[j].path
  }

  lemma {:induction false} WithoutNone(pending: seq<PendingChange>, q: Path)
    requires forall i :: 0 <= i < |pending| ==> pending[i].path != q
    ensures Without(pending, q) == pending
  {
    if pending != [] {
      var n := |pending| - 1;
      WithoutNone(pending[..n], q);
      assert pending == pending[..n] + [pending[n]];
    }
  }

  lemma Shortened(s: seq<PendingChange>, i: nat)
    requires i < |s| - 1
    ensures (s[..|s| - 1][..i] + s[..|s| - 1][i + 1..]) + [s[|s| - 1]] == s[..i] + s[i + 1..]
  {
  }

  /** Removing the only entry of a path leaves the others as and where they are. */
  lemma {:induction false} WithoutTheOne(pending: seq<PendingChange>, q: Path, i: nat)
    requires OnePerPath(pending) && i < |pending| && pending[i].path == q
    ensures Without(pending, q) == pending[..i] + pending[i + 1..]
  {
    var n := |pending| - 1;
    if i == n {
      WithoutNone(pending[..n], q);
      assert pending[n + 1..] == [];
    } else {
      WithoutTheOne(pending[..n], q, i);
      Shortened(pending, i);
    }
  }

  lemma {:induction false} WithoutKeepsOne(pending: seq<PendingChange>, q: Path)
    requires OnePerPath(pending)
    ensures OnePerPath(Without(pending, q))
  {
    if pending != [] {
      var n := |pending| - 1;
      WithoutKeepsOne(pending[..n], q);
      var rest := Without(pending[..n], q);
      WithoutMembers(pending[..n], q);
      forall j | 0 <= j < |rest| ensures rest[j].path != pending[n].path {
        assert rest[j] in pending[..n];
      }
    }
  }

  lemma EnqueuedKeepsOne(pending: seq<PendingChange>, c: PendingChange)
    requires OnePerPath(pending)
    ensures OnePerPath(Enqueued(pending, c))
  {
    WithoutKeepsOne(pending, c.path);
    WithoutMembers(pending, c.path);
    var rest := Without(pending, c.path);
    assert forall j :: 0 <= j < |rest| ==> rest[j] in rest;
  }

  /** What the edits so far did to `q`. */
  datatype Fate = Unedited | Edits | DeletedLast | Recreated

  function FateOf(edits: seq<Edit>, q: Path): Fate {
    if edits == [] then Unedited else
      var before, e := FateOf(edits[..|edits| - 1], q), edits[|edits| - 1];
      if e.path != q then before
      else match before
        case Unedited => if e.Del? then DeletedLast else Edits
        case Edits => if e.Del? then DeletedLast else Edits
        case DeletedLast => Recreated
        case Recreated => Recreated
  }

  /** The meta store after the edits knows `q`'s base as long as `q` was never deleted, and nothing
      once it was. */
  lemma {:induction false} BaseAfterEdits(loc: Local, edits: seq<Edit>, q: Path)
    ensures var loc', fate := AllEdited(loc, edits), FateOf(edits, q);
            BaseRevOf(loc', q) == if fate == DeletedLast || fate == Recreated then None else BaseRevOf(loc, q)
  {
    if edits != [] {
      BaseAfterEdits(loc, edits[..|edits| - 1], q);
    }
  }

  lemma EnqueuedBase(pending: seq<PendingChange>, c: PendingChange, q: Path, base: Option<RevName>)
    requires OnePerPath(pending)
    ensures (exists i :: 0 <= i < |Enqueued(pending, c)| && Enqueued(pending, c)[i].path == q && Enqueued(pending, c)[i].baseRev == base)
       <==> if q == c.path then base == c.baseRev
            else exists i :: 0 <= i < |pending| && pending[i].path == q && pending[i].baseRev == base
  {
    var rest, all := Without(pending, c.path), Enqueued(pending, c);
    WithoutMembers(pending, c.path);
    if q == c.path {
      assert all[|rest|] == c;
      assert forall i :: 0 <= i < |rest| ==> rest[i] in rest;
    } else {
      if i :| 0 <= i < |all| && all[i].path == q && all[i].baseRev == base {
        assert rest[i] in rest;
        assert rest[i] in pending;
      }
      if i :| 0 <= i < |pending| && pending[i].path == q && pending[i].baseRev == base {
        assert pending[i] in rest;
        var j :| 0 <= j < |rest| && rest[j] == pending[i];
        assert all[j] == pending[i];
      }
    }
  }

  function ChangeFor(loc: Local, e: Edit): PendingChange {
    match e
    case Up(q, mtime, ctype, _, _) => PendingChange(q, false, BaseRevOf(loc, q), mtime, Some(ctype))
    case Del(q, mtime) => PendingChange(q, true, BaseRevOf(loc, q), mtime, None)
  }

  lemma {:induction false} QueueAfterEdits(loc: Local, edits: seq<Edit>, q: Path, base: Option<RevName>)
    requires OnePerPath(loc.pending) && FateOf(edits, q) != Unedited
    ensures var loc' := AllEdited(loc, edits);
            && OnePerPath(loc'.pending)
            && (QueuedWith(loc', q, base) <==> base == if FateOf(edits, q) == Recreated then None else BaseRevOf(loc, q))
  {
    var init, e := edits[..|edits| - 1], edits[|edits| - 1];
    var mid := AllEdited(loc, init);
    OneEntryAfterEdits(loc, init);
    EnqueuedKeepsOne(mid.pending, ChangeFor(mid, e));
    EnqueuedBase(mid.pending, ChangeFor(mid, e), q, base);
    if e.path == q {
      BaseAfterEdits(loc, init, q);
    } else {
      QueueAfterEdits(loc, init, q, base);
    }
  }

  lemma {:induction false} OneEntryAfterEdits(loc: Local, edits: seq<Edit>)
    requires OnePerPath(loc.pending)
    ensures OnePerPath(AllEdited(loc, edits).pending)
  {
    if edits != [] {
      var mid := AllEdited(loc, edits[..|edits| - 1]);
      OneEntryAfterEdits(loc, edits[..|edits| - 1]);
      EnqueuedKeepsOne(mid.pending, ChangeFor(mid, edits[|edits| - 1]));
    }
  }

  /** However many edits are recorded, the entry still names the revision last adopted from the hub - exactly
      unless the path had such a revision and was touched again after a recorded delete. */
  lemma BaseRevSurvivesEdits(loc: Local, edits: seq<Edit>, q: Path)
    requires OnePerPath(loc.pending) && FateOf(edits, q) != Unedited
    ensures q in loc.metas && loc.metas[q].rev != "" ==>
      (QueuedWith(AllEdited(loc, edits), q, Some(loc.metas[q].rev)) <==> FateOf(edits, q) != Recreated)
    ensures q !in loc.metas || loc.metas[q].rev == "" ==> QueuedWith(AllEdited(loc, edits), q, None)
    ensures OnePerPath(AllEdited(loc, edits).pending)
  {
    QueueAfterEdits(loc, edits, q, BaseRevOf(loc, q));
  }

  /** A pulled file's revision is what the next edit of it is based on. */
  lemma PulledRevisionIsTheBase(loc: Local, h: HubState, q: Path, mtime: int, ctype: string, content: Bytes, now: int)
    requires Agrees(loc, h, q) && q in h.files && h.files[q].rev != ""
    ensures QueuedWith(Upserted(loc, q, mtime, ctype, content, now), q, Some(h.files[q].rev))
    ensures Upserted(loc, q, mtime, ctype, content, now).metas[q] == FileMeta(h.files[q].rev, mtime, ctype)
    ensures QueuedWith(Deleted(loc, q, mtime), q, Some(h.files[q].rev))
  {
    var rest := Without(loc.pending, q);
    assert Upserted(loc, q, mtime, ctype, content, now).pending[|rest|].path == q;
    assert Deleted(loc, q, mtime).pending[|rest|].path == q;
  }
}
