/** What the engine's steps do to the client's durable state, and what every step keeps. */
module Queue {
  import opened RevTree
  import opened Mirror
  import opened HubService

  // ---- what a push sends and adopts ----

  function TypeFor(loc: Local, c: PendingChange): string {
    if c.path in loc.metas && loc.metas[c.path].ctype != "" then loc.metas[c.path].ctype
    else if c.ctype.Some? then c.ctype.value
    else OCTET_STREAM
  }

  /** Content is read when pushing, not when queueing. */
  function UploadOf(loc: Local, c: PendingChange): Upload {
    if c.deleted then Upload(c.path, true, c.baseRev, c.mtime, None, None)
    else Upload(c.path, false, c.baseRev, c.mtime, Some(TypeFor(loc, c)),
                Some(if c.path in loc.files then loc.files[c.path].content else []))
  }

  /** `u` is what `build_push_changes` sends for `c`, field by field. */
  ghost predicate SentFor(loc: Local, c: PendingChange, u: Upload) {
    && u.path == c.path && u.deleted == c.deleted && u.baseRev == c.baseRev && u.mtime == c.mtime
    && (c.deleted ==> u.ctype == None && u.content == None)
    && (!c.deleted ==> u.content == Some(if c.path in loc.files then loc.files[c.path].content else []))
    && (!c.deleted && c.path in loc.metas && loc.metas[c.path].ctype != "" ==> u.ctype == Some(loc.metas[c.path].ctype))
    && (!c.deleted && (c.path !in loc.metas || loc.metas[c.path].ctype == "") ==>
          u.ctype == if c.ctype.Some? then c.ctype else Some("application/octet-stream"))
  }

  /** A whole batch, in the order of the queue. */
  ghost predicate AllSent(loc: Local, uploads: seq<Upload>) {
    |uploads| == |loc.pending| && forall i :: 0 <= i < |uploads| ==> SentFor(loc, loc.pending[i], uploads[i])
  }

  lemma TheOnlyEntry(loc: Local, q: Path, i: nat, base: Option<RevName>)
    requires OnePerPath(loc.pending) && i < |loc.pending| && loc.pending[i].path == q
    ensures QueuedWith(loc, q, base) <==> loc.pending[i].baseRev == base
  {
  }

  /** However many edits were recorded since, what is pushed for `q` names the revision last adopted from the
      hub - exactly unless there was one and the path was touched again after a recorded delete. */
  lemma UploadNamesTheAdoptedRevision(loc: Local, edits: seq<Edit>, q: Path, uploads: seq<Upload>, i: nat)
    requires OnePerPath(loc.pending) && FateOf(edits, q) != Unedited
    requires AllSent(AllEdited(loc, edits), uploads) && i < |uploads| && uploads[i].path == q
    ensures q in loc.metas && loc.metas[q].rev != "" ==> (uploads[i].baseRev == Some(loc.metas[q].rev) <==> FateOf(edits, q) != Recreated)
    ensures q !in loc.metas || loc.metas[q].rev == "" ==> uploads[i].baseRev == None
  {
    var loc' := AllEdited(loc, edits);
    BaseRevSurvivesEdits(loc, edits, q);
    assert SentFor(loc', loc'.pending[i], uploads[i]);
    if q in loc.metas && loc.metas[q].rev != "" {
      TheOnlyEntry(loc', q, i, Some(loc.metas[q].rev));
    } else {
      TheOnlyEntry(loc', q, i, None);
    }
  }

  function BumpRev(loc: Local, q: Path, rev: RevName): Local {
    if q in loc.metas then loc.(metas := loc.metas[q := loc.metas[q].(rev := rev)]) else loc
  }

  /** With the first `|revs|` results adopted; deletes have nothing to adopt. */
  function Adopted(loc: Local, revs: seq<RevName>): Local
    requires |revs| <= |loc.pending|
  {
    if revs == [] then loc else
      var n := |revs| - 1;
      var before := Adopted(loc, revs[..n]);
      if loc.pending[n].deleted then before else BumpRev(before, loc.pending[n].path, revs[n])
  }

  /** Only an answer to every entry clears the queue. */
  function Answered(loc: Local, revs: seq<RevName>): Local
    requires |revs| <= |loc.pending|
  {
    if |revs| == |loc.pending| then Adopted(loc, revs).(pending := []) else Adopted(loc, revs)
  }

  /** `q`'s metadata after adopting, for an entry that was answered and for a path that had none. */
  ghost predicate AdoptedAt(loc: Local, revs: seq<RevName>, q: Path)
    requires |revs| <= |loc.pending|
  {
    var metas := Adopted(loc, revs).metas;
    && (q in metas <==> q in loc.metas)
    && (forall i :: 0 <= i < |revs| && q in loc.metas && loc.pending[i].path == q && !loc.pending[i].deleted ==>
          metas[q] == loc.metas[q].(rev := revs[i]))
    && (q in loc.metas && (forall i :: 0 <= i < |revs| ==> loc.pending[i].path != q || loc.pending[i].deleted) ==>
          metas[q] == loc.metas[q])
    && (q in loc.metas ==> metas[q] == loc.metas[q].(rev := metas[q].rev))
  }

  /** Adopting touches revisions alone: each answered upsert gets its own, nothing else changes. */
  lemma {:induction false} AdoptsRevisions(loc: Local, revs: seq<RevName>, q: Path)
    requires |revs| <= |loc.pending| && OnePerPath(loc.pending)
    ensures Adopted(loc, revs) == loc.(metas := Adopted(loc, revs).metas)
    ensures AdoptedAt(loc, revs, q)
  {
    if revs != [] {
      var n := |revs| - 1;
      AdoptsRevisions(loc, revs[..n], q);
      assert forall i :: 0 <= i < n ==> revs[..n][i] == revs[i] && loc.pending[i].path != loc.pending[n].path;
    }
  }

  // ---- the queue against what was recorded ----

  /** A queued upsert has its recorded content in the store; a queued delete left nothing behind. */
  ghost predicate EntrySound(loc: Local, recorded: map<Path, Bytes>, c: PendingChange) {
    if c.deleted then c.path !in loc.files && c.path !in loc.metas
    else
      && c.path in loc.files && c.path in loc.metas && c.path in recorded
      && loc.files[c.path].content == recorded[c.path]
  }

  ghost predicate SoundAt(loc: Local, recorded: map<Path, Bytes>, q: Path) {
    forall i :: 0 <= i < |loc.pending| && loc.pending[i].path == q ==> EntrySound(loc, recorded, loc.pending[i])
  }

  ghost predicate Faithful(loc: Local, recorded: map<Path, Bytes>) {
    forall q :: SoundAt(loc, recorded, q)
  }

  /** What is pushed for a queued upsert is the content last recorded for its path. */
  lemma PushesWhatWasRecorded(loc: Local, recorded: map<Path, Bytes>, i: nat)
    requires Faithful(loc, recorded) && i < |loc.pending| && !loc.pending[i].deleted
    ensures loc.pending[i].path in recorded
    ensures UploadOf(loc, loc.pending[i]).content == Some(recorded[loc.pending[i].path])
  {
    assert SoundAt(loc, recorded, loc.pending[i].path);
  }

  ghost predicate ContentKept(loc: Local, loc': Local, q: Path) {
    && (q in loc.files <==> q in loc'.files) && (q in loc.files ==> loc.files[q] == loc'.files[q])
    && (q in loc.metas <==> q in loc'.metas)
  }

  lemma SoundStays(loc: Local, loc': Local, recorded: map<Path, Bytes>, q: Path)
    requires SoundAt(loc, recorded, q) && loc'.pending == loc.pending
    requires Queued(loc, q) ==> ContentKept(loc, loc', q)
    ensures SoundAt(loc', recorded, q)
  {
    forall i | 0 <= i < |loc.pending| && loc.pending[i].path == q ensures EntrySound(loc', recorded, loc.pending[i]) {
      assert EntrySound(loc, recorded, loc.pending[i]);
      assert Queued(loc, q);
    }
  }

  lemma RecordKeepsSound(loc: Local, loc': Local, recorded: map<Path, Bytes>, recorded': map<Path, Bytes>, c: PendingChange,
                         q: Path)
    requires loc'.pending == Enqueued(loc.pending, c) && EntrySound(loc', recorded', c)
    requires q != c.path ==> SoundAt(loc, recorded, q) && SameAt(loc, loc', q)
    requires q != c.path && q in recorded ==> q in recorded' && recorded'[q] == recorded[q]
    ensures SoundAt(loc', recorded', q)
  {
    var rest := Without(loc.pending, c.path);
    WithoutMembers(loc.pending, c.path);
    forall i | 0 <= i < |loc'.pending| && loc'.pending[i].path == q ensures EntrySound(loc', recorded', loc'.pending[i]) {
      if i < |rest| {
        assert rest[i] in rest;
        assert rest[i] in loc.pending;
        var j :| 0 <= j < |loc.pending| && loc.pending[j] == rest[i];
        assert EntrySound(loc, recorded, loc.pending[j]);
      }
    }
  }

  // ---- the client in step with one hub ----

  /** The feed position of hub `id` held when `q` was queued. */
  function SinceAt(queuedAt: map<Path, map<HubId, nat>>, q: Path, id: HubId): Option<nat> {
    if q in queuedAt && id in queuedAt[q] then Some(queuedAt[q][id]) else None
  }

  /** What the engine recorded but does not store. */
  datatype Log = Log(recorded: map<Path, Bytes>, queuedAt: map<Path, map<HubId, nat>>)

  predicate NotAfter(a: Option<nat>, b: Option<nat>) {
    a.Some? ==> b.Some? && a.value <= b.value
  }

  /** The checkpoint has not moved past a change to `q` since `q` was queued. */
  ghost predicate Unmoved(loc: Local, log: Log, h: HubState, id: HubId, q: Path) {
    var since, cp := SinceAt(log.queuedAt, q, id), Checkpoint(loc, id);
    NotAfter(since, cp) && (ChangedAfter(h, q, since) ==> ChangedAfter(h, q, cp))
  }

  ghost predicate InSyncAt(loc: Local, log: Log, h: HubState, id: HubId, q: Path) {
    && MirroredAt(loc, h, id, q) && SoundAt(loc, log.recorded, q)
    && (Queued(loc, q) ==> Unmoved(loc, log, h, id, q))
  }

  /** The mirror, with every queued change sound and no checkpoint moved past it. */
  ghost predicate InSync(loc: Local, log: Log, h: HubState, id: HubId) {
    && Reached(h, Checkpoint(loc, id))
    && forall q :: InSyncAt(loc, log, h, id, q)
  }

  /** Once nothing is queued and the checkpoint is the end of the feed, the client is a copy of the hub. */
  lemma NothingOutstandingMeansEqual(loc: Local, log: Log, h: HubState, id: HubId, q: Path)
    requires InSync(loc, log, h, id) && HubOk(h) && loc.pending == [] && Checkpoint(loc, id) == Some(h.last)
    ensures Agrees(loc, h, q)
  {
    assert InSyncAt(loc, log, h, id, q);
  }

  lemma InSyncEvolves(loc: Local, log: Log, h: HubState, h': HubState, id: HubId)
    requires InSync(loc, log, h, id) && Evolves(h, h')
    ensures InSync(loc, log, h', id)
  {
    forall q ensures InSyncAt(loc, log, h', id, q) {
      assert InSyncAt(loc, log, h, id, q);
      assert Untouched(h, h', q) || ChangedAfter(h', q, Some(h.last));
    }
  }

  // ---- recording ----

  /** `log` after `c` is queued, with the content recorded if it is an upsert. */
  function Logged(log: Log, c: PendingChange, content: Bytes, checkpoints: map<HubId, nat>): Log {
    Log(if c.deleted then log.recorded else log.recorded[c.path := content], log.queuedAt[c.path := checkpoints])
  }

  lemma RecordKeepsSyncAt(loc: Local, loc': Local, log: Log, h: HubState, id: HubId, c: PendingChange, content: Bytes, q: Path)
    requires loc'.pending == Enqueued(loc.pending, c) && loc'.checkpoints == loc.checkpoints
    requires EntrySound(loc', Logged(log, c, content, loc.checkpoints).recorded, c)
    requires q != c.path ==> SameAt(loc, loc', q) && InSyncAt(loc, log, h, id, q)
    ensures InSyncAt(loc', Logged(log, c, content, loc.checkpoints), h, id, q)
  {
    QueuedAfter(loc, loc', c, q);
    RecordKeepsSound(loc, loc', log.recorded, Logged(log, c, content, loc.checkpoints).recorded, c, q);
  }

  lemma RecordKeepsFaithful(loc: Local, loc': Local, log: Log, c: PendingChange, content: Bytes)
    requires loc'.pending == Enqueued(loc.pending, c)
    requires EntrySound(loc', Logged(log, c, content, loc.checkpoints).recorded, c)
    requires Faithful(loc, log.recorded) && forall q :: q != c.path ==> SameAt(loc, loc', q)
    ensures Faithful(loc', Logged(log, c, content, loc.checkpoints).recorded)
  {
    forall q ensures SoundAt(loc', Logged(log, c, content, loc.checkpoints).recorded, q) {
      assert SoundAt(loc, log.recorded, q);
      RecordKeepsSound(loc, loc', log.recorded, Logged(log, c, content, loc.checkpoints).recorded, c, q);
    }
  }

  /** Recording a change leaves the client in step with every hub: the path is queued from where its
      checkpoint stands, the others are as they were. */
  lemma RecordKeepsSync(loc: Local, loc': Local, log: Log, c: PendingChange, content: Bytes, h: HubState, id: HubId)
    requires loc'.pending == Enqueued(loc.pending, c) && loc'.checkpoints == loc.checkpoints
    requires EntrySound(loc', Logged(log, c, content, loc.checkpoints).recorded, c)
    requires InSync(loc, log, h, id) && forall q :: q != c.path ==> SameAt(loc, loc', q)
    ensures InSync(loc', Logged(log, c, content, loc.checkpoints), h, id)
  {
    forall q ensures InSyncAt(loc', Logged(log, c, content, loc.checkpoints), h, id, q) {
      assert InSyncAt(loc, log, h, id, q);
      RecordKeepsSyncAt(loc, loc', log, h, id, c, content, q);
    }
  }

  // ---- pushing ----

  /** Every queued change is on the hub, as far as the feed reached back when it was pushed. */
  ghost predicate AllAcked(loc: Local, log: Log, h: HubState, h': HubState, id: HubId) {
    forall i :: 0 <= i < |loc.pending| && Reached(h, SinceAt(log.queuedAt, loc.pending[i].path, id)) ==>
      Acked(h', UploadOf(loc, loc.pending[i]), SinceAt(log.queuedAt, loc.pending[i].path, id))
  }

  lemma AdoptingKeepsFaithful(loc: Local, revs: seq<RevName>, recorded: map<Path, Bytes>)
    requires |revs| <= |loc.pending| && OnePerPath(loc.pending) && Faithful(loc, recorded)
    ensures Faithful(Adopted(loc, revs), recorded) && Faithful(Answered(loc, revs), recorded)
  {
    forall q ensures SoundAt(Adopted(loc, revs), recorded, q) {
      assert SoundAt(loc, recorded, q);
      AdoptsRevisions(loc, revs, q);
      SoundStays(loc, Adopted(loc, revs), recorded, q);
    }
  }

  lemma AdoptingKeepsSync(loc: Local, revs: seq<RevName>, log: Log, h: HubState, id: HubId)
    requires |revs| <= |loc.pending| && OnePerPath(loc.pending) && InSync(loc, log, h, id)
    ensures InSync(Adopted(loc, revs), log, h, id)
  {
    var loc' := Adopted(loc, revs);
    AdoptsRevisions(loc, revs, "");
    forall q ensures InSyncAt(loc', log, h, id, q) {
      assert InSyncAt(loc, log, h, id, q);
      AdoptsRevisions(loc, revs, q);
      SoundStays(loc, loc', log.recorded, q);
      assert Queued(loc', q) <==> Queued(loc, q);
      if !Queued(loc, q) {
        assert forall i :: 0 <= i < |revs| ==> loc.pending[i].path != q;
        assert Agrees(loc, h, q) ==> Agrees(loc', h, q);
      }
    }
  }

  /** Clearing the queue after a full answer is safe: what was queued is in the feed, or was a delete
      of something the hub does not have. */
  lemma AnswerKeepsSync(loc: Local, revs: seq<RevName>, log: Log, h: HubState, h': HubState, id: HubId)
    requires |revs| <= |loc.pending| && OnePerPath(loc.pending) && InSync(loc, log, h, id) && Evolves(h, h')
    requires |revs| == |loc.pending| ==> AllAcked(loc, log, h, h', id)
    ensures InSync(Answered(loc, revs), log, h', id)
  {
    InSyncEvolves(loc, log, h, h', id);
    AdoptingKeepsSync(loc, revs, log, h', id);
    if |revs| == |loc.pending| {
      var mid, loc' := Adopted(loc, revs), Answered(loc, revs);
      AdoptsRevisions(loc, revs, "");
      forall q ensures InSyncAt(loc', log, h', id, q) {
        assert InSyncAt(mid, log, h', id, q);
        if Queued(mid, q) {
          assert InSyncAt(loc, log, h, id, q) && InSyncAt(loc, log, h', id, q);
          AckedMeansMirrored(loc, revs, log, h, h', id, q);
        } else {
          assert Agrees(mid, h', q) ==> Agrees(loc', h', q);
        }
      }
    }
  }

  lemma AckedMeansMirrored(loc: Local, revs: seq<RevName>, log: Log, h: HubState, h': HubState, id: HubId, q: Path)
    requires |revs| == |loc.pending| && OnePerPath(loc.pending) && AllAcked(loc, log, h, h', id)
    requires Reached(h, Checkpoint(loc, id)) && InSyncAt(loc, log, h, id, q) && Unmoved(loc, log, h', id, q) && Queued(loc, q)
    ensures MirroredAt(Answered(loc, revs), h', id, q)
  {
    var i :| 0 <= i < |loc.pending| && loc.pending[i].path == q;
    AdoptsRevisions(loc, revs, q);
    assert Acked(h', UploadOf(loc, loc.pending[i]), SinceAt(log.queuedAt, q, id));
    assert EntrySound(loc, log.recorded, loc.pending[i]);
    if loc.pending[i].deleted && q !in h'.files {
      assert Agrees(Answered(loc, revs), h', q);
    }
  }

  // ---- pulling ----

  /** A path the batch covers is the hub's by now, unless the hub moved on after `cp`. */
  ghost predicate BatchAt(loc: Local, h: HubState, since: Option<nat>, cp: nat, q: Path) {
    ChangedAfter(h, q, since) && !Queued(loc, q) ==> Agrees(loc, h, q) || ChangedAfter(h, q, Some(cp))
  }

  ghost predicate BatchApplied(loc: Local, h: HubState, since: Option<nat>, cp: nat) {
    forall q :: BatchAt(loc, h, since, cp, q)
  }

  /** Only what a pull from `since` may touch is different. */
  ghost predicate OnlyPulled(loc: Local, loc': Local, h: HubState, since: Option<nat>) {
    && loc'.pending == loc.pending
    && forall q :: SameAt(loc, loc', q) || Pullable(loc, h, since, q)
  }

  lemma PullKeepsFaithful(loc: Local, loc': Local, h: HubState, since: Option<nat>, recorded: map<Path, Bytes>)
    requires OnlyPulled(loc, loc', h, since) && Faithful(loc, recorded)
    ensures Faithful(loc', recorded)
  {
    forall q ensures SoundAt(loc', recorded, q) {
      assert SoundAt(loc, recorded, q);
      assert SameAt(loc, loc', q) || Pullable(loc, h, since, q);
      SoundStays(loc, loc', recorded, q);
    }
  }

  /** However far a failed pull came, every path it left half-written is still to be pulled. */
  lemma FailedPullKeepsSync(loc: Local, loc': Local, log: Log, h: HubState, h': HubState, id: HubId)
    requires InSync(loc, log, h, id) && Evolves(h, h')
    requires OnlyPulled(loc, loc', h', Checkpoint(loc, id)) && loc'.checkpoints == loc.checkpoints
    ensures InSync(loc', log, h', id)
  {
    InSyncEvolves(loc, log, h, h', id);
    forall q ensures InSyncAt(loc', log, h', id, q) {
      assert InSyncAt(loc, log, h', id, q);
      assert SameAt(loc, loc', q) || Pullable(loc, h', Checkpoint(loc, id), q);
      SoundStays(loc, loc', log.recorded, q);
      assert Queued(loc', q) <==> Queued(loc, q);
      assert SameAt(loc, loc', q) && Agrees(loc, h', q) ==> Agrees(loc', h', q);
    }
  }

  /** No queued path has a change between `since` and `cp`: the batch skipped nothing. */
  ghost predicate NoneSkipped(loc: Local, h: HubState, since: Option<nat>, cp: nat) {
    forall q :: Queued(loc, q) && ChangedAfter(h, q, since) ==> ChangedAfter(h, q, Some(cp))
  }

  lemma DonePullAt(loc: Local, loc': Local, log: Log, h: HubState, id: HubId, cp: nat, q: Path)
    requires InSyncAt(loc, log, h, id, q) && NotAfter(Checkpoint(loc, id), Some(cp))
    requires SameAt(loc, loc', q) || Pullable(loc, h, Checkpoint(loc, id), q)
    requires loc'.pending == loc.pending && loc'.checkpoints == loc.checkpoints[id := cp]
    requires BatchAt(loc', h, Checkpoint(loc, id), cp, q)
    ensures InSyncAt(loc', log, h, id, q) <==>
      (Queued(loc, q) && ChangedAfter(h, q, Checkpoint(loc, id)) ==> ChangedAfter(h, q, Some(cp)))
  {
    assert Queued(loc', q) <==> Queued(loc, q);
    SoundStays(loc, loc', log.recorded, q);
    assert SameAt(loc, loc', q) && Agrees(loc, h, q) ==> Agrees(loc', h, q);
  }

  /** Moving the checkpoint after a whole batch keeps the client in step exactly when the batch skipped no
      queued path. */
  lemma DonePullKeepsSyncIff(loc: Local, loc': Local, log: Log, h: HubState, h': HubState, id: HubId, cp: nat)
    requires InSync(loc, log, h, id) && Evolves(h, h') && h.last <= cp <= h'.last
    requires OnlyPulled(loc, loc', h', Checkpoint(loc, id)) && loc'.checkpoints == loc.checkpoints[id := cp]
    requires BatchApplied(loc', h', Checkpoint(loc, id), cp)
    ensures InSync(loc', log, h', id) <==> NoneSkipped(loc, h', Checkpoint(loc, id), cp)
  {
    InSyncEvolves(loc, log, h, h', id);
    forall q ensures InSyncAt(loc', log, h', id, q) <==>
      (Queued(loc, q) && ChangedAfter(h', q, Checkpoint(loc, id)) ==> ChangedAfter(h', q, Some(cp)))
    {
      assert InSyncAt(loc, log, h', id, q);
      assert SameAt(loc, loc', q) || Pullable(loc, h', Checkpoint(loc, id), q);
      assert BatchAt(loc', h', Checkpoint(loc, id), cp, q);
      DonePullAt(loc, loc', log, h', id, cp, q);
    }
  }

  /** What is lost if it did: once the checkpoint is past the hub's change to a queued upsert, an answer to it
      that needs no further change - the push having landed before, its answer lost - leaves the two sides
      different for good, with the path neither queued nor to be pulled. */
  lemma SkippedPathIsLost(loc: Local, loc': Local, log: Log, h: HubState, id: HubId, i: nat, revs: seq<RevName>)
    requires HubOk(h) && InSync(loc, log, h, id) && PullEffect(loc, loc', h, id) && OnePerPath(loc.pending)
    requires i < |loc.pending| == |revs| && !loc.pending[i].deleted
    requires var q := loc.pending[i].path;
             && ChangedAfter(h, q, Checkpoint(loc, id)) && q in loc.files && q in h.files
             && loc.files[q].content != h.files[q].content
    ensures Acked(h, UploadOf(loc', loc'.pending[i]), SinceAt(log.queuedAt, loc.pending[i].path, id))
    ensures !InSync(loc', log, h, id) && !MirroredAt(Answered(loc', revs), h, id, loc.pending[i].path)
  {
    var q := loc.pending[i].path;
    assert Queued(loc, q) && Queued(loc', q);
    assert InSyncAt(loc, log, h, id, q);
    assert PulledAt(loc, loc', h, Checkpoint(loc, id), q);
    assert !Unmoved(loc', log, h, id, q);
    assert !InSyncAt(loc', log, h, id, q);
    AdoptsRevisions(loc', revs, q);
    assert !Queued(Answered(loc', revs), q);
  }

  /** Such a client and hub. */
  lemma SkippedPathExample(id: HubId) returns (loc: Local, loc': Local, log: Log, h: HubState, c: PendingChange)
    ensures HubOk(h) && InSync(loc, log, h, id) && PullEffect(loc, loc', h, id)
    ensures OnePerPath(loc.pending) && loc.pending == [c] && !c.deleted && ChangedAfter(h, c.path, Checkpoint(loc, id))
    ensures c.path in loc.files && c.path in h.files && loc.files[c.path].content != h.files[c.path].content
  {
    var q: Path := "f";
    c := PendingChange(q, false, None, 1, Some(""));
    loc := Local(map[q := DiskFile([1], 1)], map[q := FileMeta("", 1, "")], [c], map[]);
    loc' := loc.(checkpoints := map[id := 1]);
    log := Log(map[q := [1]], map[q := map[]]);
    h := HubState(map[q := HubFile("1-a", 1, "", [2])], map[q := 1], 1);
    assert loc.pending[0].path == q;
    forall p ensures InSyncAt(loc, log, h, id, p) {
      assert p == q ==> Queued(loc, p);
    }
    forall p ensures PulledAt(loc, loc', h, Checkpoint(loc, id), p) {
      assert p == q ==> Queued(loc, p);
    }
  }

  /** With the hub at rest, a finished batch has exactly the effect of one pull. */
  lemma DonePullIsPullEffect(loc: Local, loc': Local, h: HubState, id: HubId)
    requires HubOk(h) && OnlyPulled(loc, loc', h, Checkpoint(loc, id)) && BatchApplied(loc', h, Checkpoint(loc, id), h.last)
    requires loc'.checkpoints == loc.checkpoints[id := h.last]
    ensures PullEffect(loc, loc', h, id)
  {
    forall q ensures PulledAt(loc, loc', h, Checkpoint(loc, id), q) {
      assert SameAt(loc, loc', q) || Pullable(loc, h, Checkpoint(loc, id), q);
      assert BatchAt(loc', h, Checkpoint(loc, id), h.last, q);
      assert Queued(loc', q) <==> Queued(loc, q);
    }
  }
}
