/** `engine.rs` over `store.rs`: recording, pushing and pulling against stores and hubs that may fail. */
module Client {
  import opened RevTree
  import opened Mirror
  import opened HubService
  import opened Queue

  /** A store failure is final; a hub failure moves on to the next hub. */
  datatype SyncResult = Done(count: nat) | StoreFailed | HubFailed

  method Clock() returns (now: int)
    ensures now > 0
  {
    var t: int := *;
    return if t > 0 then t else 1;
  }

  /** Metadata and file came from the same write, and the time on disk is the recorded one where it can be. */
  ghost predicate InStep(loc: Local, q: Path) {
    && (q in loc.files <==> q in loc.metas)
    && (q in loc.files ==>
          if loc.metas[q].mtime > 0 then loc.files[q].mtime == loc.metas[q].mtime else loc.files[q].mtime > 0)
  }

  ghost predicate SameOrInStep(loc: Local, loc': Local) {
    forall q :: SameAt(loc, loc', q) || InStep(loc', q)
  }

  lemma SameOrInStepTransitive(loc: Local, mid: Local, loc': Local)
    requires SameOrInStep(loc, mid) && SameOrInStep(mid, loc')
    ensures SameOrInStep(loc, loc')
  {
    forall q ensures SameAt(loc, loc', q) || InStep(loc', q) {
      assert SameAt(loc, mid, q) || InStep(mid, q);
      assert SameAt(mid, loc', q) || InStep(loc', q);
    }
  }

  /** What one `apply_remote` did, the batch having been listed at `seen`. */
  ghost predicate AppliedRemote(loc: Local, loc': Local, h: HubState, seen: HubState, q: Path, r: SyncResult) {
    && loc'.pending == loc.pending && loc'.checkpoints == loc.checkpoints
    && (forall p :: p != q ==> SameAt(loc, loc', p))
    && (Queued(loc, q) ==> loc' == loc)
    && (r.Done? && !Queued(loc, q) ==> Agrees(loc', h, q) || ChangedAfter(h, q, Some(seen.last)))
    && (!r.StoreFailed? ==> SameOrInStep(loc, loc'))
  }

  /** The first `k` entries of the batch listed at `seen` are applied. */
  ghost predicate PulledSoFar(loc: Local, loc': Local, h: HubState, seen: HubState, entries: seq<ChangeEntry>, k: nat) {
    forall i :: 0 <= i < k <= |entries| ==> EntryApplied(loc, loc', h, seen, entries[i].path)
  }

  ghost predicate EntryApplied(loc: Local, loc': Local, h: HubState, seen: HubState, q: Path) {
    !Queued(loc, q) ==> Agrees(loc', h, q) || ChangedAfter(h, q, Some(seen.last))
  }

  /** `entries` lists what changed after `since`, as `Hub.Changes` answers. */
  ghost predicate Listing(seen: HubState, since: Option<nat>, entries: seq<ChangeEntry>) {
    && (forall i :: 0 <= i < |entries| ==> ChangedAfter(seen, entries[i].path, since))
    && (forall i :: 0 <= i < |entries| ==> (entries[i].deleted <==> entries[i].path !in seen.files))
    && (forall q :: ChangedAfter(seen, q, since) ==> exists i :: 0 <= i < |entries| && entries[i].path == q)
  }

  lemma OneMoreEntry(loc: Local, mid: Local, loc': Local, h: HubState, h': HubState, seen: HubState, since: Option<nat>,
                     entries: seq<ChangeEntry>, k: nat, r: SyncResult)
    requires k < |entries| && Listing(seen, since, entries) && HubOk(seen)
    requires Evolves(seen, h) && Evolves(h, h')
    requires OnlyPulled(loc, mid, seen, since) && PulledSoFar(loc, mid, h, seen, entries, k)
    requires AppliedRemote(mid, loc', h', seen, entries[k].path, r)
    ensures OnlyPulled(loc, loc', seen, since)
    ensures r.Done? ==> PulledSoFar(loc, loc', h', seen, entries, k + 1)
  {
    var e := entries[k].path;
    assert Queued(loc, e) <==> Queued(mid, e);
    forall q ensures SameAt(loc, loc', q) || Pullable(loc, seen, since, q) {
      assert SameAt(loc, mid, q) || Pullable(loc, seen, since, q);
      assert q != e ==> SameAt(mid, loc', q);
    }
    if r.Done? {
      forall i | 0 <= i < k + 1 ensures EntryApplied(loc, loc', h', seen, entries[i].path) {
        var q := entries[i].path;
        if q != e {
          assert EntryApplied(loc, mid, h, seen, q);
          assert SameAt(mid, loc', q);
          assert Untouched(h, h', q) || ChangedAfter(h', q, Some(h.last));
        }
      }
    }
  }

  lemma OnlyPulledEvolves(loc: Local, loc': Local, seen: HubState, h: HubState, since: Option<nat>)
    requires OnlyPulled(loc, loc', seen, since) && HubOk(seen) && Evolves(seen, h)
    ensures OnlyPulled(loc, loc', h, since)
  {
    forall q ensures SameAt(loc, loc', q) || Pullable(loc, h, since, q) {
      assert SameAt(loc, loc', q) || Pullable(loc, seen, since, q);
      assert Untouched(seen, h, q) || ChangedAfter(h, q, Some(seen.last));
    }
  }

  lemma WholeBatch(loc: Local, loc': Local, h: HubState, seen: HubState, since: Option<nat>, entries: seq<ChangeEntry>)
    requires Listing(seen, since, entries) && HubOk(seen) && Evolves(seen, h)
    requires loc'.pending == loc.pending && PulledSoFar(loc, loc', h, seen, entries, |entries|)
    ensures BatchApplied(loc', h, since, seen.last)
  {
    forall q ensures BatchAt(loc', h, since, seen.last, q) {
      assert Queued(loc', q) <==> Queued(loc, q);
      assert Untouched(seen, h, q) || ChangedAfter(h, q, Some(seen.last));
      if ChangedAfter(seen, q, since) {
        var i :| 0 <= i < |entries| && entries[i].path == q;
        assert EntryApplied(loc, loc', h, seen, q);
      }
    }
  }

  /** Moving the checkpoint to the end of the listing once all of it is applied. */
  lemma FinishedPull(loc: Local, mid: Local, loc': Local, seen: HubState, h: HubState, id: HubId, entries: seq<ChangeEntry>,
                     conflicts: seq<Path>)
    requires HubOk(seen) && Evolves(seen, h) && Listing(seen, Checkpoint(loc, id), entries)
    requires BatchApplied(mid, h, Checkpoint(loc, id), seen.last) && OnlyPulled(loc, mid, h, Checkpoint(loc, id))
    requires SameOrInStep(loc, mid) && loc' == mid.(checkpoints := loc.checkpoints[id := seen.last])
    requires Conflicts(loc, entries, |entries|, conflicts)
    ensures BatchApplied(loc', h, Checkpoint(loc, id), seen.last) && OnlyPulled(loc, loc', h, Checkpoint(loc, id))
    ensures SameOrInStep(loc, loc')
    ensures loc.pending == [] ==> conflicts == []
    ensures conflicts == [] ==> NoneSkipped(loc, h, Checkpoint(loc, id), seen.last)
    ensures h == seen && NoneSkipped(loc, h, Checkpoint(loc, id), seen.last) ==> conflicts == []
    ensures h == seen ==> PullEffect(loc, loc', h, id)
  {
    forall q
      ensures BatchAt(loc', h, Checkpoint(loc, id), seen.last, q)
      ensures SameAt(loc, loc', q) || InStep(loc', q)
      ensures SameAt(loc, loc', q) || Pullable(loc, h, Checkpoint(loc, id), q)
    {
      assert BatchAt(mid, h, Checkpoint(loc, id), seen.last, q);
      assert SameAt(loc, mid, q) || InStep(mid, q);
      assert SameAt(loc, mid, q) || Pullable(loc, h, Checkpoint(loc, id), q);
      assert Queued(loc', q) <==> Queued(mid, q);
    }
    NoConflictNoneSkipped(loc, seen, h, Checkpoint(loc, id), entries, conflicts);
    if h == seen {
      DonePullIsPullEffect(loc, loc', h, id);
    }
  }

  lemma Recorded(loc: Local, loc': Local, log: Log, c: PendingChange, content: Bytes)
    requires loc'.pending == Enqueued(loc.pending, c) && loc'.checkpoints == loc.checkpoints
    requires EntrySound(loc', Logged(log, c, content, loc.checkpoints).recorded, c)
    requires forall q :: q != c.path ==> SameAt(loc, loc', q)
    ensures Faithful(loc, log.recorded) ==> Faithful(loc', Logged(log, c, content, loc.checkpoints).recorded)
    ensures forall h, id :: InSync(loc, log, h, id) ==> InSync(loc', Logged(log, c, content, loc.checkpoints), h, id)
  {
    if Faithful(loc, log.recorded) {
      RecordKeepsFaithful(loc, loc', log, c, content);
    }
    forall h, id | InSync(loc, log, h, id) ensures InSync(loc', Logged(log, c, content, loc.checkpoints), h, id) {
      RecordKeepsSync(loc, loc', log, c, content, h, id);
    }
  }

  /** The entry of its path is the newest in the queue. */
  lemma EnqueuedLast(pending: seq<PendingChange>, c: PendingChange)
    ensures Enqueued(pending, c) == Without(pending, c.path) + [c]
    ensures c in Enqueued(pending, c)
  {
    assert Enqueued(pending, c)[|Without(pending, c.path)|] == c;
  }

  lemma UpsertRecorded(loc: Local, log: Log, q: Path, mtime: int, ctype: string, content: Bytes, now: int)
    ensures var loc' := Upserted(loc, q, mtime, ctype, content, now);
            var base: Option<RevName> := if q in loc.metas && loc.metas[q].rev != "" then Some(loc.metas[q].rev) else None;
            var c := PendingChange(q, false, base, mtime, Some(ctype));
            && c in loc'.pending
            && (Faithful(loc, log.recorded) ==> Faithful(loc', Logged(log, c, content, loc.checkpoints).recorded))
            && forall h, id :: InSync(loc, log, h, id) ==> InSync(loc', Logged(log, c, content, loc.checkpoints), h, id)
  {
    var base: Option<RevName> := if q in loc.metas && loc.metas[q].rev != "" then Some(loc.metas[q].rev) else None;
    var c := PendingChange(q, false, base, mtime, Some(ctype));
    EnqueuedLast(loc.pending, c);
    Recorded(loc, Upserted(loc, q, mtime, ctype, content, now), log, c, content);
  }

  lemma DeleteRecorded(loc: Local, log: Log, q: Path, mtime: int)
    ensures var loc' := Deleted(loc, q, mtime);
            var base: Option<RevName> := if q in loc.metas && loc.metas[q].rev != "" then Some(loc.metas[q].rev) else None;
            var c := PendingChange(q, true, base, mtime, None);
            && c in loc'.pending
            && (Faithful(loc, log.recorded) ==> Faithful(loc', Logged(log, c, [], loc.checkpoints).recorded))
            && forall h, id :: InSync(loc, log, h, id) ==> InSync(loc', Logged(log, c, [], loc.checkpoints), h, id)
  {
    var base: Option<RevName> := if q in loc.metas && loc.metas[q].rev != "" then Some(loc.metas[q].rev) else None;
    var c := PendingChange(q, true, base, mtime, None);
    EnqueuedLast(loc.pending, c);
    Recorded(loc, Deleted(loc, q, mtime), log, c, []);
  }

  ghost predicate QueuedKept(loc: Local, loc': Local) {
    loc'.pending == loc.pending && forall q :: Queued(loc, q) ==> SameAt(loc, loc', q)
  }

  lemma QueuedKeptTransitive(loc: Local, mid: Local, loc': Local)
    requires QueuedKept(loc, mid) && QueuedKept(mid, loc')
    ensures QueuedKept(loc, loc')
  {
    forall q | Queued(loc, q) ensures SameAt(loc, loc', q) {
      assert Queued(mid, q);
    }
  }

  /** What one `pull_from` keeps. */
  lemma PullOutcome(loc: Local, loc': Local, log: Log, h: HubState, h': HubState, id: HubId, r: SyncResult, cp: nat)
    requires Evolves(h, h') && OnlyPulled(loc, loc', h', Checkpoint(loc, id))
    requires !r.Done? ==> loc'.checkpoints == loc.checkpoints
    requires r.Done? ==> h.last <= cp <= h'.last && loc'.checkpoints == loc.checkpoints[id := cp]
                         && BatchApplied(loc', h', Checkpoint(loc, id), cp)
    ensures QueuedKept(loc, loc')
    ensures Faithful(loc, log.recorded) ==> Faithful(loc', log.recorded)
    ensures InSync(loc, log, h, id) && (r.Done? ==> NoneSkipped(loc, h', Checkpoint(loc, id), cp)) ==> InSync(loc', log, h', id)
  {
    forall q | Queued(loc, q) ensures SameAt(loc, loc', q) {
      assert SameAt(loc, loc', q) || Pullable(loc, h', Checkpoint(loc, id), q);
    }
    if Faithful(loc, log.recorded) {
      PullKeepsFaithful(loc, loc', h', Checkpoint(loc, id), log.recorded);
    }
    if InSync(loc, log, h, id) {
      if r.Done? {
        DonePullKeepsSyncIff(loc, loc', log, h, h', id, cp);
      } else {
        FailedPullKeepsSync(loc, loc', log, h, h', id);
      }
    }
  }

  /** The paths of the first `k` entries that were skipped because they are queued. */
  ghost predicate Conflicts(loc: Local, entries: seq<ChangeEntry>, k: nat, conflicts: seq<Path>) {
    k <= |entries| && forall q :: q in conflicts <==> Queued(loc, q) && exists i :: 0 <= i < k && entries[i].path == q
  }

  lemma NotListedNotChanged(seen: HubState, since: Option<nat>, entries: seq<ChangeEntry>, q: Path)
    requires Listing(seen, since, entries) && !(exists i :: 0 <= i < |entries| && entries[i].path == q)
    ensures !ChangedAfter(seen, q, since)
  {
  }

  lemma NoConflictNoneSkipped(loc: Local, seen: HubState, h: HubState, since: Option<nat>, entries: seq<ChangeEntry>,
                              conflicts: seq<Path>)
    requires HubOk(seen) && Evolves(seen, h) && Listing(seen, since, entries) && Conflicts(loc, entries, |entries|, conflicts)
    ensures loc.pending == [] ==> conflicts == []
    ensures conflicts == [] ==> NoneSkipped(loc, h, since, seen.last)
    ensures h == seen && NoneSkipped(loc, h, since, seen.last) ==> conflicts == []
  {
    if conflicts == [] {
      forall q | Queued(loc, q) && ChangedAfter(h, q, since) ensures ChangedAfter(h, q, Some(seen.last)) {
        assert q !in conflicts;
        assert q !in conflicts;
        NotListedNotChanged(seen, since, entries, q);
        assert Untouched(seen, h, q) || ChangedAfter(h, q, Some(seen.last));
      }
    } else {
      var q := conflicts[0];
      assert q in conflicts;
      var i :| 0 <= i < |entries| && entries[i].path == q;
      assert ChangedAfter(seen, q, since) && !ChangedAfter(seen, q, Some(seen.last));
    }
  }

  /** File and metadata keep their times, or come from the same write. */
  ghost predicate TimesKept(loc: Local, loc': Local, q: Path) {
    || InStep(loc', q)
    || (&& (q in loc.files <==> q in loc'.files) && (q in loc.files ==> loc'.files[q] == loc.files[q])
        && (q in loc.metas <==> q in loc'.metas) && (q in loc.metas ==> loc'.metas[q].mtime == loc.metas[q].mtime))
  }

  ghost predicate RevisionsThenPull(loc: Local, loc': Local) {
    forall q :: TimesKept(loc, loc', q)
  }

  lemma PushedThenPulled(loc: Local, mid: Local, loc': Local, revs: seq<RevName>)
    requires |revs| <= |loc.pending| && OnePerPath(loc.pending) && mid == Answered(loc, revs) && SameOrInStep(mid, loc')
    ensures RevisionsThenPull(loc, loc')
  {
    forall q ensures TimesKept(loc, loc', q) {
      AdoptsRevisions(loc, revs, q);
      assert SameAt(mid, loc', q) || InStep(loc', q);
    }
  }

  method Retain(pending: seq<PendingChange>, q: Path) returns (kept: seq<PendingChange>)
    ensures kept == Without(pending, q)
  {
    kept := [];
    for i := 0 to |pending|
      invariant kept == Without(pending[..i], q)
    {
      assert pending[..i + 1][..i] == pending[..i];
      if pending[i].path != q {
        kept := kept + [pending[i]];
      }
    }
    assert pending[..|pending|] == pending;
  }

  ghost predicate PushOutcome(loc: Local, loc': Local, r: SyncResult, revs: seq<RevName>) {
    && |revs| <= |loc.pending|
    && match r
       case HubFailed => loc' == loc
       case StoreFailed => loc' == Adopted(loc, revs)
       case Done(n) => n == |revs| && loc' == Answered(loc, revs)
  }

  lemma PushKeepsTheRest(loc: Local, loc': Local, r: SyncResult, revs: seq<RevName>)
    requires OnePerPath(loc.pending) && PushOutcome(loc, loc', r, revs)
    ensures loc'.files == loc.files && loc'.checkpoints == loc.checkpoints
    ensures loc'.pending == if r.Done? && |revs| == |loc.pending| then [] else loc.pending
  {
    AdoptsRevisions(loc, revs, "");
  }

  lemma PushKeeps(loc: Local, loc': Local, r: SyncResult, revs: seq<RevName>, log: Log, h: HubState, h': HubState, id: HubId)
    requires OnePerPath(loc.pending) && PushOutcome(loc, loc', r, revs) && Evolves(h, h')
    requires r.Done? && |revs| == |loc.pending| ==> AllAcked(loc, log, h, h', id)
    ensures Faithful(loc, log.recorded) ==> Faithful(loc', log.recorded)
    ensures InSync(loc, log, h, id) ==> InSync(loc', log, h', id)
  {
    if Faithful(loc, log.recorded) {
      AdoptingKeepsFaithful(loc, revs, log.recorded);
    }
    if InSync(loc, log, h, id) {
      InSyncEvolves(loc, log, h, h', id);
      AdoptingKeepsSync(loc, revs, log, h', id);
      if r.Done? {
        AnswerKeepsSync(loc, revs, log, h, h', id);
      }
    }
  }

  class SyncEngine {
    var files: map<Path, DiskFile>
    var metas: map<Path, FileMeta>
    var pending: seq<PendingChange>
    var checkpoints: map<HubId, nat>
    /** The content last recorded for each path, and the checkpoints held when its change was queued. */
    ghost var log: Log
    /** The stores never fail. */
    const steady: bool

    constructor (steady: bool)
      ensures Valid() && Faithful(View(), log.recorded) && this.steady == steady
      ensures View() == Local(map[], map[], [], map[])
    {
      this.steady := steady;
      files, metas, pending, checkpoints := map[], map[], [], map[];
      log := Log(map[], map[]);
    }

    ghost function View(): Local
      reads this
    {
      Local(files, metas, pending, checkpoints)
    }

    ghost predicate Valid()
      reads this
    {
      OnePerPath(pending)
    }

    ghost predicate MirrorOf(hub: Hub)
      reads this, hub
    {
      hub.Valid() && InSync(View(), log, hub.st, hub.id)
    }

    /** The outcome of a store operation. */
    method StoreAnswers() returns (ok: bool)
      ensures steady ==> ok
    {
      ok := *;
      ok := ok || steady;
    }

    // ---- recording ----

    method RecordUpsert(q: Path, mtime: int, ctype: string, content: Bytes)
      requires Valid()
      modifies this
      ensures Valid()
      ensures forall h, id :: old(InSync(View(), log, h, id)) ==> InSync(View(), log, h, id)
      ensures old(Faithful(View(), log.recorded)) ==> Faithful(View(), log.recorded)
      ensures var base: Option<RevName> := if q in old(metas) && old(metas)[q].rev != "" then Some(old(metas)[q].rev) else None;
              PendingChange(q, false, base, mtime, Some(ctype)) in pending
      ensures exists now :: now > 0 && View() == Upserted(old(View()), q, mtime, ctype, content, now)
      ensures log == Logged(old(log), PendingChange(q, false, BaseRevOf(old(View()), q), mtime, Some(ctype)), content,
                            old(checkpoints))
    {
      var baseRev: Option<RevName> := if q in metas && metas[q].rev != "" then Some(metas[q].rev) else None;
      var rev := if baseRev.Some? then baseRev.value else "";
      var now := Clock();
      files := files[q := OnDisk(content, mtime, now)];
      metas := metas[q := FileMeta(rev, mtime, ctype)];
      ghost var change := PendingChange(q, false, baseRev, mtime, Some(ctype));
      log := Logged(log, change, content, checkpoints);
      UpsertPending(PendingChange(q, false, baseRev, mtime, Some(ctype)));
      assert View() == Upserted(old(View()), q, mtime, ctype, content, now);
      UpsertRecorded(old(View()), old(log), q, mtime, ctype, content, now);
    }

    method RecordDelete(q: Path, mtime: int)
      requires Valid()
      modifies this
      ensures Valid() && View() == Deleted(old(View()), q, mtime)
      ensures var base: Option<RevName> := if q in old(metas) && old(metas)[q].rev != "" then Some(old(metas)[q].rev) else None;
              PendingChange(q, true, base, mtime, None) in pending
      ensures forall h, id :: old(InSync(View(), log, h, id)) ==> InSync(View(), log, h, id)
      ensures old(Faithful(View(), log.recorded)) ==> Faithful(View(), log.recorded)
      ensures log == Logged(old(log), PendingChange(q, true, BaseRevOf(old(View()), q), mtime, None), [], old(checkpoints))
    {
      var baseRev: Option<RevName> := if q in metas && metas[q].rev != "" then Some(metas[q].rev) else None;
      files := files - {q};
      metas := metas - {q};
      ghost var change := PendingChange(q, true, baseRev, mtime, None);
      log := Logged(log, change, [], checkpoints);
      UpsertPending(PendingChange(q, true, baseRev, mtime, None));
      DeleteRecorded(old(View()), old(log), q, mtime);
    }

    method UpsertPending(change: PendingChange)
      requires Valid()
      modifies this`pending
      ensures Valid() && pending == Enqueued(old(pending), change)
    {
      EnqueuedKeepsOne(pending, change);
      var kept := Retain(pending, change.path);
      pending := kept + [change];
    }

    method PendingContains(q: Path) returns (ok: bool, found: bool)
      ensures ok ==> (found <==> Queued(View(), q))
      ensures steady ==> ok
    {
      ok := StoreAnswers();
      for i := 0 to |pending|
        invariant forall j :: 0 <= j < i ==> pending[j].path != q
      {
        if pending[i].path == q {
          return ok, true;
        }
      }
      return ok, false;
    }

    // ---- pushing ----

    method BuildPushChanges() returns (ok: bool, uploads: seq<Upload>)
      ensures steady ==> ok
      ensures ok ==> AllSent(View(), uploads) && forall i :: 0 <= i < |pending| ==> uploads[i] == UploadOf(View(), pending[i])
      ensures ok && Faithful(View(), log.recorded) ==>
        forall i :: 0 <= i < |pending| && !uploads[i].deleted ==>
          uploads[i].path in log.recorded && uploads[i].content == Some(log.recorded[uploads[i].path])
    {
      uploads := [];
      for i := 0 to |pending|
        invariant |uploads| == i
        invariant forall j :: 0 <= j < i ==> uploads[j] == UploadOf(View(), pending[j])
      {
        ok := StoreAnswers();
        if !ok {
          return false, [];
        }
        var c := pending[i];
        var ctype: Option<string>, content: Option<Bytes> := None, None;
        if !c.deleted {
          content := Some(if c.path in files then files[c.path].content else []);
          if c.path in metas && metas[c.path].ctype != "" {
            ctype := Some(metas[c.path].ctype);
          } else if c.ctype.Some? {
            ctype := c.ctype;
          } else {
            ctype := Some(OCTET_STREAM);
          }
        }
        uploads := uploads + [Upload(c.path, c.deleted, c.baseRev, c.mtime, ctype, content)];
      }
      if Faithful(View(), log.recorded) {
        forall i | 0 <= i < |pending| && !pending[i].deleted
          ensures pending[i].path in log.recorded
          ensures UploadOf(View(), pending[i]).content == Some(log.recorded[pending[i].path])
        {
          PushesWhatWasRecorded(View(), log.recorded, i);
        }
      }
      return true, uploads;
    }

    method BumpRevAt(q: Path, rev: RevName)
      modifies this`metas
      ensures View() == BumpRev(old(View()), q, rev)
    {
      if q in metas {
        metas := metas[q := metas[q].(rev := rev)];
      }
    }

    /** `ok` is false when a store failure stopped the adoption part-way. */
    method Adopt(results: seq<RevName>) returns (ok: bool, ghost revs: seq<RevName>)
      requires Valid() && |results| <= |pending|
      modifies this`metas
      ensures |revs| <= |pending| && View() == Adopted(old(View()), revs)
      ensures revs <= results && (ok ==> revs == results)
      ensures steady ==> ok
    {
      revs := [];
      for k := 0 to |results|
        invariant revs == results[..k] && View() == Adopted(old(View()), revs)
      {
        ok := StoreAnswers();
        if !ok {
          return false, revs;
        }
        assert results[..k + 1][..k] == results[..k];
        if !pending[k].deleted {
          BumpRevAt(pending[k].path, results[k]);
        }
        revs := results[..k + 1];
      }
      return true, revs;
    }

    method PushTo(hub: Hub, uploads: seq<Upload>) returns (r: SyncResult, ghost revs: seq<RevName>)
      requires Valid() && hub.Valid() && |uploads| == |pending|
      requires forall i :: 0 <= i < |pending| ==> uploads[i] == UploadOf(View(), pending[i])
      modifies this`metas, this`pending, hub
      ensures Valid() && hub.Valid() && Evolves(old(hub.st), hub.st)
      ensures PushOutcome(old(View()), View(), r, revs)
      ensures hub.asked == uploads
      ensures revs <= hub.said || revs == []
      ensures r.Done? ==> revs == hub.said
      ensures r.Done? && hub.complete ==> |revs| == |old(pending)|
      ensures steady ==> !r.StoreFailed? && (hub.calm ==> r.Done?)
      ensures r.Done? && |revs| == |old(pending)| ==> AllAcked(old(View()), log, old(hub.st), hub.st, hub.id)
    {
      ghost var loc, queuedAt := View(), log.queuedAt;
      ghost var sinces := seq(|loc.pending|, i requires 0 <= i < |loc.pending| => SinceAt(queuedAt, loc.pending[i].path, hub.id));
      var answer := hub.Push(uploads, sinces);
      if answer.None? {
        return HubFailed, [];
      }
      var results := answer.value;
      var ok;
      ok, revs := Adopt(results);
      if !ok {
        return StoreFailed, revs;
      }
      if |results| == |uploads| {
        ok := StoreAnswers();
        if !ok {
          return StoreFailed, revs;
        }
        pending := [];
      }
      return Done(|results|), revs;
    }

    /** Hubs in order until one answers, the `via`-th, or a store fails. */
    method PushInTurn(hubs: seq<Hub>, uploads: seq<Upload>) returns (r: SyncResult, ghost revs: seq<RevName>, ghost via: nat)
      requires Valid() && |uploads| == |pending| && forall h :: h in hubs ==> h.Valid()
      requires forall i :: 0 <= i < |pending| ==> uploads[i] == UploadOf(View(), pending[i])
      modifies this`metas, this`pending, hubs
      ensures Valid() && forall h :: h in hubs ==> h.Valid() && Evolves(old(h.st), h.st)
      ensures PushOutcome(old(View()), View(), r, revs)
      ensures revs == [] || (via < |hubs| && revs <= hubs[via].said)
      ensures r.Done? ==>
        && via < |hubs| && hubs[via].asked == uploads && revs == hubs[via].said && (hubs[via].complete ==> |revs| == |old(pending)|)
        && (|revs| == |old(pending)| ==> AllAcked(old(View()), log, old(hubs[via].st), hubs[via].st, hubs[via].id))
      ensures steady && (exists h :: h in hubs && h.calm) ==> r.Done?
      ensures old(Faithful(View(), log.recorded)) ==> Faithful(View(), log.recorded)
      ensures |hubs| == 1 && old(MirrorOf(hubs[0])) ==> MirrorOf(hubs[0])
    {
      ghost var loc, log0 := View(), log;
      via := 0;
      for k := 0 to |hubs|
        invariant View() == loc && log == log0 && Valid()
        invariant steady ==> forall j :: 0 <= j < k ==> !hubs[j].calm
        invariant forall h :: h in hubs ==> h.Valid() && Evolves(old(h.st), h.st)
        invariant |hubs| == 1 && old(MirrorOf(hubs[0])) ==> MirrorOf(hubs[0])
      {
        ghost var before := hubs[k].st;
        via := k;
        r, revs := PushTo(hubs[k], uploads);
        EvolvesTransitive(old(hubs[k].st), before, hubs[k].st);
        PushKeeps(loc, View(), r, revs, log0, before, hubs[k].st, hubs[k].id);
        if !r.HubFailed? {
          return;
        }
      }
      return HubFailed, [], via;
    }

    /** Nothing queued contacts no hub; the first hub to answer ends the push. */
    method Push(hubs: seq<Hub>) returns (r: SyncResult, ghost revs: seq<RevName>)
      requires Valid() && forall h :: h in hubs ==> h.Valid()
      modifies this`metas, this`pending, hubs
      ensures Valid() && forall h :: h in hubs ==> h.Valid() && Evolves(old(h.st), h.st)
      ensures PushOutcome(old(View()), View(), r, revs)
      ensures old(pending) == [] ==>
        (r == Done(0) || r.StoreFailed?) && View() == old(View()) && forall h :: h in hubs ==> h.st == old(h.st)
      ensures revs == [] || exists h :: h in hubs && revs <= h.said
      ensures r.Done? && |revs| == |old(pending)| > 0 ==>
        exists h :: h in hubs && AllSent(old(View()), h.asked) && revs == h.said && AllAcked(old(View()), log, old(h.st), h.st, h.id)
      ensures r.Done? && (forall h :: h in hubs ==> h.complete) ==> pending == []
      ensures steady && (old(pending) == [] || exists h :: h in hubs && h.calm) ==> r.Done?
      ensures old(Faithful(View(), log.recorded)) ==> Faithful(View(), log.recorded)
      ensures |hubs| == 1 && old(MirrorOf(hubs[0])) ==> MirrorOf(hubs[0])
    {
      var loaded := StoreAnswers();
      if !loaded {
        return StoreFailed, [];
      }
      if pending == [] {
        return Done(0), [];
      }
      var built, uploads := BuildPushChanges();
      if !built {
        return StoreFailed, [];
      }
      ghost var via;
      r, revs, via := PushInTurn(hubs, uploads);
      assert revs != [] ==> hubs[via] in hubs;
    }

    // ---- pulling ----

    /** File, then metadata; a failure may leave the one without the other. */
    method Drop(q: Path) returns (ok: bool)
      modifies this`files, this`metas
      ensures forall p :: p != q ==> SameAt(old(View()), View(), p)
      ensures ok ==> q !in files && q !in metas
      ensures steady ==> ok
    {
      ok := StoreAnswers();
      if ok {
        files := files - {q};
        ok := StoreAnswers();
        if ok {
          metas := metas - {q};
        }
      }
    }

    method Keep(q: Path, f: HubFile) returns (ok: bool)
      modifies this`files, this`metas
      ensures forall p :: p != q ==> SameAt(old(View()), View(), p)
      ensures ok ==> q in files && q in metas && files[q].content == f.content && InStep(View(), q)
      ensures ok ==> metas[q].rev == f.rev && metas[q].mtime == f.mtime && metas[q].ctype == f.ctype
      ensures steady ==> ok
    {
      ok := StoreAnswers();
      if ok {
        var now := Clock();
        files := files[q := OnDisk(f.content, f.mtime, now)];
        ok := StoreAnswers();
        if ok {
          metas := metas[q := FileMeta(f.rev, f.mtime, f.ctype)];
        }
      }
    }

    method ApplyRemote(hub: Hub, entry: ChangeEntry, ghost seen: HubState) returns (r: SyncResult, skipped: bool)
      requires Valid() && hub.Valid() && HubOk(seen) && Evolves(seen, hub.st)
      requires entry.deleted <==> entry.path !in seen.files
      modifies this`files, this`metas, hub
      ensures Valid() && hub.Valid() && Evolves(old(hub.st), hub.st)
      ensures AppliedRemote(old(View()), View(), hub.st, seen, entry.path, r)
      ensures r.Done? ==> (skipped <==> Queued(old(View()), entry.path))
      ensures steady ==> !r.StoreFailed?
      ensures hub.calm ==> hub.st == old(hub.st)
      ensures steady && hub.calm && hub.st == seen ==> r.Done?
    {
      var q := entry.path;
      var loaded, queued := PendingContains(q);
      if !loaded {
        return StoreFailed, false;
      }
      if queued {
        return Done(0), true;
      }
      assert Untouched(seen, hub.st, q) || ChangedAfter(hub.st, q, Some(seen.last));
      var ok;
      if entry.deleted {
        ok := Drop(q);
        return if ok then Done(1) else StoreFailed, false;
      }
      var found;
      ok, found := hub.GetFile(q);
      if !ok || found.None? {
        return HubFailed, false;
      }
      assert View() == old(View());
      ok := Keep(q, found.value);
      return if ok then Done(1) else StoreFailed, false;
    }

    method ApplyBatch(hub: Hub, ghost since: Option<nat>, entries: seq<ChangeEntry>) returns (r: SyncResult, conflicts: seq<Path>)
      requires Valid() && hub.Valid() && Listing(hub.st, since, entries)
      modifies this`files, this`metas, hub
      ensures Valid() && hub.Valid() && Evolves(old(hub.st), hub.st)
      ensures OnlyPulled(old(View()), View(), hub.st, since) && checkpoints == old(checkpoints)
      ensures r.Done? ==> BatchApplied(View(), hub.st, since, old(hub.st.last))
      ensures r.Done? ==> Conflicts(old(View()), entries, |entries|, conflicts)
      ensures steady ==> !r.StoreFailed?
      ensures hub.calm ==> hub.st == old(hub.st)
      ensures steady && hub.calm ==> r.Done?
      ensures !r.StoreFailed? ==> SameOrInStep(old(View()), View())
    {
      ghost var loc, seen := View(), hub.st;
      conflicts := [];
      for k := 0 to |entries|
        invariant Valid() && hub.Valid() && Evolves(seen, hub.st) && checkpoints == loc.checkpoints
        invariant OnlyPulled(loc, View(), seen, since) && PulledSoFar(loc, View(), hub.st, seen, entries, k)
        invariant Conflicts(loc, entries, k, conflicts)
        invariant SameOrInStep(loc, View()) && (hub.calm ==> hub.st == seen)
      {
        ghost var mid, h := View(), hub.st;
        var skipped;
        r, skipped := ApplyRemote(hub, entries[k], seen);
        EvolvesTransitive(seen, h, hub.st);
        OneMoreEntry(loc, mid, View(), h, hub.st, seen, since, entries, k, r);
        if !r.StoreFailed? {
          SameOrInStepTransitive(loc, mid, View());
        }
        if !r.Done? {
          OnlyPulledEvolves(loc, View(), seen, hub.st, since);
          return;
        }
        assert Queued(mid, entries[k].path) <==> Queued(loc, entries[k].path);
        if skipped {
          conflicts := conflicts + [entries[k].path];
        }
      }
      OnlyPulledEvolves(loc, View(), seen, hub.st, since);
      WholeBatch(loc, View(), hub.st, seen, since, entries);
      return Done(|entries|), conflicts;
    }

    /** The checkpoint moves last; `cp` is where to. `conflicts` are the report's `local_conflicts`. */
    method PullFrom(hub: Hub) returns (r: SyncResult, conflicts: seq<Path>, ghost cp: nat)
      requires Valid() && hub.Valid()
      modifies this`files, this`metas, this`checkpoints, hub
      ensures Valid() && hub.Valid() && Evolves(old(hub.st), hub.st)
      ensures OnlyPulled(old(View()), View(), hub.st, Checkpoint(old(View()), hub.id))
      ensures !r.Done? ==> checkpoints == old(checkpoints)
      ensures r.Done? ==>
        && old(hub.st.last) <= cp <= hub.st.last && checkpoints == old(checkpoints)[hub.id := cp]
        && BatchApplied(View(), hub.st, Checkpoint(old(View()), hub.id), cp)
      ensures pending == [] ==> conflicts == []
      ensures r.Done? && conflicts == [] ==> NoneSkipped(old(View()), hub.st, Checkpoint(old(View()), hub.id), cp)
      ensures r.Done? && hub.st == old(hub.st) && NoneSkipped(old(View()), hub.st, Checkpoint(old(View()), hub.id), cp) ==>
        conflicts == []
      ensures !r.StoreFailed? ==> SameOrInStep(old(View()), View())
      ensures steady ==> !r.StoreFailed?
      ensures hub.calm ==> hub.st == old(hub.st)
      ensures steady && hub.calm ==> r.Done?
      ensures hub.st == old(hub.st) ==>
        if r.Done? then PullEffect(old(View()), View(), hub.st, hub.id) else PartialEffect(old(View()), View(), hub.st, hub.id)
    {
      ghost var loc := View();
      var since: Option<nat> := if hub.id in checkpoints then Some(checkpoints[hub.id]) else None;
      var ok := StoreAnswers();
      if !ok {
        return StoreFailed, [], 0;
      }
      var answer := hub.Changes(since);
      if answer.None? {
        return HubFailed, [], 0;
      }
      cp := hub.st.last;
      ghost var seen := hub.st;
      r, conflicts := ApplyBatch(hub, since, answer.value.0);
      EvolvesTransitive(old(hub.st), seen, hub.st);
      if !r.Done? {
        return r, [], cp;
      }
      ok := StoreAnswers();
      if !ok {
        return StoreFailed, [], cp;
      }
      ghost var mid := View();
      checkpoints := checkpoints[hub.id := answer.value.1];
      FinishedPull(loc, mid, View(), seen, hub.st, hub.id, answer.value.0, conflicts);
      return r, conflicts, cp;
    }

    /** Hubs in order until one answers or a store fails; only the hub that answered, the `via`-th, has
        its checkpoint moved, and only with its whole batch applied. */
    method Pull(hubs: seq<Hub>) returns (r: SyncResult, conflicts: seq<Path>, ghost via: nat, ghost cp: nat)
      requires Valid() && forall h :: h in hubs ==> h.Valid()
      modifies this`files, this`metas, this`checkpoints, hubs
      ensures Valid() && forall h :: h in hubs ==> h.Valid() && Evolves(old(h.st), h.st)
      ensures steady && (exists h :: h in hubs && h.calm) ==> r.Done?
      ensures !r.Done? ==> checkpoints == old(checkpoints)
      ensures r.Done? ==>
        && via < |hubs| && checkpoints == old(checkpoints)[hubs[via].id := cp]
        && old(hubs[via].st.last) <= cp <= hubs[via].st.last && (hubs[via].calm ==> cp == hubs[via].st.last)
        && BatchApplied(View(), hubs[via].st, Checkpoint(old(View()), hubs[via].id), cp)
      ensures !r.StoreFailed? ==> SameOrInStep(old(View()), View())
      ensures QueuedKept(old(View()), View())
      ensures old(Faithful(View(), log.recorded)) ==> Faithful(View(), log.recorded)
      ensures pending == [] ==> conflicts == []
      ensures |hubs| == 1 && old(MirrorOf(hubs[0])) && (r.Done? ==> conflicts == []) ==> MirrorOf(hubs[0])
    {
      via, cp := 0, 0;
      for k := 0 to |hubs|
        invariant Valid() && checkpoints == old(checkpoints)
        invariant steady ==> forall j :: 0 <= j < k ==> !hubs[j].calm
        invariant forall h :: h in hubs ==> h.Valid() && Evolves(old(h.st), h.st)
        invariant SameOrInStep(old(View()), View()) && QueuedKept(old(View()), View())
        invariant old(Faithful(View(), log.recorded)) ==> Faithful(View(), log.recorded)
        invariant |hubs| == 1 && old(MirrorOf(hubs[0])) ==> MirrorOf(hubs[0])
      {
        ghost var mid, before := View(), hubs[k].st;
        via := k;
        r, conflicts, cp := PullFrom(hubs[k]);
        EvolvesTransitive(old(hubs[k].st), before, hubs[k].st);
        PullOutcome(mid, View(), log, before, hubs[k].st, hubs[k].id, r, cp);
        QueuedKeptTransitive(old(View()), mid, View());
        if !r.StoreFailed? {
          SameOrInStepTransitive(old(View()), mid, View());
        }
        if !r.HubFailed? {
          return;
        }
      }
      return HubFailed, [], via, cp;
    }

    /** Push, then pull; a failed push ends the sync. */
    method Sync(hubs: seq<Hub>) returns (push: SyncResult, pull: SyncResult, conflicts: seq<Path>, ghost via: nat, ghost cp: nat)
      requires Valid() && forall h :: h in hubs ==> h.Valid()
      modifies this`files, this`metas, this`pending, this`checkpoints, hubs
      ensures Valid() && forall h :: h in hubs ==> h.Valid()
      ensures pending == old(pending) || (pending == [] && push == Done(|old(pending)|))
      ensures old(pending) == [] ==> push == Done(0) || push.StoreFailed?
      ensures steady && (exists h :: h in hubs && h.calm) ==> pull.Done?
      ensures push.Done? && (forall h :: h in hubs ==> h.complete) ==> pending == []
      ensures !push.Done? ==> pull == push && files == old(files) && checkpoints == old(checkpoints)
      ensures !pull.Done? ==> checkpoints == old(checkpoints)
      ensures pull.Done? ==>
        && via < |hubs| && checkpoints == old(checkpoints)[hubs[via].id := cp]
        && old(hubs[via].st.last) <= cp <= hubs[via].st.last && (hubs[via].calm ==> cp == hubs[via].st.last)
        && BatchApplied(View(), hubs[via].st, Checkpoint(old(View()), hubs[via].id), cp)
        && RevisionsThenPull(old(View()), View())
      ensures old(Faithful(View(), log.recorded)) ==> Faithful(View(), log.recorded)
      ensures (forall h :: h in hubs ==> h.complete) || old(pending) == [] ==> conflicts == []
      ensures |hubs| == 1 && old(MirrorOf(hubs[0])) && conflicts == [] ==> MirrorOf(hubs[0])
    {
      ghost var revs;
      via, cp := 0, 0;
      push, revs := Push(hubs);
      ghost var mid := View();
      PushKeepsTheRest(old(View()), mid, push, revs);
      if !push.Done? {
        return push, push, [], 0, 0;
      }
      pull, conflicts, via, cp := Pull(hubs);
      if pull.Done? {
        PushedThenPulled(old(View()), mid, View(), revs);
      }
    }
  }

  // ---- runs ----

  /** What may happen to a client and its hubs; the engine's operations do not interleave. `Elsewhere` lets
      others write to the hub at that place. */
  datatype Op =
    | Upsert(path: Path, mtime: int, ctype: string, content: Bytes)
    | Delete(path: Path, mtime: int)
    | Push
    | Pull
    | Sync
    | Elsewhere(at: nat)

  /** The content the run last recorded for `q`. */
  function LastRecorded(ops: seq<Op>, q: Path): Option<Bytes> {
    if ops == [] then None else
      var last := ops[|ops| - 1];
      if last.Upsert? && last.path == q then Some(last.content) else LastRecorded(ops[..|ops| - 1], q)
  }

  /** Recording replaces the entry of its path, a push that answered every entry empties the queue, and
      nothing else touches it. */
  ghost predicate QueueStep(before: seq<PendingChange>, after: seq<PendingChange>, op: Op, push: SyncResult) {
    match op
    case Upsert(q, _, _, _) => exists c: PendingChange :: c.path == q && !c.deleted && after == Enqueued(before, c)
    case Delete(q, _) => exists c: PendingChange :: c.path == q && c.deleted && after == Enqueued(before, c)
    case Push => after == before || (after == [] && push == Done(|before|))
    case Sync => after == before || (after == [] && push == Done(|before|))
    case _ => after == before
  }

  ghost predicate RecordedLast(ops: seq<Op>, recorded: map<Path, Bytes>) {
    forall q :: LastRecorded(ops, q).Some? ==> q in recorded && recorded[q] == LastRecorded(ops, q).value
  }

  lemma OneMoreOp(ops: seq<Op>, k: nat, recorded: map<Path, Bytes>, recorded': map<Path, Bytes>)
    requires k < |ops| && RecordedLast(ops[..k], recorded)
    requires recorded' == if ops[k].Upsert? then recorded[ops[k].path := ops[k].content] else recorded
    ensures RecordedLast(ops[..k + 1], recorded')
  {
    assert ops[..k + 1][..k] == ops[..k];
    forall q | LastRecorded(ops[..k + 1], q).Some? ensures q in recorded' && recorded'[q] == LastRecorded(ops[..k + 1], q).value {
      assert (ops[k].Upsert? && ops[k].path == q) || LastRecorded(ops[..k + 1], q) == LastRecorded(ops[..k], q);
    }
  }

  /** One operation against any hubs; `push` is how its push ended. */
  method Perform(engine: SyncEngine, hubs: seq<Hub>, op: Op) returns (push: SyncResult)
    requires engine.Valid() && Faithful(engine.View(), engine.log.recorded) && forall h :: h in hubs ==> h.Valid()
    modifies engine, hubs
    ensures engine.Valid() && Faithful(engine.View(), engine.log.recorded) && forall h :: h in hubs ==> h.Valid()
    ensures QueueStep(old(engine.pending), engine.pending, op, push)
    ensures engine.log.recorded ==
      if op.Upsert? then old(engine.log.recorded)[op.path := op.content] else old(engine.log.recorded)
  {
    push := Done(0);
    match op {
      case Upsert(q, mtime, ctype, content) =>
        engine.RecordUpsert(q, mtime, ctype, content);
        assert engine.pending == Enqueued(old(engine.pending), PendingChange(q, false, BaseRevOf(old(engine.View()), q), mtime, Some(ctype)));
      case Delete(q, mtime) =>
        engine.RecordDelete(q, mtime);
        assert engine.pending == Enqueued(old(engine.pending), PendingChange(q, true, BaseRevOf(old(engine.View()), q), mtime, None));
      case Push =>
        ghost var before := engine.View();
        ghost var revs;
        push, revs := engine.Push(hubs);
        PushKeepsTheRest(before, engine.View(), push, revs);
      case Pull =>
        var pull, conflicts, via, cp := engine.Pull(hubs);
      case Sync =>
        var pull, conflicts;
        ghost var via, cp;
        push, pull, conflicts, via, cp := engine.Sync(hubs);
      case Elsewhere(k) =>
        if k < |hubs| {
          hubs[k].OthersWrite();
        }
    }
  }

  /** Over every run of recording, pushing and pulling, against any hubs and with any failures or short
      answers: one entry per path, no entry leaves but by a push that was answered in full, and what would be
      pushed is what the run recorded last. */
  method QueueRun(engine: SyncEngine, hubs: seq<Hub>, ops: seq<Op>)
    returns (ghost queues: seq<seq<PendingChange>>, ghost pushes: seq<SyncResult>)
    requires engine.Valid() && Faithful(engine.View(), engine.log.recorded) && forall h :: h in hubs ==> h.Valid()
    modifies engine, hubs
    ensures |queues| == |ops| + 1 == |pushes| + 1 && queues[0] == old(engine.pending) && queues[|ops|] == engine.pending
    ensures forall k :: 0 <= k < |ops| ==> QueueStep(queues[k], queues[k + 1], ops[k], pushes[k])
    ensures OnePerPath(engine.pending) && RecordedLast(ops, engine.log.recorded)
    ensures forall i :: 0 <= i < |engine.pending| && !engine.pending[i].deleted ==>
      var q := engine.pending[i].path;
      q in engine.log.recorded && UploadOf(engine.View(), engine.pending[i]).content == Some(engine.log.recorded[q])
  {
    queues, pushes := [engine.pending], [];
    for k := 0 to |ops|
      invariant engine.Valid() && Faithful(engine.View(), engine.log.recorded) && forall h :: h in hubs ==> h.Valid()
      invariant |queues| == k + 1 == |pushes| + 1 && queues[0] == old(engine.pending) && queues[k] == engine.pending
      invariant forall j :: 0 <= j < k ==> QueueStep(queues[j], queues[j + 1], ops[j], pushes[j])
      invariant RecordedLast(ops[..k], engine.log.recorded)
    {
      ghost var recorded := engine.log.recorded;
      var push := Perform(engine, hubs, ops[k]);
      OneMoreOp(ops, k, recorded, engine.log.recorded);
      queues, pushes := queues + [engine.pending], pushes + [push];
    }
    assert ops[..|ops|] == ops;
    forall i | 0 <= i < |engine.pending| && !engine.pending[i].deleted
      ensures engine.pending[i].path in engine.log.recorded
      ensures UploadOf(engine.View(), engine.pending[i]).content == Some(engine.log.recorded[engine.pending[i].path])
    {
      PushesWhatWasRecorded(engine.View(), engine.log.recorded, i);
    }
  }

  /** One operation with a single hub. `clean` says that its pull, if any, reported no local conflict. */
  method PerformWith(engine: SyncEngine, hub: Hub, op: Op) returns (clean: bool, pulled: bool, ghost cp: nat)
    requires engine.Valid() && hub.Valid()
    modifies engine, hub
    ensures engine.Valid() && hub.Valid() && (old(engine.MirrorOf(hub)) && clean ==> engine.MirrorOf(hub))
    ensures hub.complete && !op.Pull? ==> clean
    ensures pulled && op.Sync? ==> Checkpoint(engine.View(), hub.id) == Some(cp) && (hub.complete ==> engine.pending == [])
  {
    clean, pulled, cp := true, false, 0;
    var hubs := [hub];
    assert hub in hubs;
    match op {
      case Upsert(q, mtime, ctype, content) => engine.RecordUpsert(q, mtime, ctype, content);
      case Delete(q, mtime) => engine.RecordDelete(q, mtime);
      case Push =>
        ghost var revs;
        var push;
        push, revs := engine.Push(hubs);
        assert old(engine.MirrorOf(hub)) ==> engine.MirrorOf(hubs[0]);
      case Pull =>
        var pull, conflicts;
        ghost var via;
        pull, conflicts, via, cp := engine.Pull(hubs);
        clean, pulled := conflicts == [], pull.Done?;
        assert old(engine.MirrorOf(hub)) && clean ==> engine.MirrorOf(hubs[0]);
      case Sync =>
        var push, pull, conflicts;
        ghost var via;
        push, pull, conflicts, via, cp := engine.Sync(hubs);
        clean, pulled := conflicts == [], pull.Done?;
        assert old(engine.MirrorOf(hub)) && clean ==> engine.MirrorOf(hubs[0]);
      case Elsewhere(_) =>
        ghost var h := hub.st;
        hub.OthersWrite();
        if old(engine.MirrorOf(hub)) {
          InSyncEvolves(engine.View(), engine.log, h, hub.st, hub.id);
        }
    }
  }

  /** Over every run, whatever fails, until a pull reports a local conflict each path is queued, still to be
      pulled, or the hub's; against a hub that answers in full only a pull of its own can report one. A run
      that ends in a finished sync leaves nothing but what is queued, or happened on the hub since, between
      the client and an exact copy. */
  method Run(engine: SyncEngine, hub: Hub, ops: seq<Op>) returns (clean: bool, done: bool, ghost cp: nat)
    requires engine.Valid() && engine.MirrorOf(hub)
    modifies engine, hub
    ensures clean ==> engine.MirrorOf(hub) && forall q :: MirroredAt(engine.View(), hub.st, hub.id, q)
    ensures hub.complete && Pull !in ops ==> clean
    ensures clean && done && cp == hub.st.last ==> forall q :: Queued(engine.View(), q) || Agrees(engine.View(), hub.st, q)
    ensures done && hub.complete ==> engine.pending == []
  {
    clean, done, cp := true, false, 0;
    for k := 0 to |ops|
      invariant engine.Valid() && hub.Valid() && (clean ==> engine.MirrorOf(hub))
      invariant hub.complete && Pull !in ops ==> clean
      invariant done ==> Checkpoint(engine.View(), hub.id) == Some(cp) && (hub.complete ==> engine.pending == [])
    {
      var still, pulled;
      still, pulled, cp := PerformWith(engine, hub, ops[k]);
      clean, done := clean && still, pulled && ops[k].Sync?;
    }
    if clean {
      forall q
        ensures MirroredAt(engine.View(), hub.st, hub.id, q)
        ensures done && cp == hub.st.last ==> Queued(engine.View(), q) || Agrees(engine.View(), hub.st, q)
      {
        assert InSyncAt(engine.View(), engine.log, hub.st, hub.id, q);
      }
    }
  }

  /** A client that never synced is in step with any hub. */
  lemma FreshClientInSync(log: Log, h: HubState, id: HubId)
    requires HubOk(h)
    ensures InSync(Local(map[], map[], [], map[]), log, h, id)
  {
    var loc := Local(map[], map[], [], map[]);
    forall q ensures InSyncAt(loc, log, h, id, q) {
      assert q in h.files ==> ChangedAfter(h, q, None);
    }
  }
}
