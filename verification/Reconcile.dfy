/** `reconcile.rs` over `fs_store.rs`: finding what changed on disk, then syncing. */
module Reconcile {
  import opened RevTree
  import opened Mirror
  import opened HubService
  import opened Queue
  import opened Client

  type TypeGuess = Path -> string

  predicate EndsTmp(s: string) {
    |s| >= 4 && s[|s| - 4..] == ".tmp"
  }

  /** The scan does not enter or report names ending in `.tmp`, directories included. */
  predicate Scanned(q: Path) {
    forall i :: 0 <= i <= |q| && (i == |q| || q[i] == '/') ==> !EndsTmp(q[..i])
  }

  /** `FsMetaStore::list_keys` looks at the end of the whole key only. */
  predicate Listed(q: Path) {
    !EndsTmp(q)
  }

  lemma ScannedIsListed(q: Path)
    requires Scanned(q)
    ensures Listed(q)
  {
    assert q[..|q|] == q;
  }

  /** The names between the slashes. */
  function Segments(q: Path): (names: seq<string>)
    ensures |names| > 0
  {
    if q == "" then [""]
    else
      var rest := Segments(q[..|q| - 1]);
      var last := q[|q| - 1];
      if last == '/' then rest + [""] else rest[..|rest| - 1] + [rest[|rest| - 1] + [last]]
  }

  ghost predicate AllVisible(names: seq<string>) {
    forall i :: 0 <= i < |names| ==> !EndsTmp(names[i])
  }

  /** The last name is the end of the path, after its last slash. */
  lemma {:induction false} LastSegment(q: Path)
    ensures var last := Segments(q)[|Segments(q)| - 1];
            && |last| <= |q| && q[|q| - |last|..] == last && '/' !in last
            && (|last| < |q| ==> q[|q| - |last| - 1] == '/')
  {
    if q != "" {
      LastSegment(q[..|q| - 1]);
      var n := |q| - 1;
      var before := Segments(q[..n])[|Segments(q[..n])| - 1];
      if q[n] != '/' {
        assert q[n - |before|..] == q[..n][n - |before|..] + [q[n]];
      }
    }
  }

  lemma LastEndsTmp(q: Path)
    ensures EndsTmp(q) <==> EndsTmp(Segments(q)[|Segments(q)| - 1])
  {
    LastSegment(q);
    var last := Segments(q)[|Segments(q)| - 1];
    if |last| >= 4 {
      assert q[|q| - 4..] == last[|last| - 4..];
    } else if |q| >= 4 {
      var tail := q[|q| - 4..];
      assert tail[3 - |last|] == '/';
      assert ".tmp"[3 - |last|] != '/';
    }
  }

  /** No directory on the way ends in `.tmp`. */
  ghost predicate DirectoriesVisible(q: Path) {
    forall i :: 0 <= i < |q| && q[i] == '/' ==> !EndsTmp(q[..i])
  }

  lemma SlashAdded(p: Path)
    ensures DirectoriesVisible(p + "/") <==> DirectoriesVisible(p) && !EndsTmp(p)
    ensures Segments(p + "/") == Segments(p) + [""]
  {
    var q := p + "/";
    assert q[..|p|] == p && q[|p|] == '/';
    assert forall i :: 0 <= i < |p| ==> q[..i] == p[..i] && q[i] == p[i];
  }

  lemma LetterAdded(p: Path, c: char)
    requires c != '/'
    ensures DirectoriesVisible(p + [c]) <==> DirectoriesVisible(p)
    ensures |Segments(p + [c])| == |Segments(p)|
    ensures Segments(p + [c])[..|Segments(p)| - 1] == Segments(p)[..|Segments(p)| - 1]
  {
    var q := p + [c];
    assert q[..|p|] == p && q[|p|] == c;
    assert forall i :: 0 <= i < |p| ==> q[..i] == p[..i] && q[i] == p[i];
  }

  lemma AllVisibleSplit(names: seq<string>)
    requires names != []
    ensures AllVisible(names) <==> AllVisible(names[..|names| - 1]) && !EndsTmp(names[|names| - 1])
  {
  }

  lemma {:induction false} DirectoriesIff(q: Path)
    ensures DirectoriesVisible(q) <==> AllVisible(Segments(q)[..|Segments(q)| - 1])
  {
    if q != "" {
      var n := |q| - 1;
      var p := q[..n];
      DirectoriesIff(p);
      assert q == p + [q[n]];
      if q[n] == '/' {
        SlashAdded(p);
        LastEndsTmp(p);
        AllVisibleSplit(Segments(p));
        assert (Segments(p) + [""])[..|Segments(p)|] == Segments(p);
      } else {
        LetterAdded(p, q[n]);
      }
    }
  }

  /** The scan shows exactly the paths in which no name ends in `.tmp`. */
  lemma ScannedIff(q: Path)
    ensures Scanned(q) <==> AllVisible(Segments(q))
  {
    DirectoriesIff(q);
    LastEndsTmp(q);
    var names := Segments(q);
    assert q[..|q|] == q;
    assert Scanned(q) <==> DirectoriesVisible(q) && !EndsTmp(q);
    AllVisibleSplit(names);
  }

  /** A name may contain `.tmp`; only its end counts. */
  lemma TemplatesAreScanned()
    ensures Scanned("a.tmpl") && Listed("a.tmpl") && !Scanned("a.tmp") && !Listed("a.tmp")
  {
    assert "a.tmp"[1..] == ".tmp";
    assert "a.tmp"[..5] == "a.tmp";
    var q: Path := "a.tmpl";
    assert q[2..] == "tmpl" && q[2..][0] == 't';
    assert !EndsTmp(q) && q[..6] == q;
  }

  // ---- what a pass notices ----

  predicate Changed(loc: Local, q: Path) {
    q in loc.files && Scanned(q) && !(q in loc.metas && loc.metas[q].mtime == loc.files[q].mtime)
  }

  predicate Gone(loc: Local, q: Path) {
    q in loc.metas && Listed(q) && !(q in loc.files && Scanned(q))
  }

  function Noticed(loc: Local): (noticed: set<Path>)
    ensures forall q :: q in noticed <==> Changed(loc, q) || Gone(loc, q)
  {
    set q | q in loc.files.Keys + loc.metas.Keys && (Changed(loc, q) || Gone(loc, q))
  }

  ghost predicate SameEntries(loc: Local, loc': Local, q: Path) {
    forall c: PendingChange :: c.path == q ==> (c in loc.pending <==> c in loc'.pending)
  }

  /** `q` is queued with what was found on disk, or left alone. */
  ghost predicate Detected(loc: Local, loc': Local, guess: TypeGuess, q: Path) {
    if Changed(loc, q) then
      && q in loc'.files && loc'.files[q].content == loc.files[q].content
      && (if loc.files[q].mtime > 0 then loc'.files[q].mtime == loc.files[q].mtime else loc'.files[q].mtime > 0)
      && q in loc'.metas && loc'.metas[q].mtime == loc.files[q].mtime && loc'.metas[q].ctype == guess(q)
      && PendingChange(q, false, BaseRevOf(loc, q), loc.files[q].mtime, Some(guess(q))) in loc'.pending
    else if Gone(loc, q) then
      && q !in loc'.files && q !in loc'.metas
      && exists c :: c in loc'.pending && c.mtime > 0 && c == PendingChange(q, true, BaseRevOf(loc, q), c.mtime, None)
    else SameAt(loc, loc', q) && SameEntries(loc, loc', q)
  }

  /** Part-way through a pass, with `left` still to be recorded. */
  ghost predicate MidwayAt(loc: Local, now: Local, guess: TypeGuess, left: set<Path>, q: Path) {
    if q in left then q in Noticed(loc) && SameAt(loc, now, q) && SameEntries(loc, now, q)
    else Detected(loc, now, guess, q)
  }

  ghost predicate Midway(loc: Local, now: Local, guess: TypeGuess, left: set<Path>) {
    now.checkpoints == loc.checkpoints && forall q :: MidwayAt(loc, now, guess, left, q)
  }

  lemma OtherEntriesStay(loc: Local, loc': Local, c: PendingChange, q: Path)
    requires loc'.pending == Enqueued(loc.pending, c)
    ensures c in loc'.pending && (q != c.path ==> SameEntries(loc, loc', q))
  {
    var rest := Without(loc.pending, c.path);
    WithoutMembers(loc.pending, c.path);
    assert loc'.pending[|rest|] == c;
    forall e: PendingChange | e.path == q != c.path ensures e in loc.pending <==> e in loc'.pending {
      if e in loc'.pending {
        assert e in rest;
      }
    }
  }

  lemma UpsertedMidway(loc: Local, mid: Local, loc': Local, guess: TypeGuess, left: set<Path>, p: Path, now: int)
    requires Midway(loc, mid, guess, left) && p in left && Changed(loc, p) && now > 0 && p in mid.files
    requires loc' == Upserted(mid, p, loc.files[p].mtime, guess(p), mid.files[p].content, now)
    ensures Midway(loc, loc', guess, left - {p})
  {
    assert MidwayAt(loc, mid, guess, left, p);
    var c := PendingChange(p, false, BaseRevOf(loc, p), loc.files[p].mtime, Some(guess(p)));
    forall q ensures MidwayAt(loc, loc', guess, left - {p}, q) {
      assert MidwayAt(loc, mid, guess, left, q);
      OtherEntriesStay(mid, loc', c, q);
    }
  }

  lemma DeletedMidway(loc: Local, mid: Local, loc': Local, guess: TypeGuess, left: set<Path>, p: Path, mtime: int)
    requires Midway(loc, mid, guess, left) && p in left && Gone(loc, p) && mtime > 0
    requires loc' == Deleted(mid, p, mtime)
    ensures Midway(loc, loc', guess, left - {p})
  {
    assert MidwayAt(loc, mid, guess, left, p);
    var c := PendingChange(p, true, BaseRevOf(loc, p), mtime, None);
    forall q ensures MidwayAt(loc, loc', guess, left - {p}, q) {
      assert MidwayAt(loc, mid, guess, left, q);
      OtherEntriesStay(mid, loc', c, q);
    }
  }

  // ---- when a pass notices nothing ----

  /** A pass that noticed nothing would find `q`'s times in step. */
  ghost predicate AlignedAt(loc: Local, q: Path) {
    Scanned(q) ==>
      && (q in loc.files <==> q in loc.metas)
      && (q in loc.files && loc.metas[q].mtime > 0 ==> loc.files[q].mtime == loc.metas[q].mtime)
  }

  /** Every time that should be on disk can be set there, and the scan sees every path the listing does. */
  ghost predicate Tidy(loc: Local) {
    forall q :: q in loc.metas ==> (Scanned(q) ==> loc.metas[q].mtime > 0) && (Listed(q) ==> Scanned(q))
  }

  ghost predicate PositiveTimes(loc: Local) {
    forall q :: q in loc.files && Scanned(q) ==> loc.files[q].mtime > 0
  }

  lemma QuietIffTidy(loc: Local)
    requires forall q :: AlignedAt(loc, q)
    ensures Tidy(loc) ==> Noticed(loc) == {}
    ensures Noticed(loc) == {} && PositiveTimes(loc) ==> Tidy(loc)
  {
    if Tidy(loc) {
      forall q ensures q !in Noticed(loc) {
        assert AlignedAt(loc, q);
      }
    }
    if Noticed(loc) == {} && PositiveTimes(loc) {
      forall q | q in loc.metas ensures (Scanned(q) ==> loc.metas[q].mtime > 0) && (Listed(q) ==> Scanned(q)) {
        assert q !in Noticed(loc);
        if Scanned(q) {
          ScannedIsListed(q);
        }
      }
    }
  }

  lemma PassThenSyncIsAligned(loc: Local, mid: Local, loc': Local, guess: TypeGuess, q: Path)
    requires Detected(loc, mid, guess, q) && TimesKept(mid, loc', q)
    ensures AlignedAt(loc', q)
    ensures (q in loc.files && Scanned(q) ==> loc.files[q].mtime > 0) ==> q in loc'.files && Scanned(q) ==> loc'.files[q].mtime > 0
  {
    if Scanned(q) {
      ScannedIsListed(q);
    }
  }

  lemma PassThenSync(loc: Local, mid: Local, loc': Local, guess: TypeGuess)
    requires Midway(loc, mid, guess, {}) && RevisionsThenPull(mid, loc')
    ensures Tidy(loc') ==> Noticed(loc') == {}
    ensures PositiveTimes(loc) && Noticed(loc') == {} ==> Tidy(loc')
  {
    forall q
      ensures AlignedAt(loc', q)
      ensures PositiveTimes(loc) && q in loc'.files && Scanned(q) ==> loc'.files[q].mtime > 0
    {
      assert MidwayAt(loc, mid, guess, {}, q);
      assert TimesKept(mid, loc', q);
      PassThenSyncIsAligned(loc, mid, loc', guess, q);
    }
    QuietIffTidy(loc');
  }

  /** A file the hub keeps below a directory ending in `.tmp`: pulled, in step, and recorded as deleted
      by the next pass. */
  lemma PulledBelowTmpIsDeleted(f: HubFile, now: int)
    requires f.mtime > 0
    ensures var q: Path := "d.tmp/x";
            var loc := Local(map[q := OnDisk(f.content, f.mtime, now)], map[q := FileMeta(f.rev, f.mtime, f.ctype)], [], map[]);
            InStep(loc, q) && Gone(loc, q)
  {
    var q: Path := "d.tmp/x";
    assert q[5] == '/' && q[..5] == "d.tmp" && q[..5][1..] == ".tmp";
    assert EndsTmp(q[..5]);
    assert q[3..] == "mp/x";
    assert q[3..][0] != '.';
  }

  // ---- edits on disk against the mirror ----

  /** In step with the hub, but for edits on disk that the next pass notices. */
  ghost predicate NearlyInSync(loc: Local, log: Log, h: HubState, id: HubId) {
    LeftInSync(loc, log, h, id, Noticed(loc))
  }

  ghost predicate LeftInSync(loc: Local, log: Log, h: HubState, id: HubId, left: set<Path>) {
    Reached(h, Checkpoint(loc, id)) && forall q :: q in left || InSyncAt(loc, log, h, id, q)
  }

  lemma RecordedLeft(loc: Local, loc': Local, log: Log, h: HubState, id: HubId, c: PendingChange, content: Bytes, left: set<Path>)
    requires loc'.pending == Enqueued(loc.pending, c) && loc'.checkpoints == loc.checkpoints
    requires EntrySound(loc', Logged(log, c, content, loc.checkpoints).recorded, c)
    requires LeftInSync(loc, log, h, id, left) && forall q :: q != c.path ==> SameAt(loc, loc', q)
    ensures LeftInSync(loc', Logged(log, c, content, loc.checkpoints), h, id, left - {c.path})
  {
    forall q | q !in left - {c.path} ensures InSyncAt(loc', Logged(log, c, content, loc.checkpoints), h, id, q) {
      assert q == c.path || InSyncAt(loc, log, h, id, q);
      RecordKeepsSyncAt(loc, loc', log, h, id, c, content, q);
    }
  }

  /** Whatever hub the client was nearly in step with, only `left` still stands out. */
  ghost predicate LeftOver(loc: Local, log: Log, now: Local, log': Log, left: set<Path>) {
    forall h, id :: NearlyInSync(loc, log, h, id) ==> LeftInSync(now, log', h, id, left)
  }

  lemma RecordedLeftOver(loc: Local, log: Log, mid: Local, log': Log, loc': Local, c: PendingChange, content: Bytes,
                         left: set<Path>)
    requires LeftOver(loc, log, mid, log', left)
    requires loc'.pending == Enqueued(mid.pending, c) && loc'.checkpoints == mid.checkpoints
    requires EntrySound(loc', Logged(log', c, content, mid.checkpoints).recorded, c)
    requires forall q :: q != c.path ==> SameAt(mid, loc', q)
    ensures LeftOver(loc, log, loc', Logged(log', c, content, mid.checkpoints), left - {c.path})
  {
    forall h, id | NearlyInSync(loc, log, h, id)
      ensures LeftInSync(loc', Logged(log', c, content, mid.checkpoints), h, id, left - {c.path})
    {
      RecordedLeft(mid, loc', log', h, id, c, content, left);
    }
  }

  // ---- the code ----

  /** `scan`: the visible files and their times on disk. */
  function Scan(files: map<Path, DiskFile>): map<Path, int> {
    map q | q in files && Scanned(q) :: files[q].mtime
  }

  /** Records one file the scan found new or touched. */
  method RecordFound(engine: SyncEngine, guess: TypeGuess, q: Path, mtime: int, ghost loc: Local, ghost log: Log,
                     ghost left: set<Path>)
    requires engine.Valid() && q in engine.files && q in left && Changed(loc, q) && mtime == loc.files[q].mtime
    requires Midway(loc, engine.View(), guess, left) && LeftOver(loc, log, engine.View(), engine.log, left)
    modifies engine
    ensures engine.Valid() && Midway(loc, engine.View(), guess, left - {q})
    ensures LeftOver(loc, log, engine.View(), engine.log, left - {q})
  {
    ghost var mid, log' := engine.View(), engine.log;
    assert MidwayAt(loc, mid, guess, left, q);
    var content := engine.files[q].content;
    engine.RecordUpsert(q, mtime, guess(q), content);
    ghost var now :| now > 0 && engine.View() == Upserted(mid, q, mtime, guess(q), content, now);
    UpsertedMidway(loc, mid, engine.View(), guess, left, q, now);
    RecordedLeftOver(loc, log, mid, log', engine.View(),
                     PendingChange(q, false, BaseRevOf(mid, q), mtime, Some(guess(q))), content, left);
  }

  /** Records one known file the scan did not find. */
  method RecordMissing(engine: SyncEngine, guess: TypeGuess, q: Path, mtime: int, ghost loc: Local, ghost log: Log,
                       ghost left: set<Path>)
    requires engine.Valid() && q in left && q in Noticed(loc) && q !in Scan(loc.files) && mtime > 0
    requires Midway(loc, engine.View(), guess, left) && LeftOver(loc, log, engine.View(), engine.log, left)
    modifies engine
    ensures engine.Valid() && Midway(loc, engine.View(), guess, left - {q})
    ensures LeftOver(loc, log, engine.View(), engine.log, left - {q})
  {
    ghost var mid, log' := engine.View(), engine.log;
    engine.RecordDelete(q, mtime);
    DeletedMidway(loc, mid, engine.View(), guess, left, q, mtime);
    RecordedLeftOver(loc, log, mid, log', engine.View(), PendingChange(q, true, BaseRevOf(mid, q), mtime, None), [], left);
  }

  /** What is left is still to be noticed: the pass can be made again. */
  lemma LeftIsNoticed(loc: Local, log: Log, now: Local, log': Log, guess: TypeGuess, left: set<Path>, h: HubState, id: HubId)
    requires Midway(loc, now, guess, left) && LeftOver(loc, log, now, log', left) && NearlyInSync(loc, log, h, id)
    ensures NearlyInSync(now, log', h, id)
    ensures left == {} ==> InSync(now, log', h, id)
  {
    assert LeftInSync(now, log', h, id, left);
    forall q | q in left ensures q in Noticed(now) {
      assert MidwayAt(loc, now, guess, left, q);
    }
  }

  /** A metadata read may fail and end the pass; `left` is what was noticed and not recorded. */
  method RecordUpserts(engine: SyncEngine, guess: TypeGuess, local: map<Path, int>)
    returns (ok: bool, recorded: nat, ghost left: set<Path>)
    requires engine.Valid() && local == Scan(engine.files)
    modifies engine
    ensures engine.Valid() && left <= Noticed(old(engine.View())) && (ok ==> forall q :: q in left ==> q !in local)
    ensures recorded == |Noticed(old(engine.View()))| - |left|
    ensures recorded == 0 ==> engine.View() == old(engine.View())
    ensures Midway(old(engine.View()), engine.View(), guess, left)
    ensures LeftOver(old(engine.View()), old(engine.log), engine.View(), engine.log, left)
    ensures engine.steady ==> ok
  {
    ghost var loc, log := engine.View(), engine.log;
    recorded, left := 0, Noticed(loc);
    var todo := local.Keys;
    while todo != {}
      invariant engine.Valid() && todo <= local.Keys && left <= Noticed(loc)
      invariant forall q :: q in left && q in local ==> q in todo
      invariant forall q :: q in todo && Changed(loc, q) ==> q in left
      invariant recorded == |Noticed(loc)| - |left|
      invariant recorded == 0 ==> engine.View() == loc
      invariant Midway(loc, engine.View(), guess, left)
      invariant LeftOver(loc, log, engine.View(), engine.log, left)
      decreases todo
    {
      ok := engine.StoreAnswers();
      if !ok {
        return;
      }
      var q :| q in todo;
      todo := todo - {q};
      assert MidwayAt(loc, engine.View(), guess, left, q);
      if (q !in engine.metas || engine.metas[q].mtime != local[q]) && q in engine.files {
        RecordFound(engine, guess, q, local[q], loc, log, left);
        recorded, left := recorded + 1, left - {q};
      }
    }
    ok := true;
  }

  method RecordDeletes(engine: SyncEngine, guess: TypeGuess, local: map<Path, int>, ghost loc: Local, ghost log: Log,
                       ghost left: set<Path>) returns (ok: bool, recorded: nat)
    requires engine.Valid() && local == Scan(loc.files) && left <= Noticed(loc) && forall q :: q in left ==> q !in local
    requires Midway(loc, engine.View(), guess, left) && LeftOver(loc, log, engine.View(), engine.log, left)
    modifies engine
    ensures engine.Valid() && recorded == (if ok then |left| else 0) && (engine.steady ==> ok)
    ensures recorded == 0 ==> engine.View() == old(engine.View())
    ensures Midway(loc, engine.View(), guess, if ok then {} else left)
    ensures LeftOver(loc, log, engine.View(), engine.log, if ok then {} else left)
  {
    recorded := 0;
    ok := engine.StoreAnswers();
    if !ok {
      return;
    }
    ghost var rest := left;
    var todo := set q | q in engine.metas && Listed(q);
    forall q | q in left ensures q in todo {
      assert MidwayAt(loc, engine.View(), guess, left, q);
    }
    forall q | q in todo && q !in local ensures q in left {
      assert MidwayAt(loc, engine.View(), guess, left, q);
    }
    while todo != {}
      invariant engine.Valid() && rest <= left && rest <= todo
      invariant forall q :: q in todo && q !in local ==> q in rest
      invariant recorded == |left| - |rest|
      invariant recorded == 0 ==> engine.View() == old(engine.View())
      invariant Midway(loc, engine.View(), guess, rest)
      invariant LeftOver(loc, log, engine.View(), engine.log, rest)
      decreases todo
    {
      var q :| q in todo;
      todo := todo - {q};
      if q !in local {
        var now := Clock();
        RecordMissing(engine, guess, q, now, loc, log, rest);
        recorded, rest := recorded + 1, rest - {q};
      }
    }
  }

  /** Records every path noticed, once, and no other, up to a failed read; once all are recorded the client
      is in step again. */
  method RecordChanges(engine: SyncEngine, guess: TypeGuess) returns (ok: bool, recorded: nat, ghost left: set<Path>)
    requires engine.Valid()
    modifies engine
    ensures engine.Valid() && left <= Noticed(old(engine.View())) && recorded == |Noticed(old(engine.View()))| - |left|
    ensures ok ==> left == {}
    ensures recorded == 0 ==> engine.View() == old(engine.View())
    ensures Midway(old(engine.View()), engine.View(), guess, left)
    ensures forall h, id :: old(NearlyInSync(engine.View(), engine.log, h, id)) ==>
      if left == {} then InSync(engine.View(), engine.log, h, id) else NearlyInSync(engine.View(), engine.log, h, id)
    ensures engine.steady ==> ok
  {
    ghost var loc, log := engine.View(), engine.log;
    var local := Scan(engine.files);
    ok, recorded, left := RecordUpserts(engine, guess, local);
    if ok {
      var more;
      ok, more := RecordDeletes(engine, guess, local, loc, log, left);
      recorded, left := recorded + more, if ok then {} else left;
    }
    forall h, id | NearlyInSync(loc, log, h, id)
      ensures if left == {} then InSync(engine.View(), engine.log, h, id) else NearlyInSync(engine.View(), engine.log, h, id)
    {
      LeftIsNoticed(loc, log, engine.View(), engine.log, guess, left, h, id);
    }
  }

  /** A pass without other changes to the disk; `guess` stands for the file-type table. */
  method ReconcileAndSync(engine: SyncEngine, hubs: seq<Hub>, guess: TypeGuess)
    returns (recorded: nat, push: SyncResult, pull: SyncResult, conflicts: seq<Path>)
    requires engine.Valid() && forall h :: h in hubs ==> h.Valid()
    modifies engine, hubs
    ensures engine.Valid() && forall h :: h in hubs ==> h.Valid()
    ensures recorded <= |Noticed(old(engine.View()))| && (push.Done? ==> recorded == |Noticed(old(engine.View()))|)
    ensures recorded == 0 && old(engine.pending) == [] ==> push == Done(0) || push.StoreFailed?
    ensures push.Done? && (forall h :: h in hubs ==> h.complete) ==> engine.pending == [] && conflicts == []
    ensures pull.Done? ==> push.Done?
    ensures engine.steady && (exists h :: h in hubs && h.calm) ==> pull.Done?
    ensures pull.Done? && Tidy(engine.View()) ==> Noticed(engine.View()) == {}
    ensures pull.Done? && old(PositiveTimes(engine.View())) && Noticed(engine.View()) == {} ==> Tidy(engine.View())
    ensures |hubs| == 1 && conflicts == [] && old(NearlyInSync(engine.View(), engine.log, hubs[0].st, hubs[0].id)) ==>
      if recorded == |Noticed(old(engine.View()))| then engine.MirrorOf(hubs[0])
      else NearlyInSync(engine.View(), engine.log, hubs[0].st, hubs[0].id)
  {
    var ok;
    ghost var left;
    ok, recorded, left := RecordChanges(engine, guess);
    if !ok {
      return recorded, StoreFailed, StoreFailed, [];
    }
    ghost var mid := engine.View();
    ghost var via, cp;
    push, pull, conflicts, via, cp := engine.Sync(hubs);
    if pull.Done? {
      PassThenSync(old(engine.View()), mid, engine.View(), guess);
    }
  }

  /** Two passes with nothing touching the disk in between: once the first finished against complete hubs
      and left tidy metadata, the second records nothing and pushes nothing. */
  method TwoPasses(engine: SyncEngine, hubs: seq<Hub>, guess: TypeGuess)
    returns (pull: SyncResult, ghost tidy: bool, recorded: nat, push: SyncResult)
    requires engine.Valid() && forall h :: h in hubs ==> h.Valid() && h.complete
    modifies engine, hubs
    ensures pull.Done? && tidy ==> recorded == 0 && (push == Done(0) || push.StoreFailed?)
    ensures pull.Done? && old(PositiveTimes(engine.View())) && push.Done? && recorded == 0 ==> tidy
  {
    var first, pushed, skipped;
    first, pushed, pull, skipped := ReconcileAndSync(engine, hubs, guess);
    tidy := Tidy(engine.View());
    var pulled;
    recorded, push, pulled, skipped := ReconcileAndSync(engine, hubs, guess);
  }
}
