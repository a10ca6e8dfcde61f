/** `routes/push.rs` with no other writer: applying a client's change to its document. */
module Push {
  import opened RevTree
  import opened Planning
  import opened BranchId
  import opened CouchDb
  import opened Resolver

  /** `content` is the decoded body of an upsert. */
  datatype PushChange = PushChange(path: Path, deleted: bool, baseRev: Option<Rev>, mtime: I64,
                                   ctype: Option<string>, content: Bytes)

  /** `Ok(None)` acknowledges with an empty revision; `Conflict` aborts the request. */
  datatype PushResult = Ok(rev: Option<Rev>) | Conflict

  /** The merge library and the text of a revision name. */
  datatype Hub = Hub(merge: Merge, text: Rev -> Bytes)

  function TypeOf(change: PushChange): string {
    if change.ctype.Some? then change.ctype.value else OCTET_STREAM
  }

  // ---- the branch ----

  function SeedOf(hub: Hub, change: PushChange): Bytes {
    Seed(if change.baseRev.Some? then Some(hub.text(change.baseRev.value)) else None, change.deleted, change.mtime,
         if change.deleted then [] else change.content)
  }

  /** A deterministic name, so a retried push branches to the same revision. */
  function BranchRev(hub: Hub, change: PushChange): Rev {
    ChildRev(change.baseRev, Fnv(SeedOf(hub, change)))
  }

  function BranchNode(change: PushChange): Node {
    if change.deleted then Node(change.baseRev, true, change.mtime, OCTET_STREAM, None)
    else Node(change.baseRev, false, change.mtime, TypeOf(change), Some(change.content))
  }

  /** The database once the branch is in the tree. */
  function Branched(hub: Hub, change: PushChange, docs: Docs): Docs {
    if BranchRev(hub, change) in DocIn(docs, change.path) then docs
    else Added(docs, change.path, BranchRev(hub, change), BranchNode(change))
  }

  ghost predicate BaseKnown(t: Tree, change: PushChange) {
    change.baseRev.Some? ==> change.baseRev.value in t
  }

  lemma BranchedGrows(hub: Hub, change: PushChange, docs: Docs)
    requires WfDocs(docs) && BaseKnown(DocIn(docs, change.path), change)
    ensures WfDocs(Branched(hub, change, docs)) && Grew(docs, Branched(hub, change, docs))
    ensures BranchRev(hub, change) in DocIn(Branched(hub, change, docs), change.path)
    ensures Grounded(DocIn(docs, change.path), BranchRev(hub, change), change.baseRev)
  {
    if BranchRev(hub, change) !in DocIn(docs, change.path) {
      AddedGrows(docs, change.path, BranchRev(hub, change), BranchNode(change));
    }
  }

  // ---- effects ----

  /** The acknowledgement read back after resolving. */
  function Ack(t: Tree): PushResult {
    if AliveLeaves(t) == {} then Conflict else Ok(Some(Winner(t)))
  }

  /** The effect of resolving in-process and reading the winner back. */
  ghost predicate Settles(hub: Hub, path: Path, docs: Docs, docs': Docs, res: PushResult)
    requires WfDocs(docs)
  {
    exists out :: Resolves(hub.merge, docs, docs', path, out)
               && res == if out == MissingContent then Conflict else Ack(DocIn(docs', path))
  }

  /** The effect of an undisturbed `branch_and_resolve`; `added` says whether it grew a branch. */
  ghost predicate Branches(hub: Hub, change: PushChange, docs: Docs, docs': Docs, res: PushResult, added: bool)
    requires WfDocs(docs)
  {
    var t := DocIn(docs, change.path);
    if !BaseKnown(t, change) then docs' == docs && res == Conflict && !added
    else
      var mid := Branched(hub, change, docs);
      && added == (BranchRev(hub, change) !in t) && WfDocs(mid)
      && Settles(hub, change.path, mid, docs', res)
  }

  /** `put_doc` on the base and `put_attachment` on top of it; `a` carries the content. */
  ghost predicate WrittenDirectly(change: PushChange, docs: Docs, docs': Docs, d: Rev, a: Rev)
    requires WfDocs(docs)
  {
    var n := DocNode(PutParent(DocIn(docs, change.path), change.baseRev), change.mtime, TypeOf(change));
    var mid := Added(docs, change.path, d, n);
    && Fresh(docs, change.path, d, n)
    && Fresh(mid, change.path, a, AttachedNode(DocIn(mid, change.path), d, change.content))
    && docs' == Added(mid, change.path, a, AttachedNode(DocIn(mid, change.path), d, change.content))
  }

  ghost predicate Upserts(hub: Hub, change: PushChange, docs: Docs, docs': Docs, res: PushResult, added: bool)
    requires WfDocs(docs)
  {
    if AcceptsPut(DocIn(docs, change.path), change.baseRev) then
      !added && exists d, a :: WrittenDirectly(change, docs, docs', d, a) && res == Ok(Some(a))
    else Branches(hub, change, docs, docs', res, added)
  }

  ghost predicate Deletes(hub: Hub, change: PushChange, docs: Docs, docs': Docs, res: PushResult, added: bool)
    requires WfDocs(docs)
  {
    var t := DocIn(docs, change.path);
    if change.baseRev.None? then
      docs' == docs && !added && res == if AliveLeaves(t) == {} then Ok(None) else Conflict
    else if IsLeaf(t, change.baseRev.value) then
      !added && exists r :: Fresh(docs, change.path, r, Tombstone(change.baseRev.value))
                         && docs' == Added(docs, change.path, r, Tombstone(change.baseRev.value)) && res == Ok(Some(r))
    else Branches(hub, change, docs, docs', res, added)
  }

  ghost predicate Applies(hub: Hub, change: PushChange, docs: Docs, docs': Docs, res: PushResult, added: bool)
    requires WfDocs(docs)
  {
    if change.deleted then Deletes(hub, change, docs, docs', res, added)
    else Upserts(hub, change, docs, docs', res, added)
  }

  /** `res` answers `change`. */
  ghost predicate Answers(hub: Hub, change: PushChange, docs: Docs, docs': Docs, res: PushResult)
    requires WfDocs(docs)
  {
    Applies(hub, change, docs, docs', res, true) || Applies(hub, change, docs, docs', res, false)
  }

  // ---- the code ----

  method ResolveAndRead(couch: Couch, hub: Hub, path: Path) returns (res: PushResult)
    requires couch.Valid()
    modifies couch
    ensures couch.Valid() && Grew(old(couch.docs), couch.docs)
    ensures Settles(hub, path, old(couch.docs), couch.docs, res)
  {
    var out := Resolve(couch, hub.merge, path);
    if out.MissingContent? || out.MaxRetries? {
      return Conflict;
    }
    var winner := couch.GetDoc(path);
    if winner.None? {
      return Conflict;
    }
    return Ok(Some(winner.value.0));
  }

  method BranchAndResolve(couch: Couch, hub: Hub, change: PushChange) returns (res: PushResult, added: bool)
    requires couch.Valid()
    modifies couch
    ensures couch.Valid() && Grew(old(couch.docs), couch.docs)
    ensures Branches(hub, change, old(couch.docs), couch.docs, res, added)
  {
    added := false;
    if change.baseRev.Some? {
      var found := couch.GetDocAtRev(change.path, change.baseRev.value);
      if found.None? {
        return Conflict, false;
      }
    }
    BranchedGrows(hub, change, couch.docs);
    var seed := SeedOf(hub, change);
    var hash := RevHash(seed);
    var rev := ChildRev(change.baseRev, hash);
    added := rev !in couch.Doc(change.path);
    couch.PutRevision(change.path, rev, BranchNode(change));
    assert couch.docs == Branched(hub, change, old(couch.docs));
    res := ResolveAndRead(couch, hub, change.path);
  }

  method ApplyUpsert(couch: Couch, hub: Hub, change: PushChange) returns (res: PushResult, added: bool)
    requires couch.Valid()
    modifies couch
    ensures couch.Valid() && Grew(old(couch.docs), couch.docs)
    ensures Upserts(hub, change, old(couch.docs), couch.docs, res, added)
  {
    var doc := couch.PutDoc(change.path, change.baseRev, change.mtime, TypeOf(change));
    if doc.None? {
      res, added := BranchAndResolve(couch, hub, change);
      return;
    }
    AliveAfterAdd(old(couch.Doc(change.path)), doc.value, couch.Doc(change.path)[doc.value]);
    var att := couch.PutAttachment(change.path, doc.value, change.content);
    if att.None? {
      return Conflict, false;
    }
    assert WrittenDirectly(change, old(couch.docs), couch.docs, doc.value, att.value);
    return Ok(att), false;
  }

  method ApplyDelete(couch: Couch, hub: Hub, change: PushChange) returns (res: PushResult, added: bool)
    requires couch.Valid()
    modifies couch
    ensures couch.Valid() && Grew(old(couch.docs), couch.docs)
    ensures Deletes(hub, change, old(couch.docs), couch.docs, res, added)
  {
    if change.baseRev.None? {
      var found := couch.GetDoc(change.path);
      return if found.None? then Ok(None) else Conflict, false;
    }
    var gone := couch.DeleteDoc(change.path, change.baseRev.value);
    if gone.Some? {
      return Ok(gone), false;
    }
    res, added := BranchAndResolve(couch, hub, change);
  }

  method Apply(couch: Couch, hub: Hub, change: PushChange) returns (res: PushResult, added: bool)
    requires couch.Valid()
    modifies couch
    ensures couch.Valid() && Grew(old(couch.docs), couch.docs)
    ensures Applies(hub, change, old(couch.docs), couch.docs, res, added)
  {
    if change.deleted {
      res, added := ApplyDelete(couch, hub, change);
    } else {
      res, added := ApplyUpsert(couch, hub, change);
    }
  }

  ghost predicate AnsweredAt(hub: Hub, pushes: seq<PushChange>, results: seq<Option<Rev>>, trace: seq<Docs>, k: nat)
    requires k < |results| && k < |pushes| && k + 1 < |trace|
  {
    WfDocs(trace[k]) && Answers(hub, pushes[k], trace[k], trace[k + 1], Ok(results[k]))
  }

  /** `trace` runs through the first `|results|` changes, each acknowledged with its own revision. */
  ghost predicate AppliedInTurn(hub: Hub, pushes: seq<PushChange>, results: seq<Option<Rev>>, trace: seq<Docs>) {
    && |trace| == |results| + 1 && |results| <= |pushes|
    && forall k :: 0 <= k < |results| ==> AnsweredAt(hub, pushes, results, trace, k)
  }

  lemma SameAnswer(hub: Hub, pushes: seq<PushChange>, results: seq<Option<Rev>>, trace: seq<Docs>, rev: Option<Rev>, docs: Docs, k: nat)
    requires |trace| == |results| + 1 && k < |results| < |pushes| && AnsweredAt(hub, pushes, results, trace, k)
    ensures AnsweredAt(hub, pushes, results + [rev], trace + [docs], k)
  {
    assert (results + [rev])[k] == results[k];
    assert (trace + [docs])[k] == trace[k] && (trace + [docs])[k + 1] == trace[k + 1];
  }

  lemma NewAnswer(hub: Hub, pushes: seq<PushChange>, results: seq<Option<Rev>>, trace: seq<Docs>, rev: Option<Rev>, docs: Docs)
    requires |trace| == |results| + 1 && |results| < |pushes| && WfDocs(trace[|results|])
    requires Answers(hub, pushes[|results|], trace[|results|], docs, Ok(rev))
    ensures AnsweredAt(hub, pushes, results + [rev], trace + [docs], |results|)
  {
    var n := |results|;
    assert (results + [rev])[n] == rev;
    assert (trace + [docs])[n] == trace[n] && (trace + [docs])[n + 1] == docs;
  }

  lemma OneMoreAnswer(hub: Hub, pushes: seq<PushChange>, results: seq<Option<Rev>>, trace: seq<Docs>, rev: Option<Rev>, docs: Docs)
    requires AppliedInTurn(hub, pushes, results, trace) && |results| < |pushes|
    requires AnsweredAt(hub, pushes, results + [rev], trace + [docs], |results|)
    ensures AppliedInTurn(hub, pushes, results + [rev], trace + [docs])
  {
    forall k | 0 <= k < |results| + 1 ensures AnsweredAt(hub, pushes, results + [rev], trace + [docs], k) {
      if k < |results| {
        SameAnswer(hub, pushes, results, trace, rev, docs, k);
      }
    }
  }

  /** `post_changes`: changes are applied in order; a full answer has one result per change, and the
      first change that cannot be applied aborts the request, keeping the effect of those before it. */
  method PostChanges(couch: Couch, hub: Hub, pushes: seq<PushChange>)
    returns (results: seq<Option<Rev>>, ok: bool, ghost trace: seq<Docs>)
    requires couch.Valid()
    modifies couch
    ensures couch.Valid() && AppliedInTurn(hub, pushes, results, trace) && trace[0] == old(couch.docs)
    ensures ok ==> |results| == |pushes| && couch.docs == trace[|results|]
    ensures !ok ==> |results| < |pushes| && WfDocs(trace[|results|])
                    && Answers(hub, pushes[|results|], trace[|results|], couch.docs, Conflict)
  {
    results, trace := [], [couch.docs];
    for i := 0 to |pushes|
      invariant couch.Valid() && |results| == i && |trace| == i + 1
      invariant AppliedInTurn(hub, pushes, results, trace)
      invariant trace[0] == old(couch.docs) && trace[i] == couch.docs
    {
      var res, added := Apply(couch, hub, pushes[i]);
      assert Answers(hub, pushes[i], trace[i], couch.docs, res);
      if res.Conflict? {
        return results, false, trace;
      }
      NewAnswer(hub, pushes, results, trace, res.rev, couch.docs);
      OneMoreAnswer(hub, pushes, results, trace, res.rev, couch.docs);
      results, trace := results + [res.rev], trace + [couch.docs];
    }
    return results, true, trace;
  }
}
