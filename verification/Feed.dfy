/** What clients see of a database, and why an acknowledged change shows up in its feed. */
module Feed {
  import opened RevTree
  import opened Mirror
  import opened Resolver
  import opened Push
  import opened Resend
  import HubService

  /** The text of a revision name. */
  type Name = Rev -> RevName

  // ---- a database and its feed ----

  /** `GET /file`; asking for a winner without content fails, here it reads as empty. */
  function FileOf(t: Tree, name: Name): HubFile
    requires AliveLeaves(t) != {}
  {
    var w := Winner(t);
    HubFile(name(w), t[w].mtime, t[w].ctype, if t[w].content.Some? then t[w].content.value else [])
  }

  /** The last moment at which `q` changed. */
  function LastChange(trace: seq<Docs>, q: Path): nat
    requires trace != []
  {
    var n := |trace| - 1;
    if n == 0 then 0
    else if DocIn(trace[n], q) != DocIn(trace[n - 1], q) then n
    else LastChange(trace[..n], q)
  }

  /** The database after everything in `trace`, as its clients see it: its files, and each document's place in
      the feed. */
  function HubOf(trace: seq<Docs>, name: Name): HubState
    requires trace != []
  {
    var docs := trace[|trace| - 1];
    HubState(map q | q in docs && AliveLeaves(docs[q]) != {} :: FileOf(docs[q], name),
             map q | q in docs && docs[q] != map[] :: LastChange(trace, q),
             |trace| - 1)
  }

  ghost predicate Growing(trace: seq<Docs>) {
    forall i, j :: 0 <= i <= j < |trace| ==> Grew(trace[i], trace[j])
  }

  lemma {:induction false} LastChangeBound(trace: seq<Docs>, q: Path)
    requires trace != []
    ensures LastChange(trace, q) <= |trace| - 1
  {
    if |trace| > 1 {
      LastChangeBound(trace[..|trace| - 1], q);
    }
  }

  lemma FeedIsOk(trace: seq<Docs>, name: Name)
    requires trace != []
    ensures HubOk(HubOf(trace, name))
  {
    forall q ensures LastChange(trace, q) <= |trace| - 1 {
      LastChangeBound(trace, q);
    }
    var docs := trace[|trace| - 1];
    forall q | q in docs && AliveLeaves(docs[q]) != {} ensures docs[q] != map[] {
      var r :| r in AliveLeaves(docs[q]);
      assert r in docs[q];
    }
  }

  /** A document that is not what it was at `k` changed after `k`. */
  lemma {:induction false} ChangedSince(trace: seq<Docs>, k: nat, q: Path)
    requires k < |trace| && DocIn(trace[k], q) != DocIn(trace[|trace| - 1], q)
    ensures LastChange(trace, q) > k
  {
    var n := |trace| - 1;
    if DocIn(trace[n], q) == DocIn(trace[n - 1], q) {
      ChangedSince(trace[..n], k, q);
    }
  }

  /** Whoever writes, the hub evolves as its clients rely on. */
  lemma FeedEvolves(trace: seq<Docs>, docs: Docs, name: Name)
    requires trace != [] && Grew(trace[|trace| - 1], docs)
    ensures Evolves(HubOf(trace, name), HubOf(trace + [docs], name))
  {
    var n := |trace|;
    var longer := trace + [docs];
    var h, h' := HubOf(trace, name), HubOf(longer, name);
    FeedIsOk(longer, name);
    assert longer[..n] == trace;
    forall q ensures Untouched(h, h', q) || ChangedAfter(h', q, Some(h.last)) {
      var t, t' := DocIn(trace[n - 1], q), DocIn(docs, q);
      if t != t' {
        assert Extends(t, t');
        if t != map[] {
          var r :| r in t;
          assert r in t';
        }
        assert q in docs && docs[q] != map[];
        assert LastChange(longer, q) == n;
      } else {
        assert LastChange(longer, q) == LastChange(trace, q);
      }
    }
  }

  /** What is served is what readers see of the tree: nothing when no leaf is alive. */
  lemma ServesWhatIsVisible(trace: seq<Docs>, q: Path, name: Name)
    requires trace != []
    ensures var t, files := DocIn(trace[|trace| - 1], q), HubOf(trace, name).files;
            && (q in files <==> AliveLeaves(t) != {})
            && (q in files && Visible(t).Some? ==> Some(files[q].content) == Visible(t))
  {
  }

  /** An accepted upsert onto nothing, or onto the only alive leaf, is served as it was sent, under the revision it
      was answered with. */
  lemma AcceptedIsServed(change: PushChange, trace: seq<Docs>, docs: Docs, d: Rev, a: Rev, name: Name)
    requires trace != [] && WfDocs(trace[|trace| - 1]) && WfDocs(docs)
    requires AcceptsPut(DocIn(trace[|trace| - 1], change.path), change.baseRev)
    requires WrittenDirectly(change, trace[|trace| - 1], docs, d, a)
    requires forall x :: x in AliveLeaves(DocIn(trace[|trace| - 1], change.path)) ==> change.baseRev == Some(x)
    ensures var files := HubOf(trace + [docs], name).files;
            && change.path in files && files[change.path].rev == name(a) && files[change.path].content == change.content
            && files[change.path].mtime == change.mtime
            && files[change.path].ctype == if change.ctype.Some? then change.ctype.value else "application/octet-stream"
  {
    AcceptedSend(change, trace[|trace| - 1], docs, d, a);
    var t := DocIn(docs, change.path);
    assert AliveLeaves(t) == {a};
    assert Winner(t) in AliveLeaves(t);
  }

  // ---- every write grows the database ----

  lemma GrewTransitive(a: Docs, b: Docs, c: Docs)
    requires Grew(a, b) && Grew(b, c)
    ensures Grew(a, c)
  {
    forall q ensures Extends(DocIn(a, q), DocIn(c, q)) {
      assert Extends(DocIn(a, q), DocIn(b, q)) && Extends(DocIn(b, q), DocIn(c, q));
    }
  }

  lemma SettlesGrew(hub: Hub, path: Path, docs: Docs, docs': Docs, res: PushResult)
    requires WfDocs(docs) && Settles(hub, path, docs, docs', res)
    ensures Grew(docs, docs')
  {
    var out :| Resolves(hub.merge, docs, docs', path, out)
               && res == if out == MissingContent then Conflict else Ack(DocIn(docs', path));
    if out.Resolved? {
      ResolvedGrows(hub.merge, docs, docs', path, out);
    }
  }

  lemma BranchesGrew(hub: Hub, change: PushChange, docs: Docs, docs': Docs, res: PushResult, added: bool)
    requires WfDocs(docs) && Branches(hub, change, docs, docs', res, added)
    ensures Grew(docs, docs')
  {
    if BaseKnown(DocIn(docs, change.path), change) {
      BranchedGrows(hub, change, docs);
      SettlesGrew(hub, change.path, Branched(hub, change, docs), docs', res);
      GrewTransitive(docs, Branched(hub, change, docs), docs');
    }
  }

  lemma WritingGrew(change: PushChange, docs: Docs, docs': Docs, d: Rev, a: Rev)
    requires WfDocs(docs) && WrittenDirectly(change, docs, docs', d, a)
    ensures Grew(docs, docs')
  {
    var n := DocNode(PutParent(DocIn(docs, change.path), change.baseRev), change.mtime, TypeOf(change));
    var mid := Added(docs, change.path, d, n);
    AddedGrows(docs, change.path, d, n);
    AddedGrows(mid, change.path, a, AttachedNode(DocIn(mid, change.path), d, change.content));
    GrewTransitive(docs, mid, docs');
  }

  lemma UpsertsGrew(hub: Hub, change: PushChange, docs: Docs, docs': Docs, res: PushResult, added: bool)
    requires WfDocs(docs) && Upserts(hub, change, docs, docs', res, added)
    ensures Grew(docs, docs')
  {
    if AcceptsPut(DocIn(docs, change.path), change.baseRev) {
      var d, a :| WrittenDirectly(change, docs, docs', d, a) && res == Ok(Some(a));
      WritingGrew(change, docs, docs', d, a);
    } else {
      BranchesGrew(hub, change, docs, docs', res, added);
    }
  }

  lemma DeletesGrew(hub: Hub, change: PushChange, docs: Docs, docs': Docs, res: PushResult, added: bool)
    requires WfDocs(docs) && Deletes(hub, change, docs, docs', res, added)
    ensures Grew(docs, docs')
  {
    if change.baseRev.Some? {
      if IsLeaf(DocIn(docs, change.path), change.baseRev.value) {
        var r :| Fresh(docs, change.path, r, Tombstone(change.baseRev.value))
                 && docs' == Added(docs, change.path, r, Tombstone(change.baseRev.value)) && res == Ok(Some(r));
        AddedGrows(docs, change.path, r, Tombstone(change.baseRev.value));
      } else {
        BranchesGrew(hub, change, docs, docs', res, added);
      }
    }
  }

  lemma AppliesGrew(hub: Hub, change: PushChange, docs: Docs, docs': Docs, res: PushResult, added: bool)
    requires WfDocs(docs) && Applies(hub, change, docs, docs', res, added)
    ensures Grew(docs, docs')
  {
    if change.deleted {
      DeletesGrew(hub, change, docs, docs', res, added);
    } else {
      UpsertsGrew(hub, change, docs, docs', res, added);
    }
  }

  // ---- acknowledgements in the feed ----

  /** `since` is a moment at which the change had not been sent yet: its branch was not in the tree. */
  ghost predicate NotSentBy(hub: Hub, change: PushChange, trace: seq<Docs>, since: Option<nat>) {
    since.Some? ==> since.value < |trace| && BranchRev(hub, change) !in DocIn(trace[since.value], change.path)
  }

  /** What an acknowledged change did: it left a trace, or had nothing to delete. */
  ghost predicate Effective(hub: Hub, change: PushChange, docs: Docs, docs': Docs) {
    && Grew(docs, docs')
    && (|| Traced(hub, change, DocIn(docs, change.path), DocIn(docs', change.path))
        || (change.deleted && AliveLeaves(DocIn(docs, change.path)) == {} && docs' == docs))
  }

  lemma AppliedIsEffective(hub: Hub, change: PushChange, docs: Docs, docs': Docs, res: PushResult, added: bool)
    requires WfDocs(docs) && Applies(hub, change, docs, docs', res, added) && res.Ok?
    ensures Effective(hub, change, docs, docs')
  {
    AppliesGrew(hub, change, docs, docs', res, added);
    AcknowledgedIsTraced(hub, change, docs, docs', res, added);
  }

  lemma EachExtendsTheOther(t: Tree, t': Tree)
    requires Extends(t, t') && Extends(t', t)
    ensures t == t'
  {
    assert forall r :: r in t <==> r in t';
  }

  lemma StrictlyMore(t: Tree, t': Tree, t'': Tree)
    requires Extends(t, t') && Extends(t', t'') && t' != t''
    ensures t != t'' && t'' != map[]
  {
    if t == t'' {
      EachExtendsTheOther(t', t'');
    }
    if t' != map[] {
      var r :| r in t';
      assert r in t'';
    }
  }

  /** A document that is not what it was at `since` is in the feed after `since`. */
  lemma ChangedIsListed(trace: seq<Docs>, q: Path, since: Option<nat>, name: Name)
    requires trace != [] && DocIn(trace[|trace| - 1], q) != map[]
    requires since.Some? ==> since.value < |trace| && DocIn(trace[since.value], q) != DocIn(trace[|trace| - 1], q)
    ensures ChangedAfter(HubOf(trace, name), q, since)
  {
    if since.Some? {
      ChangedSince(trace, since.value, q);
    }
  }

  /** The `k`-th step of `trace` was an acknowledged change that had not been sent at `since`. */
  lemma EffectiveIsListed(hub: Hub, change: PushChange, u: HubService.Upload, trace: seq<Docs>, k: nat, since: Option<nat>, name: Name)
    requires u.path == change.path && u.deleted == change.deleted
    requires Growing(trace) && k + 1 < |trace| && Effective(hub, change, trace[k], trace[k + 1])
    requires NotSentBy(hub, change, trace, since) && (since.Some? ==> since.value <= k)
    ensures HubService.Acked(HubOf(trace, name), u, since)
  {
    var n, q := |trace| - 1, change.path;
    var t, t', last := DocIn(trace[k], q), DocIn(trace[k + 1], q), DocIn(trace[n], q);
    assert Grew(trace[k], trace[n]) && Grew(trace[k + 1], trace[n]);
    assert Extends(t, last) && Extends(t', last);
    if since.Some? {
      assert Grew(trace[since.value], trace[k]);
      assert Extends(DocIn(trace[since.value], q), t);
    }
    if Traced(hub, change, t, t') {
      var r :| r in t' && (r in t ==> r == BranchRev(hub, change));
      assert r in last;
      ChangedIsListed(trace, q, since, name);
    } else if t != last {
      StrictlyMore(t, t, last);
      if since.Some? {
        StrictlyMore(DocIn(trace[since.value], q), t, last);
      }
      ChangedIsListed(trace, q, since, name);
    }
  }

  // ---- a whole batch ----

  ghost predicate EffectiveAt(hub: Hub, pushes: seq<PushChange>, trace: seq<Docs>, k: nat)
    requires k < |pushes| && k + 1 < |trace|
  {
    Effective(hub, pushes[k], trace[k], trace[k + 1])
  }

  /** `trace[k + 1]` is the database after the `k`-th change. */
  ghost predicate AllEffective(hub: Hub, pushes: seq<PushChange>, trace: seq<Docs>) {
    && 1 <= |trace| <= |pushes| + 1
    && forall k :: 0 <= k < |trace| - 1 ==> EffectiveAt(hub, pushes, trace, k)
  }

  lemma AnsweredIsEffective(hub: Hub, pushes: seq<PushChange>, results: seq<Option<Rev>>, trace: seq<Docs>, k: nat)
    requires k < |results| && k < |pushes| && k + 1 < |trace| && AnsweredAt(hub, pushes, results, trace, k)
    ensures Effective(hub, pushes[k], trace[k], trace[k + 1])
  {
    var added := Applies(hub, pushes[k], trace[k], trace[k + 1], Ok(results[k]), true);
    AppliedIsEffective(hub, pushes[k], trace[k], trace[k + 1], Ok(results[k]), added);
  }

  lemma BatchIsEffective(hub: Hub, pushes: seq<PushChange>, results: seq<Option<Rev>>, trace: seq<Docs>)
    requires AppliedInTurn(hub, pushes, results, trace)
    ensures AllEffective(hub, pushes, trace) && |trace| == |results| + 1
  {
    forall k | 0 <= k < |results| ensures EffectiveAt(hub, pushes, trace, k) {
      AnsweredIsEffective(hub, pushes, results, trace, k);
    }
  }

  lemma GrowingLonger(trace: seq<Docs>, docs: Docs)
    requires trace != [] && Growing(trace) && Grew(trace[|trace| - 1], docs)
    ensures Growing(trace + [docs])
  {
    var longer := trace + [docs];
    forall i, j | 0 <= i <= j < |longer| ensures Grew(longer[i], longer[j]) {
      if i < |trace| == j {
        GrewTransitive(trace[i], trace[|trace| - 1], docs);
      }
    }
  }

  /** The first `n` changes of the batch after everything in `before`. */
  function After(before: seq<Docs>, trace: seq<Docs>, n: nat): seq<Docs>
    requires n < |trace|
  {
    before + trace[1..n + 1]
  }

  lemma AfterOneMore(before: seq<Docs>, trace: seq<Docs>, n: nat)
    requires n + 1 < |trace| && before != [] && trace[0] == before[|before| - 1]
    ensures After(before, trace, n + 1) == After(before, trace, n) + [trace[n + 1]]
    ensures var all := After(before, trace, n); |all| > 0 && all[|all| - 1] == trace[n]
    ensures forall k :: 0 <= k < |before| ==> After(before, trace, n)[k] == before[k]
  {
    assert trace[1..n + 2] == trace[1..n + 1] + [trace[n + 1]];
  }

  lemma {:induction false} BatchGrows(hub: Hub, pushes: seq<PushChange>, trace: seq<Docs>, before: seq<Docs>, n: nat)
    requires AllEffective(hub, pushes, trace) && before != [] && Growing(before) && trace[0] == before[|before| - 1] && n < |trace|
    ensures Growing(After(before, trace, n))
  {
    if n == 0 {
      assert After(before, trace, 0) == before;
    } else {
      BatchGrows(hub, pushes, trace, before, n - 1);
      AfterOneMore(before, trace, n - 1);
      assert EffectiveAt(hub, pushes, trace, n - 1);
      GrowingLonger(After(before, trace, n - 1), trace[n]);
    }
  }

  /** Everything a batch acknowledges is in the feed after the moment it was queued at, or deleted what was not
      there: what a client relies on when it clears its queue. A change sent before, whose branch is in the tree
      already, must not have been sent when it was queued. */
  lemma BatchIsListed(hub: Hub, pushes: seq<PushChange>, results: seq<Option<Rev>>, trace: seq<Docs>, before: seq<Docs>,
                      i: nat, u: HubService.Upload, since: Option<nat>, name: Name)
    requires AppliedInTurn(hub, pushes, results, trace) && before != [] && Growing(before) && |trace| > 0
    requires trace[0] == before[|before| - 1]
    requires i < |results| && i < |pushes| && NotSentBy(hub, pushes[i], before, since)
    requires u.path == pushes[i].path && u.deleted == pushes[i].deleted
    ensures HubService.Acked(HubOf(before + trace[1..], name), u, since)
  {
    BatchIsEffective(hub, pushes, results, trace);
    BatchGrows(hub, pushes, trace, before, |results|);
    var all, k := before + trace[1..], |before| - 1 + i;
    assert trace[1..|results| + 1] == trace[1..];
    assert EffectiveAt(hub, pushes, trace, i);
    assert all[k] == trace[i] && all[k + 1] == trace[i + 1];
    EffectiveIsListed(hub, pushes[i], u, all, k, since, name);
  }
}
