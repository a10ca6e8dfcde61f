/** What a client can count on when it pushes again, and who wins between an edit and a delete. */
module Resend {
  import opened RevTree
  import opened Planning
  import opened Resolver
  import opened Push

  /** What `get_file` shows. */
  ghost function Visible(t: Tree): Option<Bytes> {
    if AliveLeaves(t) == {} then None else t[Winner(t)].content
  }

  /** Merging two equal sides gives that side, or fails. */
  ghost predicate KeepsEqualSides(merge: Merge) {
    forall b, x :: merge(b, x, x) == Some(x) || merge(b, x, x) == None
  }

  // ---- one send ----

  /** Sending `change` to `t` again does nothing. */
  ghost predicate Idle(hub: Hub, change: PushChange, t: Tree) {
    && !AcceptsPut(t, change.baseRev)
    && (BaseKnown(t, change) ==>
          BranchRev(hub, change) in t && (AtMostOneAlive(t) || !AllReadable(t)))
  }

  lemma IdleStays(hub: Hub, change: PushChange, docs: Docs, docs': Docs, res: PushResult, added: bool)
    requires WfDocs(docs) && Idle(hub, change, DocIn(docs, change.path))
    requires Upserts(hub, change, docs, docs', res, added)
    ensures docs' == docs && !added
  {
  }

  /** A base that was refused stays refused. */
  lemma RefusedStays(t: Tree, t': Tree, base: Option<Rev>)
    requires Extends(t, t') && !AcceptsPut(t, base) && (base.Some? ==> base.value in t)
    requires base.None? ==> AliveLeaves(t') != {}
    ensures !AcceptsPut(t', base)
  {
    if base.Some? {
      var c :| c in t && t[c].parent == base;
      assert c in t' && t'[c] == t[c];
    }
  }

  lemma SettlingEnds(hub: Hub, path: Path, docs: Docs, docs': Docs, res: PushResult)
    requires WfDocs(docs) && Settles(hub, path, docs, docs', res)
    ensures Extends(DocIn(docs, path), DocIn(docs', path))
    ensures AtMostOneAlive(DocIn(docs', path)) || !AllReadable(DocIn(docs', path))
    ensures AliveLeaves(DocIn(docs, path)) != {} ==> AliveLeaves(DocIn(docs', path)) != {}
  {
    var out :| Resolves(hub.merge, docs, docs', path, out)
               && res == if out == MissingContent then Conflict else Ack(DocIn(docs', path));
    if out.Resolved? {
      ResolvedSettles(hub.merge, docs, docs', path, out);
      ResolvedGrows(hub.merge, docs, docs', path, out);
    }
  }

  lemma ResolvedGrows(merge: Merge, docs: Docs, docs': Docs, path: Path, out: Resolution)
    requires WfDocs(docs) && Resolves(merge, docs, docs', path, out) && out.Resolved?
    ensures Grew(docs, docs')
  {
    var plan: Plan :| plan.kind == out.kind && Executed(merge, docs, docs', path, plan, out.copies);
  }

  lemma BranchedAlive(hub: Hub, change: PushChange, docs: Docs)
    requires WfDocs(docs) && BaseKnown(DocIn(docs, change.path), change)
    requires !AcceptsPut(DocIn(docs, change.path), change.baseRev) && !change.deleted
    requires BranchRev(hub, change) !in DocIn(docs, change.path)
    ensures AliveLeaves(DocIn(Branched(hub, change, docs), change.path))
         == AliveLeaves(DocIn(docs, change.path)) + {BranchRev(hub, change)}
  {
    BranchedGrows(hub, change, docs);
    AliveAfterAdd(DocIn(docs, change.path), BranchRev(hub, change), BranchNode(change));
  }

  /** After one stale send, every further send does nothing. */
  lemma StaleSendSettles(hub: Hub, change: PushChange, docs: Docs, docs': Docs, res: PushResult, added: bool)
    requires WfDocs(docs) && !AcceptsPut(DocIn(docs, change.path), change.baseRev) && !change.deleted
    requires Upserts(hub, change, docs, docs', res, added)
    ensures Idle(hub, change, DocIn(docs', change.path))
  {
    var t := DocIn(docs, change.path);
    if BaseKnown(t, change) {
      var mid := Branched(hub, change, docs);
      BranchedGrows(hub, change, docs);
      SettlingEnds(hub, change.path, mid, docs', res);
      assert Extends(t, DocIn(mid, change.path));
      if change.baseRev.None? && BranchRev(hub, change) !in t {
        BranchedAlive(hub, change, docs);
      }
      RefusedStays(t, DocIn(docs', change.path), change.baseRev);
    }
  }

  /** An accepted send puts one leaf with the client's content on the tree, and uses up its base. */
  lemma AcceptedSend(change: PushChange, docs: Docs, docs': Docs, d: Rev, a: Rev)
    requires WfDocs(docs) && WfDocs(docs') && AcceptsPut(DocIn(docs, change.path), change.baseRev)
    requires WrittenDirectly(change, docs, docs', d, a)
    ensures var t, t' := DocIn(docs, change.path), DocIn(docs', change.path);
            && AliveLeaves(t') == (set x | x in AliveLeaves(t) && change.baseRev != Some(x)) + {a}
            && Holds(t', a, Copy(change.content, change.mtime, if change.ctype.Some? then change.ctype.value else "application/octet-stream"))
            && !AcceptsPut(t', change.baseRev) && BaseKnown(t', change)
            && (change.baseRev.Some? ==> a.gen == change.baseRev.value.gen + 2)
            && (change.baseRev.None? ==> a.gen >= 2)
  {
    var t, t' := DocIn(docs, change.path), DocIn(docs', change.path);
    var n := DocNode(PutParent(t, change.baseRev), change.mtime, TypeOf(change));
    DocThenAttachment(docs, change.path, d, n, a, change.content);
    if change.baseRev.None? {
      assert AliveLeaves(t) == {};
      assert a in AliveLeaves(t');
    } else {
      assert t'[d].parent == change.baseRev;
    }
  }

  // ---- plans whose outcome is already visible ----

  lemma {:induction false} FilterSubset(p: Leaf -> bool, s: seq<Leaf>)
    ensures forall i :: 0 <= i < |Filter(p, s)| ==> Filter(p, s)[i] in s
  {
    forall i | 0 <= i < |Filter(p, s)| ensures Filter(p, s)[i] in s {
      InFilter(p, s, Filter(p, s)[i]);
    }
  }

  /** If all leaves have the same content, so has the result. */
  lemma EqualLeavesKeep(leaves: seq<Leaf>, lookup: Lookup, merge: Merge, x: Bytes)
    requires |leaves| > 0 && DistinctRevs(leaves) && KeepsEqualSides(merge)
    requires forall l :: l in leaves ==> !l.deleted && l.content == x
    ensures PlanResolution(leaves, leaves[0].rev, lookup, merge).Some?
    ensures PlanResolution(leaves, leaves[0].rev, lookup, merge).value.finalContent == Some(x)
  {
    WinnerOnce(leaves, leaves[0]);
    FilterSubset(NotDeleted, leaves);
    FilterSubset(IsNotRev(leaves[0].rev), leaves);
  }

  lemma EqualPlanKeeps(merge: Merge, t: Tree, plan: Plan, x: Bytes)
    requires Wf(t) && Planned(merge, t, plan) && KeepsEqualSides(merge)
    requires forall r :: r in AliveLeaves(t) ==> t[r].content == Some(x)
    ensures plan.finalContent == Some(x)
  {
    var conflicts, leaves: seq<Leaf> :| Lists(t, conflicts) && ReadAs(t, [Winner(t)] + conflicts, leaves)
                             && PlanResolution(leaves, Winner(t), LookupIn(t), merge) == Some(plan);
    ListedLeaves(t, conflicts, leaves);
    forall l: Leaf | l in leaves ensures l.content == x {
      var i :| 0 <= i < |leaves| && leaves[i] == l;
      assert ReadLeaf(t, ([Winner(t)] + conflicts)[i]) == Some(l);
    }
    EqualLeavesKeep(leaves, LookupIn(t), merge, x);
  }

  /** With three leaves or more the winner's content is kept. */
  lemma ManyLeavesKeepWinner(leaves: seq<Leaf>, lookup: Lookup, merge: Merge)
    requires |leaves| >= 3 && DistinctRevs(leaves) && forall l :: l in leaves ==> !l.deleted
    ensures PlanResolution(leaves, leaves[0].rev, lookup, merge).Some?
    ensures PlanResolution(leaves, leaves[0].rev, lookup, merge).value.finalContent == Some(leaves[0].content)
  {
    WinnerOnce(leaves, leaves[0]);
    FilterAll(NotDeleted, leaves);
  }

  lemma ThreeListed(leaves: seq<Leaf>, a: Leaf, b: Leaf, c: Leaf)
    requires a in leaves && b in leaves && c in leaves && a != b && b != c && a != c
    ensures |leaves| >= 3
  {
    var i :| 0 <= i < |leaves| && leaves[i] == a;
    var j :| 0 <= j < |leaves| && leaves[j] == b;
    var k :| 0 <= k < |leaves| && leaves[k] == c;
  }

  lemma ManyPlanKeepsWinner(merge: Merge, t: Tree, plan: Plan, r1: Rev, r2: Rev, r3: Rev)
    requires Wf(t) && Planned(merge, t, plan)
    requires {r1, r2, r3} <= AliveLeaves(t) && r1 != r2 && r2 != r3 && r1 != r3
    ensures plan.finalContent == t[Winner(t)].content
  {
    var conflicts, leaves: seq<Leaf> :| Lists(t, conflicts) && ReadAs(t, [Winner(t)] + conflicts, leaves)
                             && PlanResolution(leaves, Winner(t), LookupIn(t), merge) == Some(plan);
    ListedLeaves(t, conflicts, leaves);
    assert r1 in AliveLeaves(t) && r2 in AliveLeaves(t) && r3 in AliveLeaves(t);
    var l1: Leaf :| l1 in leaves && l1.rev == r1;
    var l2: Leaf :| l2 in leaves && l2.rev == r2;
    var l3: Leaf :| l3 in leaves && l3.rev == r3;
    ThreeListed(leaves, l1, l2, l3);
    ManyLeavesKeepWinner(leaves, LookupIn(t), merge);
    assert ReadLeaf(t, Winner(t)) == Some(leaves[0]) by {
      assert ([Winner(t)] + conflicts)[0] == Winner(t);
    }
  }

  // ---- the second send ----

  /** A lower leaf does not change the winner. */
  lemma LowerLeafLoses(t: Tree, t': Tree, a: Rev, b: Rev)
    requires a in AliveLeaves(t) && AliveLeaves(t') == AliveLeaves(t) + {b} && b.gen < a.gen && Extends(t, t')
    ensures Winner(t') == Winner(t) && Visible(t') == Visible(t)
  {
    var w, w' := Winner(t), Winner(t');
    assert Below(a, w) && Below(a, w') && Below(w, w');
    assert w' in AliveLeaves(t);
    assert Below(w', w);
  }

  /** `a` and the lower `b` are alive and both hold `x`. */
  ghost predicate HeldTwice(t: Tree, a: Rev, b: Rev, x: Bytes) {
    && a in AliveLeaves(t) && b in AliveLeaves(t) && b.gen < a.gen
    && t[a].content == Some(x) && t[b].content == Some(x)
  }

  lemma HeldTwiceOnly(t: Tree, a: Rev, b: Rev, x: Bytes)
    requires HeldTwice(t, a, b, x) && forall r :: r in AliveLeaves(t) ==> r == a || r == b
    ensures Visible(t) == Some(x) && forall r :: r in AliveLeaves(t) ==> t[r].content == Some(x)
  {
    assert Winner(t) in AliveLeaves(t);
  }

  lemma ThirdAlive(t: Tree, a: Rev, b: Rev) returns (other: Option<Rev>)
    requires a in AliveLeaves(t) && b in AliveLeaves(t) && a != b
    ensures other.Some? ==> {a, b, other.value} <= AliveLeaves(t) && other.value != a && other.value != b
    ensures other.None? ==> forall r :: r in AliveLeaves(t) ==> r == a || r == b
  {
    if c :| c in AliveLeaves(t) && c != a && c != b {
      other := Some(c);
    } else {
      other := None;
    }
  }

  lemma PlanKeepsVisible(merge: Merge, t: Tree, plan: Plan, a: Rev, b: Rev, x: Bytes)
    requires Wf(t) && KeepsEqualSides(merge) && HeldTwice(t, a, b, x) && Planned(merge, t, plan)
    ensures plan.finalContent == Visible(t)
  {
    var other := ThirdAlive(t, a, b);
    match other
    case Some(c) => ManyPlanKeepsWinner(merge, t, plan, a, b, c);
    case None =>
      HeldTwiceOnly(t, a, b, x);
      EqualPlanKeeps(merge, t, plan, x);
  }

  lemma SettledIsVisible(merge: Merge, t: Tree, t': Tree, plan: Plan, y: Rev)
    requires Wf(t) && SettledBy(merge, t, t', plan, y)
    ensures Visible(t') == plan.finalContent
  {
    assert y in AliveLeaves(t');
  }

  /** Resolving the branch of a resent upsert against the leaf its first send left keeps what is visible. */
  lemma ResolvingTheResend(hub: Hub, path: Path, mid: Docs, docs': Docs, out: Resolution, a: Rev, b: Rev, x: Bytes)
    requires WfDocs(mid) && Resolves(hub.merge, mid, docs', path, out) && KeepsEqualSides(hub.merge)
    requires HeldTwice(DocIn(mid, path), a, b, x)
    ensures Visible(DocIn(docs', path)) == Visible(DocIn(mid, path))
  {
    if out.Resolved? {
      ResolvedSettles(hub.merge, mid, docs', path, out);
      var plan, y :| SettledBy(hub.merge, DocIn(mid, path), DocIn(docs', path), plan, y);
      PlanKeepsVisible(hub.merge, DocIn(mid, path), plan, a, b, x);
      SettledIsVisible(hub.merge, DocIn(mid, path), DocIn(docs', path), plan, y);
    }
  }

  lemma SecondSendKeepsVisible(hub: Hub, change: PushChange, docs: Docs, docs': Docs, res: PushResult, added: bool, a: Rev)
    requires WfDocs(docs) && !change.deleted && KeepsEqualSides(hub.merge)
    requires Upserts(hub, change, docs, docs', res, added)
    requires var t := DocIn(docs, change.path);
             && !AcceptsPut(t, change.baseRev) && BaseKnown(t, change)
             && a in AliveLeaves(t) && t[a].content == Some(change.content)
             && BranchRev(hub, change).gen < a.gen
             && (BranchRev(hub, change) !in t || AtMostOneAlive(t))
    ensures Visible(DocIn(docs', change.path)) == Visible(DocIn(docs, change.path))
  {
    var t, b := DocIn(docs, change.path), BranchRev(hub, change);
    if b in t {
      IdleStays(hub, change, docs, docs', res, added);
    } else {
      var mid := Branched(hub, change, docs);
      BranchedGrows(hub, change, docs);
      BranchedAlive(hub, change, docs);
      assert Extends(t, DocIn(mid, change.path));
      LowerLeafLoses(t, DocIn(mid, change.path), a, b);
      var out :| Resolves(hub.merge, mid, docs', change.path, out)
                 && res == if out == MissingContent then Conflict else Ack(DocIn(docs', change.path));
      ResolvingTheResend(hub, change.path, mid, docs', out, a, b, change.content);
    }
  }

  // ---- any number of sends ----

  ghost predicate Sent(hub: Hub, change: PushChange, ds: seq<Docs>, res: seq<PushResult>, added: seq<bool>, i: nat)
    requires |ds| == |res| + 1 == |added| + 1 && i < |res|
  {
    WfDocs(ds[i]) && WfDocs(ds[i + 1]) && Upserts(hub, change, ds[i], ds[i + 1], res[i], added[i])
  }

  /** `change` sent again and again, nobody else writing: `res[i]` answers the `i`-th send. */
  ghost predicate Resent(hub: Hub, change: PushChange, ds: seq<Docs>, res: seq<PushResult>, added: seq<bool>) {
    && |ds| == |res| + 1 == |added| + 1
    && forall i: nat :: i < |res| ==> Sent(hub, change, ds, res, added, i)
  }

  /** Nothing but this change's own branch carries its branch id: an old one hangs off the same base, and
      a new one comes from branching. (CouchDB's own ids have 32 hexadecimal digits, these have 16.) */
  ghost predicate IdReserved(hub: Hub, change: PushChange, ds: seq<Docs>, added: seq<bool>)
    requires |ds| == |added| + 1
  {
    var b := BranchRev(hub, change);
    && (b in DocIn(ds[0], change.path) ==> DocIn(ds[0], change.path)[b].parent == change.baseRev)
    && forall i :: 0 <= i < |added| ==>
         b in DocIn(ds[i + 1], change.path) && b !in DocIn(ds[i], change.path) ==> added[i]
  }

  ghost predicate IdleAt(hub: Hub, change: PushChange, docs: Docs) {
    Idle(hub, change, DocIn(docs, change.path))
  }

  ghost predicate AcceptsAt(change: PushChange, docs: Docs) {
    AcceptsPut(DocIn(docs, change.path), change.baseRev)
  }

  lemma SendSettlesOrWrites(hub: Hub, change: PushChange, ds: seq<Docs>, res: seq<PushResult>, added: seq<bool>, i: nat)
    requires Resent(hub, change, ds, res, added) && !change.deleted && i < |res|
    ensures AcceptsAt(change, ds[i]) ==> !AcceptsAt(change, ds[i + 1]) && !added[i]
    ensures !AcceptsAt(change, ds[i]) ==> IdleAt(hub, change, ds[i + 1])
  {
    assert Sent(hub, change, ds, res, added, i);
    if AcceptsAt(change, ds[i]) {
      var d, a :| WrittenDirectly(change, ds[i], ds[i + 1], d, a) && res[i] == Ok(Some(a));
      AcceptedSend(change, ds[i], ds[i + 1], d, a);
    } else {
      StaleSendSettles(hub, change, ds[i], ds[i + 1], res[i], added[i]);
    }
  }

  lemma IdleSend(hub: Hub, change: PushChange, ds: seq<Docs>, res: seq<PushResult>, added: seq<bool>, i: nat)
    requires Resent(hub, change, ds, res, added) && i < |res| && IdleAt(hub, change, ds[i])
    ensures ds[i + 1] == ds[i] && !added[i]
  {
    assert Sent(hub, change, ds, res, added, i);
    IdleStays(hub, change, ds[i], ds[i + 1], res[i], added[i]);
  }

  /** From the third send on the database is unchanged. */
  lemma {:induction false} ThirdSendChangesNothing(hub: Hub, change: PushChange, ds: seq<Docs>, res: seq<PushResult>, added: seq<bool>, i: nat)
    requires Resent(hub, change, ds, res, added) && !change.deleted && 2 <= i < |res|
    ensures ds[i + 1] == ds[i] && !added[i] && IdleAt(hub, change, ds[i])
  {
    if i == 2 {
      SendSettlesOrWrites(hub, change, ds, res, added, 0);
      SendSettlesOrWrites(hub, change, ds, res, added, 1);
      if IdleAt(hub, change, ds[1]) {
        IdleSend(hub, change, ds, res, added, 1);
      }
    } else {
      ThirdSendChangesNothing(hub, change, ds, res, added, i - 1);
    }
    IdleSend(hub, change, ds, res, added, i);
  }

  /** At most one branch is ever added. */
  lemma OneBranchAtMost(hub: Hub, change: PushChange, ds: seq<Docs>, res: seq<PushResult>, added: seq<bool>, i: nat, j: nat)
    requires Resent(hub, change, ds, res, added) && !change.deleted && i < j < |res|
    ensures !(added[i] && added[j])
  {
    if j >= 2 {
      ThirdSendChangesNothing(hub, change, ds, res, added, j);
    } else {
      SendSettlesOrWrites(hub, change, ds, res, added, 0);
      if IdleAt(hub, change, ds[1]) {
        IdleSend(hub, change, ds, res, added, 1);
      }
    }
  }

  lemma FirstTwoSends(hub: Hub, change: PushChange, ds: seq<Docs>, res: seq<PushResult>, added: seq<bool>)
    requires Resent(hub, change, ds, res, added) && IdReserved(hub, change, ds, added) && |res| >= 2
    requires !change.deleted && KeepsEqualSides(hub.merge) && AtMostOneAlive(DocIn(ds[0], change.path))
    ensures Visible(DocIn(ds[2], change.path)) == Visible(DocIn(ds[1], change.path))
  {
    var t0, t1 := DocIn(ds[0], change.path), DocIn(ds[1], change.path);
    assert Sent(hub, change, ds, res, added, 0);
    assert Sent(hub, change, ds, res, added, 1);
    if AcceptsPut(t0, change.baseRev) {
      var d, a :| WrittenDirectly(change, ds[0], ds[1], d, a) && res[0] == Ok(Some(a));
      AcceptedSend(change, ds[0], ds[1], d, a);
      assert a in AliveLeaves(t1);
      SecondSendKeepsVisible(hub, change, ds[1], ds[2], res[1], added[1], a);
    } else {
      StaleSendSettles(hub, change, ds[0], ds[1], res[0], added[0]);
      IdleStays(hub, change, ds[1], ds[2], res[1], added[1]);
    }
  }

  /** Once a send has been acknowledged, no later send of the same upsert changes what is visible. */
  lemma {:induction false} ResendKeepsVisible(hub: Hub, change: PushChange, ds: seq<Docs>, res: seq<PushResult>, added: seq<bool>, i: nat, j: nat)
    requires Resent(hub, change, ds, res, added) && IdReserved(hub, change, ds, added)
    requires !change.deleted && KeepsEqualSides(hub.merge) && AtMostOneAlive(DocIn(ds[0], change.path))
    requires i < |res| && res[i] != Conflict && i + 1 <= j < |ds|
    ensures Visible(DocIn(ds[j], change.path)) == Visible(DocIn(ds[i + 1], change.path))
    decreases j
  {
    if j > i + 1 {
      ResendKeepsVisible(hub, change, ds, res, added, i, j - 1);
      if j == 2 {
        FirstTwoSends(hub, change, ds, res, added);
      } else {
        ThirdSendChangesNothing(hub, change, ds, res, added, j - 1);
      }
    }
  }

  // ---- edit beats delete ----

  /** A stale delete against one alive leaf changes nothing a reader sees, and is answered with that
      leaf's revision. */
  lemma StaleDeleteLoses(hub: Hub, change: PushChange, docs: Docs, docs': Docs, res: PushResult, added: bool, w: Rev)
    requires WfDocs(docs) && change.deleted && Deletes(hub, change, docs, docs', res, added)
    requires var t := DocIn(docs, change.path);
             && AliveLeaves(t) == {w} && change.baseRev.Some?
             && change.baseRev.value in t && !IsLeaf(t, change.baseRev.value)
    ensures res == Ok(Some(w))
    ensures AliveLeaves(DocIn(docs', change.path)) == {w}
    ensures Visible(DocIn(docs', change.path)) == Visible(DocIn(docs, change.path))
  {
    var t, b := DocIn(docs, change.path), BranchRev(hub, change);
    var mid := Branched(hub, change, docs);
    var m := DocIn(mid, change.path);
    BranchedGrows(hub, change, docs);
    if b !in t {
      AliveAfterAdd(t, b, BranchNode(change));
    }
    assert AliveLeaves(m) == {w};
    OneAlive(m, w);
    assert w in AliveLeaves(t);
    assert Extends(t, m);
    var out :| Resolves(hub.merge, mid, docs', change.path, out)
               && res == if out == MissingContent then Conflict else Ack(DocIn(docs', change.path));
  }

  /** A delete on a current leaf buries that leaf and nothing else, and is answered with the tombstone. */
  lemma AcceptedDelete(hub: Hub, change: PushChange, docs: Docs, docs': Docs, res: PushResult, added: bool)
    requires WfDocs(docs) && Deletes(hub, change, docs, docs', res, added)
    requires change.baseRev.Some? && IsLeaf(DocIn(docs, change.path), change.baseRev.value)
    ensures var t, t' := DocIn(docs, change.path), DocIn(docs', change.path);
            && res.Ok? && res.rev.Some? && res.rev.value in t' && res.rev.value !in t
            && t'[res.rev.value].parent == change.baseRev && t'[res.rev.value].deleted
            && AliveLeaves(t') == (set x | x in AliveLeaves(t) && change.baseRev != Some(x))
    ensures !added && forall q :: q != change.path ==> DocIn(docs', q) == DocIn(docs, q)
  {
    var base := change.baseRev.value;
    var r :| Fresh(docs, change.path, r, Tombstone(base)) && docs' == Added(docs, change.path, r, Tombstone(base)) && res == Ok(Some(r));
    AliveAfterAdd(DocIn(docs, change.path), r, Tombstone(base));
  }

  /** Deletes that change nothing a reader sees: without a base they are acknowledged exactly when there is nothing
      to delete, with an unknown base they are refused. */
  lemma BlindDelete(hub: Hub, change: PushChange, docs: Docs, docs': Docs, res: PushResult, added: bool)
    requires WfDocs(docs) && Deletes(hub, change, docs, docs', res, added)
    requires change.baseRev.Some? ==> change.baseRev.value !in DocIn(docs, change.path)
    ensures docs' == docs && !added
    ensures res.Ok? <==> change.baseRev.None? && AliveLeaves(DocIn(docs, change.path)) == {}
    ensures res.Ok? ==> res.rev == None
  {
  }

  /** A stale delete of a path that is deleted already is refused. */
  lemma StaleDeleteOfDeletedIsRefused(hub: Hub, change: PushChange, docs: Docs, docs': Docs, res: PushResult, added: bool)
    requires WfDocs(docs) && change.deleted && Deletes(hub, change, docs, docs', res, added)
    requires var t := DocIn(docs, change.path);
             && AliveLeaves(t) == {} && change.baseRev.Some?
             && change.baseRev.value in t && !IsLeaf(t, change.baseRev.value)
    ensures res == Conflict && AliveLeaves(DocIn(docs', change.path)) == {}
  {
    var t, b := DocIn(docs, change.path), BranchRev(hub, change);
    var mid := Branched(hub, change, docs);
    BranchedGrows(hub, change, docs);
    if b !in t {
      AliveAfterAdd(t, b, BranchNode(change));
    }
    assert AliveLeaves(DocIn(mid, change.path)) == {};
    var out :| Resolves(hub.merge, mid, docs', change.path, out)
               && res == if out == MissingContent then Conflict else Ack(DocIn(docs', change.path));
  }

  ghost predicate StaleOnDeleted(t: Tree, change: PushChange) {
    && !change.deleted && AliveLeaves(t) == {}
    && change.baseRev.Some? && change.baseRev.value in t && !IsLeaf(t, change.baseRev.value)
  }

  /** A stale upsert to a deleted path brings the client's content back as the only alive leaf, exactly
      when its branch is not in the tree already. If it is - the same push was applied before and the
      path deleted since - the push is refused and nothing changes. */
  lemma StaleUpsertRevives(hub: Hub, change: PushChange, docs: Docs, docs': Docs, res: PushResult, added: bool)
    requires WfDocs(docs) && !change.deleted && Upserts(hub, change, docs, docs', res, added)
    requires StaleOnDeleted(DocIn(docs, change.path), change)
    ensures var t, t', b := DocIn(docs, change.path), DocIn(docs', change.path), BranchRev(hub, change);
            && (b !in t <==> OnlyHolds(t', Copy(change.content, change.mtime,
                                                if change.ctype.Some? then change.ctype.value else "application/octet-stream")))
            && (b !in t ==> res == Ok(Some(b)) && AliveLeaves(t') == {b})
            && (b in t ==> res == Conflict && docs' == docs)
  {
    var t, b := DocIn(docs, change.path), BranchRev(hub, change);
    var mid := Branched(hub, change, docs);
    var m := DocIn(mid, change.path);
    BranchedGrows(hub, change, docs);
    if b !in t {
      BranchedAlive(hub, change, docs);
      assert AliveLeaves(m) == {b};
      OneAlive(m, b);
      assert Holds(m, b, Copy(change.content, change.mtime, TypeOf(change)));
    }
    var out :| Resolves(hub.merge, mid, docs', change.path, out)
               && res == if out == MissingContent then Conflict else Ack(DocIn(docs', change.path));
    assert docs' == mid;
  }

  /** Push, delete, push again: the first push brings the path back, and after a delete on the revision it was
      answered with the same push is refused. */
  lemma PushDeletePushIsRefused(hub: Hub, change: PushChange, del: PushChange, docs: Docs, docs1: Docs, docs2: Docs, docs3: Docs,
                                res1: PushResult, res2: PushResult, res3: PushResult, a1: bool, a2: bool, a3: bool)
    requires WfDocs(docs) && WfDocs(docs1) && WfDocs(docs2)
    requires StaleOnDeleted(DocIn(docs, change.path), change) && BranchRev(hub, change) !in DocIn(docs, change.path)
    requires Upserts(hub, change, docs, docs1, res1, a1)
    requires del.deleted && del.path == change.path && res1.Ok? && del.baseRev == res1.rev
    requires Deletes(hub, del, docs1, docs2, res2, a2)
    requires Upserts(hub, change, docs2, docs3, res3, a3)
    ensures res1 == Ok(Some(BranchRev(hub, change))) && res2.Ok?
    ensures StaleOnDeleted(DocIn(docs2, change.path), change) && BranchRev(hub, change) in DocIn(docs2, change.path)
    ensures res3 == Conflict && docs3 == docs2
  {
    var t, b := DocIn(docs, change.path), BranchRev(hub, change);
    StaleUpsertRevives(hub, change, docs, docs1, res1, a1);
    var t1 := DocIn(docs1, change.path);
    assert b in AliveLeaves(t1);
    UpsertIsTraced(hub, change, docs, docs1, res1, a1);
    RefusedStays(t, t1, change.baseRev);
    var r :| Fresh(docs1, change.path, r, Tombstone(b)) && docs2 == Added(docs1, change.path, r, Tombstone(b)) && res2 == Ok(Some(r));
    AliveAfterAdd(t1, r, Tombstone(b));
    RefusedStays(t1, DocIn(docs2, change.path), change.baseRev);
    StaleUpsertRevives(hub, change, docs2, docs3, res3, a3);
  }

  /** There are such databases: here the base was deleted once before. */
  lemma DeletedOnce(hub: Hub, change: PushChange) returns (docs: Docs, docs1: Docs)
    requires !change.deleted && change.baseRev == Some(Rev(1, 0))
    ensures WfDocs(docs) && WfDocs(docs1)
    ensures StaleOnDeleted(DocIn(docs, change.path), change) && BranchRev(hub, change) !in DocIn(docs, change.path)
    ensures Upserts(hub, change, docs, docs1, Ok(Some(BranchRev(hub, change))), true)
  {
    var base, b := Rev(1, 0), BranchRev(hub, change);
    var gone := Rev(2, b.hash + 1);
    var t: Tree := map[base := Node(None, false, 0, OCTET_STREAM, Some([])), gone := Tombstone(base)];
    assert Grounded(t, base, t[base].parent) && Grounded(t, gone, t[gone].parent);
    assert t[gone].parent == Some(base);
    docs := map[change.path := t];
    docs1 := Branched(hub, change, docs);
    BranchedGrows(hub, change, docs);
    assert AliveLeaves(t) == {};
    BranchedAlive(hub, change, docs);
    assert AliveLeaves(DocIn(docs1, change.path)) == {b};
    OneAlive(DocIn(docs1, change.path), b);
    assert Winner(DocIn(docs1, change.path)) == b;
    assert Resolves(hub.merge, docs1, docs1, change.path, NoConflict);
    assert Settles(hub, change.path, docs1, docs1, Ok(Some(b)));
  }

  // ---- an upsert interrupted between its two writes ----

  /** Beside an alive revision without content a new branch cannot be resolved: it is added in vain. */
  lemma ContentlessLeafBlocksUpserts(hub: Hub, change: PushChange, docs: Docs, docs': Docs, res: PushResult, added: bool, d: Rev)
    requires WfDocs(docs) && !change.deleted && Upserts(hub, change, docs, docs', res, added)
    requires var t := DocIn(docs, change.path);
             && !AcceptsPut(t, change.baseRev) && d in AliveLeaves(t) && t[d].content.None?
             && BranchRev(hub, change) !in t
    ensures res == Conflict && Idle(hub, change, DocIn(docs', change.path)) && d in AliveLeaves(DocIn(docs', change.path))
    ensures docs' == if BaseKnown(DocIn(docs, change.path), change) then Branched(hub, change, docs) else docs
  {
    var t, b := DocIn(docs, change.path), BranchRev(hub, change);
    if BaseKnown(t, change) {
      BranchedGrows(hub, change, docs);
      BranchedAlive(hub, change, docs);
      var m := DocIn(Branched(hub, change, docs), change.path);
      assert d in AliveLeaves(m) && b in AliveLeaves(m) && m[d] == t[d];
      assert !AtMostOneAlive(m) && !AllReadable(m);
    }
    StaleSendSettles(hub, change, docs, docs', res, added);
  }

  /** An upsert whose `put_doc` was accepted and whose `put_attachment` never came is refused when it is sent
      again, and by `Idle` every time after that. */
  lemma InterruptedUpsertIsRefused(hub: Hub, change: PushChange, before: Docs, docs: Docs, docs': Docs, res: PushResult, added: bool, d: Rev)
    requires WfDocs(before) && !change.deleted && AcceptsPut(DocIn(before, change.path), change.baseRev)
    requires var n := DocNode(PutParent(DocIn(before, change.path), change.baseRev), change.mtime, TypeOf(change));
             Fresh(before, change.path, d, n) && docs == Added(before, change.path, d, n)
    requires WfDocs(docs) && Upserts(hub, change, docs, docs', res, added)
    requires BranchRev(hub, change) !in DocIn(docs, change.path)
    ensures res == Conflict && Idle(hub, change, DocIn(docs', change.path)) && docs' == Branched(hub, change, docs)
  {
    var t0, t := DocIn(before, change.path), DocIn(docs, change.path);
    AliveAfterAdd(t0, d, t[d]);
    assert d in AliveLeaves(t);
    if change.baseRev.Some? {
      assert t[d].parent == change.baseRev;
    }
    ContentlessLeafBlocksUpserts(hub, change, docs, docs', res, added, d);
  }

  // ---- acknowledgements ----

  /** A write, or this change's branch from an earlier send. */
  ghost predicate Traced(hub: Hub, change: PushChange, t: Tree, t': Tree) {
    Extends(t, t') && ((exists r :: r in t' && r !in t) || BranchRev(hub, change) in t)
  }

  lemma BranchingIsTraced(hub: Hub, change: PushChange, docs: Docs, docs': Docs, res: PushResult, added: bool)
    requires WfDocs(docs) && Branches(hub, change, docs, docs', res, added) && res.Ok?
    ensures Traced(hub, change, DocIn(docs, change.path), DocIn(docs', change.path))
  {
    var mid := Branched(hub, change, docs);
    BranchedGrows(hub, change, docs);
    SettlingEnds(hub, change.path, mid, docs', res);
    assert Extends(DocIn(docs, change.path), DocIn(mid, change.path));
    assert BranchRev(hub, change) in DocIn(docs', change.path);
  }

  lemma WritingIsTraced(hub: Hub, change: PushChange, docs: Docs, docs': Docs, d: Rev, a: Rev)
    requires WfDocs(docs) && WrittenDirectly(change, docs, docs', d, a)
    ensures Traced(hub, change, DocIn(docs, change.path), DocIn(docs', change.path))
  {
    assert d in DocIn(docs', change.path);
  }

  lemma UpsertIsTraced(hub: Hub, change: PushChange, docs: Docs, docs': Docs, res: PushResult, added: bool)
    requires WfDocs(docs) && Upserts(hub, change, docs, docs', res, added) && res.Ok?
    ensures Traced(hub, change, DocIn(docs, change.path), DocIn(docs', change.path))
  {
    if AcceptsPut(DocIn(docs, change.path), change.baseRev) {
      var d, a :| WrittenDirectly(change, docs, docs', d, a) && res == Ok(Some(a));
      WritingIsTraced(hub, change, docs, docs', d, a);
    } else {
      BranchingIsTraced(hub, change, docs, docs', res, added);
    }
  }

  lemma DeleteIsTraced(hub: Hub, change: PushChange, docs: Docs, docs': Docs, res: PushResult, added: bool)
    requires WfDocs(docs) && Deletes(hub, change, docs, docs', res, added) && res.Ok?
    ensures || Traced(hub, change, DocIn(docs, change.path), DocIn(docs', change.path))
            || (change.baseRev.None? && AliveLeaves(DocIn(docs, change.path)) == {} && docs' == docs)
  {
    if change.baseRev.Some? {
      if IsLeaf(DocIn(docs, change.path), change.baseRev.value) {
        var r :| Fresh(docs, change.path, r, Tombstone(change.baseRev.value))
                 && docs' == Added(docs, change.path, r, Tombstone(change.baseRev.value)) && res == Ok(Some(r));
        assert r in DocIn(docs', change.path);
      } else {
        BranchingIsTraced(hub, change, docs, docs', res, added);
      }
    }
  }

  /** An acknowledged change has changed its document, or found its own branch there from an earlier send,
      or deleted without a base what is not there: an acknowledgement never comes out of nothing. */
  lemma AcknowledgedIsTraced(hub: Hub, change: PushChange, docs: Docs, docs': Docs, res: PushResult, added: bool)
    requires WfDocs(docs) && Applies(hub, change, docs, docs', res, added) && res.Ok?
    ensures || Traced(hub, change, DocIn(docs, change.path), DocIn(docs', change.path))
            || (change.deleted && change.baseRev.None? && AliveLeaves(DocIn(docs, change.path)) == {} && docs' == docs)
  {
    if change.deleted {
      DeleteIsTraced(hub, change, docs, docs', res, added);
    } else {
      UpsertIsTraced(hub, change, docs, docs', res, added);
    }
  }
}
