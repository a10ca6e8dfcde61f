/** Branches tell edits apart: what a branch's id depends on, and that a stale edit is stored under it. */
module Branching {
  import opened RevTree
  import opened BranchId
  import opened Resolver
  import opened Push
  import opened Resend

  /** The text of the base revision, as it enters the seed. */
  function BaseText(hub: Hub, change: PushChange): Bytes {
    if change.baseRev.Some? then hub.text(change.baseRev.value) else []
  }

  function EffectiveContent(change: PushChange): Bytes {
    if change.deleted then [] else change.content
  }

  /** The seed of a change determines everything but the path and the type. */
  lemma ChangeSeedInjective(hub: Hub, a: PushChange, b: PushChange)
    requires 0 !in BaseText(hub, a) && 0 !in BaseText(hub, b) && SeedOf(hub, a) == SeedOf(hub, b)
    ensures BaseText(hub, a) == BaseText(hub, b) && a.deleted == b.deleted && a.mtime == b.mtime
    ensures EffectiveContent(a) == EffectiveContent(b)
  {
    var base := (c: PushChange) => if c.baseRev.Some? then Some(hub.text(c.baseRev.value)) else None;
    SeedInjective(base(a), a.deleted, a.mtime, EffectiveContent(a), base(b), b.deleted, b.mtime, EffectiveContent(b));
  }

  /** `s` and `s'` differ at `k` and nowhere else. */
  ghost predicate OneByteApart(s: Bytes, s': Bytes, k: nat) {
    |s| == |s'| && k < |s| && s[k] != s'[k] && forall i :: 0 <= i < |s| && i != k ==> s[i] == s'[i]
  }

  lemma OneByteApartBetween(pre: Bytes, s: Bytes, s': Bytes, post: Bytes, k: nat)
    requires OneByteApart(s, s', k)
    ensures OneByteApart(pre + s + post, pre + s' + post, |pre| + k)
  {
  }

  lemma SeedsApart(hub: Hub, a: PushChange, b: PushChange, k: nat)
    requires a.baseRev == b.baseRev && OneByteApart(SeedOf(hub, a), SeedOf(hub, b), k)
    ensures BranchRev(hub, a) != BranchRev(hub, b)
  {
    OneByteChangesHash(SeedOf(hub, a), SeedOf(hub, b), k);
  }

  /** Two edits of one base whose contents differ in exactly one byte never share a branch. */
  lemma ContentsApart(hub: Hub, a: PushChange, b: PushChange, k: nat)
    requires !a.deleted && !b.deleted && a.baseRev == b.baseRev && a.mtime == b.mtime
    requires OneByteApart(a.content, b.content, k)
    ensures BranchRev(hub, a) != BranchRev(hub, b)
  {
    var pre := BaseText(hub, a) + [0] + [0] + BigEndian(a.mtime);
    OneByteApartBetween(pre, a.content, b.content, [], k);
    assert SeedOf(hub, a) == pre + a.content + [];
    assert SeedOf(hub, b) == pre + b.content + [];
    SeedsApart(hub, a, b, |pre| + k);
  }

  /** Nor do two whose encoded mtimes do. */
  lemma MtimesApart(hub: Hub, a: PushChange, b: PushChange, k: nat)
    requires !a.deleted && !b.deleted && a.baseRev == b.baseRev && a.content == b.content
    requires OneByteApart(BigEndian(a.mtime), BigEndian(b.mtime), k)
    ensures BranchRev(hub, a) != BranchRev(hub, b)
  {
    var pre := BaseText(hub, a) + [0] + [0];
    OneByteApartBetween(pre, BigEndian(a.mtime), BigEndian(b.mtime), a.content, k);
    assert SeedOf(hub, a) == pre + BigEndian(a.mtime) + a.content;
    assert SeedOf(hub, b) == pre + BigEndian(b.mtime) + a.content;
    SeedsApart(hub, a, b, |pre| + k);
  }

  /** A delete and an upsert of an empty file do not share one either. */
  lemma DeleteApart(hub: Hub, a: PushChange, b: PushChange)
    requires a.deleted && !b.deleted && b.content == [] && a.baseRev == b.baseRev && a.mtime == b.mtime
    ensures BranchRev(hub, a) != BranchRev(hub, b)
  {
    var pre, post := BaseText(hub, a) + [0], BigEndian(a.mtime);
    assert OneByteApart([1], [0], 0);
    OneByteApartBetween(pre, [1], [0], post, 0);
    assert SeedOf(hub, a) == pre + [1] + post;
    assert SeedOf(hub, b) == pre + [0] + post;
    SeedsApart(hub, a, b, |pre|);
  }

  // ---- what is stored ----

  /** `t` has a revision on `change`'s base with its content, mtime and type. */
  ghost predicate Stores(t: Tree, change: PushChange, r: Rev) {
    && r in t && t[r].parent == change.baseRev && !t[r].deleted && t[r].content == Some(change.content)
    && t[r].mtime == change.mtime && t[r].ctype == if change.ctype.Some? then change.ctype.value else "application/octet-stream"
  }

  /** A stale upsert on a known base is stored, under its own id if that is free; nothing is taken away. */
  lemma StaleUpsertIsStored(hub: Hub, change: PushChange, docs: Docs, docs': Docs, res: PushResult, added: bool)
    requires WfDocs(docs) && !change.deleted && Upserts(hub, change, docs, docs', res, added)
    requires var t := DocIn(docs, change.path);
             && !AcceptsPut(t, change.baseRev) && (change.baseRev.Some? ==> change.baseRev.value in t)
             && BranchRev(hub, change) !in t
    ensures Stores(DocIn(docs', change.path), change, BranchRev(hub, change))
    ensures Extends(DocIn(docs, change.path), DocIn(docs', change.path))
  {
    var mid := Branched(hub, change, docs);
    BranchedGrows(hub, change, docs);
    SettlingEnds(hub, change.path, mid, docs', res);
    assert Extends(DocIn(docs, change.path), DocIn(mid, change.path));
    assert Stores(DocIn(mid, change.path), change, BranchRev(hub, change));
  }

  /** Two devices that edited one base offline: with contents one byte apart both edits are in the tree after
      the second stale push, whatever the hub made of the first one, unless the id of the second was taken by
      something else. */
  lemma BothEditsAreStored(hub: Hub, a: PushChange, b: PushChange, k: nat, docs: Docs, docs1: Docs, docs2: Docs,
                           res1: PushResult, res2: PushResult, added1: bool, added2: bool)
    requires WfDocs(docs) && WfDocs(docs1) && !a.deleted && !b.deleted
    requires a.path == b.path && a.baseRev == b.baseRev && a.mtime == b.mtime && OneByteApart(a.content, b.content, k)
    requires Upserts(hub, a, docs, docs1, res1, added1) && Upserts(hub, b, docs1, docs2, res2, added2)
    requires var t := DocIn(docs, a.path);
             && !AcceptsPut(t, a.baseRev) && (a.baseRev.Some? ==> a.baseRev.value in t)
             && BranchRev(hub, a) !in t && BranchRev(hub, b) !in DocIn(docs1, a.path)
    ensures BranchRev(hub, a) != BranchRev(hub, b)
    ensures Stores(DocIn(docs2, a.path), a, BranchRev(hub, a)) && Stores(DocIn(docs2, a.path), b, BranchRev(hub, b))
  {
    ContentsApart(hub, a, b, k);
    StaleUpsertIsStored(hub, a, docs, docs1, res1, added1);
    StaleSendSettles(hub, a, docs, docs1, res1, added1);
    StaleUpsertIsStored(hub, b, docs1, docs2, res2, added2);
  }
}
