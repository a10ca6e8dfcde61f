/** `diff3.rs`: the common ancestor of two `_revisions` histories. */
module Ancestry {
  import opened RevTree

  /** CouchDB's `_revisions`, newest first: `ids[i]` is generation `start - i`. */
  datatype Revisions = Revisions(start: nat, ids: seq<nat>)

  /** `revision_at`. */
  function RevisionAt(start: nat, ids: seq<nat>, index: nat): Option<Rev> {
    if index <= start && index < |ids| then Some(Rev(start - index, ids[index])) else None
  }

  function SearchFrom(shared: set<nat>, start: nat, ids: seq<nat>, i: nat): Option<Rev>
    requires i <= |ids|
    decreases |ids| - i
  {
    if i == |ids| then None
    else if ids[i] in shared then RevisionAt(start, ids, i)
    else SearchFrom(shared, start, ids, i + 1)
  }

  /** `common_ancestor`: only ids are compared, never generations. */
  function CommonAncestor(aIds: seq<nat>, bStart: nat, bIds: seq<nat>): Option<Rev> {
    SearchFrom((set id | id in aIds), bStart, bIds, 0)
  }

  // ---- what it finds in a tree ----

  function Ids(h: seq<Rev>): (ids: seq<nat>)
    ensures |ids| == |h| && forall i :: 0 <= i < |h| ==> ids[i] == h[i].hash
  {
    seq(|h|, i requires 0 <= i < |h| => h[i].hash)
  }

  function RevisionsOf(t: Tree, r: Rev): (rs: Revisions)
    requires Wf(t) && r in t
  {
    Revisions(r.gen, Ids(History(t, r)))
  }

  function AncestorOf(t: Tree, a: Rev, b: Rev): Option<Rev>
    requires Wf(t) && a in t && b in t
  {
    var ra, rb := RevisionsOf(t, a), RevisionsOf(t, b);
    CommonAncestor(ra.ids, rb.start, rb.ids)
  }

  ghost predicate Shared(t: Tree, a: Rev, b: Rev, x: Rev)
    requires Wf(t) && a in t && b in t
  {
    x in History(t, a) && x in History(t, b)
  }

  /** What the search stops at: the first id it shares, if any. */
  lemma {:induction false} SearchStops(shared: set<nat>, start: nat, ids: seq<nat>, i: nat)
    requires i <= |ids| <= start
    ensures match SearchFrom(shared, start, ids, i)
            case None => forall k :: i <= k < |ids| ==> ids[k] !in shared
            case Some(x) =>
              && x.gen <= start - i && start - x.gen < |ids| && ids[start - x.gen] == x.hash && x.hash in shared
              && forall m :: i <= m < start - x.gen ==> ids[m] !in shared
    decreases |ids| - i
  {
    if i < |ids| && ids[i] !in shared {
      SearchStops(shared, start, ids, i + 1);
    }
  }

  lemma AncestorStops(t: Tree, a: Rev, b: Rev)
    requires Wf(t) && a in t && b in t
    ensures var hb, shared := History(t, b), set id | id in Ids(History(t, a));
            match AncestorOf(t, a, b)
            case None => forall k :: 0 <= k < |hb| ==> hb[k].hash !in shared
            case Some(x) =>
              && x.gen <= b.gen && b.gen - x.gen < |hb| && hb[b.gen - x.gen] == x && x.hash in shared
              && forall m :: 0 <= m < b.gen - x.gen ==> hb[m].hash !in shared
  {
    SearchStops((set id | id in Ids(History(t, a))), b.gen, Ids(History(t, b)), 0);
  }

  /** The result is in `t`, whatever the ids are: reading it never depends on later writes. */
  lemma AncestorIsPresent(t: Tree, a: Rev, b: Rev)
    requires Wf(t) && a in t && b in t
    ensures AncestorOf(t, a, b).Some? ==> AncestorOf(t, a, b).value in t
  {
    AncestorStops(t, a, b);
  }

  lemma AncestorStable(t: Tree, t': Tree, a: Rev, b: Rev)
    requires Wf(t) && Wf(t') && Extends(t, t') && a in t && b in t
    ensures AncestorOf(t, a, b) == AncestorOf(t', a, b)
  {
    HistoryStable(t, t', a);
    HistoryStable(t, t', b);
  }

  /** A history holds one revision per generation. */
  lemma OnePerGeneration(t: Tree, r: Rev, x: Rev, y: Rev)
    requires Wf(t) && r in t && x in History(t, r) && y in History(t, r) && x.gen == y.gen
    ensures x == y
  {
    var h := History(t, r);
    var i :| 0 <= i < |h| && h[i] == x;
    var j :| 0 <= j < |h| && h[j] == y;
    assert i == r.gen - x.gen && j == r.gen - y.gen;
  }

  ghost predicate IsDeepest(t: Tree, a: Rev, b: Rev, found: Option<Rev>)
    requires Wf(t) && a in t && b in t
  {
    match found
    case None => forall x :: !Shared(t, a, b, x)
    case Some(x) => Shared(t, a, b, x) && forall y :: Shared(t, a, b, y) ==> y.gen <= x.gen
  }

  lemma DeepestIsSymmetric(t: Tree, a: Rev, b: Rev, found: Option<Rev>, found': Option<Rev>)
    requires Wf(t) && a in t && b in t
    requires IsDeepest(t, a, b, found) && IsDeepest(t, b, a, found')
    ensures found == found'
  {
    assert forall x :: Shared(t, a, b, x) <==> Shared(t, b, a, x);
    if found.Some? {
      OnePerGeneration(t, a, found.value, found'.value);
    }
  }

  // ---- when the search is right ----

  /** An id of `b`'s history that `a`'s history uses at another generation does no harm if both share a
      revision at that place or above. */
  ghost predicate NoMisleadingId(t: Tree, a: Rev, b: Rev)
    requires Wf(t) && a in t && b in t
  {
    forall x, y :: x in History(t, a) && y in History(t, b) && x.hash == y.hash && x.gen != y.gen ==> SharedFrom(t, a, b, y.gen)
  }

  ghost predicate SharedFrom(t: Tree, a: Rev, b: Rev, gen: nat)
    requires Wf(t) && a in t && b in t
  {
    exists z :: Shared(t, a, b, z) && z.gen >= gen
  }

  lemma IdIn(t: Tree, a: Rev, id: nat)
    requires Wf(t) && a in t
    ensures id in (set i | i in Ids(History(t, a))) <==> exists x :: x in History(t, a) && x.hash == id
  {
    var h := History(t, a);
    if id in Ids(h) {
      var j :| 0 <= j < |h| && Ids(h)[j] == id;
      assert h[j] in h;
    }
    if x :| x in h && x.hash == id {
      var j :| 0 <= j < |h| && h[j] == x;
      assert Ids(h)[j] == id;
    }
  }

  /** An id of `b`'s history that `a`'s history uses anywhere stops the search at its place at the latest. */
  lemma IdStops(t: Tree, a: Rev, b: Rev, x: Rev, y: Rev)
    requires Wf(t) && a in t && b in t && x in History(t, a) && y in History(t, b) && x.hash == y.hash
    ensures AncestorOf(t, a, b).Some? && y.gen <= AncestorOf(t, a, b).value.gen
  {
    AncestorStops(t, a, b);
    IdIn(t, a, y.hash);
    var k :| 0 <= k < |History(t, b)| && History(t, b)[k] == y;
  }

  lemma SharedStops(t: Tree, a: Rev, b: Rev, z: Rev)
    requires Wf(t) && a in t && b in t && Shared(t, a, b, z)
    ensures AncestorOf(t, a, b).Some? && z.gen <= AncestorOf(t, a, b).value.gen
  {
    IdStops(t, a, b, z, z);
  }

  lemma FoundById(t: Tree, a: Rev, b: Rev) returns (x: Rev)
    requires Wf(t) && a in t && b in t && AncestorOf(t, a, b).Some?
    ensures AncestorOf(t, a, b).value in History(t, b)
    ensures x in History(t, a) && x.hash == AncestorOf(t, a, b).value.hash
  {
    AncestorStops(t, a, b);
    IdIn(t, a, AncestorOf(t, a, b).value.hash);
    x :| x in History(t, a) && x.hash == AncestorOf(t, a, b).value.hash;
  }

  /** What the search finds is right exactly when it is in both histories. */
  lemma RightIffShared(t: Tree, a: Rev, b: Rev)
    requires Wf(t) && a in t && b in t
    ensures var found := AncestorOf(t, a, b);
            IsDeepest(t, a, b, found) <==> found.None? || Shared(t, a, b, found.value)
  {
    forall z | Shared(t, a, b, z) ensures AncestorOf(t, a, b).Some? && z.gen <= AncestorOf(t, a, b).value.gen {
      SharedStops(t, a, b, z);
    }
  }

  /** `common_ancestor` is the deepest revision both histories contain, or finds none when there is none,
      exactly when no id misleads it. */
  lemma AncestorIsDeepestIff(t: Tree, a: Rev, b: Rev)
    requires Wf(t) && a in t && b in t
    ensures IsDeepest(t, a, b, AncestorOf(t, a, b)) <==> NoMisleadingId(t, a, b)
  {
    var found := AncestorOf(t, a, b);
    RightIffShared(t, a, b);
    if IsDeepest(t, a, b, found) {
      forall x, y | x in History(t, a) && y in History(t, b) && x.hash == y.hash && x.gen != y.gen
        ensures SharedFrom(t, a, b, y.gen)
      {
        IdStops(t, a, b, x, y);
        assert Shared(t, a, b, found.value) && found.value.gen >= y.gen;
      }
    }
    if NoMisleadingId(t, a, b) && found.Some? {
      var x := FoundById(t, a, b);
      if x.gen != found.value.gen {
        assert SharedFrom(t, a, b, found.value.gen);
        var z :| Shared(t, a, b, z) && z.gen >= found.value.gen;
        SharedStops(t, a, b, z);
        OnePerGeneration(t, b, z, found.value);
      }
    }
  }

  /** The two sides give the same answer exactly when both give the right one. */
  lemma AncestorIsSymmetricIff(t: Tree, a: Rev, b: Rev)
    requires Wf(t) && a in t && b in t
    ensures AncestorOf(t, a, b) == AncestorOf(t, b, a) <==> NoMisleadingId(t, a, b) && NoMisleadingId(t, b, a)
  {
    AncestorIsDeepestIff(t, a, b);
    AncestorIsDeepestIff(t, b, a);
    RightIffShared(t, a, b);
    RightIffShared(t, b, a);
    if IsDeepest(t, a, b, AncestorOf(t, a, b)) && IsDeepest(t, b, a, AncestorOf(t, b, a)) {
      DeepestIsSymmetric(t, a, b, AncestorOf(t, a, b), AncestorOf(t, b, a));
    }
    if AncestorOf(t, a, b) == AncestorOf(t, b, a) && AncestorOf(t, a, b).Some? {
      var x := FoundById(t, a, b);
      var y := FoundById(t, b, a);
      assert Shared(t, a, b, AncestorOf(t, a, b).value) && Shared(t, b, a, AncestorOf(t, a, b).value);
    }
  }

  /** Each id occurs at one generation only. */
  ghost predicate OneGenerationPerId(t: Tree) {
    forall x, y :: x in t && y in t && x.hash == y.hash ==> x.gen == y.gen
  }

  /** In particular on trees where no id is reused at another generation. */
  lemma AncestorIsDeepest(t: Tree, a: Rev, b: Rev)
    requires Wf(t) && a in t && b in t && OneGenerationPerId(t)
    ensures IsDeepest(t, a, b, AncestorOf(t, a, b)) && AncestorOf(t, a, b) == AncestorOf(t, b, a)
  {
    AncestorIsDeepestIff(t, a, b);
    AncestorIsSymmetricIff(t, a, b);
  }

  /** A stale push branches off `base`. Against a winner that descends from `base` the merge base is
      exactly `base`, unless the winner's history uses the branch's own id. */
  lemma BranchMeetsAtBaseIff(t: Tree, winner: Rev, branch: Rev, base: Rev)
    requires Wf(t) && winner in t && branch in t && t[branch].parent == Some(base) && base in History(t, winner)
    ensures AncestorOf(t, winner, branch) == Some(base) <==> forall x :: x in History(t, winner) ==> x.hash != branch.hash
  {
    assert Grounded(t, branch, t[branch].parent);
    var hb := History(t, branch);
    assert hb == [branch] + History(t, base);
    assert hb[1] == base;
    assert Shared(t, winner, branch, base);
    SharedStops(t, winner, branch, base);
    if x :| x in History(t, winner) && x.hash == branch.hash {
      IdStops(t, winner, branch, x, branch);
    } else {
      var x := FoundById(t, winner, branch);
      var found := AncestorOf(t, winner, branch).value;
      assert found in hb && found != branch;
      assert found.gen < branch.gen;
      OnePerGeneration(t, branch, found, base);
    }
  }

  /** With the winner and the branch swapped: unless the winner's history uses an id of the branch's
      history above `base`. */
  lemma WinnerMeetsAtBaseIff(t: Tree, winner: Rev, branch: Rev, base: Rev)
    requires Wf(t) && winner in t && branch in t && t[branch].parent == Some(base) && base in History(t, winner)
    ensures AncestorOf(t, branch, winner) == Some(base) <==>
      forall x, y :: x in History(t, branch) && y in History(t, winner) && y.gen > base.gen ==> x.hash != y.hash
  {
    assert Grounded(t, branch, t[branch].parent);
    assert History(t, branch) == [branch] + History(t, base);
    assert History(t, branch)[1] == base;
    assert Shared(t, branch, winner, base);
    SharedStops(t, branch, winner, base);
    if x, y :| x in History(t, branch) && y in History(t, winner) && y.gen > base.gen && x.hash == y.hash {
      IdStops(t, branch, winner, x, y);
    } else {
      var x := FoundById(t, branch, winner);
      OnePerGeneration(t, winner, AncestorOf(t, branch, winner).value, base);
    }
  }

  /** A tree on which an id misleads the search: id 7 is `a`'s generation 1 and `b`'s generation 2, as two
      branches get it whose seeds have the same FNV-1a hash. */
  lemma SharedIdIsNotEnough()
    ensures exists t: Tree, a: Rev, b: Rev ::
      Wf(t) && a in t && b in t && AncestorOf(t, a, b) == Some(b) && b !in History(t, a)
  {
    var a, r, b := Rev(1, 7), Rev(1, 1), Rev(2, 7);
    var t: Tree := map[
      a := Node(None, false, 0, "", None),
      r := Node(None, false, 0, "", None),
      b := Node(Some(r), false, 0, "", None)];
    assert Grounded(t, a, t[a].parent) && Grounded(t, r, t[r].parent) && Grounded(t, b, t[b].parent);
    assert Wf(t);
    assert History(t, a) == [a];
    var hb := History(t, b);
    assert Ids(History(t, a))[0] == 7;
    assert hb[0].hash in (set id | id in Ids(History(t, a)));
    assert AncestorOf(t, a, b) == Some(b);
  }
}
