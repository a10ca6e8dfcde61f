/** `plan_resolution` and `plan_edit_vs_edit` of `resolver.rs`: what a resolver decides to write,
    as a function of the leaves it read. */
module Planning {
  import opened RevTree
  import opened Ancestry

  datatype Leaf = Leaf(rev: Rev, deleted: bool, mtime: int, ctype: string, content: Bytes,
                       revisions: Option<Revisions>)

  datatype Copy = Copy(content: Bytes, mtime: int, ctype: string)

  datatype Kind = Merged | KeptNewer | EditWon | KeptWinner

  datatype Plan = Plan(kind: Kind, winnerRev: Rev, finalContent: Option<Bytes>, finalMtime: int,
                       finalCtype: string, copies: seq<Copy>, loserRevs: seq<Rev>)

  /** `diff3::merge` (base, mine, theirs); `None` is any merge error. */
  type Merge = (Bytes, Bytes, Bytes) -> Option<Bytes>

  /** `get_attachment_at_rev` on the document being resolved. */
  type Lookup = Rev -> Option<Bytes>

  // ---- leaf lists ----

  function CopyOf(l: Leaf): Copy {
    Copy(l.content, l.mtime, l.ctype)
  }

  predicate NotDeleted(l: Leaf) {
    !l.deleted
  }

  predicate Deleted(l: Leaf) {
    l.deleted
  }

  function IsRev(r: Rev): Leaf -> bool {
    (l: Leaf) => l.rev == r
  }

  function IsNotRev(r: Rev): Leaf -> bool {
    (l: Leaf) => l.rev != r
  }

  function NotDeletedBut(r: Rev): Leaf -> bool {
    (l: Leaf) => !l.deleted && l.rev != r
  }

  function HasCopy(c: Copy): Leaf -> bool {
    (l: Leaf) => CopyOf(l) == c
  }

  function Filter(p: Leaf -> bool, s: seq<Leaf>): seq<Leaf> {
    if s == [] then [] else (if p(s[0]) then [s[0]] else []) + Filter(p, s[1..])
  }

  function RevsOf(s: seq<Leaf>): (revs: seq<Rev>)
    ensures |revs| == |s| && forall i :: 0 <= i < |s| ==> revs[i] == s[i].rev
  {
    seq(|s|, i requires 0 <= i < |s| => s[i].rev)
  }

  function CopiesOf(s: seq<Leaf>): (copies: seq<Copy>)
    ensures |copies| == |s| && forall i :: 0 <= i < |s| ==> copies[i] == CopyOf(s[i])
  {
    seq(|s|, i requires 0 <= i < |s| => CopyOf(s[i]))
  }

  function LookupIn(t: Tree): Lookup {
    (r: Rev) => if r in t then t[r].content else None
  }

  /** The read of the merge base failed: any error counts as no content. */
  function Unreadable(): Lookup {
    (r: Rev) => None
  }

  /** `fetch_leaf`: a tombstone reads as empty; an alive leaf without its attachment cannot be read. */
  function ReadLeaf(t: Tree, r: Rev): Option<Leaf>
    requires Wf(t)
  {
    if r !in t || (!t[r].deleted && t[r].content.None?) then None else
      Some(Leaf(r, t[r].deleted, t[r].mtime, t[r].ctype,
                if t[r].deleted then [] else t[r].content.value, Some(RevisionsOf(t, r))))
  }

  /** `leaves` is what fetching the first of `revs` gives. */
  ghost predicate ReadSoFar(t: Tree, revs: seq<Rev>, leaves: seq<Leaf>)
    requires Wf(t)
  {
    |leaves| <= |revs| && forall i :: 0 <= i < |leaves| ==> ReadLeaf(t, revs[i]) == Some(leaves[i])
  }

  predicate DistinctRevs(leaves: seq<Leaf>) {
    forall i, j :: 0 <= i < j < |leaves| ==> leaves[i].rev != leaves[j].rev
  }

  // ---- the plan ----

  /** Attempts before `resolve` gives up. */
  const MAX_RETRIES: nat := 5

  /** The merge base: the common ancestor's content, or empty when there is none or it cannot be read. */
  function MergeBase(winner: Leaf, loser: Leaf, lookup: Lookup): Bytes {
    if winner.revisions.Some? && loser.revisions.Some? then
      var a, b := winner.revisions.value, loser.revisions.value;
      match CommonAncestor(a.ids, b.start, b.ids)
      case Some(rev) => (match lookup(rev) case Some(c) => c case None => [])
      case None => []
    else []
  }

  function PlanEditVsEdit(winner: Leaf, loser: Leaf, loserRevs: seq<Rev>, lookup: Lookup, merge: Merge): Plan {
    match merge(MergeBase(winner, loser, lookup), winner.content, loser.content)
    case Some(merged) =>
      Plan(Merged, winner.rev, Some(merged), if winner.mtime >= loser.mtime then winner.mtime else loser.mtime,
           winner.ctype, [], loserRevs)
    case None =>
      var (newer, older) := if winner.mtime >= loser.mtime then (winner, loser) else (loser, winner);
      Plan(KeptNewer, winner.rev, Some(newer.content), newer.mtime, newer.ctype, [CopyOf(older)], loserRevs)
  }

  /** `None` is `MissingLeaf`. */
  function PlanResolution(leaves: seq<Leaf>, winnerRev: Rev, lookup: Lookup, merge: Merge): Option<Plan> {
    var found := Filter(IsRev(winnerRev), leaves);
    if found == [] then None else
      var winner := found[0];
      var losers := Filter(IsNotRev(winnerRev), leaves);
      var loserRevs := RevsOf(losers);
      var nonDeleted := Filter(NotDeleted, leaves);
      if |nonDeleted| == 2 && |leaves| == 2 && losers != [] then
        Some(PlanEditVsEdit(winner, losers[0], loserRevs, lookup, merge))
      else if |nonDeleted| == 1 then
        var edit := nonDeleted[0];
        Some(Plan(EditWon, winnerRev, Some(edit.content), edit.mtime, edit.ctype, [], loserRevs))
      else
        var keep := if !winner.deleted then Some(winner) else if nonDeleted == [] then None else Some(nonDeleted[0]);
        match keep
        case Some(k) =>
          Some(Plan(KeptWinner, winnerRev, Some(k.content), k.mtime, k.ctype,
                    CopiesOf(Filter(NotDeletedBut(k.rev), leaves)), loserRevs))
        case None =>
          Some(Plan(KeptWinner, winnerRev, None, 0, OCTET_STREAM,
                    CopiesOf(Filter(NotDeletedBut(winnerRev), leaves)), loserRevs))
  }

  // ---- filtering ----

  lemma {:induction false} InFilter(p: Leaf -> bool, s: seq<Leaf>, x: Leaf)
    ensures x in Filter(p, s) <==> x in s && p(x)
  {
    if s != [] {
      InFilter(p, s[1..], x);
      assert x in s <==> x == s[0] || x in s[1..];
    }
  }

  lemma {:induction false} FilterCount(p: Leaf -> bool, s: seq<Leaf>, x: Leaf)
    ensures multiset(Filter(p, s))[x] == if p(x) then multiset(s)[x] else 0
  {
    if s != [] {
      FilterCount(p, s[1..], x);
      assert s == [s[0]] + s[1..];
    }
  }

  lemma {:induction false} FilterNone(p: Leaf -> bool, s: seq<Leaf>)
    requires forall x :: x in s ==> !p(x)
    ensures Filter(p, s) == []
  {
    if s != [] {
      FilterNone(p, s[1..]);
    }
  }

  lemma {:induction false} FilterAll(p: Leaf -> bool, s: seq<Leaf>)
    requires forall x :: x in s ==> p(x)
    ensures Filter(p, s) == s
  {
    if s != [] {
      FilterAll(p, s[1..]);
    }
  }

  lemma {:induction false} SplitLength(s: seq<Leaf>, w: Rev)
    ensures |Filter(IsRev(w), s)| + |Filter(IsNotRev(w), s)| == |s|
  {
    if s != [] {
      SplitLength(s[1..], w);
    }
  }

  lemma {:induction false} WinnerOnce(s: seq<Leaf>, w: Leaf)
    requires DistinctRevs(s) && w in s
    ensures Filter(IsRev(w.rev), s) == [w]
  {
    var rest := s[1..];
    if s[0].rev == w.rev {
      FilterNone(IsRev(w.rev), rest);
      var i :| 0 <= i < |s| && s[i] == w;
    } else {
      WinnerOnce(rest, w);
    }
  }

  lemma {:induction false} FilterDistinct(p: Leaf -> bool, s: seq<Leaf>)
    requires DistinctRevs(s)
    ensures DistinctRevs(Filter(p, s))
  {
    if s != [] {
      var rest := Filter(p, s[1..]);
      FilterDistinct(p, s[1..]);
      forall i | 0 <= i < |rest| ensures rest[i].rev != s[0].rev {
        InFilter(p, s[1..], rest[i]);
      }
    }
  }

  lemma FilterPair(p: Leaf -> bool, x: Leaf, y: Leaf)
    ensures Filter(p, [x, y]) == (if p(x) then [x] else []) + if p(y) then [y] else []
  {
    assert [x, y][1..] == [y] && [y][1..] == [];
    assert Filter(p, [y]) == if p(y) then [y] else [];
  }

  // ---- the winner and the losers are exactly the leaves ----

  /** `losers` lists every leaf but the winner, once each. */
  ghost predicate Partitions(leaves: seq<Leaf>, winnerRev: Rev, losers: seq<Rev>) {
    && Distinct(losers) && winnerRev !in losers && |losers| + 1 == |leaves|
    && (forall l :: l in leaves ==> l.rev == winnerRev || l.rev in losers)
    && (forall r :: r in losers ==> exists l :: l in leaves && l.rev == r)
  }

  lemma LosersPartition(leaves: seq<Leaf>, w: Leaf)
    requires DistinctRevs(leaves) && w in leaves
    ensures Partitions(leaves, w.rev, RevsOf(Filter(IsNotRev(w.rev), leaves)))
  {
    WinnerOnce(leaves, w);
    SplitLength(leaves, w.rev);
    FilterDistinct(IsNotRev(w.rev), leaves);
    var losers := Filter(IsNotRev(w.rev), leaves);
    forall i | 0 <= i < |losers| ensures losers[i].rev != w.rev {
      InFilter(IsNotRev(w.rev), leaves, losers[i]);
    }
    forall l | l in leaves ensures l.rev == w.rev || l.rev in RevsOf(losers) {
      InFilter(IsNotRev(w.rev), leaves, l);
      if l in losers {
        var i :| 0 <= i < |losers| && losers[i] == l;
        assert RevsOf(losers)[i] == l.rev;
      }
    }
    forall r | r in RevsOf(losers) ensures exists l :: l in leaves && l.rev == r {
      var i :| 0 <= i < |losers| && losers[i].rev == r;
      InFilter(IsNotRev(w.rev), leaves, losers[i]);
    }
  }

  /** The winner together with `loserRevs` is exactly the list of leaves. */
  lemma PlanLosers(leaves: seq<Leaf>, w: Leaf, lookup: Lookup, merge: Merge)
    requires DistinctRevs(leaves) && w in leaves
    ensures var plan := PlanResolution(leaves, w.rev, lookup, merge);
            plan.Some? && plan.value.winnerRev == w.rev && plan.value.loserRevs == RevsOf(Filter(IsNotRev(w.rev), leaves))
  {
    WinnerOnce(leaves, w);
  }

  lemma PlanPartitions(leaves: seq<Leaf>, w: Leaf, lookup: Lookup, merge: Merge)
    requires DistinctRevs(leaves) && w in leaves
    ensures var plan := PlanResolution(leaves, w.rev, lookup, merge);
            && plan.Some? && plan.value.winnerRev == w.rev
            && Partitions(leaves, w.rev, plan.value.loserRevs)
  {
    PlanLosers(leaves, w, lookup, merge);
    LosersPartition(leaves, w);
  }

  lemma CopiesAtMost(leaves: seq<Leaf>, winnerRev: Rev, lookup: Lookup, merge: Merge)
    ensures var plan := PlanResolution(leaves, winnerRev, lookup, merge);
            plan.Some? ==> |plan.value.copies| <= |leaves|
  {
    forall keep: Rev ensures |Filter(NotDeletedBut(keep), leaves)| <= |leaves| {
      FilterShorter(NotDeletedBut(keep), leaves);
    }
  }

  lemma {:induction false} FilterShorter(p: Leaf -> bool, s: seq<Leaf>)
    ensures |Filter(p, s)| <= |s|
  {
    if s != [] {
      FilterShorter(p, s[1..]);
    }
  }

  /** With every leaf alive a plan always writes a result. */
  lemma AlivePlanWrites(leaves: seq<Leaf>, lookup: Lookup, merge: Merge)
    requires |leaves| > 0 && DistinctRevs(leaves) && forall l :: l in leaves ==> !l.deleted
    ensures var plan := PlanResolution(leaves, leaves[0].rev, lookup, merge);
            && plan.Some? && plan.value.finalContent.Some? && plan.value.winnerRev == leaves[0].rev
            && Partitions(leaves, leaves[0].rev, plan.value.loserRevs)
  {
    FilterAll(NotDeleted, leaves);
    WinnerOnce(leaves, leaves[0]);
    PlanPartitions(leaves, leaves[0], lookup, merge);
  }

  ghost predicate AllLeaves(t: Tree, revs: seq<Rev>) {
    forall r :: r in revs ==> IsLeaf(t, r)
  }

  ghost predicate PlanShape(plan: Plan) {
    Distinct(plan.loserRevs) && plan.winnerRev !in plan.loserRevs
  }

  /** Every compare-and-swap of `plan` on its own document would succeed. */
  ghost predicate Uncontested(t: Tree, plan: Plan) {
    IsLeaf(t, plan.winnerRev) && AllLeaves(t, plan.loserRevs)
  }

  // ---- stored contents ----

  ghost predicate HasContent(t: Tree, r: Rev) {
    r in t && !t[r].deleted && t[r].content.Some?
  }

  function NodeCopy(n: Node): Copy
    requires n.content.Some?
  {
    Copy(n.content.value, n.mtime, n.ctype)
  }

  ghost predicate Holds(t: Tree, r: Rev, c: Copy) {
    HasContent(t, r) && NodeCopy(t[r]) == c
  }

  // ---- every plan conserves data ----

  ghost predicate MergedFrom(plan: Plan, w: Leaf, l: Leaf, lookup: Lookup, merge: Merge) {
    plan.finalContent.Some? && plan.finalContent == merge(MergeBase(w, l, lookup), w.content, l.content)
  }

  /** `x`'s content ends up in the result, in a copy, or as one of the two inputs of the merge that
      made the result. */
  ghost predicate Conserved(plan: Plan, leaves: seq<Leaf>, x: Leaf, lookup: Lookup, merge: Merge) {
    || plan.finalContent == Some(x.content)
    || CopyOf(x) in plan.copies
    || exists w, l :: w in leaves && l in leaves && w.rev == plan.winnerRev && l.rev != plan.winnerRev
                   && MergedFrom(plan, w, l, lookup, merge) && (x == w || x == l)
  }

  lemma CopiesHold(leaves: seq<Leaf>, keep: Rev, x: Leaf)
    requires x in leaves && !x.deleted && x.rev != keep
    ensures CopyOf(x) in CopiesOf(Filter(NotDeletedBut(keep), leaves))
  {
    var f := Filter(NotDeletedBut(keep), leaves);
    InFilter(NotDeletedBut(keep), leaves, x);
    var i :| 0 <= i < |f| && f[i] == x;
    assert CopiesOf(f)[i] == CopyOf(x);
  }

  lemma SameRevSameLeaf(leaves: seq<Leaf>, a: Leaf, b: Leaf)
    requires DistinctRevs(leaves) && a in leaves && b in leaves && a.rev == b.rev
    ensures a == b
  {
    var i :| 0 <= i < |leaves| && leaves[i] == a;
    var j :| 0 <= j < |leaves| && leaves[j] == b;
  }

  lemma TwoLeavesConserve(leaves: seq<Leaf>, w: Leaf, lookup: Lookup, merge: Merge, x: Leaf)
    requires DistinctRevs(leaves) && |leaves| == 2 && w in leaves && x in leaves
    requires |Filter(NotDeleted, leaves)| == 2
    ensures Filter(IsNotRev(w.rev), leaves) != []
    ensures Conserved(PlanEditVsEdit(w, Filter(IsNotRev(w.rev), leaves)[0], RevsOf(Filter(IsNotRev(w.rev), leaves)), lookup, merge),
                      leaves, x, lookup, merge)
  {
    WinnerOnce(leaves, w);
    SplitLength(leaves, w.rev);
    var losers := Filter(IsNotRev(w.rev), leaves);
    var l := losers[0];
    InFilter(IsNotRev(w.rev), leaves, l);
    assert x == w || x == l by {
      InFilter(IsNotRev(w.rev), leaves, x);
      if x.rev == w.rev {
        SameRevSameLeaf(leaves, x, w);
      }
    }
    var plan := PlanEditVsEdit(w, l, RevsOf(losers), lookup, merge);
    if plan.kind == Merged {
      assert MergedFrom(plan, w, l, lookup, merge);
    }
  }

  /** No alive leaf's content is lost by any plan. */
  lemma PlanConserves(leaves: seq<Leaf>, w: Leaf, lookup: Lookup, merge: Merge, x: Leaf)
    requires DistinctRevs(leaves) && w in leaves && x in leaves && !x.deleted
    ensures var plan := PlanResolution(leaves, w.rev, lookup, merge);
            plan.Some? && Conserved(plan.value, leaves, x, lookup, merge)
  {
    WinnerOnce(leaves, w);
    SplitLength(leaves, w.rev);
    var nonDeleted := Filter(NotDeleted, leaves);
    InFilter(NotDeleted, leaves, x);
    if |nonDeleted| == 2 && |leaves| == 2 {
      TwoLeavesConserve(leaves, w, lookup, merge, x);
    } else if |nonDeleted| != 1 {
      var k := if !w.deleted then w else nonDeleted[0];
      InFilter(NotDeleted, leaves, k);
      if x.rev == k.rev {
        SameRevSameLeaf(leaves, x, k);
      } else {
        CopiesHold(leaves, k.rev, x);
      }
    }
  }

  ghost predicate Keeps(plan: Plan, x: Leaf) {
    plan.finalContent == Some(x.content) && plan.finalMtime == x.mtime && plan.finalCtype == x.ctype
  }

  /** A single edit among tombstones wins as it is, without copies, whoever the winner is. */
  lemma SingleEditWins(leaves: seq<Leaf>, w: Leaf, x: Leaf, lookup: Lookup, merge: Merge)
    requires DistinctRevs(leaves) && w in leaves && Filter(NotDeleted, leaves) == [x]
    ensures var plan := PlanResolution(leaves, w.rev, lookup, merge);
            plan.Some? && Keeps(plan.value, x) && plan.value.kind == EditWon && plan.value.copies == []
  {
    WinnerOnce(leaves, w);
  }

  // ---- the listing order of `_conflicts` does not matter ----

  /** Equal up to the order in which copies and losers are listed. */
  ghost predicate SamePlan(a: Plan, b: Plan) {
    && a.(copies := [], loserRevs := []) == b.(copies := [], loserRevs := [])
    && multiset(a.copies) == multiset(b.copies)
    && multiset(a.loserRevs) == multiset(b.loserRevs)
  }

  ghost predicate SameDecision(a: seq<Leaf>, b: seq<Leaf>, winnerRev: Rev, lookup: Lookup, merge: Merge) {
    var p, q := PlanResolution(a, winnerRev, lookup, merge), PlanResolution(b, winnerRev, lookup, merge);
    p.Some? && q.Some? && SamePlan(p.value, q.value)
  }

  lemma FilterPermutes(p: Leaf -> bool, a: seq<Leaf>, b: seq<Leaf>)
    requires multiset(a) == multiset(b)
    ensures multiset(Filter(p, a)) == multiset(Filter(p, b))
    ensures |Filter(p, a)| == |Filter(p, b)|
  {
    var fa, fb := multiset(Filter(p, a)), multiset(Filter(p, b));
    forall x: Leaf ensures fa[x] == fb[x] {
      FilterCount(p, a, x);
      FilterCount(p, b, x);
    }
    assert fa == fb;
    assert |fa| == |Filter(p, a)| && |fb| == |Filter(p, b)|;
  }

  lemma {:induction false} CopyCount(s: seq<Leaf>, c: Copy)
    ensures multiset(CopiesOf(s))[c] == |Filter(HasCopy(c), s)|
  {
    if s != [] {
      CopyCount(s[1..], c);
      assert CopiesOf(s) == [CopyOf(s[0])] + CopiesOf(s[1..]);
    }
  }

  lemma {:induction false} RevCount(s: seq<Leaf>, r: Rev)
    ensures multiset(RevsOf(s))[r] == |Filter(IsRev(r), s)|
  {
    if s != [] {
      RevCount(s[1..], r);
      assert RevsOf(s) == [s[0].rev] + RevsOf(s[1..]);
    }
  }

  lemma ListingsPermute(p: Leaf -> bool, a: seq<Leaf>, b: seq<Leaf>)
    requires multiset(a) == multiset(b)
    ensures multiset(CopiesOf(Filter(p, a))) == multiset(CopiesOf(Filter(p, b)))
    ensures multiset(RevsOf(Filter(p, a))) == multiset(RevsOf(Filter(p, b)))
  {
    FilterPermutes(p, a, b);
    var fa, fb := Filter(p, a), Filter(p, b);
    forall c: Copy ensures multiset(CopiesOf(fa))[c] == multiset(CopiesOf(fb))[c] {
      CopyCount(fa, c);
      CopyCount(fb, c);
      FilterPermutes(HasCopy(c), fa, fb);
    }
    forall r: Rev ensures multiset(RevsOf(fa))[r] == multiset(RevsOf(fb))[r] {
      RevCount(fa, r);
      RevCount(fb, r);
      FilterPermutes(IsRev(r), fa, fb);
    }
  }

  lemma SingletonPermutes(a: seq<Leaf>, b: seq<Leaf>)
    requires multiset(a) == multiset(b) && |a| == 1
    ensures a == b
  {
    assert a[0] in multiset(b) && |a| == |multiset(a)| == |multiset(b)| == |b|;
  }

  lemma SingleFilterPermutes(p: Leaf -> bool, a: seq<Leaf>, b: seq<Leaf>)
    requires multiset(a) == multiset(b) && |Filter(p, a)| == 1
    ensures Filter(p, a) == Filter(p, b)
  {
    FilterPermutes(p, a, b);
    SingletonPermutes(Filter(p, a), Filter(p, b));
  }

  /** What is decided with the winner alive. */
  function AliveWinnerPlan(s: seq<Leaf>, w: Leaf, lookup: Lookup, merge: Merge): Plan {
    var alive, others := Filter(NotDeleted, s), Filter(IsNotRev(w.rev), s);
    if |alive| == 2 && |s| == 2 && others != [] then PlanEditVsEdit(w, others[0], RevsOf(others), lookup, merge)
    else if |alive| == 1 then
      Plan(EditWon, w.rev, Some(alive[0].content), alive[0].mtime, alive[0].ctype, [], RevsOf(others))
    else
      Plan(KeptWinner, w.rev, Some(w.content), w.mtime, w.ctype, CopiesOf(Filter(NotDeletedBut(w.rev), s)), RevsOf(others))
  }

  lemma AliveWinnerPlans(s: seq<Leaf>, w: Leaf, lookup: Lookup, merge: Merge)
    requires DistinctRevs(s) && w in s && !w.deleted
    ensures PlanResolution(s, w.rev, lookup, merge) == Some(AliveWinnerPlan(s, w, lookup, merge))
  {
    WinnerOnce(s, w);
  }

  lemma AliveWinnerIgnoresOrder(a: seq<Leaf>, b: seq<Leaf>, w: Leaf, lookup: Lookup, merge: Merge)
    requires multiset(a) == multiset(b) && |a| == |b| && DistinctRevs(a) && w in a && !w.deleted
    ensures SamePlan(AliveWinnerPlan(a, w, lookup, merge), AliveWinnerPlan(b, w, lookup, merge))
  {
    FilterPermutes(NotDeleted, a, b);
    FilterPermutes(IsNotRev(w.rev), a, b);
    ListingsPermute(IsNotRev(w.rev), a, b);
    ListingsPermute(NotDeletedBut(w.rev), a, b);
    if |Filter(NotDeleted, a)| == 2 && |a| == 2 {
      WinnerOnce(a, w);
      SplitLength(a, w.rev);
      SingleFilterPermutes(IsNotRev(w.rev), a, b);
    } else if |Filter(NotDeleted, a)| == 1 {
      SingleFilterPermutes(NotDeleted, a, b);
    }
  }

  /** Two hubs that see the same leaves decide the same thing, whatever order `_conflicts` came in. */
  lemma PlanIgnoresOrder(a: seq<Leaf>, b: seq<Leaf>, w: Leaf, lookup: Lookup, merge: Merge)
    requires multiset(a) == multiset(b) && DistinctRevs(a) && w in a && !w.deleted
    ensures SameDecision(a, b, w.rev, lookup, merge)
  {
    assert |a| == |multiset(a)| == |multiset(b)| == |b|;
    assert w in multiset(b);
    PermutedDistinct(a, b);
    AliveWinnerPlans(a, w, lookup, merge);
    AliveWinnerPlans(b, w, lookup, merge);
    AliveWinnerIgnoresOrder(a, b, w, lookup, merge);
  }

  // ---- with a deleted winner it may ----

  ghost predicate OrderFree(a: seq<Leaf>, winnerRev: Rev, lookup: Lookup, merge: Merge) {
    forall b :: multiset(a) == multiset(b) ==> SameDecision(a, b, winnerRev, lookup, merge)
  }

  ghost predicate AliveAlike(s: seq<Leaf>) {
    forall x, y :: x in s && y in s && !x.deleted && !y.deleted ==> CopyOf(x) == CopyOf(y)
  }

  lemma {:induction false} FilterSkips(p: Leaf -> bool, s: seq<Leaf>, x: Leaf)
    ensures |Filter(p, s)| <= |s|
    ensures x in s && !p(x) ==> |Filter(p, s)| < |s|
  {
    if s != [] {
      FilterSkips(p, s[1..], x);
      assert x in s ==> x == s[0] || x in s[1..];
    }
  }

  /** The first alive leaf listed is the one that is kept. */
  lemma DeletedWinnerKeepsFirst(s: seq<Leaf>, w: Leaf, lookup: Lookup, merge: Merge)
    requires DistinctRevs(s) && w in s && w.deleted && Filter(NotDeleted, s) != []
    ensures var plan := PlanResolution(s, w.rev, lookup, merge);
            plan.Some? && Keeps(plan.value, Filter(NotDeleted, s)[0])
  {
    WinnerOnce(s, w);
    FilterSkips(NotDeleted, s, w);
  }

  lemma PermutedDistinct(a: seq<Leaf>, b: seq<Leaf>)
    requires multiset(a) == multiset(b) && DistinctRevs(a)
    ensures DistinctRevs(b)
  {
    forall i, j | 0 <= i < j < |b| ensures b[i].rev != b[j].rev {
      if b[i].rev == b[j].rev {
        assert b[i] in multiset(a) && b[j] in multiset(a);
        SameRevSameLeaf(a, b[i], b[j]);
        TwiceInMultiset(b, i, j);
        OnceInDistinct(a, b[i]);
      }
    }
  }

  lemma TwiceInMultiset(s: seq<Leaf>, i: nat, j: nat)
    requires i < j < |s| && s[i] == s[j]
    ensures multiset(s)[s[i]] >= 2
  {
    assert s == s[..j] + [s[j]] + s[j + 1..];
    assert s[..j][i] == s[i];
    assert s[i] in multiset(s[..j]);
  }

  lemma {:induction false} OnceInDistinct(s: seq<Leaf>, x: Leaf)
    requires DistinctRevs(s)
    ensures multiset(s)[x] <= 1
  {
    if s != [] {
      OnceInDistinct(s[1..], x);
      assert s == [s[0]] + s[1..];
    }
  }

  /** Any alive leaf can be made the one that is kept, by listing it first. */
  lemma AnyAliveCanBeKept(a: seq<Leaf>, w: Leaf, x: Leaf, lookup: Lookup, merge: Merge) returns (b: seq<Leaf>)
    requires DistinctRevs(a) && w in a && w.deleted && x in a && !x.deleted
    ensures multiset(a) == multiset(b)
    ensures var plan := PlanResolution(b, w.rev, lookup, merge); plan.Some? && Keeps(plan.value, x)
  {
    var i :| 0 <= i < |a| && a[i] == x;
    b := [x] + a[..i] + a[i + 1..];
    assert a == a[..i] + [x] + a[i + 1..];
    PermutedDistinct(a, b);
    assert w in multiset(b);
    assert b[0] == x;
    DeletedWinnerKeepsFirst(b, w, lookup, merge);
  }

  lemma {:induction false} FilterTwice(s: seq<Leaf>, r: Rev)
    ensures Filter(NotDeletedBut(r), s) == Filter(IsNotRev(r), Filter(NotDeleted, s))
  {
    if s != [] {
      FilterTwice(s[1..], r);
      var rest := Filter(NotDeleted, s[1..]);
      var all := [s[0]] + rest;
      assert all[0] == s[0] && all[1..] == rest;
      assert Filter(NotDeleted, s) == if s[0].deleted then rest else all;
    }
  }

  /** All copies of a list of alike alive leaves but one. */
  lemma CopiesButOne(s: seq<Leaf>, k: Leaf)
    requires DistinctRevs(s) && AliveAlike(s) && k in s && !k.deleted
    ensures var copies := CopiesOf(Filter(NotDeletedBut(k.rev), s));
            |copies| == |Filter(NotDeleted, s)| - 1 && forall i :: 0 <= i < |copies| ==> copies[i] == CopyOf(k)
  {
    var alive := Filter(NotDeleted, s);
    FilterTwice(s, k.rev);
    FilterDistinct(NotDeleted, s);
    InFilter(NotDeleted, s, k);
    WinnerOnce(alive, k);
    SplitLength(alive, k.rev);
    var rest := Filter(NotDeletedBut(k.rev), s);
    forall i | 0 <= i < |rest| ensures CopyOf(rest[i]) == CopyOf(k) {
      InFilter(NotDeletedBut(k.rev), s, rest[i]);
    }
  }

  lemma KeptAlike(a: seq<Leaf>, b: seq<Leaf>)
    requires DistinctRevs(a) && DistinctRevs(b) && AliveAlike(a) && (forall x :: x in b ==> x in a)
    requires |Filter(NotDeleted, a)| == |Filter(NotDeleted, b)| > 0
    ensures var k, k' := Filter(NotDeleted, a)[0], Filter(NotDeleted, b)[0];
            && CopyOf(k) == CopyOf(k')
            && CopiesOf(Filter(NotDeletedBut(k.rev), a)) == CopiesOf(Filter(NotDeletedBut(k'.rev), b))
  {
    var k, k' := Filter(NotDeleted, a)[0], Filter(NotDeleted, b)[0];
    InFilter(NotDeleted, a, k);
    InFilter(NotDeleted, b, k');
    CopiesButOne(a, k);
    CopiesButOne(b, k');
  }

  /** What is decided with the winner deleted. */
  function DeletedWinnerPlan(s: seq<Leaf>, winnerRev: Rev): Plan {
    var alive, losers := Filter(NotDeleted, s), RevsOf(Filter(IsNotRev(winnerRev), s));
    if alive == [] then Plan(KeptWinner, winnerRev, None, 0, OCTET_STREAM, CopiesOf(Filter(NotDeletedBut(winnerRev), s)), losers)
    else
      var k := alive[0];
      if |alive| == 1 then Plan(EditWon, winnerRev, Some(k.content), k.mtime, k.ctype, [], losers)
      else Plan(KeptWinner, winnerRev, Some(k.content), k.mtime, k.ctype, CopiesOf(Filter(NotDeletedBut(k.rev), s)), losers)
  }

  lemma DeletedWinnerPlans(s: seq<Leaf>, w: Leaf, lookup: Lookup, merge: Merge)
    requires DistinctRevs(s) && w in s && w.deleted
    ensures PlanResolution(s, w.rev, lookup, merge) == Some(DeletedWinnerPlan(s, w.rev))
  {
    WinnerOnce(s, w);
    FilterSkips(NotDeleted, s, w);
  }

  lemma AlikePlansAlike(a: seq<Leaf>, b: seq<Leaf>, winnerRev: Rev)
    requires multiset(a) == multiset(b) && DistinctRevs(a) && DistinctRevs(b) && AliveAlike(a)
    ensures SamePlan(DeletedWinnerPlan(a, winnerRev), DeletedWinnerPlan(b, winnerRev))
  {
    forall x | x in b ensures x in a {
      assert x in multiset(a);
    }
    FilterPermutes(NotDeleted, a, b);
    ListingsPermute(IsNotRev(winnerRev), a, b);
    if Filter(NotDeleted, a) == [] {
      ListingsPermute(NotDeletedBut(winnerRev), a, b);
    } else {
      KeptAlike(a, b);
    }
  }

  lemma AlikeDecideAlike(a: seq<Leaf>, b: seq<Leaf>, w: Leaf, lookup: Lookup, merge: Merge)
    requires multiset(a) == multiset(b) && DistinctRevs(a) && w in a && w.deleted && AliveAlike(a)
    ensures SameDecision(a, b, w.rev, lookup, merge)
  {
    PermutedDistinct(a, b);
    assert w in multiset(b);
    DeletedWinnerPlans(a, w, lookup, merge);
    DeletedWinnerPlans(b, w, lookup, merge);
    AlikePlansAlike(a, b, w.rev);
  }

  /** With a deleted winner the listing order is without effect exactly when all alive leaves have the same
      content, mtime and type - in particular with at most one of them. `resolve` never plans from such a
      list, because its winner comes from `get_doc`. */
  lemma DeletedWinnerIgnoresOrderIff(a: seq<Leaf>, w: Leaf, lookup: Lookup, merge: Merge)
    requires DistinctRevs(a) && w in a && w.deleted
    ensures OrderFree(a, w.rev, lookup, merge) <==> AliveAlike(a)
  {
    if AliveAlike(a) {
      forall b | multiset(a) == multiset(b) ensures SameDecision(a, b, w.rev, lookup, merge) {
        AlikeDecideAlike(a, b, w, lookup, merge);
      }
    }
    if OrderFree(a, w.rev, lookup, merge) {
      forall x, y | x in a && y in a && !x.deleted && !y.deleted ensures CopyOf(x) == CopyOf(y) {
        var withX := AnyAliveCanBeKept(a, w, x, lookup, merge);
        var withY := AnyAliveCanBeKept(a, w, y, lookup, merge);
        assert SameDecision(a, withX, w.rev, lookup, merge) && SameDecision(a, withY, w.rev, lookup, merge);
      }
    }
  }

  /** Otherwise two orders of the same leaves give different results. */
  lemma TwoOrdersTwoPlans(a: seq<Leaf>, w: Leaf, x: Leaf, y: Leaf, lookup: Lookup, merge: Merge)
    requires DistinctRevs(a) && w in a && w.deleted
    requires x in a && y in a && !x.deleted && !y.deleted && CopyOf(x) != CopyOf(y)
    ensures exists b, c :: multiset(a) == multiset(b) == multiset(c) && !SameDecision(b, c, w.rev, lookup, merge)
  {
    var b := AnyAliveCanBeKept(a, w, x, lookup, merge);
    var c := AnyAliveCanBeKept(a, w, y, lookup, merge);
    assert !SameDecision(b, c, w.rev, lookup, merge);
  }
}
