/** A hub as its clients meet it: other clients write at any time, any request may fail. */
module HubService {
  import opened RevTree
  import opened Mirror

  /** One pushed change; `content` is absent for a delete. */
  datatype Upload = Upload(path: Path, deleted: bool, baseRev: Option<RevName>, mtime: int,
                           ctype: Option<string>, content: Option<Bytes>)

  function Touched(h: HubState, q: Path, f: Option<HubFile>): HubState {
    HubState(if f.Some? then h.files[q := f.value] else h.files - {q}, h.changed[q := h.last + 1], h.last + 1)
  }

  lemma TouchedEvolves(h: HubState, q: Path, f: Option<HubFile>)
    requires HubOk(h)
    ensures Evolves(h, Touched(h, q, f)) && ChangedAfter(Touched(h, q, f), q, Some(h.last))
  {
    var h' := Touched(h, q, f);
    forall p ensures Untouched(h, h', p) || ChangedAfter(h', p, Some(h.last)) {
      if p != q {
        assert Untouched(h, h', p);
      }
    }
  }

  /** An acknowledged change is in the feed after `since`, unless it deleted what was not there. */
  ghost predicate Acked(h: HubState, u: Upload, since: Option<nat>) {
    ChangedAfter(h, u.path, since) || (u.deleted && u.path !in h.files)
  }

  /** The feed has come as far as `since`. */
  predicate Reached(h: HubState, since: Option<nat>) {
    since.Some? ==> since.value <= h.last
  }

  lemma AckedStays(h: HubState, h': HubState, u: Upload, since: Option<nat>)
    requires Evolves(h, h') && Acked(h, u, since) && Reached(h, since)
    ensures Acked(h', u, since)
  {
    assert Untouched(h, h', u.path) || ChangedAfter(h', u.path, Some(h.last));
  }

  class Hub {
    const id: HubId
    /** Every answered push has one result per change, as `post_changes` gives. */
    const complete: bool
    /** Every request is answered and nobody else writes. */
    const calm: bool
    var st: HubState
    /** The last batch it was sent, and its answer. */
    ghost var asked: seq<Upload>
    ghost var said: seq<RevName>

    constructor (id: HubId, complete: bool, calm: bool)
      ensures Valid() && this.id == id && this.complete == complete && this.calm == calm
    {
      this.id, this.complete, this.calm := id, complete, calm;
      st, asked, said := HubState(map[], map[], 0), [], [];
    }

    ghost predicate Valid()
      reads this
    {
      HubOk(st)
    }

    /** Everybody else. */
    method OthersWrite()
      requires Valid()
      modifies this`st
      ensures Valid() && Evolves(old(st), st)
      ensures calm ==> st == old(st)
    {
      var n: int := *;
      var k := 0;
      while k < n && !calm
        invariant Valid() && Evolves(old(st), st)
        invariant calm ==> st == old(st)
      {
        var q: Path := *;
        var f: Option<HubFile> := *;
        TouchedEvolves(st, q, f);
        EvolvesTransitive(old(st), st, Touched(st, q, f));
        st := Touched(st, q, f);
        k := k + 1;
      }
    }

    /** The paths changed after `since` and the end of the feed, at one moment. */
    method Changes(since: Option<nat>) returns (r: Option<(seq<ChangeEntry>, nat)>)
      requires Valid()
      modifies this
      ensures Valid() && Evolves(old(st), st)
      ensures calm ==> r.Some? && st == old(st)
      ensures r.Some? ==> r.value.1 == st.last
      ensures r.Some? ==> forall i :: 0 <= i < |r.value.0| ==>
        ChangedAfter(st, r.value.0[i].path, since) && (r.value.0[i].deleted <==> r.value.0[i].path !in st.files)
      ensures r.Some? ==> forall q :: ChangedAfter(st, q, since) ==>
        exists i :: 0 <= i < |r.value.0| && r.value.0[i].path == q
    {
      OthersWrite();
      var up: bool := *;
      if !up && !calm {
        return None;
      }
      var todo := set q | q in st.changed.Keys && ChangedAfter(st, q, since);
      var entries: seq<ChangeEntry> := [];
      while todo != {}
        invariant forall q :: q in todo ==> ChangedAfter(st, q, since)
        invariant forall i :: 0 <= i < |entries| ==>
          ChangedAfter(st, entries[i].path, since) && (entries[i].deleted <==> entries[i].path !in st.files)
        invariant forall q :: ChangedAfter(st, q, since) ==>
          q in todo || exists i :: 0 <= i < |entries| && entries[i].path == q
        decreases todo
      {
        var q :| q in todo;
        ghost var before := entries;
        todo, entries := todo - {q}, entries + [ChangeEntry(q, q !in st.files)];
        assert entries[|before|].path == q;
        assert forall i :: 0 <= i < |before| ==> entries[i] == before[i];
      }
      return Some((entries, st.last));
    }

    /** Document and attachment are read one after the other. `ok` with `None` is a 404. */
    method GetFile(q: Path) returns (ok: bool, f: Option<HubFile>)
      requires Valid()
      modifies this
      ensures Valid() && Evolves(old(st), st)
      ensures ok && f.Some? ==>
        (q in st.files && f.value == st.files[q]) || ChangedAfter(st, q, Some(old(st).last))
      ensures calm ==> ok && (f.Some? <==> q in st.files) && st == old(st)
    {
      OthersWrite();
      ghost var h1 := st;
      var up: bool := *;
      if !up && !calm {
        return false, None;
      }
      if q !in st.files {
        return true, None;
      }
      var head := st.files[q];
      OthersWrite();
      EvolvesTransitive(old(st), h1, st);
      assert Untouched(h1, st, q) || ChangedAfter(st, q, Some(h1.last));
      if q !in st.files {
        return false, None;
      }
      return true, Some(head.(content := st.files[q].content));
    }

    /** Applies a batch; the request may fail after any number of changes. `sinces` are the feed positions
        the client held when it queued each change. */
    method Push(uploads: seq<Upload>, ghost sinces: seq<Option<nat>>) returns (r: Option<seq<RevName>>)
      requires Valid() && |sinces| == |uploads|
      modifies this
      ensures Valid() && Evolves(old(st), st)
      ensures asked == uploads
      ensures calm ==> r.Some?
      ensures r.Some? && complete ==> |r.value| == |uploads|
      ensures r.Some? ==> said == r.value && |r.value| <= |uploads|
      ensures r.Some? ==> forall i :: 0 <= i < |r.value| && Reached(old(st), sinces[i]) ==> Acked(st, uploads[i], sinces[i])
    {
      asked := uploads;
      var revs: seq<RevName> := [];
      for k := 0 to |uploads|
        invariant Valid() && Evolves(old(st), st) && |revs| == k && asked == uploads
        invariant forall i :: 0 <= i < k && Reached(old(st), sinces[i]) ==> Acked(st, uploads[i], sinces[i])
      {
        ghost var before := st;
        OthersWrite();
        EvolvesTransitive(old(st), before, st);
        ghost var mid := st;
        var up: bool := *;
        if !up && !calm {
          return None;
        }
        var u := uploads[k];
        if !(u.deleted && u.path !in st.files) {
          var f: Option<HubFile> := *;
          TouchedEvolves(st, u.path, f);
          EvolvesTransitive(old(st), st, Touched(st, u.path, f));
          EvolvesTransitive(before, st, Touched(st, u.path, f));
          st := Touched(st, u.path, f);
        }
        forall i | 0 <= i < k && Reached(old(st), sinces[i]) ensures Acked(st, uploads[i], sinces[i]) {
          AckedStays(before, st, uploads[i], sinces[i]);
        }
        var rev: RevName := *;
        revs := revs + [rev];
      }
      var short: int := *;
      if !complete && 0 <= short < |revs| {
        revs := revs[..short];
      }
      said := revs;
      return Some(revs);
    }
  }
}
