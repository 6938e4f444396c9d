/** The record the queue, the builders and the clients exchange, and the list operations on it.
    Two records are the same builder when their OpenStack ids agree, whatever host and port say. */
module Builders {
  import opened Bags

  datatype BuilderData = BuilderData(host: string, port: string, id: string)

  predicate SameBuilder(a: BuilderData, b: BuilderData) {
    a.id == b.id
  }

  ghost function Ids(bs: seq<BuilderData>): (ids: seq<string>)
    ensures |ids| == |bs|
    ensures forall i :: 0 <= i < |bs| ==> ids[i] == bs[i].id
  {
    seq(|bs|, i requires 0 <= i < |bs| => bs[i].id)
  }

  ghost predicate Distinct(bs: seq<BuilderData>) {
    forall i, j :: 0 <= i < j < |bs| ==> !SameBuilder(bs[i], bs[j])
  }

  /** std::list::remove: every entry equal to b goes, the others keep their order. */
  function Removed(bs: seq<BuilderData>, b: BuilderData): seq<BuilderData> {
    if bs == [] then []
    else
      var front := Removed(bs[..|bs| - 1], b);
      if SameBuilder(bs[|bs| - 1], b) then front else front + [bs[|bs| - 1]]
  }

  predicate Mentions(ds: seq<BuilderData>, b: BuilderData) {
    exists i :: 0 <= i < |ds| && SameBuilder(ds[i], b)
  }

  /** The entries of bs that ds does not mention, in order. */
  ghost function Without(bs: seq<BuilderData>, ds: seq<BuilderData>): seq<BuilderData> {
    if bs == [] then []
    else
      var front := Without(bs[..|bs| - 1], ds);
      if Mentions(ds, bs[|bs| - 1]) then front else front + [bs[|bs| - 1]]
  }

  lemma {:induction false} RemovedMisses(bs: seq<BuilderData>, b: BuilderData)
    requires !Mentions(bs, b)
    ensures Removed(bs, b) == bs
  {
    if bs != [] {
      var front := bs[..|bs| - 1];
      assert forall i :: 0 <= i < |front| ==> front[i] == bs[i];
      RemovedMisses(front, b);
      assert front + [bs[|bs| - 1]] == bs;
    }
  }

  /** Entries with the id go, all of them, whatever host and port say; the others stay as often as
      they were there. */
  lemma {:induction false} RemovedCounts(bs: seq<BuilderData>, b: BuilderData, x: BuilderData)
    ensures multiset(Removed(bs, b))[x] == if x.id == b.id then 0 else multiset(bs)[x]
  {
    if bs != [] {
      RemovedCounts(bs[..|bs| - 1], b, x);
      assert bs == bs[..|bs| - 1] + [bs[|bs| - 1]];
    }
  }

  /** When ids are distinct, remove-by-equality deletes exactly one entry. */
  lemma {:induction false} RemovedIsOneEntry(bs: seq<BuilderData>, k: nat)
    requires k < |bs| && Distinct(bs)
    ensures Removed(bs, bs[k]) == RemoveAt(bs, k)
  {
    var front, last := bs[..|bs| - 1], bs[|bs| - 1];
    if k == |bs| - 1 {
      RemovedMisses(front, last);
    } else {
      RemovedIsOneEntry(front, k);
      assert front[k] == bs[k] && !SameBuilder(bs[k], last);
      assert RemoveAt(bs, k) == RemoveAt(front, k) + [last];
    }
  }

  lemma WithoutSnoc(bs: seq<BuilderData>, b: BuilderData, ds: seq<BuilderData>)
    requires !Mentions(ds, b)
    ensures Without(bs + [b], ds) == Without(bs, ds) + [b]
  {
  }

  lemma MentionsSnoc(ds: seq<BuilderData>, d: BuilderData, b: BuilderData)
    ensures Mentions(ds + [d], b) <==> Mentions(ds, b) || SameBuilder(d, b)
  {
    assert (ds + [d])[|ds|] == d;
    if Mentions(ds, b) {
      var i :| 0 <= i < |ds| && SameBuilder(ds[i], b);
      assert (ds + [d])[i] == ds[i];
    }
    if Mentions(ds + [d], b) && !SameBuilder(d, b) {
      var i :| 0 <= i < |ds + [d]| && SameBuilder((ds + [d])[i], b);
      assert i < |ds| && ds[i] == (ds + [d])[i];
    }
  }

  lemma {:induction false} WithoutOneMore(bs: seq<BuilderData>, ds: seq<BuilderData>, b: BuilderData)
    ensures Without(bs, ds + [b]) == Removed(Without(bs, ds), b)
  {
    if bs != [] {
      var front, last := bs[..|bs| - 1], bs[|bs| - 1];
      WithoutOneMore(front, ds, b);
      MentionsSnoc(ds, b, last);
      if !Mentions(ds, last) {
        var kept := Without(front, ds);
        assert (kept + [last])[..|kept|] == kept;
      }
    }
  }

  lemma {:induction false} WithoutCounts(bs: seq<BuilderData>, ds: seq<BuilderData>, x: BuilderData)
    ensures multiset(Without(bs, ds))[x] == if Mentions(ds, x) then 0 else multiset(bs)[x]
  {
    if bs != [] {
      WithoutCounts(bs[..|bs| - 1], ds, x);
      assert bs == bs[..|bs| - 1] + [bs[|bs| - 1]];
    }
  }

  lemma {:induction false} DistinctCounts(bs: seq<BuilderData>, x: BuilderData)
    requires Distinct(bs)
    ensures multiset(bs)[x] <= 1
  {
    if bs != [] {
      var front, last := bs[..|bs| - 1], bs[|bs| - 1];
      assert bs == front + [last];
      DistinctCounts(front, x);
      assert forall i :: 0 <= i < |front| ==> front[i] == bs[i] && !SameBuilder(bs[i], last);
    }
  }

  /** The kept and the removed entries together are all the entries. */
  lemma WithoutPartition(bs: seq<BuilderData>, ds: seq<BuilderData>)
    requires Distinct(bs) && multiset(ds) <= multiset(bs)
    ensures multiset(Without(bs, ds)) + multiset(ds) == multiset(bs)
  {
    forall x: BuilderData
      ensures multiset(Without(bs, ds))[x] + multiset(ds)[x] == multiset(bs)[x]
    {
      WithoutCounts(bs, ds, x);
      DistinctCounts(bs, x);
      if Mentions(ds, x) {
        var i :| 0 <= i < |ds| && SameBuilder(ds[i], x);
        assert ds[i] in multiset(ds);
        if x in bs {
          SameIdSameEntry(bs, ds[i], x);
          assert x in multiset(ds);
        }
      } else {
        assert forall i :: 0 <= i < |ds| ==> !SameBuilder(ds[i], x);
        assert x !in ds;
      }
    }
  }

  lemma SameIdSameEntry(bs: seq<BuilderData>, a: BuilderData, b: BuilderData)
    requires Distinct(bs) && a in bs && b in bs && SameBuilder(a, b)
    ensures a == b
  {
  }

  /** Ids counted at most once each are pairwise different. */
  lemma CountedOnceDistinct(bs: seq<BuilderData>)
    requires NoDup(multiset(Ids(bs)))
    ensures Distinct(bs)
  {
    var ids := Ids(bs);
    forall i, j | 0 <= i < j < |bs|
      ensures !SameBuilder(bs[i], bs[j])
    {
      assert ids == ids[..j] + [ids[j]] + ids[j + 1..];
      assert multiset(ids) == multiset(ids[..j]) + multiset{ids[j]} + multiset(ids[j + 1..]);
      assert ids[..j][i] == ids[i];
      assert ids[i] in multiset(ids[..j]);
      assert multiset(ids)[ids[j]] >= multiset(ids[..j])[ids[j]] + 1;
    }
  }
}
