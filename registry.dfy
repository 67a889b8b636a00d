/**
 * The ordered registry of delegates (observers). Observers are compared by
 * identity, so an observer is represented here by an identity token.
 */
module Registry {

  import opened Wrappers

  /** The identity of a registered observer (`===` in the source). */
  type ObserverId = nat

  /** No identity appears twice in the registry. */
  predicate NoDuplicates(ds: seq<ObserverId>)
  {
    forall i, j :: 0 <= i < j < |ds| ==> ds[i] != ds[j]
  }

  /** Position of the first entry identical to `d`, if any (`indexOf`). */
  method IndexOf(ds: seq<ObserverId>, d: ObserverId) returns (r: Option<nat>)
    ensures r.Some? ==> r.value < |ds| && ds[r.value] == d
    ensures r.Some? ==> forall j :: 0 <= j < r.value ==> ds[j] != d
    ensures r.None? <==> d !in ds
  {
    var i := 0;
    while i < |ds|
      invariant 0 <= i <= |ds|
      invariant forall j :: 0 <= j < i ==> ds[j] != d
    {
      if ds[i] == d {
        return Some(i);
      }
      i := i + 1;
    }
    return None;
  }

  /** The registry after adding `d`: present entries are kept, a new one goes last. */
  function Added(ds: seq<ObserverId>, d: ObserverId): (r: seq<ObserverId>)
    ensures ds <= r
    ensures d in r
    ensures forall x :: x in r <==> x in ds || x == d
    ensures |r| == if d in ds then |ds| else |ds| + 1
    ensures NoDuplicates(ds) ==> NoDuplicates(r)
  {
    if d in ds then ds else ds + [d]
  }

  /** Adding an observer a second time changes nothing. */
  lemma AddedIdempotent(ds: seq<ObserverId>, d: ObserverId)
    ensures Added(Added(ds, d), d) == Added(ds, d)
  {
  }

  /** The registry with every entry identical to `d` dropped, others in their order. */
  function Without(ds: seq<ObserverId>, d: ObserverId): (r: seq<ObserverId>)
    ensures d !in r
    ensures forall x :: x != d ==> (x in r <==> x in ds)
    ensures |r| <= |ds|
    decreases |ds|
  {
    if ds == [] then []
    else if ds[0] == d then Without(ds[1..], d)
    else [ds[0]] + Without(ds[1..], d)
  }

  /** Removing an absent observer is a no-op. */
  lemma {:induction false} WithoutAbsent(ds: seq<ObserverId>, d: ObserverId)
    requires d !in ds
    ensures Without(ds, d) == ds
    decreases |ds|
  {
    if ds != [] {
      WithoutAbsent(ds[1..], d);
      assert ds == [ds[0]] + ds[1..];
    }
  }

  /**
   * In a duplicate-free registry, removing `d` found at position `k` drops exactly
   * that one entry and keeps the relative order of all the others.
   */
  lemma {:induction false} WithoutAt(ds: seq<ObserverId>, d: ObserverId, k: nat)
    requires NoDuplicates(ds)
    requires k < |ds| && ds[k] == d
    ensures Without(ds, d) == ds[..k] + ds[k + 1..]
    decreases k
  {
    if k == 0 {
      assert d !in ds[1..] by {
        forall j | 0 <= j < |ds[1..]| ensures ds[1..][j] != d {
          assert ds[1..][j] == ds[j + 1];
        }
      }
      WithoutAbsent(ds[1..], d);
    } else {
      assert ds[0] != d;
      WithoutAt(ds[1..], d, k - 1);
      assert ds[1..][..k - 1] == ds[1..k];
      assert ds[1..][k..] == ds[k + 1..];
      assert [ds[0]] + ds[1..k] == ds[..k];
    }
  }

  /** Removal keeps the registry free of duplicates and removes one entry when present. */
  lemma WithoutKeepsNoDuplicates(ds: seq<ObserverId>, d: ObserverId)
    requires NoDuplicates(ds)
    ensures NoDuplicates(Without(ds, d))
    ensures |Without(ds, d)| == if d in ds then |ds| - 1 else |ds|
  {
    if d in ds {
      var k :| 0 <= k < |ds| && ds[k] == d;
      WithoutAt(ds, d, k);
      var r := ds[..k] + ds[k + 1..];
      forall i, j | 0 <= i < j < |r| ensures r[i] != r[j] {
        var i' := if i < k then i else i + 1;
        var j' := if j < k then j else j + 1;
        assert r[i] == ds[i'] && r[j] == ds[j'];
      }
    } else {
      WithoutAbsent(ds, d);
    }
  }
}
