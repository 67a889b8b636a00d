/**
 * The notifications the coordinator sends to its delegates
 * (the `PlayerManagerDelegate` protocol) and the fan-out to a registry.
 */
module Notifications {

  import opened Registry
  import opened RepeatCycle
  import opened Engine

  /**
   * The playback progress `Float(currentTime / duration)` as a pair; the
   * floating-point division itself is not part of this model.
   */
  datatype Progress = Progress(currentTime: real, duration: real)

  /** One notification, named after the delegate method it calls. */
  datatype Event =
    | ShareToStatusSettingChangedTo(shareToStatus: bool)
    | RepeatTypeDidChange(repeatType: RepeatType)
    | ShuffleSettingChangedTo(shuffle: bool)
    | GetNewState(state: PlayerState)
    | CurrentItemGetNewTimerProgress(progress: Progress)
    | GetNewItem(item: PlayerItem)

  /** A delivered notification: which delegate received which event. */
  type Delivery = (ObserverId, Event)

  /** The deliveries of one `delegates.forEach`: every delegate once, in registry order. */
  function FanOut(ds: seq<ObserverId>, e: Event): (r: seq<Delivery>)
    ensures |r| == |ds|
    ensures forall i :: 0 <= i < |ds| ==> r[i] == (ds[i], e)
  {
    if ds == [] then [] else [(ds[0], e)] + FanOut(ds[1..], e)
  }

  /** Fanning out to one more delegate delivers to it last. */
  lemma FanOutAppend(ds: seq<ObserverId>, d: ObserverId, e: Event)
    ensures FanOut(ds + [d], e) == FanOut(ds, e) + [(d, e)]
  {
    assert |FanOut(ds + [d], e)| == |FanOut(ds, e) + [(d, e)]|;
    forall i | 0 <= i < |ds| + 1
      ensures FanOut(ds + [d], e)[i] == (FanOut(ds, e) + [(d, e)])[i]
    {
      assert (ds + [d])[i] == if i < |ds| then ds[i] else d;
    }
  }

  /**
   * In a duplicate-free registry, a fan-out delivers each event exactly once
   * to every registered delegate and never to anyone else.
   */
  lemma {:induction false} FanOutDeliversOnce(ds: seq<ObserverId>, e: Event, x: ObserverId)
    requires NoDuplicates(ds)
    ensures multiset(FanOut(ds, e))[(x, e)] == if x in ds then 1 else 0
  {
    if ds != [] {
      assert NoDuplicates(ds[1..]) by {
        forall i, j | 0 <= i < j < |ds[1..]| ensures ds[1..][i] != ds[1..][j] {
          assert ds[1..][i] == ds[i + 1] && ds[1..][j] == ds[j + 1];
        }
      }
      FanOutDeliversOnce(ds[1..], e, x);
      assert FanOut(ds, e) == [(ds[0], e)] + FanOut(ds[1..], e);
      assert multiset(FanOut(ds, e)) == multiset{(ds[0], e)} + multiset(FanOut(ds[1..], e));
      if x == ds[0] {
        assert x !in ds[1..] by {
          forall j | 0 <= j < |ds[1..]| ensures ds[1..][j] != x {
            assert ds[1..][j] == ds[j + 1];
          }
        }
      } else {
        assert x in ds <==> x in ds[1..] by {
          assert ds == [ds[0]] + ds[1..];
        }
      }
    }
  }

  /** Registering the same delegate twice still yields one delivery per event. */
  lemma AddTwiceDeliversOnce(ds: seq<ObserverId>, d: ObserverId, e: Event)
    requires NoDuplicates(ds)
    ensures multiset(FanOut(Added(Added(ds, d), d), e))[(d, e)] == 1
  {
    FanOutDeliversOnce(Added(Added(ds, d), d), e, d);
  }

  /**
   * After a delegate is removed, the next fan-out skips it and still reaches every
   * other registered delegate exactly once.
   */
  lemma {:induction false} RemovedDelegateIsSkipped(ds: seq<ObserverId>, d: ObserverId, x: ObserverId, e: Event)
    requires NoDuplicates(ds)
    ensures multiset(FanOut(Without(ds, d), e))[(x, e)] == if x in ds && x != d then 1 else 0
  {
    WithoutKeepsNoDuplicates(ds, d);
    FanOutDeliversOnce(Without(ds, d), e, x);
  }
}
