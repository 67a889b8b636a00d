/**
 * Client runs of the coordinator that fix, from the method contracts alone,
 * the behaviour the coordinator promises for whole sequences of calls.
 */
module Scenarios {

  import opened Wrappers
  import opened RepeatCycle
  import opened Registry
  import opened Engine
  import opened Notifications
  import opened Manager

  /**
   * Two loads under the same identifier: the queue is cleared and filled once,
   * from the first playlist, and the engine is told to play index 2 and then 5.
   */
  method FastPathLoad(p: seq<Track>, q: seq<Track>) returns (cmds: seq<EngineCmd>)
    ensures cmds == [Clear, AssignQueuedItems(PlayerItemsFor(p)), PlayAtIndex(2), PlayAtIndex(5)]
  {
    var m := new PlayerManager();
    m.PlayItemWithIndex(2, p, "X");
    m.PlayItemWithIndex(5, q, "X");
    cmds := m.commands;
  }

  /** A load under a new identifier replaces the queue, even after another load. */
  method SlowPathLoad(p: seq<Track>, q: seq<Track>) returns (cmds: seq<EngineCmd>)
    ensures cmds == [Clear, AssignQueuedItems(PlayerItemsFor(p)), PlayAtIndex(0),
                     Clear, AssignQueuedItems(PlayerItemsFor(q)), PlayAtIndex(1)]
  {
    var m := new PlayerManager();
    m.PlayItemWithIndex(0, p, "X");
    m.PlayItemWithIndex(1, q, "Y");
    cmds := m.commands;
  }

  /**
   * Scrubbing while playing pauses the engine and resumes it at the new second;
   * if the user had pressed pause first, the seek does not resume.
   */
  method Scrub(userPausedFirst: bool, second: int) returns (cmds: seq<EngineCmd>, pauseActive: bool)
    ensures !userPausedFirst ==> cmds == [Pause, SeekToSecond(second, true)] && !pauseActive
    ensures userPausedFirst ==> cmds == [Pause, Pause, SeekToSecond(second, false)] && pauseActive
  {
    var m := new PlayerManager();
    m.PlayerStateDidChange(EngineView(Playing, None));
    if userPausedFirst {
      m.PauseTapped();
    }
    m.SliderEditingDidBegin();
    m.SliderEditingDidEndWithSecond(second);
    cmds, pauseActive := m.commands, m.isPauseActive;
  }

  /**
   * Scrubbing while the engine is not playing sends no pause: only the seek is sent,
   * and it resumes playback because the user did not pause.
   */
  method ScrubWhileStopped(second: int) returns (cmds: seq<EngineCmd>)
    ensures cmds == [SeekToSecond(second, true)]
  {
    var m := new PlayerManager();
    m.SliderEditingDidBegin();
    m.SliderEditingDidEndWithSecond(second);
    cmds := m.commands;
  }

  /**
   * From an empty coordinator with delegates `a` and `b` (`a` registered twice), load
   * a two-track playlist and let the engine report the first item: the title is copied
   * and each delegate is told once, in registration order.
   */
  method FirstItemReachesDelegates(a: ObserverId, b: ObserverId, trackA: Track, trackB: Track, length: real)
    returns (title: Option<string>, delivered: seq<Delivery>, cmds: seq<EngineCmd>)
    requires a != b
    ensures title == Some(trackA.title)
    ensures cmds == [Clear, AssignQueuedItems([ItemFor(trackA), ItemFor(trackB)]), PlayAtIndex(0)]
    ensures delivered == [(a, GetNewItem(PlayerItem(trackA, Some(trackA.title), Some(trackA.artist), Some(length), None))),
                          (b, GetNewItem(PlayerItem(trackA, Some(trackA.title), Some(trackA.artist), Some(length), None)))]
  {
    var m := new PlayerManager();
    m.AddDelegate(a);
    m.AddDelegate(b);
    m.AddDelegate(a);
    m.PlayItemWithIndex(0, [trackA, trackB], "playlist-1");
    assert PlayerItemsFor([trackA, trackB]) == [ItemFor(trackA), ItemFor(trackB)];
    // The item the engine reports once it starts the first track.
    var current := PlayerItem(trackA, Some(trackA.title), Some(trackA.artist), Some(length), None);
    m.PlayerCurrentItemDidChange(EngineView(Playing, Some(current)));
    title, delivered, cmds := m.trackTitle, m.notifications, m.commands;
  }

  /** After `k` presses of the repeat button from the start, the mode is `[No, All, One][k % 3]`. */
  method RepeatPresses(k: nat) returns (mode: RepeatType)
    ensures mode == [No, All, One][k % 3]
  {
    var m := new PlayerManager();
    var i := 0;
    while i < k
      invariant 0 <= i <= k
      invariant m.repeatType == Iterate(No, i)
    {
      m.RepeatButtonTapped();
      i := i + 1;
    }
    IterateFromNo(k);
    mode := m.repeatType;
  }

  /** Pressing shuffle twice restores the session; each press told every delegate once. */
  method ShuffleTwice(m: PlayerManager)
    modifies m
    ensures m.Snapshot() == old(m.Snapshot())
    ensures m.delegates == old(m.delegates) && m.commands == old(m.commands)
    ensures m.notifications == old(m.notifications)
      + FanOut(m.delegates, ShuffleSettingChangedTo(!old(m.isShuffle)))
      + FanOut(m.delegates, ShuffleSettingChangedTo(old(m.isShuffle)))
  {
    m.ShuffleButtonTapped();
    m.ShuffleButtonTapped();
  }

  /** Pressing share-to-status twice restores the session. */
  method ShareToStatusTwice(m: PlayerManager)
    modifies m
    ensures m.Snapshot() == old(m.Snapshot())
    ensures m.delegates == old(m.delegates) && m.commands == old(m.commands)
    ensures m.notifications == old(m.notifications)
      + FanOut(m.delegates, ShareToStatusSettingChangedTo(!old(m.isShareToStatus)))
      + FanOut(m.delegates, ShareToStatusSettingChangedTo(old(m.isShareToStatus)))
  {
    m.ShareToStatusButtonTapped();
    m.ShareToStatusButtonTapped();
  }
}
