/**
 * The playback coordinator `PlayerManager`: session state, the delegate
 * registry, user-intent operations that send commands to the engine, and the
 * engine callbacks that update the snapshot and notify every delegate.
 *
 * The engine is recorded as the log `commands` of what was sent to it; the
 * delegates' reactions are recorded as the log `notifications`.
 */
module Manager {

  import opened Wrappers
  import opened RepeatCycle
  import opened Registry
  import opened Engine
  import opened Notifications

  /** The scalar session fields of the coordinator, as one value. */
  datatype Session = Session(
    playlistIdentifier: Option<string>,
    isPlaying: bool,
    isPauseActive: bool,
    trackTitle: Option<string>,
    artist: Option<string>,
    duration: real,
    currentTime: real,
    isShareToStatus: bool,
    isShuffle: bool,
    repeatType: RepeatType)

  /** The value `currentTime` holds after `v` is written to it: the larger of `v` and 0. */
  function ClampedTime(v: real): (r: real)
    ensures r >= 0.0 && r >= v
    ensures r == v || r == 0.0
  {
    if v < 0.0 then 0.0 else v
  }

  class PlayerManager {
    var delegates: seq<ObserverId>

    var playlistIdentifier: Option<string>
    var isPlaying: bool
    var isPauseActive: bool
    var trackTitle: Option<string>
    var artist: Option<string>
    var duration: real
    var currentTime: real
    var isShareToStatus: bool
    var isShuffle: bool
    var repeatType: RepeatType

    /** Commands sent to the engine, oldest first. */
    var commands: seq<EngineCmd>
    /** Notifications delivered to delegates, oldest first. */
    var notifications: seq<Delivery>

    ghost predicate Valid()
      reads this
    {
      NoDuplicates(delegates) && currentTime >= 0.0
    }

    function Snapshot(): Session
      reads this
    {
      Session(playlistIdentifier, isPlaying, isPauseActive, trackTitle, artist,
              duration, currentTime, isShareToStatus, isShuffle, repeatType)
    }

    constructor ()
      ensures Valid()
      ensures Snapshot() == Session(None, false, false, None, None, 0.0, 0.0, false, false, No)
      ensures delegates == [] && commands == [] && notifications == []
    {
      delegates := [];
      playlistIdentifier := None;
      isPlaying := false;
      isPauseActive := false;
      trackTitle := None;
      artist := None;
      duration := 0.0;
      currentTime := 0.0;
      isShareToStatus := false;
      isShuffle := false;
      repeatType := No;
      commands := [];
      notifications := [];
    }

    // Delegates

    /** Registers `d` unless an identical delegate is already registered. */
    method AddDelegate(d: ObserverId)
      requires Valid()
      modifies this`delegates
      ensures Valid()
      ensures delegates == Added(old(delegates), d)
    {
      var found := IndexOf(delegates, d);
      if found.Some? {
        return;
      }
      delegates := delegates + [d];
    }

    /** Unregisters `d`; does nothing when it is not registered. */
    method DeleteDelegate(d: ObserverId)
      requires Valid()
      modifies this`delegates
      ensures Valid()
      ensures delegates == Without(old(delegates), d)
    {
      WithoutKeepsNoDuplicates(delegates, d);
      var found := IndexOf(delegates, d);
      if found.Some? {
        var index := found.value;
        WithoutAt(delegates, d, index);
        delegates := delegates[..index] + delegates[index + 1..];
      } else {
        WithoutAbsent(delegates, d);
      }
    }

    /** Delivers `e` to every delegate registered when the fan-out starts, in order. */
    method Broadcast(e: Event)
      modifies this`notifications
      ensures notifications == old(notifications) + FanOut(delegates, e)
    {
      var targets := delegates;
      var i := 0;
      while i < |targets|
        invariant 0 <= i <= |targets|
        invariant notifications == old(notifications) + FanOut(targets[..i], e)
      {
        FanOutAppend(targets[..i], targets[i], e);
        assert targets[..i + 1] == targets[..i] + [targets[i]];
        notifications := notifications + [(targets[i], e)];
        i := i + 1;
      }
      assert targets[..i] == targets;
    }

    // Properties

    /** Writes `currentTime`; a negative value is replaced by 0 (the `didSet` observer). */
    method SetCurrentTime(v: real)
      modifies this`currentTime
      ensures currentTime == ClampedTime(v)
    {
      currentTime := v;
      if currentTime < 0.0 {
        currentTime := 0.0;
      }
    }

    // Starting playback

    /**
     * Plays track `index` of `playlist`. If the playlist with this identifier is
     * already loaded, the engine only jumps to `index` (even if `playlist` differs);
     * otherwise the engine's queue is cleared and refilled first.
     */
    method PlayItemWithIndex(index: int, playlist: seq<Track>, identifier: string)
      modifies this`isPauseActive, this`playlistIdentifier, this`commands
      ensures old(playlistIdentifier) == Some(identifier) ==>
        Snapshot() == old(Snapshot()).(isPauseActive := false) &&
        commands == old(commands) + [PlayAtIndex(index)]
      ensures old(playlistIdentifier) != Some(identifier) ==>
        Snapshot() == old(Snapshot()).(isPauseActive := false, playlistIdentifier := Some(identifier)) &&
        commands == old(commands) + [Clear, AssignQueuedItems(PlayerItemsFor(playlist)), PlayAtIndex(index)]
    {
      isPauseActive := false;
      if playlistIdentifier.Some? && playlistIdentifier.value == identifier {
        commands := commands + [PlayAtIndex(index)];
      } else {
        playlistIdentifier := Some(identifier);
        var playerItems := MakePlayerItems(playlist);
        commands := commands + [Clear];
        commands := commands + [AssignQueuedItems(playerItems)];
        commands := commands + [PlayAtIndex(index)];
      }
    }

    // Playback control

    /** The user started dragging the progress slider: pause the engine if it plays. */
    method SliderEditingDidBegin()
      modifies this`commands
      ensures commands == old(commands) + (if isPlaying then [Pause] else [])
    {
      if isPlaying {
        commands := commands + [Pause];
      }
    }

    /** The user released the slider at `second`: seek, resuming unless the user paused. */
    method SliderEditingDidEndWithSecond(second: int)
      modifies this`commands
      ensures commands == old(commands) + [SeekToSecond(second, !isPauseActive)]
    {
      commands := commands + [SeekToSecond(second, !isPauseActive)];
    }

    method PreviousTapped()
      modifies this`commands
      ensures commands == old(commands) + [PlayPrevious]
    {
      commands := commands + [PlayPrevious];
    }

    method PlayTapped()
      modifies this`commands, this`isPauseActive
      ensures commands == old(commands) + [Play]
      ensures Snapshot() == old(Snapshot()).(isPauseActive := false)
    {
      commands := commands + [Play];
      isPauseActive := false;
    }

    method PauseTapped()
      modifies this`commands, this`isPauseActive
      ensures commands == old(commands) + [Pause]
      ensures Snapshot() == old(Snapshot()).(isPauseActive := true)
    {
      commands := commands + [Pause];
      isPauseActive := true;
    }

    method NextTapped()
      modifies this`commands
      ensures commands == old(commands) + [PlayNext]
    {
      commands := commands + [PlayNext];
    }

    /** Flips sharing to the status and notifies every delegate of the new value. */
    method ShareToStatusButtonTapped()
      modifies this`isShareToStatus, this`notifications
      ensures Snapshot() == old(Snapshot()).(isShareToStatus := !old(isShareToStatus))
      ensures notifications == old(notifications) + FanOut(delegates, ShareToStatusSettingChangedTo(isShareToStatus))
    {
      isShareToStatus := !isShareToStatus;
      Broadcast(ShareToStatusSettingChangedTo(isShareToStatus));
    }

    /** Advances the repeat mode and notifies every delegate of the new mode. */
    method RepeatButtonTapped()
      modifies this`repeatType, this`notifications
      ensures Snapshot() == old(Snapshot()).(repeatType := Successor(old(repeatType)))
      ensures notifications == old(notifications) + FanOut(delegates, RepeatTypeDidChange(repeatType))
    {
      NextRepeatType();
      Broadcast(RepeatTypeDidChange(repeatType));
    }

    /** Flips shuffling and notifies every delegate of the new value. */
    method ShuffleButtonTapped()
      modifies this`isShuffle, this`notifications
      ensures Snapshot() == old(Snapshot()).(isShuffle := !old(isShuffle))
      ensures notifications == old(notifications) + FanOut(delegates, ShuffleSettingChangedTo(isShuffle))
    {
      isShuffle := !isShuffle;
      Broadcast(ShuffleSettingChangedTo(isShuffle));
    }

    // Helpers

    method NextRepeatType()
      modifies this`repeatType
      ensures repeatType == Successor(old(repeatType))
    {
      match repeatType
      case No => repeatType := All;
      case All => repeatType := One;
      case One => repeatType := No;
    }

    // Engine callbacks

    /** The engine changed state: record whether it plays and pass the state on. */
    method PlayerStateDidChange(player: EngineView)
      modifies this`isPlaying, this`notifications
      ensures isPlaying <==> player.state == Playing
      ensures Snapshot() == old(Snapshot()).(isPlaying := isPlaying)
      ensures notifications == old(notifications) + FanOut(delegates, GetNewState(player.state))
    {
      isPlaying := player.state == Playing;
      Broadcast(GetNewState(player.state));
    }

    /**
     * The engine reported progress: store the current item's position (clamped)
     * and pass the new progress on. The source force-unwraps the current item
     * and its position.
     */
    method PlayerPlaybackProgressDidChange(player: EngineView)
      requires player.currentItem.Some? && player.currentItem.value.currentTime.Some?
      modifies this`currentTime, this`notifications
      ensures currentTime == ClampedTime(player.currentItem.value.currentTime.value)
      ensures Snapshot() == old(Snapshot()).(currentTime := currentTime)
      ensures notifications == old(notifications) +
        FanOut(delegates, CurrentItemGetNewTimerProgress(Progress(currentTime, duration)))
    {
      SetCurrentTime(player.currentItem.value.currentTime.value);
      Broadcast(CurrentItemGetNewTimerProgress(Progress(currentTime, duration)));
    }

    /**
     * The engine moved to another item: copy its title, artist and duration and
     * pass the item on. The source force-unwraps the item and its duration.
     */
    method PlayerCurrentItemDidChange(player: EngineView)
      requires player.currentItem.Some? && player.currentItem.value.duration.Some?
      modifies this`trackTitle, this`artist, this`duration, this`notifications
      ensures Snapshot() == old(Snapshot()).(
        trackTitle := player.currentItem.value.title,
        artist := player.currentItem.value.artist,
        duration := player.currentItem.value.duration.value)
      ensures notifications == old(notifications) + FanOut(delegates, GetNewItem(player.currentItem.value))
    {
      var item := player.currentItem.value;
      trackTitle := item.title;
      artist := item.artist;
      duration := item.duration.value;
      Broadcast(GetNewItem(item));
    }
  }
}
