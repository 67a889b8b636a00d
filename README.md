# PlayerManager playback coordinator, modelled in Dafny

This project models `PlayerManager`, the playback coordinator of the VkPlaylist
iOS music player. It covers the following:

- **Session state.** The coordinator holds the playlist identifier, the playing
  and paused-by-user flags, the track snapshot (title, artist, duration and the
  clamped current time), the shuffle and share-to-status toggles, and the repeat
  mode.
- **Delegate registry.** Observers are kept in order and compared by identity.
- **User-intent operations.** These forward transport commands to the external
  queue engine.
- **Engine callbacks.** These update the snapshot and notify every delegate, in
  registry order.

The engine is external. It is represented twice:

- by the log `commands` of the commands the coordinator sends to it;
- by an `EngineView` value that each callback receives. This value holds the
  engine state and the current item that the callback reads.

The delegates are external too. What they are told is the log `notifications`,
a sequence of (delegate, event) pairs.

Modules:

- `Wrappers`: `Option`.
- `RepeatCycle`: the repeat mode `No | All | One` and its rotation.
- `Registry`: observer identities, the linear search `IndexOf`, and the
  specifications of adding (`Added`) and removing (`Without`).
- `Engine`: tracks, queue items, engine states, engine commands, and the
  conversion of a playlist into queue items.
- `Notifications`: the delegate protocol's events, and the fan-out of one event
  (`FanOut`) with its exactly-once lemmas.
- `Manager`: the class `PlayerManager`.
- `Scenarios`: client runs of the class that derive the promised behaviour of
  whole call sequences from the method contracts.

In these details the model follows the code exactly:

- `playerStateDidChange` reads only `player.state`. `PlayerStateDidChange`
  therefore has no precondition on the current item. The other two callbacks
  force-unwrap the item, and their precondition says so.
- `progress` has no zero guard. The model keeps the numerator and the
  denominator (`Progress(currentTime, duration)`) and performs no division.
- Swift's `forEach` iterates over a copy of the `delegates` array. A delegate
  removed during a fan-out therefore still receives the event being delivered.
  `Broadcast` iterates over a snapshot in the same way. Reentrant calls from a
  delegate are not modelled (see below).

## Model

| member | source | states |
|---|---|---|
| `Registry.IndexOf` | VkPlaylist/PlayerManager.swift:43 | returns the first position holding the identity, or `None` exactly when it is absent |
| `Registry.Added` | VkPlaylist/PlayerManager.swift:42-48 | the old registry is a prefix of the result; the result holds exactly the old entries plus `d`; it grows only when `d` was absent; it stays duplicate-free |
| `Registry.AddedIdempotent` | VkPlaylist/PlayerManager.swift:42-48 | adding the same delegate twice equals adding it once |
| `Registry.Without` | VkPlaylist/PlayerManager.swift:51-55 | the removed identity is gone; every other identity is present exactly when it was before |
| `Registry.WithoutAbsent` | VkPlaylist/PlayerManager.swift:51-55 | removing an unregistered delegate leaves the registry unchanged |
| `Registry.WithoutAt` | VkPlaylist/PlayerManager.swift:51-55 | in a duplicate-free registry, removal drops exactly the entry at the found index and keeps all others in order |
| `Registry.WithoutKeepsNoDuplicates` | VkPlaylist/PlayerManager.swift:51-55 | removal keeps the registry duplicate-free and shortens it by one exactly when the delegate was present |
| `RepeatCycle.Successor` | VkPlaylist/PlayerManager.swift:206-215 | the next mode is one step further in the rotation No, All, One (modulo three) and differs from the current one |
| `RepeatCycle.ThreePressesReturn` | VkPlaylist/PlayerManager.swift:206-215 | three advances return to the starting mode |
| `RepeatCycle.IteratePosition` | VkPlaylist/PlayerManager.swift:206-215 | k advances move the position by k modulo three |
| `RepeatCycle.IterateFromNo` | VkPlaylist/PlayerManager.swift:206-215 | starting from No, the mode after k advances is `[No, All, One][k % 3]` |
| `RepeatCycle.IteratePeriodic` | VkPlaylist/PlayerManager.swift:206-215 | the rotation has period three from every mode |
| `Engine.ItemFor` | VkPlaylist/PlayerManager.swift:127 | the queue item made from a track remembers that track |
| `Engine.PlayerItemsFor` | VkPlaylist/PlayerManager.swift:124-128 | one item per track, same length, item i made from track i |
| `Engine.PlayerItemsKeepTracks` | VkPlaylist/PlayerManager.swift:124-128 | the tracks of the built queue are exactly the playlist, in order |
| `Engine.MakePlayerItems` | VkPlaylist/PlayerManager.swift:124-128 | the append loop builds exactly `PlayerItemsFor(playlist)` |
| `Notifications.FanOut` | VkPlaylist/PlayerManager.swift:179-181 | one delivery per registered delegate, the i-th delivery going to the i-th delegate with the event |
| `Notifications.FanOutDeliversOnce` | VkPlaylist/PlayerManager.swift:179-181 | for a duplicate-free registry, each registered delegate receives the event exactly once and nobody else receives it |
| `Notifications.AddTwiceDeliversOnce` | VkPlaylist/PlayerManager.swift:42-48 | a delegate registered twice still receives one delivery per event |
| `Notifications.RemovedDelegateIsSkipped` | VkPlaylist/PlayerManager.swift:51-55 | after removal, a fan-out never reaches the removed delegate and reaches every other registered delegate exactly once |
| `Manager.ClampedTime` | VkPlaylist/PlayerManager.swift:93-99 | the stored time is max(v, 0): never negative, at least v, and either v or 0 |
| `Manager.PlayerManager.constructor` | VkPlaylist/PlayerManager.swift:77-110 | the initial session: no playlist, not playing, no pause, no track, zero times, toggles off, repeat No; no delegates, commands or notifications |
| `Manager.PlayerManager.SetCurrentTime` | VkPlaylist/PlayerManager.swift:93-99 | after writing v, `currentTime` is `ClampedTime(v)` |
| `Manager.PlayerManager.AddDelegate` | VkPlaylist/PlayerManager.swift:42-48 | the registry becomes `Added(old, d)` and stays duplicate-free |
| `Manager.PlayerManager.DeleteDelegate` | VkPlaylist/PlayerManager.swift:51-55 | the registry becomes `Without(old, d)` and stays duplicate-free |
| `Manager.PlayerManager.Broadcast` | VkPlaylist/PlayerManager.swift:179-181 | the notification log grows by exactly `FanOut(delegates, e)`; nothing else changes |
| `Manager.PlayerManager.PlayItemWithIndex` | VkPlaylist/PlayerManager.swift:116-134 | always clears the pause flag. Same identifier: only `PlayAtIndex(index)` is sent. Otherwise: the identifier is stored and Clear, Assign of the converted playlist, and `PlayAtIndex(index)` are sent. No other field changes |
| `Manager.PlayerManager.SliderEditingDidBegin` | VkPlaylist/PlayerManager.swift:140-144 | sends Pause exactly when playing; changes no session field |
| `Manager.PlayerManager.SliderEditingDidEndWithSecond` | VkPlaylist/PlayerManager.swift:147-149 | sends a seek to the second, with resume exactly when the user did not pause |
| `Manager.PlayerManager.PreviousTapped` | VkPlaylist/PlayerManager.swift:152-154 | sends PlayPrevious and changes no session field |
| `Manager.PlayerManager.PlayTapped` | VkPlaylist/PlayerManager.swift:157-161 | sends Play and clears the pause flag, nothing else |
| `Manager.PlayerManager.PauseTapped` | VkPlaylist/PlayerManager.swift:164-168 | sends Pause and sets the pause flag, nothing else |
| `Manager.PlayerManager.NextTapped` | VkPlaylist/PlayerManager.swift:171-173 | sends PlayNext and changes no session field |
| `Manager.PlayerManager.ShareToStatusButtonTapped` | VkPlaylist/PlayerManager.swift:176-182 | flips only the share flag; every delegate is told the new value once, in order |
| `Manager.PlayerManager.RepeatButtonTapped` | VkPlaylist/PlayerManager.swift:185-191 | the mode advances one step of the rotation; every delegate is told the new mode once, in order |
| `Manager.PlayerManager.ShuffleButtonTapped` | VkPlaylist/PlayerManager.swift:194-200 | flips only the shuffle flag; every delegate is told the new value once, in order |
| `Manager.PlayerManager.NextRepeatType` | VkPlaylist/PlayerManager.swift:206-215 | the mode becomes its successor in the rotation |
| `Manager.PlayerManager.PlayerStateDidChange` | VkPlaylist/PlayerManager.swift:225-231 | `isPlaying` holds exactly when the engine state is Playing; every delegate gets the state once, in order |
| `Manager.PlayerManager.PlayerPlaybackProgressDidChange` | VkPlaylist/PlayerManager.swift:234-240 | requires a current item with a position. Stores the clamped position. Every delegate gets the new progress once, in order |
| `Manager.PlayerManager.PlayerCurrentItemDidChange` | VkPlaylist/PlayerManager.swift:243-251 | requires a current item with a duration. Copies its title, artist and duration. Every delegate gets the item once, in order |
| `Scenarios.FastPathLoad` | VkPlaylist/PlayerManager.swift:116-134 | two loads under one identifier: one Clear and one Assign (of the first playlist), then PlayAtIndex 2 and PlayAtIndex 5 |
| `Scenarios.SlowPathLoad` | VkPlaylist/PlayerManager.swift:116-134 | a load under a new identifier replaces the queue again |
| `Scenarios.Scrub` | VkPlaylist/PlayerManager.swift:140-168 | for every seek second, a scrub while playing pauses and then seeks there with resume; after a user pause, the seek does not resume and the pause flag stays set |
| `Scenarios.ScrubWhileStopped` | VkPlaylist/PlayerManager.swift:140-149 | for every seek second, a scrub while not playing sends only the seek, with resume |
| `Scenarios.FirstItemReachesDelegates` | VkPlaylist/PlayerManager.swift:243-251 | after a load and an item-changed event, the title is the first track's title and each delegate gets the new item once, in registration order, even if registered twice |
| `Scenarios.RepeatPresses` | VkPlaylist/PlayerManager.swift:185-191 | k presses from the start leave the mode at `[No, All, One][k % 3]` |
| `Scenarios.ShuffleTwice` | VkPlaylist/PlayerManager.swift:194-200 | two shuffle presses restore the session; the two notifications carry the flipped value and then the original value |
| `Scenarios.ShareToStatusTwice` | VkPlaylist/PlayerManager.swift:176-182 | two share-to-status presses restore the session; the two notifications carry the flipped value and then the original value |

## Left out

- The `sharedInstance` singleton and its once-only guard (lines 15-26) are not
  modelled. They concern process lifetime and concurrency, so the model
  constructs one object explicitly.
- The storyboard set-up in `init` and the mini-player forwarding
  (`hideMiniPlayerAnimated`, `showMiniPlayerAnimated`, lines 28-33 and 61-71)
  are not modelled. They are UIKit presentation only.
- The queue engine `Player` is outside the model. Its source is not part of this
  model. Its commands are recorded in `commands`, and its callbacks receive an
  `EngineView`.
- The engine's state type is not part of the source. The model gives it
  `Playing` and four placeholder states. Only the test against `Playing`
  matters.
- `PlayerItem(onlineTrack:)` is defined outside this model. `ItemFor` stands in
  for it. It keeps the track, takes title and artist from it, and leaves
  duration and position for the engine to report. The coordinator's contracts
  rely only on the conversion being applied to each track, in order. In
  `Scenarios.FirstItemReachesDelegates`, the item the engine reports is written
  out in full, so that scenario does not depend on what `ItemFor` fills in.
- The delegates' own reactions are not modelled. This includes a delegate that
  calls back into the coordinator, for example to remove itself during a
  fan-out.
- The `progress` division `Float(currentTime / duration)` is not computed. With
  no zero guard it is undefined when the duration is 0, so the event carries the
  two operands instead.
- `Double` is modelled as the mathematical reals. NaN, infinities and rounding
  are not captured. In Swift a NaN written to `currentTime` is not negative, so
  it would be kept.
- Swift `String` equality (canonical equivalence) is modelled as equality of
  character sequences.
- The delegate array holds strong references in the source. Reference
  ownership is not modelled.
- The force-unwraps in `playerPlaybackProgressDidChange` and
  `playerCurrentItemDidChange` are modelled as preconditions. The model has no
  run-time trap.
- `VkPlaylist/MainTabBarController.swift` is not modelled: it is view layout
  and animation.
- `VkPlaylist/TableViewCellIdentifiers.swift` is not modelled: it holds only
  string constants.
