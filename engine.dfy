/**
 * What the coordinator sees of the external queue engine: the tracks it is
 * given, the items it plays, the commands it receives and the view of its
 * state that its callbacks read.
 */
module Engine {

  import opened Wrappers

  /** A track of an online playlist, as handed to the coordinator. */
  datatype Track = Track(title: string, artist: string, duration: int, url: string)

  /**
   * An item of the engine's queue. `source` is the track it was made from; the
   * other fields are what the engine reports for it (all optional, as in the source).
   */
  datatype PlayerItem = PlayerItem(
    source: Track,
    title: Option<string>,
    artist: Option<string>,
    duration: Option<real>,
    currentTime: Option<real>)

  /** The engine's playback states; the coordinator only distinguishes `Playing`. */
  datatype PlayerState = Ready | Playing | Paused | Loading | Failed

  /** The commands the coordinator sends to the engine. */
  datatype EngineCmd =
    | PlayAtIndex(index: int)
    | Play
    | Pause
    | SeekToSecond(second: int, shouldPlay: bool)
    | PlayNext
    | PlayPrevious
    | Clear
    | AssignQueuedItems(items: seq<PlayerItem>)

  /** What an engine callback reads from the engine it is handed. */
  datatype EngineView = EngineView(state: PlayerState, currentItem: Option<PlayerItem>)

  /**
   * The item made from a track for the engine's queue (`PlayerItem(onlineTrack:)`).
   * It remembers its track; the engine fills in duration and position while playing.
   */
  function ItemFor(t: Track): (item: PlayerItem)
    ensures item.source == t
  {
    PlayerItem(t, Some(t.title), Some(t.artist), None, None)
  }

  /** One queue item per track of the playlist, in playlist order. */
  function PlayerItemsFor(playlist: seq<Track>): (items: seq<PlayerItem>)
    ensures |items| == |playlist|
    ensures forall i :: 0 <= i < |playlist| ==> items[i] == ItemFor(playlist[i])
  {
    if playlist == [] then []
    else [ItemFor(playlist[0])] + PlayerItemsFor(playlist[1..])
  }

  /** Converting a playlist loses no track: the items give back the playlist. */
  lemma {:induction false} PlayerItemsKeepTracks(playlist: seq<Track>)
    ensures Sources(PlayerItemsFor(playlist)) == playlist
  {
    if playlist != [] {
      PlayerItemsKeepTracks(playlist[1..]);
      assert PlayerItemsFor(playlist)[1..] == PlayerItemsFor(playlist[1..]);
    }
  }

  /** The tracks an item list was made from. */
  function Sources(items: seq<PlayerItem>): seq<Track>
  {
    if items == [] then [] else [items[0].source] + Sources(items[1..])
  }

  /**
   * The loop that builds the queue for a new playlist (`playItemWithIndex`'s
   * `for track in playlist { playerItems.append(...) }`).
   */
  method MakePlayerItems(playlist: seq<Track>) returns (playerItems: seq<PlayerItem>)
    ensures playerItems == PlayerItemsFor(playlist)
  {
    playerItems := [];
    for i := 0 to |playlist|
      invariant |playerItems| == i
      invariant forall j :: 0 <= j < i ==> playerItems[j] == ItemFor(playlist[j])
    {
      playerItems := playerItems + [ItemFor(playlist[i])];
    }
  }
}
