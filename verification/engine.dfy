/**
 * The media engine (videojs) as the component sees it: a read-only snapshot
 * taken when an event or a command is handled. The engine itself is external.
 */
module Engine {
  import opened Wrappers

  /** A marker configured in the markers plugin. */
  datatype Marker = Marker(time: real, duration: real, text: string, identifier: string)

  /**
   * What the component reads from the engine while it handles one event:
   * `player.currentTime()`, `player.duration()`, `player.playbackRate()`,
   * `player.volume()`, `player.markers.getMarkers()` (None when the markers
   * plugin offers no `getMarkers`), and the wall clock `new Date().getTime()`
   * in milliseconds.
   */
  datatype Snapshot = Snapshot(
    currentTime: real,
    duration: real,
    playbackRate: real,
    volume: real,
    markers: Option<seq<Marker>>,
    now: int)
}
