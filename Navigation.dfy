/**
 * The panels of the application and the route between them: which panel
 * has the keyboard (`active`) and which panel Tab enters from the
 * directory (`hovered`).
 */
module Navigation {
  import opened Wrappers

  datatype ActiveBlock = Directory | UserPlaylists | UserTopTracks | UserTopArtists | Playlist

  datatype Route = Route(active: ActiveBlock, hovered: ActiveBlock)

  /** The panels the directory entries lead to, in the order the directory lists them. */
  const DirectoryEntries: seq<ActiveBlock> := [UserPlaylists, UserTopTracks, UserTopArtists]

  /**
   * The route invariant every reachable state keeps: either the directory
   * has the keyboard, or the active panel is the one Tab enters from the directory.
   */
  predicate Coherent(r: Route)
  {
    r.active == Directory || r.active == r.hovered
  }

  /** The Tab transition: leave a content panel for the directory, or enter the hovered panel from it. */
  function Next(r: Route): (n: Route)
    ensures n.hovered == r.hovered
    ensures r.active == Directory ==> n.active == r.hovered
    ensures r.active != Directory ==> n.active == Directory
    ensures Coherent(n)
  {
    match r.active
    case Directory => r.(active := r.hovered)
    case _ => r.(active := Directory)
  }

  /** The panel that selecting a directory row leads to; any row but the three entries stays in the directory. */
  function DirectoryTarget(selected: Option<int>): (b: ActiveBlock)
    ensures selected.Some? && 0 <= selected.value < |DirectoryEntries| ==> b == DirectoryEntries[selected.value]
    ensures !(selected.Some? && 0 <= selected.value < |DirectoryEntries|) ==> b == Directory
    ensures b != Playlist
  {
    match selected
    case Some(0) => UserPlaylists
    case Some(1) => UserTopTracks
    case Some(2) => UserTopArtists
    case _ => Directory
  }

  /** On a coherent route, pressing Tab twice comes back to where it started. */
  lemma NextTwiceRestores(r: Route)
    requires Coherent(r)
    ensures Next(Next(r)) == r
  {
  }

  /** Without the invariant the round trip fails: from a panel other than the hovered one, Tab twice lands elsewhere. */
  lemma NextTwiceNeedsCoherence(r: Route)
    requires !Coherent(r)
    ensures Next(Next(r)).active == r.hovered != r.active
  {
  }
}
