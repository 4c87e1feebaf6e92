/**
 * The user's library as the application holds it: one list panel per
 * `ActiveBlock`, each with a name, its rows and its own cursor.
 */
module Library {
  import opened Wrappers
  import opened Cursor
  import opened Navigation

  /** A playlist as listed among the user's playlists; `id` is what a fetch needs. */
  datatype SimplifiedPlaylist = SimplifiedPlaylist(id: string, name: string)
  datatype Track = Track(name: string)
  datatype Artist = Artist(name: string)
  datatype PlaylistItem = PlaylistItem(name: string)

  /** A fetched playlist: its name and the first page of its tracks. */
  datatype FullPlaylist = FullPlaylist(name: string, tracks: seq<Option<PlaylistItem>>)

  /** A list panel: its title, its rows and its cursor. */
  datatype Panel<T> = Panel(name: string, list: seq<T>, listState: ListState)

  datatype UserLibrary = UserLibrary(
    selectedState: ListState,
    directory: Panel<string>,
    userPlaylists: Panel<Option<SimplifiedPlaylist>>,
    userTopTracks: Panel<Option<Track>>,
    userTopArtists: Panel<Option<Artist>>,
    playlist: Panel<Option<PlaylistItem>>)

  /** The cursor of the panel that `b` names. */
  function CursorOf(lib: UserLibrary, b: ActiveBlock): ListState
  {
    match b
    case Directory => lib.directory.listState
    case UserPlaylists => lib.userPlaylists.listState
    case UserTopTracks => lib.userTopTracks.listState
    case UserTopArtists => lib.userTopArtists.listState
    case Playlist => lib.playlist.listState
  }

  /** Two libraries that show the same names and rows (their cursors may differ). */
  predicate SameContents(a: UserLibrary, b: UserLibrary)
  {
    && a.selectedState == b.selectedState
    && a.directory.name == b.directory.name && a.directory.list == b.directory.list
    && a.userPlaylists.name == b.userPlaylists.name && a.userPlaylists.list == b.userPlaylists.list
    && a.userTopTracks.name == b.userTopTracks.name && a.userTopTracks.list == b.userTopTracks.list
    && a.userTopArtists.name == b.userTopArtists.name && a.userTopArtists.list == b.userTopArtists.list
    && a.playlist.name == b.playlist.name && a.playlist.list == b.playlist.list
  }

  /** The library with the cursor of panel `b` replaced by `c` and everything else kept. */
  function WithCursor(lib: UserLibrary, b: ActiveBlock, c: ListState): (r: UserLibrary)
    ensures CursorOf(r, b) == c
    ensures forall other :: other != b ==> CursorOf(r, other) == CursorOf(lib, other)
    ensures SameContents(r, lib)
  {
    match b
    case Directory => lib.(directory := lib.directory.(listState := c))
    case UserPlaylists => lib.(userPlaylists := lib.userPlaylists.(listState := c))
    case UserTopTracks => lib.(userTopTracks := lib.userTopTracks.(listState := c))
    case UserTopArtists => lib.(userTopArtists := lib.userTopArtists.(listState := c))
    case Playlist => lib.(playlist := lib.playlist.(listState := c))
  }
}
