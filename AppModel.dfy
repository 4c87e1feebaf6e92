/**
 * The application's state as a value, and the transitions of its main
 * loop as functions of that value: what `next`, `select`, `up`, `down`,
 * `quit` and the key handler do, one event of the loop, and the loop run
 * over everything waiting on the event channel.
 */
module AppModel {
  import opened Wrappers
  import opened Cursor
  import opened Navigation
  import opened Library
  import Keys

  /** What the event channel delivers to the main loop. */
  datatype Event = Tick | Key(key: Keys.KeyEvent) | OtherTerminal | App(event: Keys.AppEvent)

  /** The ways a transition aborts the process: an index past the list, `unwrap` on `None`, a failed fetch, `todo!()`. */
  datatype Panic = IndexOutOfBounds | MissingPlaylist | FetchFailed | NotImplemented

  datatype Outcome<T> = Done(value: T) | Panicked(reason: Panic)

  /** The running flag, the library panels, the route and the events waiting on the channel, oldest first. */
  datatype AppState = AppState(running: bool, library: UserLibrary, route: Route, queue: seq<Event>)

  /** The playlist request, by playlist id; `None` stands for a request that failed. */
  type Fetch = string -> Option<FullPlaylist>

  /** The rows of the directory panel; row `i` leads to `DirectoryEntries[i]`. */
  const DirectoryLabels: seq<string> := ["Playlists", "Top Tracks", "Top Artists"]

  /** What every reachable state satisfies: a coherent route and the directory's three fixed rows. */
  predicate Valid(s: AppState)
  {
    Coherent(s.route) && s.library.directory.list == DirectoryLabels
  }

  /** The state `App::new` builds. */
  function Initial(): (s: AppState)
    ensures Valid(s) && s.running && s.queue == []
    ensures s.route.active == Directory && s.route.hovered == UserPlaylists
    ensures |s.library.directory.list| == |DirectoryEntries|
    ensures s.library.userPlaylists.list == [] && s.library.userTopTracks.list == []
    ensures s.library.userTopArtists.list == [] && s.library.playlist.list == []
    ensures forall b :: CursorOf(s.library, b) == Default()
  {
    var lib := UserLibrary(
      Default(),
      Panel("Directory", DirectoryLabels, Default()),
      Panel("My Playlists", [], Default()),
      Panel("My Top Tracks", [], Default()),
      Panel("My Top Artists", [], Default()),
      Panel("", [], Default()));
    AppState(true, lib, Route(Directory, UserPlaylists), [])
  }

  /**
   * The Enter transition. In the directory it moves to the panel of the
   * selected row (staying put on any other row); in the playlists panel it
   * loads the selected playlist and shows it; elsewhere it is unimplemented.
   */
  function SelectState(s: AppState, fetch: Fetch): (r: Outcome<AppState>)
    ensures r.Done? ==> r.value.route.active == r.value.route.hovered
    ensures r.Done? ==> r.value.running == s.running && r.value.queue == s.queue
    ensures r.Done? ==> r.value.library.directory == s.library.directory
    ensures r == Panicked(NotImplemented) <==> s.route.active in {UserTopTracks, UserTopArtists, Playlist}
    ensures s.route.active == Directory ==>
      && r.Done? && r.value.library == s.library
      && r.value.route.active == DirectoryTarget(s.library.directory.listState.selected)
    ensures s.route.active == UserPlaylists ==>
      var sel := s.library.userPlaylists.listState.selected;
      var list := s.library.userPlaylists.list;
      && (r.Panicked? <==>
          sel.Some? && (sel.value >= |list| || list[sel.value].None? || fetch(list[sel.value].value.id).None?))
      && (r.Done? ==> r.value.route == Route(Playlist, Playlist))
      && (sel.None? ==> r == Done(s.(route := Route(Playlist, Playlist))))
      && (r.Done? && sel.Some? ==>
          var fetched := fetch(list[sel.value].value.id).value;
          && r.value.library == s.library.(playlist := Panel(fetched.name, fetched.tracks, Default())))
  {
    var lib := s.library;
    match s.route.active
    case Directory =>
      var target := DirectoryTarget(lib.directory.listState.selected);
      Done(s.(route := Route(target, target)))
    case UserPlaylists =>
      var sel := lib.userPlaylists.listState.selected;
      if sel.None? then
        Done(s.(route := Route(Playlist, Playlist)))
      else if sel.value >= |lib.userPlaylists.list| then
        Panicked(IndexOutOfBounds)
      else if lib.userPlaylists.list[sel.value].None? then
        Panicked(MissingPlaylist)
      else
        (match fetch(lib.userPlaylists.list[sel.value].value.id)
         case None => Panicked(FetchFailed)
         case Some(fetched) =>
           var shown := Panel(fetched.name, fetched.tracks, Default());
           Done(s.(library := lib.(playlist := shown), route := Route(Playlist, Playlist))))
    case _ => Panicked(NotImplemented)
  }

  /** The cursor-up key: only the active panel's cursor moves. */
  function UpState(s: AppState): (t: AppState)
    ensures t.running == s.running && t.route == s.route && t.queue == s.queue
    ensures SameContents(t.library, s.library)
    ensures CursorOf(t.library, s.route.active) == SelectPrevious(CursorOf(s.library, s.route.active))
    ensures forall b :: b != s.route.active ==> CursorOf(t.library, b) == CursorOf(s.library, b)
  {
    var a := s.route.active;
    s.(library := WithCursor(s.library, a, SelectPrevious(CursorOf(s.library, a))))
  }

  /** The cursor-down key: only the active panel's cursor moves. */
  function DownState(s: AppState): (t: AppState)
    ensures t.running == s.running && t.route == s.route && t.queue == s.queue
    ensures SameContents(t.library, s.library)
    ensures CursorOf(t.library, s.route.active) == SelectNext(CursorOf(s.library, s.route.active))
    ensures forall b :: b != s.route.active ==> CursorOf(t.library, b) == CursorOf(s.library, b)
  {
    var a := s.route.active;
    s.(library := WithCursor(s.library, a, SelectNext(CursorOf(s.library, a))))
  }

  /** The application event a key posts on the channel, if any. */
  function Posted(e: Event): seq<Event>
  {
    if e.Key? && Keys.Dispatch(e.key).Send? then [App(Keys.Dispatch(e.key).event)] else []
  }

  /** The key handler: post the bound event, or move the active cursor, or nothing. */
  function HandleKey(s: AppState, key: Keys.KeyEvent): (t: AppState)
    ensures t.running == s.running && t.route == s.route
    ensures t.queue == s.queue + Posted(Key(key))
    ensures SameContents(t.library, s.library)
    ensures Keys.Dispatch(key) == Keys.MoveUp ==> t == UpState(s)
    ensures Keys.Dispatch(key) == Keys.MoveDown ==> t == DownState(s)
    ensures Keys.Dispatch(key) !in {Keys.MoveUp, Keys.MoveDown} ==> t.library == s.library
  {
    match Keys.Dispatch(key)
    case Send(e) => s.(queue := s.queue + [App(e)])
    case MoveUp => UpState(s)
    case MoveDown => DownState(s)
    case Ignore => s
  }

  /** A key press weighs two: handling it may post one more event, of weight one. */
  function EventWeight(e: Event): nat
  {
    if e.Key? then 2 else 1
  }

  function Weight(q: seq<Event>): nat
  {
    if q == [] then 0 else EventWeight(q[0]) + Weight(q[1..])
  }

  lemma {:induction false} WeightConcat(a: seq<Event>, b: seq<Event>)
    ensures Weight(a + b) == Weight(a) + Weight(b)
  {
    if a == [] {
      assert a + b == b;
    } else {
      assert (a + b)[0] == a[0] && (a + b)[1..] == a[1..] + b;
      WeightConcat(a[1..], b);
    }
  }

  /** One turn of the main loop: take the oldest event off the channel and act on it. */
  function Step(s: AppState, fetch: Fetch): (r: Outcome<AppState>)
    requires s.queue != []
    ensures r.Done? ==> Weight(r.value.queue) < Weight(s.queue)
    ensures r.Done? && Valid(s) ==> Valid(r.value)
    ensures s.queue[0] == App(Keys.Quit) ==> r == Done(s.(queue := s.queue[1..], running := false))
    ensures r.Done? && s.queue[0] != App(Keys.Quit) ==> r.value.running == s.running
    ensures r.Done? && s.queue[0] != App(Keys.Select) ==> r.value.queue == s.queue[1..] + Posted(s.queue[0])
    ensures r.Done? && s.queue[0] == App(Keys.Select) ==> r.value.queue == s.queue[1..]
  {
    var rest := s.(queue := s.queue[1..]);
    WeightConcat(s.queue[1..], Posted(s.queue[0]));
    match s.queue[0]
    case Tick => Done(rest)
    case Key(k) => Done(HandleKey(rest, k))
    case OtherTerminal => Done(rest)
    case App(e) =>
      match e
      case Quit => Done(rest.(running := false))
      case Next => Done(rest.(route := Next(rest.route)))
      case Select => SelectState(rest, fetch)
  }

  /**
   * The main loop, run until `running` is false or the channel is empty.
   * It keeps the invariant, and it stops only at one of those two points.
   */
  function Run(s: AppState, fetch: Fetch): (r: Outcome<AppState>)
    ensures r.Done? ==> !r.value.running || r.value.queue == []
    ensures r.Done? && Valid(s) ==> Valid(r.value)
    decreases Weight(s.queue)
  {
    if !s.running || s.queue == [] then Done(s)
    else
      match Step(s, fetch)
      case Panicked(p) => Panicked(p)
      case Done(t) => Run(t, fetch)
  }

  /** Whether an event ends the loop: a posted Quit, or a key bound to Quit. */
  predicate PostsQuit(e: Event)
  {
    e == App(Keys.Quit) || (e.Key? && Keys.IsQuitKey(e.key))
  }

  predicate QuitFree(q: seq<Event>)
  {
    forall i :: 0 <= i < |q| ==> !PostsQuit(q[i])
  }

  /** Without a quit key or a Quit event on the channel, the loop runs until the channel is empty. */
  lemma {:induction false} QuitFreeRunKeepsRunning(s: AppState, fetch: Fetch)
    requires s.running && QuitFree(s.queue)
    ensures Run(s, fetch).Done? ==> Run(s, fetch).value.running && Run(s, fetch).value.queue == []
    decreases Weight(s.queue)
  {
    if s.queue != [] {
      var e := s.queue[0];
      assert !PostsQuit(e);
      match Step(s, fetch)
      case Panicked(_) =>
      case Done(t) =>
        assert Posted(e) == [] || Posted(e) == [App(Keys.Next)] || Posted(e) == [App(Keys.Select)];
        assert QuitFree(t.queue) by {
          forall i | 0 <= i < |t.queue| ensures !PostsQuit(t.queue[i]) {
            if i < |s.queue| - 1 {
              assert t.queue[i] == s.queue[i + 1];
            }
          }
        }
        QuitFreeRunKeepsRunning(t, fetch);
    }
  }

  /** A Quit event or a quit key anywhere on the channel ends the loop, unless a panic comes first. */
  lemma {:induction false} QuitOnChannelStopsRun(s: AppState, i: int, fetch: Fetch)
    requires s.running && 0 <= i < |s.queue| && PostsQuit(s.queue[i])
    ensures Run(s, fetch).Done? ==> !Run(s, fetch).value.running
    decreases Weight(s.queue)
  {
    match Step(s, fetch)
    case Panicked(_) =>
    case Done(t) =>
      assert Run(s, fetch) == Run(t, fetch);
      if s.queue[0] == App(Keys.Quit) {
        assert Run(t, fetch) == Done(t);
      } else if i > 0 {
        assert t.queue[i - 1] == s.queue[i];
        QuitOnChannelStopsRun(t, i - 1, fetch);
      } else {
        assert Keys.Dispatch(s.queue[0].key) == Keys.Send(Keys.Quit);
        var j := |t.queue| - 1;
        assert t.queue[j] == App(Keys.Quit);
        QuitOnChannelStopsRun(t, j, fetch);
      }
  }

  /** A quit key alone on the channel ends the loop: the key posts Quit, and Quit clears `running`. */
  lemma QuitKeyStopsRun(s: AppState, k: Keys.KeyEvent, fetch: Fetch)
    requires s.running && s.queue == [Key(k)] && Keys.IsQuitKey(k)
    ensures Run(s, fetch) == Done(s.(running := false, queue := []))
  {
    assert Keys.Dispatch(k) == Keys.Send(Keys.Quit);
    assert s.queue[1..] + Posted(s.queue[0]) == [App(Keys.Quit)];
    var t := s.(queue := [App(Keys.Quit)]);
    assert Step(s, fetch) == Done(t);
    var u := s.(running := false, queue := []);
    assert Step(t, fetch) == Done(u);
    assert Run(s, fetch) == Run(t, fetch);
    assert Run(t, fetch) == Run(u, fetch);
  }

  /** A select on a directory row that leads nowhere pins the route to the directory: even Tab stays there. */
  lemma FailedSelectThenNextStaysInDirectory(s: AppState, fetch: Fetch)
    requires s.route.active == Directory
    requires DirectoryTarget(s.library.directory.listState.selected) == Directory
    ensures SelectState(s, fetch) == Done(s.(route := Route(Directory, Directory)))
    ensures Next(Route(Directory, Directory)) == Route(Directory, Directory)
  {
  }

  /** In a valid state, select leaves the directory exactly when the cursor is on one of its rows. */
  lemma DirectorySelectFollowsRows(s: AppState, fetch: Fetch)
    requires Valid(s) && s.route.active == Directory
    ensures var sel := s.library.directory.listState.selected;
      SelectState(s, fetch).value.route.active != Directory <==>
      sel.Some? && sel.value < |s.library.directory.list|
  {
  }

  /** Cursor down and then up restores the whole state, unless the active cursor is pinned at the bottom. */
  lemma UpUndoesDown(s: AppState)
    requires CursorOf(s.library, s.route.active).selected.Some?
    requires CursorOf(s.library, s.route.active).selected.value < USIZE_MAX
    ensures UpState(DownState(s)) == s
  {
  }

  /**
   * Up on a playlists panel with nothing selected puts the cursor at
   * `usize::MAX`, past the end of any list the panel can hold, and the
   * Enter that follows panics on the index.
   */
  lemma {:induction false} UpThenEnterOnFreshPlaylistsPanics(s: AppState, fetch: Fetch)
    requires s.running && s.route.active == UserPlaylists
    requires s.library.userPlaylists.listState.selected.None?
    requires |s.library.userPlaylists.list| <= USIZE_MAX
    ensures Run(s.(queue := [Key(Keys.KeyEvent(Keys.Up, {})), Key(Keys.KeyEvent(Keys.Enter, {}))]), fetch)
            == Panicked(IndexOutOfBounds)
  {
    var up, enter := Keys.KeyEvent(Keys.Up, {}), Keys.KeyEvent(Keys.Enter, {});
    var s0 := s.(queue := [Key(up), Key(enter)]);
    var s1 := UpState(s.(queue := [Key(enter)]));
    assert s1.library.userPlaylists.listState.selected == Some(USIZE_MAX) by {
      assert CursorOf(s1.library, UserPlaylists) == SelectPrevious(CursorOf(s.library, UserPlaylists));
    }
    assert Posted(Key(up)) == [];
    assert s0.queue[1..] == [Key(enter)];
    assert Step(s0, fetch) == Done(s1);
    var s2 := s1.(queue := [App(Keys.Select)]);
    assert Keys.Dispatch(enter) == Keys.Send(Keys.Select);
    assert s1.queue[1..] + Posted(s1.queue[0]) == [App(Keys.Select)];
    assert Step(s1, fetch) == Done(s2);
    assert Step(s2, fetch) == Panicked(IndexOutOfBounds) by {
      assert s2.(queue := []) == s1.(queue := []);
    }
    assert Run(s0, fetch) == Run(s1, fetch);
    assert Run(s1, fetch) == Run(s2, fetch);
  }

  /** From start-up, the keys Down, Enter and then Up, Enter reach that panic. */
  lemma StartupKeysReachPanic(fetch: Fetch)
    ensures var first := Run(Initial().(queue := [Key(Keys.KeyEvent(Keys.Down, {})), Key(Keys.KeyEvent(Keys.Enter, {}))]), fetch);
      && first.Done?
      && first.value.route.active == UserPlaylists
      && Run(first.value.(queue := [Key(Keys.KeyEvent(Keys.Up, {})), Key(Keys.KeyEvent(Keys.Enter, {}))]), fetch)
         == Panicked(IndexOutOfBounds)
  {
    var down, enter := Keys.KeyEvent(Keys.Down, {}), Keys.KeyEvent(Keys.Enter, {});
    var s0 := Initial().(queue := [Key(down), Key(enter)]);
    var s1 := DownState(Initial().(queue := [Key(enter)]));
    assert CursorOf(s1.library, Directory) == SelectNext(CursorOf(Initial().library, Directory));
    assert s1.library.directory.listState.selected == Some(0);
    assert Posted(Key(down)) == [];
    assert s0.queue[1..] == [Key(enter)];
    assert Step(s0, fetch) == Done(s1);
    var s2 := s1.(queue := [App(Keys.Select)]);
    assert Keys.Dispatch(enter) == Keys.Send(Keys.Select);
    assert s1.queue[1..] + Posted(s1.queue[0]) == [App(Keys.Select)];
    assert Step(s1, fetch) == Done(s2);
    var s3 := s2.(queue := [], route := Route(UserPlaylists, UserPlaylists));
    assert Step(s2, fetch) == Done(s3);
    assert Run(s0, fetch) == Run(s1, fetch);
    assert Run(s1, fetch) == Run(s2, fetch);
    assert Run(s2, fetch) == Done(s3);
    assert CursorOf(s3.library, UserPlaylists) == Default();
    UpThenEnterOnFreshPlaylistsPanics(s3, fetch);
  }
}
