/**
 * The application object. Its methods change the running flag, the
 * library panels, the route and the event channel in place; each is
 * proved to perform exactly the transition `AppModel` defines.
 */
module Application {
  import opened Wrappers
  import opened Cursor
  import opened Navigation
  import opened Library
  import Keys
  import opened AppModel

  class App {
    var running: bool
    var library: UserLibrary
    var route: Route
    /** The events waiting on the channel, oldest first. */
    var events: seq<Event>

    /** The whole state as a value. */
    function State(): AppState
      reads this
    {
      AppState(running, library, route, events)
    }

    /** `App::new`, once the streaming-service client has been obtained. */
    constructor ()
      ensures State() == Initial()
      ensures Valid(State())
    {
      var init := Initial();
      running := init.running;
      library := init.library;
      route := init.route;
      events := init.queue;
    }

    /** The key handler: posts Quit, Next or Select on the channel, or moves the active cursor at once. */
    method HandleKeyEvents(key: Keys.KeyEvent)
      modifies this
      ensures State() == HandleKey(old(State()), key)
    {
      match Keys.Dispatch(key)
      case Send(e) => events := events + [Event.App(e)];
      case MoveUp => Up();
      case MoveDown => Down();
      case Ignore =>
    }

    /** Tab: from the directory into the hovered panel, from any other panel back to the directory. */
    method Next()
      modifies this
      ensures route == Navigation.Next(old(route))
      ensures running == old(running) && library == old(library) && events == old(events)
    {
      route := route.(active := match route.active
        case Directory => route.hovered
        case _ => Directory);
    }

    /**
     * Enter. A panic aborts the process before anything is changed, so on a
     * panic the state is left as it was.
     */
    method Select(fetch: Fetch) returns (panic: Option<Panic>)
      modifies this
      ensures match SelectState(old(State()), fetch)
        case Done(t) => panic == None && State() == t
        case Panicked(p) => panic == Some(p) && State() == old(State())
    {
      match route.active {
        case Directory =>
          match library.directory.listState.selected {
            case Some(0) => route := route.(active := UserPlaylists);
            case Some(1) => route := route.(active := UserTopTracks);
            case Some(2) => route := route.(active := UserTopArtists);
            case _ =>
          }
          route := route.(hovered := route.active);
          return None;
        case UserPlaylists =>
          var sel := library.userPlaylists.listState.selected;
          if sel.Some? {
            var i := sel.value;
            if i >= |library.userPlaylists.list| {
              return Some(IndexOutOfBounds);
            }
            var entry := library.userPlaylists.list[i];
            if entry.None? {
              return Some(MissingPlaylist);
            }
            var fetched := fetch(entry.value.id);
            if fetched.None? {
              return Some(FetchFailed);
            }
            var playlist := fetched.value;
            library := library.(playlist := library.playlist.(name := playlist.name));
            library := library.(playlist := library.playlist.(list := playlist.tracks));
            library := library.(playlist := library.playlist.(listState := Default()));
          }
          route := route.(active := Playlist);
          route := route.(hovered := Playlist);
          return None;
        case UserTopTracks => return Some(NotImplemented);
        case UserTopArtists => return Some(NotImplemented);
        case Playlist => return Some(NotImplemented);
      }
    }

    /** Cursor up in the active panel. */
    method Up()
      modifies this
      ensures State() == UpState(old(State()))
    {
      match route.active {
        case Directory =>
          library := library.(directory := library.directory.(listState := SelectPrevious(library.directory.listState)));
        case UserPlaylists =>
          library := library.(userPlaylists := library.userPlaylists.(listState := SelectPrevious(library.userPlaylists.listState)));
        case UserTopTracks =>
          library := library.(userTopTracks := library.userTopTracks.(listState := SelectPrevious(library.userTopTracks.listState)));
        case UserTopArtists =>
          library := library.(userTopArtists := library.userTopArtists.(listState := SelectPrevious(library.userTopArtists.listState)));
        case Playlist =>
          library := library.(playlist := library.playlist.(listState := SelectPrevious(library.playlist.listState)));
      }
    }

    /** Cursor down in the active panel. */
    method Down()
      modifies this
      ensures State() == DownState(old(State()))
    {
      match route.active {
        case Directory =>
          library := library.(directory := library.directory.(listState := SelectNext(library.directory.listState)));
        case UserPlaylists =>
          library := library.(userPlaylists := library.userPlaylists.(listState := SelectNext(library.userPlaylists.listState)));
        case UserTopTracks =>
          library := library.(userTopTracks := library.userTopTracks.(listState := SelectNext(library.userTopTracks.listState)));
        case UserTopArtists =>
          library := library.(userTopArtists := library.userTopArtists.(listState := SelectNext(library.userTopArtists.listState)));
        case Playlist =>
          library := library.(playlist := library.playlist.(listState := SelectNext(library.playlist.listState)));
      }
    }

    /** Clears the running flag, which ends the main loop; nothing else changes. */
    method Quit()
      modifies this
      ensures !running
      ensures library == old(library) && route == old(route) && events == old(events)
    {
      running := false;
    }

    /**
     * The main loop: the events in `arrived` join the channel, and the loop
     * takes events off it and dispatches them while `running` holds and the
     * channel is not empty. A panic ends it at once.
     */
    method Run(arrived: seq<Event>, fetch: Fetch) returns (panic: Option<Panic>)
      modifies this
      ensures match AppModel.Run(old(State()).(queue := old(events) + arrived), fetch)
        case Done(t) => panic == None && State() == t
        case Panicked(p) => panic == Some(p)
    {
      events := events + arrived;
      ghost var start := State();
      while running && events != []
        invariant AppModel.Run(State(), fetch) == AppModel.Run(start, fetch)
        decreases Weight(events)
      {
        ghost var before := State();
        var event := events[0];
        events := events[1..];
        match event {
          case Tick =>
          case Key(k) => HandleKeyEvents(k);
          case OtherTerminal =>
          case App(e) =>
            if e == Keys.Quit {
              Quit();
            } else if e == Keys.Next {
              Next();
            } else {
              var p := Select(fetch);
              if p.Some? {
                assert Step(before, fetch) == Panicked(p.value);
                return p;
              }
            }
        }
        assert Step(before, fetch) == Done(State());
      }
      return None;
    }
  }
}
