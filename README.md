# spotui navigation core, modelled in Dafny

spotui is a terminal client for a music-streaming account. Its `App`
(`src/app.rs`) holds five list panels: the directory, the user's
playlists, top tracks, top artists, and one opened playlist. Each panel
has its own cursor (ratatui's `ListState`). A `Route` records which
panel has the keyboard (`active_block`) and which panel Tab enters from the
directory (`hovered_block`). Keys either move the active cursor
at once or post `Quit`, `Next` or `Select` on the event channel. The main
loop takes events off that channel while `running` holds. The model covers
this state machine, the key bindings, and the one deterministic step of
the OAuth redirect handler: reading the authorization code and the CSRF
state from the redirect's query pairs by position.

Files:
- `Wrappers.dfy` defines `Option`.
- `Cursor.dfy` defines the cursor, with `select_next`/`select_previous` on a 64-bit `usize`.
- `Navigation.dfy` defines the panels, the route, Tab, and the directory rows' targets.
- `Library.dfy` defines the panels' contents and the per-panel cursor.
- `Keys.dfy` defines the key bindings.
- `AppModel.dfy` holds the state as a value, every transition as a function, one loop turn, the loop, and the lemmas about them.
- `Application.dfy` is the `App` class. Its methods update the state in place and are proved to match `AppModel`.
- `Callback.dfy` is the query-pair extraction.

The central invariant is `Navigation.Coherent`: either the directory is
active, or the active panel is the hovered one. It holds initially. `Next`
re-establishes it from any route, and a successful `select` sets the
active panel equal to the hovered one. It follows that Tab pressed twice
returns to the same route (`NextTwiceRestores`). `AppModel.Run` carries the
invariant through any sequence of events.

The redirect handler reads the first two query values by position. It
does not look them up by name, has no time-out and compares no state
itself. A request with fewer than two pairs makes it panic. The state
check, PKCE and the token exchange happen inside the `spotify_rs`
library, which is not part of this model.

## Model

| member | source | states |
|---|---|---|
| `Cursor.SelectNext` | src/app.rs:346-364 | `select_next` moves the cursor one row down. With nothing selected it picks row 0. It saturates at `usize::MAX` and never touches the scroll offset. |
| `Cursor.SelectPrevious` | src/app.rs:317-344 | `select_previous` moves the cursor one row up. With nothing selected it picks `usize::MAX`. It saturates at 0 and never touches the scroll offset. |
| `Cursor.PreviousUndoesNext` | src/app.rs:317-364 | Down then up restores the cursor whenever it is selected and below `usize::MAX`. |
| `Cursor.NextUndoesPrevious` | src/app.rs:317-364 | Up then down restores the cursor whenever it is selected and above 0. |
| `Navigation.Next` | src/app.rs:264-269 | Tab enters the hovered panel from the directory and returns to the directory from any other panel. `hovered_block` never changes, and the resulting route is always coherent. |
| `Navigation.DirectoryTarget` | src/app.rs:273-279 | Directory rows 0, 1 and 2 lead to the playlists, top tracks and top artists panels, in the directory's own order. No selection, or any other row, stays in the directory. It never leads to the playlist panel. |
| `Navigation.NextTwiceRestores` | src/app.rs:264-269 | On a coherent route, Tab twice is the identity. |
| `Navigation.NextTwiceNeedsCoherence` | src/app.rs:264-269 | On an incoherent route, Tab twice lands on the hovered panel, not the starting one. So the invariant is what makes the round trip hold. |
| `Library.WithCursor` | src/app.rs:317-364 | Setting one panel's cursor changes that cursor only. Every other cursor, every name and every list stays the same. |
| `Keys.Dispatch` | src/app.rs:247-262 | Exactly Esc, `q`, and `c`/`C` with exactly CONTROL post Quit. Exactly Tab posts Next and Enter posts Select. Exactly Up/`k` moves up and Down/`j` moves down. Left/`h`, Right/`l` and every other key do nothing. |
| `Keys.ControlShiftCDoesNotQuit` | src/app.rs:250-252 | Ctrl+Shift+C does nothing, because the modifier set must equal CONTROL. |
| `AppModel.Initial` | src/app.rs:118-162 | The fresh state is running. It has `active_block == Directory` and `hovered_block == UserPlaylists`, and it satisfies the invariant. The directory has exactly three rows, the other four lists are empty, and every cursor is the default. |
| `AppModel.SelectState` | src/app.rs:271-315 | In the directory, Enter moves to the selected row's panel or stays put, and the library is unchanged. In the playlists panel, it panics on an index past the list, on a `None` entry or on a failed fetch. Otherwise it ends in the playlist panel. After a fetch, the playlist panel holds the fetched name and tracks with a default cursor, and nothing else changes. In the other three panels it is `todo!()`. Every successful select leaves `active == hovered`. |
| `AppModel.UpState` | src/app.rs:317-344 | Only the active panel's cursor moves up. The route, the running flag, the channel, the other cursors, and all names and lists are unchanged. |
| `AppModel.DownState` | src/app.rs:346-364 | Only the active panel's cursor moves down. Everything else is unchanged. |
| `AppModel.HandleKey` | src/app.rs:247-262 | The key handler never changes the route or the running flag. A bound key appends its event to the channel. Up/down act at once, and every other key changes nothing. |
| `AppModel.Step` | src/app.rs:229-242 | One loop turn takes the oldest event and dispatches it. It keeps the invariant. A Quit event clears `running` and changes nothing else, and no other event clears it. It shrinks the channel's weight, where a key weighs 2 and anything else weighs 1, so the loop terminates. |
| `AppModel.Run` | src/app.rs:227-243 | The loop keeps the invariant. It stops only when `running` is false or the channel is empty. |
| `AppModel.WeightConcat` | src/app.rs:229-242 | The channel's weight is additive over concatenation, which is how appending a posted event is accounted for. |
| `AppModel.QuitFreeRunKeepsRunning` | src/app.rs:227-243 | With no Quit event and no quit key on the channel, the loop never stops running. It drains the channel or panics. |
| `AppModel.QuitOnChannelStopsRun` | src/app.rs:227-251 | A Quit event or a quit key anywhere on the channel ends the loop with `running` false, unless a panic comes first. A key's Quit is posted at the back of the channel and cleared at `quit`. |
| `AppModel.QuitKeyStopsRun` | src/app.rs:227-249 | A quit key alone on the channel ends the loop with `running` false and the channel empty. Nothing else changes. |
| `AppModel.FailedSelectThenNextStaysInDirectory` | src/app.rs:264-281 | Enter on a directory row that leads nowhere sets both blocks to the directory, and Tab then stays in the directory. |
| `AppModel.DirectorySelectFollowsRows` | src/app.rs:273-281 | In a valid state, select leaves the directory exactly when the cursor is on one of the directory's rows. |
| `AppModel.UpUndoesDown` | src/app.rs:317-364 | Down then up restores the whole application state whenever the active cursor is selected and below `usize::MAX`. |
| `AppModel.UpThenEnterOnFreshPlaylistsPanics` | src/app.rs:282-294 | Up on a playlists panel with nothing selected sets its cursor to `usize::MAX`. The Enter that follows indexes past the list at `list[i]` and panics, whatever the list holds. |
| `AppModel.StartupKeysReachPanic` | src/app.rs:247-315 | From the start-up state, Down and Enter open the playlists panel. Up and Enter then panic with an index out of bounds. |
| `Application.App.constructor` | src/app.rs:118-162 | `App::new` builds the initial state. |
| `Application.App.HandleKeyEvents` | src/app.rs:247-262 | Performs exactly `HandleKey` on the object. It always succeeds. |
| `Application.App.Next` | src/app.rs:264-269 | Sets the route to `Navigation.Next` of the old route and changes nothing else. |
| `Application.App.Select` | src/app.rs:271-315 | Performs exactly `SelectState`. On a panic it reports the reason and leaves the object unchanged, because every panic comes before the first assignment. |
| `Application.App.Up` | src/app.rs:317-344 | Performs exactly `UpState`. |
| `Application.App.Down` | src/app.rs:346-364 | Performs exactly `DownState`. |
| `Application.App.Quit` | src/app.rs:368-370 | Clears `running` and changes nothing else. |
| `Application.App.Run` | src/app.rs:224-245 | The `while self.running` loop over the channel ends in exactly the state `AppModel.Run` gives, or with the panic it gives. |
| `Callback.RemoveFirst` | src/app.rs:174-175 | `Vec::remove(0)` returns the head and the rest, and the two rebuild the vector. On an empty vector it panics, shown as `None`. |
| `Callback.ExtractRedirect` | src/app.rs:172-175 | The code is the value of the first query pair and the state is the value of the second. With fewer than two pairs the handler panics. |
| `Callback.NamesIgnored` | src/app.rs:173-175 | Parameter names play no part in the extraction. |
| `Callback.TrailingPairsDiscarded` | src/app.rs:173-175 | Pairs after the second do not affect the result. |
| `Callback.StateFirstSwapsRoles` | src/app.rs:174-175 | If a redirect lists `state` before `code`, the state value is passed on as the authorization code. |

## Left out

- Authentication: client setup, PKCE, the authorization URL, the state check and the token exchange are calls into `spotify_rs` (src/app.rs:191-222). Their behaviour is not visible, so it is not modelled.
- The redirect listener: the rouille server, the spawned task, the shared "sent" flag polled in a loop, and the bounded channel (src/app.rs:165-188). These are concurrency and network I/O. Parsing the raw URL is not modelled either. The decoded query pairs are the input of `Callback.ExtractRedirect`, so the panic of `Url::parse(..).unwrap()` on a malformed URL is not represented. Sending the result and answering the browser are not modelled.
- Reading `SPOTIFY_CLIENT_ID` and `SPOTIFY_REDIRECT_URI`, forming `host:port`, and opening the browser are environment and OS effects.
- `init`: four concurrent requests whose results are plain list assignments (src/app.rs:372-407). The `user` and `player` fields are set only there or never, and are not part of the state.
- Drawing the terminal each turn, and the channel's producers (the terminal reader and the ticker). src/event.rs is not part of this model. `Application.App.Run` takes the events that arrived as a sequence and appends them to the channel at the start. Real producers may interleave with the events the key handler posts. The model's loop also ends when the channel is empty, where the real one blocks waiting for the next event. The error path of `events.next()` is not modelled.
- ratatui is not part of this model. `Cursor.SelectNext` and `Cursor.SelectPrevious` follow ratatui's own definition: saturating `usize` arithmetic, with `None` giving 0 or `usize::MAX`. Neither looks at the list's length. Drawing only reads `App` and hands each widget a copy of a cursor, so `App`'s own cursors are never clamped to their lists. A cursor past the end of its list is therefore the program's own behaviour, and `UpThenEnterOnFreshPlaylistsPanics` shows where it leads.
- The playlist request in `select` is a parameter: a fixed function from playlist id to an optional playlist, so the same id always gives the same answer. Only the first page of tracks (`tracks.items`) is kept, as in the source.
- A panic is reported as an outcome. The process abort and terminal restore that follow are not modelled.
- Key events carry a kind (press, release, repeat) and a state. The handler does not inspect either, so the model's key event has only the code and the modifiers. Key codes the handler does not bind are folded into one.
- Application.App.Run: on a panic it does not state the object's state; the process aborts at that point.
- src/spotify_handler.rs (API wrappers and a copy of the authentication code), src/ui.rs, src/widgets/ and src/main.rs hold presentation, setup and a duplicate of the code modelled here.
