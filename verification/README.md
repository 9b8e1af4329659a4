# pi-radio, modelled in Dafny

pi-radio turns a Raspberry Pi with a USB gamepad into an internet radio:

- ffplay plays one stream at a time.
- Start toggles playback.
- The stick's X axis steps through the stations, and its Y axis changes the volume through amixer.
- Two buttons, A and B, recall bookmarked stations. Pressing Select and then A or B within ten seconds stores the current station in that bookmark.
- Stations come from a custom JSON file when it yields any station, otherwise from a default JSON file.
- Bookmarks live in a JSON config file that is rewritten on every change.

This project models the core of that program:

- `StationManager` of `stations.py` (module `Stations`).
- `RadioPlayer`, `VolumeController`, `BookmarkManager` and `GamepadController` of `main.py` (modules `Player`, `Volume`, `Bookmarks`, `Gamepad`).
- The constants they use (module `Constants`).

Every component has a pure specification function: `Stations.Catalog`, `Player.Start`, `Player.Next`, `Bookmarks.Set`, `Volume.Adjusted` and `Gamepad.Step`, among others. It also has a class whose fields are the source's fields. Each method of a class is proved to move `Snapshot()` exactly as the specification function says. The properties are proved as lemmas about those functions:

- `Properties of normalisation` in `stations.dfy`.
- `Invariants` and `Properties of the individual operations` in `player.dfy`.
- All of `gamepad_properties.dfy`.

## Modelling choices

- Python's insertion-ordered dicts are `Dict<V> = seq<(string, V)>`. `Dicts.Get` is `dict.get`. `Dicts.Put` is `d[k] = v`: it updates an existing key in place and appends a new one.
- JSON values are `Null | Str | Obj | Arr | Scalar`. Numbers and booleans are `Scalar`, because the code only asks whether a value is a string, an object, or truthy. A file is `Missing`, `Unreadable` or `Parsed` with its top-level object.
- Time is an integer number of milliseconds, passed to each operation as `now`. DEBOUNCE_TIME is 300 and BOOKMARK_SAVE_WINDOW is 10000.
- Outside effects are recorded in an append-only log: spawning ffplay, terminating it, and speaking. amixer calls go in a list of calls.
- The outcomes of `shutil.which('ffplay')`, `shutil.which('amixer')` and `pyttsx3.init()` are constructor parameters.
- `subprocess.Popen` succeeds exactly when the stream URL is a JSON string. Any other value, for example `null`, a number or an object under `"url"`, raises a TypeError that `start_stream` catches, and no process is held.
- Two exceptions can escape a gamepad handler and be swallowed by `process_event`:
  - the IndexError of `self.player.stations[0]` when there are no stations;
  - the TypeError of `station in self._stations` when a bookmark holds a non-empty object or array.
  The handler then stops early, so `select_pressed_time = 0` is not reached. `Wrappers.Outcome` (`Normal` / `Raised`) carries this.
- The dispatcher as the code has it:
  - Select is debounced like every other button.
  - A release of Select does nothing.
  - An event is accepted only when strictly more than DEBOUNCE_TIME has passed (`>`, not `>=`).
  - There is no admin mode.
- `_normalize_stations` is not idempotent. An object whose `"url"` holds a number keeps that number, which a second pass drops (`Stations.NormalizedNotIdempotent`). It is idempotent when every kept URL is a string.

## Model

| member | source | states |
|---|---|---|
| Stations.LoadJsonFile | stations.py:33-57 | a missing or unparsable file gives the empty dict; a parsed file gives its object |
| Stations.Normalized | stations.py:59-85 | the normalised map has distinct keys, all taken from the input |
| Stations.NormalizeStations | stations.py:59-85 | the loop over `items()` computes exactly the entry-by-entry normalisation `Normalized` |
| Stations.NormalizedLookup | stations.py:74-83 | a name is kept exactly when its raw value is a string (kept as is) or an object with "url" (that field), and under that value |
| Stations.NormalizedKeepsOrder | stations.py:74-85 | the normalised names keep the input's order |
| Stations.NormalizedEmpty | stations.py:74-85 | normalisation yields no station if and only if no entry is a string or an object with "url" |
| Stations.NormalizedStringsUnchanged | stations.py:76-78 | a map whose values are all strings is returned unchanged |
| Stations.NormalizedIdempotentOnStrings | stations.py:59-85 | normalising twice equals normalising once when every kept URL is a string |
| Stations.NormalizedNotIdempotent | stations.py:79-81 | an object whose "url" is a number gives a counterexample to idempotence |
| Stations.CustomReplacesDefault | stations.py:87-97 | a custom file with one usable entry replaces the default list entirely: the catalog is its normalisation and holds only its names |
| Stations.DefaultWithoutCustom | stations.py:98-103 | without a usable custom entry the catalog is the normalised default file |
| Stations.CustomOnlyExample | stations.py:87-97 | a custom file {"x": "http://a"} gives exactly that catalog, whatever the default file holds |
| Stations.UrlOf | stations.py:127-137 | an unknown name gives None; a known one gives its stored value |
| Stations.StationManager.constructor | stations.py:16-31 | a new manager holds the custom-or-default catalog, with distinct names |
| Stations.StationManager.LoadStations | stations.py:87-107 | the active catalog becomes the custom-or-default catalog |
| Stations.StationManager.Reload | stations.py:151-154 | reloading recomputes the catalog from the files by the same custom-or-default rule |
| Stations.StationManager.GetStations | stations.py:109-116 | the copy has the station names as keys, in order, and every name's URL |
| Stations.StationManager.GetStationNames | stations.py:118-125 | the names in catalog order, without duplicates |
| Stations.StationManager.GetStationUrl | stations.py:127-137 | None for an unknown name, otherwise the stored URL |
| Stations.StationManager.IsValidStation | stations.py:139-149 | true if and only if the name is one of the station names |
| Player.Start | main.py:71-118 | starting never moves the index and only appends to the effect log |
| Player.StartOutcome | main.py:71-118 | afterwards a process is held exactly when ffplay exists and the resolved URL is a string; the new process is spawned on that URL, after terminating the old one |
| Player.StartFallsBackToFirst | main.py:78-86 | a name without a URL plays the first station; with no stations nothing happens |
| Player.StartStopKeepOneProcess | main.py:54-133 | speak, stop and start keep "processes alive = 1 if a handle is held, else 0" |
| Player.OperationsKeepOneProcess | main.py:135-165 | next, previous and play-by-name keep the one-process invariant |
| Player.OperationsKeepIndexInRange | main.py:120-165 | every player operation keeps the index on a station (or at 0 with none) |
| Player.StopIsIdempotent | main.py:120-133 | after stopping nothing is held; stopping twice is stopping once; stopping while idle changes nothing |
| Player.NextWraps | main.py:135-142 | next moves to index + 1, from the last station to 0, and plays the station there |
| Player.PreviousWraps | main.py:144-151 | previous moves to index - 1, from 0 to the last station, and plays the station there |
| Player.PreviousUndoesNext | main.py:135-151 | previous after next returns to the same index |
| Player.NoStationsNoMove | main.py:137-139 | with no stations, next and previous change nothing |
| Player.IndexOf | main.py:161 | `list.index`: the first position holding the name |
| Player.PlayByNameIndex | main.py:153-165 | a known name becomes the current station, at its first position, and is started; an unknown name plays the first station and keeps the index; with no stations it raises and changes nothing |
| Player.CurrentStation | main.py:171-175 | the name at the index, None when the index is off the list |
| Player.RadioPlayer.constructor | main.py:31-43 | the player takes the manager's names once, index 0, nothing playing |
| Player.RadioPlayer.Speak | main.py:54-69 | an announcement is made only when a speech engine exists |
| Player.RadioPlayer.StartStream | main.py:71-118 | the player's state moves as `Player.Start` says |
| Player.RadioPlayer.StopStream | main.py:120-133 | the player's state moves as `Player.Stop` says |
| Player.RadioPlayer.NextStation | main.py:135-142 | the player's state moves as `Player.Next` says |
| Player.RadioPlayer.PreviousStation | main.py:144-151 | the player's state moves as `Player.Previous` says |
| Player.RadioPlayer.PlayStationByName | main.py:153-165 | the player's state moves as `Player.PlayByName` says, and the IndexError is reported |
| Player.RadioPlayer.IsPlaying | main.py:167-169 | true exactly when a process handle is held |
| Player.RadioPlayer.GetCurrentStation | main.py:171-175 | the current station's name, None when the index is off the list |
| Volume.AdjustUnmutesFirst | main.py:187-218 | earlier calls are kept and every volume step directly follows an unmute; with amixer an unmute comes first, then exactly one 5% raise for "up" or one 5% cut for "down", and nothing else for any other direction; without amixer nothing is called |
| Volume.VolumeController.constructor | main.py:181-185 | no calls yet; amixer availability fixed |
| Volume.VolumeController.Adjust | main.py:187-218 | the calls made are those of `Volume.Adjusted` |
| Bookmarks.Lookup | main.py:270-280 | an unset slot reads as None |
| Bookmarks.SetThenGet | main.py:258-280 | a stored bookmark reads back as stored, and other slots keep their values |
| Bookmarks.NoFileNoBookmarks | main.py:234-247 | without a readable config both bookmarks are None |
| Bookmarks.SetSavesOnce | main.py:249-268 | each change writes the current config once, after the earlier writes; the config written holds the new bookmark and keeps every other slot |
| Bookmarks.BookmarkManager.constructor | main.py:224-247 | the config is the file's object, or the default config |
| Bookmarks.BookmarkManager.SetBookmark | main.py:258-268 | the config and the file writes move as `Bookmarks.Set` says |
| Bookmarks.BookmarkManager.GetBookmark | main.py:270-280 | the stored value, None for a missing slot |
| Gamepad.Debounce | main.py:309-323 | an event is accepted exactly when more than DEBOUNCE_TIME passed since its code's last accepted event (0 for an unseen code); only then is its time recorded, and other codes are untouched |
| Gamepad.GamepadController.constructor | main.py:286-307 | all six codes start at time 0, and the save window is closed |
| Gamepad.GamepadController.IsDebounced | main.py:309-323 | the answer and the new table are those of `Gamepad.Debounce` |
| Gamepad.GamepadController.HandleButtonSelect | main.py:325-328 | Select records its press time |
| Gamepad.GamepadController.HandleBookmarkButton | main.py:330-370 | the radio moves as `Gamepad.OnBookmarkButton` says, for A and for B |
| Gamepad.GamepadController.SaveCurrentStation | main.py:333-339 | the save branch stores and announces the current station as `Gamepad.SaveBookmark` says |
| Gamepad.GamepadController.RecallSlot | main.py:340-347 | the recall branch plays as `Gamepad.Recalled` says and reports an escaping exception |
| Gamepad.GamepadController.HandleButtonStart | main.py:372-381 | the radio moves as `Gamepad.OnStart` says |
| Gamepad.GamepadController.ProcessEvent | main.py:383-420 | the radio moves as `Gamepad.Step` says |
| GamepadProperties.HandlersKeepLast | main.py:325-381 | no handler touches the debounce table |
| GamepadProperties.StepDebounceTable | main.py:391-413 | after any event the table is updated by `_is_debounced` for presses and the two axes, and untouched otherwise |
| GamepadProperties.DebounceSpacing | main.py:309-323 | a second event with the same code within 300 ms changes nothing at all; one more than 300 ms later is accepted |
| GamepadProperties.IgnoredEvents | main.py:391-413 | releases, other event types and unknown axes change nothing; a rejected press changes nothing; an unknown key only stamps its time |
| GamepadProperties.SelectArms | main.py:325-328 | an accepted Select only opens the save window |
| GamepadProperties.SaveChord | main.py:330-339 | Select then A/B within the window stores and announces the current station in that slot, writes the file, keeps the other slot, the stream and the mixer, and closes the window |
| GamepadProperties.SaveWithoutStation | main.py:333-349 | in the window with no current station, or one named "", nothing is stored or announced, and the window closes |
| GamepadProperties.RecallPlays | main.py:340-349 | outside the window a known bookmarked station is played from its first position and becomes current; any other string, null, number or empty container plays the first station (index 0); bookmarks and mixer stay as they were; a non-empty object or array raises, and so does an empty station list: then nothing changes but the debounce stamp, and the window is not cleared |
| GamepadProperties.StartToggles | main.py:372-381 | Start stops a playing radio and otherwise starts the current station, or the first one when the index is off the list or the current name is ""; with no stations nothing changes but the debounce stamp |
| GamepadProperties.JoystickRouting | main.py:405-413 | X left/right means previous/next station, Y up/down means volume up/down; a centred stick changes nothing but still takes the debounce slot |
| GamepadProperties.StepKeepsInv | main.py:383-420 | every event keeps one process alive exactly when a handle is held, the index on a station, and every volume step right after an unmute |
| GamepadProperties.InitialInv | main.py:286-307 | the radio as the constructors build it satisfies that invariant, with every code at time 0 |
| GamepadProperties.RunKeepsInv | main.py:383-420 | any sequence of events keeps the invariant |

## Left out

- `wait_for_network`, `setup_signal_handlers`, `main` and its event loop: network probing, signals and reading the gamepad device are I/O. `GamepadProperties.Run` stands in for the loop's sequence of `process_event` calls.
- Reading and writing files, `json.load` and `json.dump`: a file is given as its parsed content. A top-level JSON value that is not an object is not modelled. Duplicate keys in a JSON object are not modelled either: the parsed object is taken with distinct keys.
- A failed config save: every `_save_config` call is recorded as a write.
- `subprocess.Popen`, `terminate`, `wait` and `kill` are recorded as effects. The only Popen failure modelled is a non-string URL. A process that exits on its own, which `-autoexit` allows, is not modelled: the handle stays set, as it does in the source.
- Text-to-speech: an announcement is a log entry when an engine exists. Errors raised while speaking are not modelled.
- The amixer path and the return codes of `subprocess.call`.
- Logging.
- Time is one integer `now` in milliseconds per event. The source reads `time.time()` separately in `_is_debounced` and in the handler, and it has sub-millisecond resolution.
- The constants of constants.py that the core does not use (network, ffplay buffer settings, file names), except as comments.
- `shutil.which('ffplay')` runs on every `start_stream` in the source. The model reads ffplay's availability once, at construction, so it cannot see ffplay appear or disappear during a run.
- `stop_stream` drops the handle even when `terminate`, `wait` or `kill` fails (the `except Exception` branch and `finally`). The model's `Terminate` effect, and the one-process invariant built on it, treat every stop as ending the process.
