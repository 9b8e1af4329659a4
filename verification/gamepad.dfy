/** `GamepadController` of main.py: each gamepad event, in arrival order, is
    debounced per event code and routed to the player, the bookmarks or the
    volume control. `Step` is the dispatcher's meaning as a function of the
    whole radio's state; the class below runs it the way the source does. */
module Gamepad {
  import opened Wrappers
  import opened Dicts
  import opened Json
  import opened Constants
  import Player
  import Bookmarks
  import Volume

  /** `ev_type`: 'Key', 'Absolute', or any other type ('Sync', 'Misc', ...). */
  datatype EventType = Key | Absolute | OtherType

  /** An event of the `inputs` library: type, code and state (for a key
      1 = pressed, 0 = released, 2 = held; for an axis its position). */
  datatype InputEvent = InputEvent(evType: EventType, code: string, state: int)

  /** The two bookmark buttons. */
  datatype Slot = A | B

  function SlotKey(slot: Slot): string
  {
    match slot
    case A => "bookmark_A"
    case B => "bookmark_B"
  }

  function SlotLetter(slot: Slot): string
  {
    match slot
    case A => "A"
    case B => "B"
  }

  function SlotCode(slot: Slot): string
  {
    match slot
    case A => ButtonA
    case B => ButtonB
  }

  /** Everything the dispatcher can change: `last_event_time`,
      `select_pressed_time`, the player, the bookmark store and the mixer calls. */
  datatype Radio = Radio(
    last: map<string, int>,
    selectTime: int,
    player: Player.State,
    bookmarks: Bookmarks.State,
    mixer: seq<Volume.Call>)

  /** What the dispatcher reads and never changes. */
  datatype Env = Env(player: Player.Env, amixer: bool)

  /** `last_event_time` as `__init__` sets it: every known code at 0. */
  const InitialLastEventTime: map<string, int> :=
    map[ButtonSelect := 0, ButtonStart := 0, ButtonA := 0, ButtonB := 0, JoystickX := 0, JoystickY := 0]

  /** `last_event_time.get(code, 0)`. */
  function LastTime(last: map<string, int>, code: string): int
  {
    if code in last then last[code] else 0
  }

  /** `_is_debounced`: whether the event is accepted, and the table afterwards. */
  function Debounce(last: map<string, int>, code: string, now: int): (r: (bool, map<string, int>))
    ensures r.0 <==> now - LastTime(last, code) > DebounceTime
    ensures r.1.Keys == if r.0 then last.Keys + {code} else last.Keys
    ensures forall c :: c in last && c != code ==> r.1[c] == last[c]
    ensures code in r.1 ==> r.1[code] == if r.0 then now else last[code]
  {
    if now - LastTime(last, code) > DebounceTime then (true, last[code := now]) else (false, last)
  }

  /** `_handle_button_select`. */
  function OnSelect(r: Radio, now: int): Radio
  {
    r.(selectTime := now)
  }

  /** Select was pressed less than BOOKMARK_SAVE_WINDOW ago and not consumed since. */
  predicate InSaveWindow(r: Radio, now: int)
  {
    r.selectTime > 0 && now - r.selectTime < BookmarkSaveWindow
  }

  /** The save half of `_handle_button_a` / `_handle_button_b`: store the
      current station (when it is a non-empty name) and announce it. */
  function SaveBookmark(env: Env, r: Radio, slot: Slot): Radio
  {
    var station := Player.CurrentStation(r.player, env.player);
    if station.Some? && station.value != "" then
      r.(bookmarks := Bookmarks.Set(r.bookmarks, SlotKey(slot), station.value),
         player := Player.Said(r.player, env.player, "Bookmark " + SlotLetter(slot) + " set to " + station.value))
    else r
  }

  /** How `station and is_valid_station(station)` comes out for a stored bookmark value. */
  datatype Recall = Hit(name: string) | Miss | Unhashable

  function RecallOf(saved: Value, catalog: Dict<Value>): Recall
  {
    match saved
    case Str(s) => if s != "" && s in Keys(catalog) then Hit(s) else Miss
    case Obj(fields) => if fields != map[] then Unhashable else Miss  // `dict in dict` raises TypeError
    case Arr(items) => if items != [] then Unhashable else Miss       // `list in dict` raises TypeError
    case _ => Miss
  }

  /** The handler's last line, `select_pressed_time = 0`, runs only when nothing raised. */
  function Finish(r: Radio, out: Outcome<Player.State>): Radio
  {
    match out
    case Normal(p) => r.(player := p, selectTime := 0)
    case Raised(p) => r.(player := p)
  }

  /** The recall half of `_handle_button_a` / `_handle_button_b` as seen by
      the player: `Raised` when an exception escapes the handler (an unhashable
      bookmark, an empty station list) before or inside `play_station_by_name`. */
  function Recalled(env: Player.Env, p: Player.State, saved: Value): Outcome<Player.State>
  {
    match RecallOf(saved, env.catalog)
    case Unhashable => Raised(p)
    case Hit(name) => Player.PlayByName(p, env, name)
    case Miss =>
      if env.names == [] then Raised(p)   // `self.player.stations[0]` raises IndexError
      else Player.PlayByName(p, env, env.names[0])
  }

  /** The recall half of `_handle_button_a` / `_handle_button_b`. */
  function RecallBookmark(env: Env, r: Radio, slot: Slot): Radio
  {
    Finish(r, Recalled(env.player, r.player, Bookmarks.Lookup(r.bookmarks.config, SlotKey(slot))))
  }

  /** `_handle_button_a` (slot A) and `_handle_button_b` (slot B). */
  function OnBookmarkButton(env: Env, r: Radio, slot: Slot, now: int): Radio
  {
    if InSaveWindow(r, now) then SaveBookmark(env, r, slot).(selectTime := 0)
    else RecallBookmark(env, r, slot)
  }

  /** `_handle_button_start`: stop when playing, otherwise start the current
      station, or the first one when there is no (non-empty) current name. */
  function OnStart(env: Env, r: Radio): Radio
  {
    if r.player.playing then r.(player := Player.Stop(r.player))
    else
      var station := Player.CurrentStation(r.player, env.player);
      if station.Some? && station.value != "" then
        r.(player := Player.Start(r.player, env.player, station.value))
      else if env.player.names == [] then r   // `self.player.stations[0]` raises IndexError
      else r.(player := Player.Start(r.player, env.player, env.player.names[0]))
  }

  /** `process_event`: the radio after one event arriving at time `now`. */
  function Step(env: Env, r: Radio, ev: InputEvent, now: int): Radio
  {
    if ev.evType == Key && ev.state == 1 then
      var d := Debounce(r.last, ev.code, now);
      if !d.0 then r
      else
        var r1 := r.(last := d.1);
        if ev.code == ButtonSelect then OnSelect(r1, now)
        else if ev.code == ButtonA then OnBookmarkButton(env, r1, A, now)
        else if ev.code == ButtonB then OnBookmarkButton(env, r1, B, now)
        else if ev.code == ButtonStart then OnStart(env, r1)
        else r1
    else if ev.evType == Absolute then
      if ev.code == JoystickX && Debounce(r.last, JoystickX, now).0 then
        var r1 := r.(last := Debounce(r.last, JoystickX, now).1);
        if ev.state < JoystickMinThreshold then r1.(player := Player.Previous(r1.player, env.player))
        else if ev.state > JoystickMaxThreshold then r1.(player := Player.Next(r1.player, env.player))
        else r1
      else if ev.code == JoystickY && Debounce(r.last, JoystickY, now).0 then
        var r1 := r.(last := Debounce(r.last, JoystickY, now).1);
        if ev.state < JoystickMinThreshold then r1.(mixer := Volume.Adjusted(r1.mixer, env.amixer, "up"))
        else if ev.state > JoystickMaxThreshold then r1.(mixer := Volume.Adjusted(r1.mixer, env.amixer, "down"))
        else r1
      else r
    else r
  }

  // ---------------------------------------------------------------------
  // GamepadController

  class GamepadController {
    const player: Player.RadioPlayer
    const volume: Volume.VolumeController
    const bookmarks: Bookmarks.BookmarkManager
    var lastEventTime: map<string, int>
    var selectPressedTime: int

    function Environment(): Env
      reads this, player, player.manager, volume
    {
      Env(player.Environment(), volume.amixerAvailable)
    }

    function Snapshot(): Radio
      reads this, player, volume, bookmarks
    {
      Radio(lastEventTime, selectPressedTime, player.Snapshot(), bookmarks.Snapshot(), volume.calls)
    }

    constructor (player: Player.RadioPlayer, volume: Volume.VolumeController, bookmarks: Bookmarks.BookmarkManager)
      ensures this.player == player && this.volume == volume && this.bookmarks == bookmarks
      ensures lastEventTime == InitialLastEventTime && selectPressedTime == 0
    {
      this.player := player;
      this.volume := volume;
      this.bookmarks := bookmarks;
      lastEventTime := InitialLastEventTime;
      selectPressedTime := 0;
    }

    /** `_is_debounced`. */
    method IsDebounced(code: string, now: int) returns (accepted: bool)
      modifies this`lastEventTime
      ensures (accepted, lastEventTime) == Debounce(old(lastEventTime), code, now)
    {
      var last := if code in lastEventTime then lastEventTime[code] else 0;
      if now - last > DebounceTime {
        lastEventTime := lastEventTime[code := now];
        return true;
      }
      return false;
    }

    /** `_handle_button_select`. */
    method HandleButtonSelect(now: int)
      modifies this`selectPressedTime
      ensures selectPressedTime == now
    {
      selectPressedTime := now;
    }

    /** `_handle_button_a` and `_handle_button_b`. An early return stands for
        an exception that escapes to `process_event`. */
    method HandleBookmarkButton(slot: Slot, now: int)
      modifies this`selectPressedTime, player, bookmarks
      ensures Snapshot() == OnBookmarkButton(old(Environment()), old(Snapshot()), slot, now)
    {
      if selectPressedTime > 0 && now - selectPressedTime < BookmarkSaveWindow {
        SaveCurrentStation(slot);
        selectPressedTime := 0;
      } else {
        var raised := RecallSlot(slot);
        if raised {
          return;
        }
        selectPressedTime := 0;
      }
    }

    /** The save branch of `_handle_button_a` / `_handle_button_b`. */
    method SaveCurrentStation(slot: Slot)
      modifies player, bookmarks
      ensures player.Snapshot() == SaveBookmark(old(Environment()), old(Snapshot()), slot).player
      ensures bookmarks.Snapshot() == SaveBookmark(old(Environment()), old(Snapshot()), slot).bookmarks
    {
      var station := player.GetCurrentStation();
      if station.Some? && station.value != "" {
        bookmarks.SetBookmark(SlotKey(slot), station.value);
        player.Speak("Bookmark " + SlotLetter(slot) + " set to " + station.value);
      }
    }

    /** The recall branch of `_handle_button_a` / `_handle_button_b`; `raised`
        reports an exception escaping the handler (before or inside the call
        to `play_station_by_name`). */
    method RecallSlot(slot: Slot) returns (raised: bool)
      modifies player
      ensures var out := Recalled(old(player.Environment()), old(player.Snapshot()), Bookmarks.Lookup(bookmarks.config, SlotKey(slot)));
        raised == out.Raised? && player.Snapshot() == out.state
    {
      var saved := bookmarks.GetBookmark(SlotKey(slot));
      if (saved.Obj? && saved.fields != map[]) || (saved.Arr? && saved.items != []) {
        return true;
      }
      if saved.Str? && saved.s != "" && player.manager.IsValidStation(saved.s) {
        raised := player.PlayStationByName(saved.s);
      } else {
        if player.stations == [] {
          return true;
        }
        raised := player.PlayStationByName(player.stations[0]);
      }
    }

    /** `_handle_button_start`. */
    method HandleButtonStart()
      modifies player
      ensures Snapshot() == OnStart(old(Environment()), old(Snapshot()))
    {
      if player.IsPlaying() {
        player.StopStream();
      } else {
        var station := player.GetCurrentStation();
        if station.Some? && station.value != "" {
          player.StartStream(station.value);
        } else {
          if player.stations == [] {
            return;
          }
          player.StartStream(player.stations[0]);
        }
      }
    }

    /** `process_event`. */
    method ProcessEvent(ev: InputEvent, now: int)
      modifies this, player, volume, bookmarks
      ensures Snapshot() == Step(old(Environment()), old(Snapshot()), ev, now)
    {
      if ev.evType == Key && ev.state == 1 {
        var accepted := IsDebounced(ev.code, now);
        if !accepted {
          return;
        }
        if ev.code == ButtonSelect {
          HandleButtonSelect(now);
        } else if ev.code == ButtonA {
          HandleBookmarkButton(A, now);
        } else if ev.code == ButtonB {
          HandleBookmarkButton(B, now);
        } else if ev.code == ButtonStart {
          HandleButtonStart();
        }
      } else if ev.evType == Absolute {
        var acceptedX := false;
        if ev.code == JoystickX {
          acceptedX := IsDebounced(JoystickX, now);
        }
        if acceptedX {
          if ev.state < JoystickMinThreshold {
            player.PreviousStation();
          } else if ev.state > JoystickMaxThreshold {
            player.NextStation();
          }
        } else {
          var acceptedY := false;
          if ev.code == JoystickY {
            acceptedY := IsDebounced(JoystickY, now);
          }
          if acceptedY {
            if ev.state < JoystickMinThreshold {
              volume.Adjust("up");
            } else if ev.state > JoystickMaxThreshold {
              volume.Adjust("down");
            }
          }
        }
      }
    }
  }
}
