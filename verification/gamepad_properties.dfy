/** What `process_event` promises, stated over `Gamepad.Step`. */
module GamepadProperties {
  import opened Wrappers
  import opened Dicts
  import opened Json
  import opened Constants
  import Player
  import Bookmarks
  import Volume
  import opened Gamepad

  /** A button press and a stick position. */
  function Press(code: string): InputEvent
  {
    InputEvent(Key, code, 1)
  }

  function Axis(code: string, position: int): InputEvent
  {
    InputEvent(Absolute, code, position)
  }

  /** The events that go through `_is_debounced`: key presses and the two stick axes. */
  predicate Watched(ev: InputEvent)
  {
    (ev.evType == Key && ev.state == 1) ||
    (ev.evType == Absolute && (ev.code == JoystickX || ev.code == JoystickY))
  }

  /** The player's station list is the manager's catalog, in order (true from
      construction on, since neither side is reloaded afterwards). */
  predicate Consistent(env: Env)
  {
    env.player.names == Keys(env.player.catalog)
  }

  /** The invariant of the whole radio. */
  predicate Inv(env: Env, r: Radio)
  {
    Player.OneProcess(r.player) && Player.IndexInRange(r.player, env.player) && Volume.UnmutedFirst(r.mixer)
  }

  // ---------------------------------------------------------------------
  // Debouncing

  /** Handlers never touch the debounce table; only `_is_debounced` does. */
  lemma HandlersKeepLast(env: Env, r: Radio, slot: Slot, now: int)
    ensures OnSelect(r, now).last == r.last
    ensures OnBookmarkButton(env, r, slot, now).last == r.last
    ensures OnStart(env, r).last == r.last
  {
    var out := Recalled(env.player, r.player, Bookmarks.Lookup(r.bookmarks.config, SlotKey(slot)));
    assert Finish(r, out).last == r.last;
  }

  /** The debounce table after an event: updated by `_is_debounced` for the
      events it sees, untouched for every other event. */
  lemma StepDebounceTable(env: Env, r: Radio, ev: InputEvent, now: int)
    ensures Step(env, r, ev, now).last ==
      if Watched(ev) then Debounce(r.last, ev.code, now).1 else r.last
  {
    var d := Debounce(r.last, ev.code, now);
    if ev.evType == Key && ev.state == 1 && d.0 {
      var r1 := r.(last := d.1);
      HandlersKeepLast(env, r1, A, now);
      HandlersKeepLast(env, r1, B, now);
    }
  }

  /** After an accepted event its code is silent for DEBOUNCE_TIME: a second
      event with the same code at most 300 ms later changes nothing at all,
      and one more than 300 ms later is accepted again. */
  lemma DebounceSpacing(env: Env, r: Radio, ev: InputEvent, t1: int, t2: int)
    requires Watched(ev) && Debounce(r.last, ev.code, t1).0
    ensures t2 - t1 <= DebounceTime ==> Step(env, Step(env, r, ev, t1), ev, t2) == Step(env, r, ev, t1)
    ensures t2 - t1 > DebounceTime ==> Step(env, Step(env, r, ev, t1), ev, t2).last[ev.code] == t2
  {
    var r1 := Step(env, r, ev, t1);
    StepDebounceTable(env, r, ev, t1);
    assert r1.last[ev.code] == t1;
    StepDebounceTable(env, r1, ev, t2);
  }

  /** Releases, auto-repeats, other event types and unknown axes change nothing;
      a rejected press changes nothing; an accepted press of an unknown key only
      stamps the debounce table. */
  lemma IgnoredEvents(env: Env, r: Radio, ev: InputEvent, now: int)
    ensures !Watched(ev) ==> Step(env, r, ev, now) == r
    ensures Watched(ev) && !Debounce(r.last, ev.code, now).0 ==> Step(env, r, ev, now) == r
    ensures ev.evType == Key && ev.state == 1 && Debounce(r.last, ev.code, now).0 &&
            ev.code !in {ButtonSelect, ButtonA, ButtonB, ButtonStart} ==>
      Step(env, r, ev, now) == r.(last := r.last[ev.code := now])
  {
  }

  // ---------------------------------------------------------------------
  // Buttons

  /** An accepted Select press only opens the save window. */
  lemma SelectArms(env: Env, r: Radio, now: int)
    requires Debounce(r.last, ButtonSelect, now).0
    ensures Step(env, r, Press(ButtonSelect), now) == r.(last := r.last[ButtonSelect := now], selectTime := now)
    ensures now > 0 ==> InSaveWindow(Step(env, r, Press(ButtonSelect), now), now)
  {
  }

  /** Select then A (or B) within BOOKMARK_SAVE_WINDOW: the current station is
      stored in that slot and announced, the other slot and the stream are left
      alone, and the window is closed, so the next press of the button recalls. */
  lemma SaveChord(env: Env, r: Radio, slot: Slot, now: int)
    requires Debounce(r.last, SlotCode(slot), now).0 && InSaveWindow(r, now)
    requires 0 <= r.player.index < |env.player.names| && env.player.names[r.player.index] != ""
    ensures var q := Step(env, r, Press(SlotCode(slot)), now);
      var station := env.player.names[r.player.index];
      q.selectTime == 0 && !InSaveWindow(q, now) &&
      Bookmarks.Lookup(q.bookmarks.config, SlotKey(slot)) == Str(station) &&
      q.bookmarks.writes == r.bookmarks.writes + [q.bookmarks.config] &&
      q.player.index == r.player.index && q.player.playing == r.player.playing && q.mixer == r.mixer &&
      q.player == Player.Said(r.player, env.player, "Bookmark " + SlotLetter(slot) + " set to " + station)
    ensures var q := Step(env, r, Press(SlotCode(slot)), now);
      forall other :: other != SlotKey(slot) ==>
        Bookmarks.Lookup(q.bookmarks.config, other) == Bookmarks.Lookup(r.bookmarks.config, other)
  {
    var station := env.player.names[r.player.index];
    var r1 := r.(last := r.last[SlotCode(slot) := now]);
    assert Step(env, r, Press(SlotCode(slot)), now) == OnBookmarkButton(env, r1, slot, now);
    forall other | other != SlotKey(slot)
      ensures Bookmarks.Lookup(Bookmarks.Set(r.bookmarks, SlotKey(slot), station).config, other)
           == Bookmarks.Lookup(r.bookmarks.config, other)
    {
      Bookmarks.SetThenGet(r.bookmarks, SlotKey(slot), station, other);
    }
    Bookmarks.SetThenGet(r.bookmarks, SlotKey(slot), station, "");
  }

  /** Within the window but with no current station, or one named "" (falsy
      in `if station:`): nothing is stored or announced, and the window is
      still closed. */
  lemma SaveWithoutStation(env: Env, r: Radio, slot: Slot, now: int)
    requires Debounce(r.last, SlotCode(slot), now).0 && InSaveWindow(r, now)
    requires !(0 <= r.player.index < |env.player.names|) || env.player.names[r.player.index] == ""
    ensures Step(env, r, Press(SlotCode(slot)), now) == r.(last := r.last[SlotCode(slot) := now], selectTime := 0)
  {
    var r1 := r.(last := r.last[SlotCode(slot) := now]);
    assert Step(env, r, Press(SlotCode(slot)), now) == OnBookmarkButton(env, r1, slot, now);
  }

  /** A, B outside the window: a stored station that the manager knows is
      played and becomes the current one; any other string, null, number or
      empty container plays the first station (index 0); a non-empty object or
      array makes `is_valid_station` raise TypeError, and with no stations at
      all `stations[0]` raises IndexError: then nothing changes but the
      debounce stamp, and the window's timestamp stays uncleared. */
  lemma RecallPlays(env: Env, r: Radio, slot: Slot, now: int)
    requires Consistent(env)
    requires Debounce(r.last, SlotCode(slot), now).0 && !InSaveWindow(r, now)
    ensures var q := Step(env, r, Press(SlotCode(slot)), now);
      var saved := Bookmarks.Lookup(r.bookmarks.config, SlotKey(slot));
      saved.Str? && saved.s != "" && saved.s in env.player.names ==>
        q.selectTime == 0 && q.bookmarks == r.bookmarks && q.mixer == r.mixer &&
        0 <= q.player.index < |env.player.names| && env.player.names[q.player.index] == saved.s &&
        saved.s !in env.player.names[..q.player.index] &&
        q.player == Player.Start(r.player.(index := q.player.index), env.player, saved.s)
    ensures var q := Step(env, r, Press(SlotCode(slot)), now);
      var saved := Bookmarks.Lookup(r.bookmarks.config, SlotKey(slot));
      RecallOf(saved, env.player.catalog).Miss? && env.player.names != [] ==>
        q.selectTime == 0 && q.bookmarks == r.bookmarks && q.mixer == r.mixer &&
        q.player == Player.Start(r.player.(index := 0), env.player, env.player.names[0])
    ensures env.player.names == [] ==>
      Step(env, r, Press(SlotCode(slot)), now) == r.(last := r.last[SlotCode(slot) := now])
    ensures RecallOf(Bookmarks.Lookup(r.bookmarks.config, SlotKey(slot)), env.player.catalog).Unhashable? ==>
      Step(env, r, Press(SlotCode(slot)), now) == r.(last := r.last[SlotCode(slot) := now])
  {
    var r1 := r.(last := r.last[SlotCode(slot) := now]);
    assert Step(env, r, Press(SlotCode(slot)), now) == OnBookmarkButton(env, r1, slot, now);
    var saved := Bookmarks.Lookup(r.bookmarks.config, SlotKey(slot));
    var names := env.player.names;
    if names != [] {
      assert names[0] in names;
      assert Player.IndexOf(names, names[0]) == 0;
    }
    if saved.Str? && saved.s != "" && saved.s in names {
      assert RecallOf(saved, env.player.catalog) == Hit(saved.s);
      Player.PlayByNameIndex(r.player, env.player, saved.s);
    }
    if names == [] {
      assert Keys(env.player.catalog) == [];
      match saved
      case Str(s) =>
        assert RecallOf(saved, env.player.catalog) == Miss;
      case _ =>
    }
  }

  /** Start toggles: a playing radio stops; a stopped radio starts its current
      station, or the first station when the index is off the list or the
      current name is "" (falsy in `if station:`); with no stations the
      IndexError of `stations[0]` leaves everything but the debounce stamp. */
  lemma StartToggles(env: Env, r: Radio, now: int)
    requires Debounce(r.last, ButtonStart, now).0
    ensures var q := Step(env, r, Press(ButtonStart), now);
      q.selectTime == r.selectTime && q.bookmarks == r.bookmarks && q.mixer == r.mixer
    ensures r.player.playing ==> Step(env, r, Press(ButtonStart), now).player == Player.Stop(r.player)
    ensures r.player.playing ==> !Step(env, r, Press(ButtonStart), now).player.playing
    ensures !r.player.playing && 0 <= r.player.index < |env.player.names| && env.player.names[r.player.index] != "" ==>
      Step(env, r, Press(ButtonStart), now).player == Player.Start(r.player, env.player, env.player.names[r.player.index])
    ensures !r.player.playing && !(0 <= r.player.index < |env.player.names|) && env.player.names != [] ==>
      Step(env, r, Press(ButtonStart), now).player == Player.Start(r.player, env.player, env.player.names[0])
    ensures !r.player.playing && 0 <= r.player.index < |env.player.names| && env.player.names[r.player.index] == "" ==>
      Step(env, r, Press(ButtonStart), now).player == Player.Start(r.player, env.player, env.player.names[0])
    ensures !r.player.playing && env.player.names == [] ==>
      Step(env, r, Press(ButtonStart), now) == r.(last := r.last[ButtonStart := now])
  {
  }

  /** The stick: X left / right steps to the previous / next station, Y up /
      down raises / lowers the volume, and a centred position between the
      thresholds does nothing but still takes the debounce slot. */
  lemma JoystickRouting(env: Env, r: Radio, position: int, now: int)
    ensures Debounce(r.last, JoystickX, now).0 ==>
      var q := Step(env, r, Axis(JoystickX, position), now);
      q.last == r.last[JoystickX := now] && q.selectTime == r.selectTime && q.bookmarks == r.bookmarks && q.mixer == r.mixer &&
      q.player == (if position < JoystickMinThreshold then Player.Previous(r.player, env.player)
                   else if position > JoystickMaxThreshold then Player.Next(r.player, env.player)
                   else r.player)
    ensures Debounce(r.last, JoystickY, now).0 ==>
      var q := Step(env, r, Axis(JoystickY, position), now);
      q.last == r.last[JoystickY := now] && q.selectTime == r.selectTime && q.bookmarks == r.bookmarks && q.player == r.player &&
      q.mixer == (if position < JoystickMinThreshold then Volume.Adjusted(r.mixer, env.amixer, "up")
                  else if position > JoystickMaxThreshold then Volume.Adjusted(r.mixer, env.amixer, "down")
                  else r.mixer)
  {
  }

  // ---------------------------------------------------------------------
  // The invariant

  lemma SaveKeepsInv(env: Env, r: Radio, slot: Slot)
    requires Inv(env, r)
    ensures Inv(env, SaveBookmark(env, r, slot))
  {
    var station := Player.CurrentStation(r.player, env.player);
    if station.Some? && station.value != "" {
      Player.StartStopKeepOneProcess(r.player, env.player, "", "Bookmark " + SlotLetter(slot) + " set to " + station.value);
    }
  }

  lemma RecallKeepsInv(env: Env, r: Radio, slot: Slot)
    requires Inv(env, r)
    ensures Inv(env, RecallBookmark(env, r, slot))
  {
    var saved := Bookmarks.Lookup(r.bookmarks.config, SlotKey(slot));
    match RecallOf(saved, env.player.catalog)
    case Unhashable =>
    case Hit(name) =>
      Player.OperationsKeepOneProcess(r.player, env.player, name);
      Player.OperationsKeepIndexInRange(r.player, env.player, name, "");
    case Miss =>
      if env.player.names != [] {
        Player.OperationsKeepOneProcess(r.player, env.player, env.player.names[0]);
        Player.OperationsKeepIndexInRange(r.player, env.player, env.player.names[0], "");
      }
  }

  lemma StartKeepsInv(env: Env, r: Radio)
    requires Inv(env, r)
    ensures Inv(env, OnStart(env, r))
  {
    if r.player.playing {
      Player.StartStopKeepOneProcess(r.player, env.player, "", "");
      Player.OperationsKeepIndexInRange(r.player, env.player, "", "");
    } else {
      var station := Player.CurrentStation(r.player, env.player);
      if station.Some? && station.value != "" {
        Player.StartStopKeepOneProcess(r.player, env.player, station.value, "");
        Player.OperationsKeepIndexInRange(r.player, env.player, station.value, "");
      } else if env.player.names != [] {
        Player.StartStopKeepOneProcess(r.player, env.player, env.player.names[0], "");
        Player.OperationsKeepIndexInRange(r.player, env.player, env.player.names[0], "");
      }
    }
  }

  lemma ButtonKeepsInv(env: Env, r: Radio, code: string, now: int)
    requires Inv(env, r)
    ensures Inv(env, Step(env, r, Press(code), now))
  {
    var d := Debounce(r.last, code, now);
    var r1 := r.(last := d.1);
    if d.0 {
      if code == ButtonSelect {
        assert Step(env, r, Press(code), now) == OnSelect(r1, now);
      } else if code == ButtonA {
        assert Step(env, r, Press(code), now) == OnBookmarkButton(env, r1, A, now);
        SaveKeepsInv(env, r1, A);
        RecallKeepsInv(env, r1, A);
      } else if code == ButtonB {
        assert Step(env, r, Press(code), now) == OnBookmarkButton(env, r1, B, now);
        SaveKeepsInv(env, r1, B);
        RecallKeepsInv(env, r1, B);
      } else if code == ButtonStart {
        assert Step(env, r, Press(code), now) == OnStart(env, r1);
        StartKeepsInv(env, r1);
      }
    }
  }

  lemma AxisKeepsInv(env: Env, r: Radio, code: string, position: int, now: int)
    requires Inv(env, r)
    ensures Inv(env, Step(env, r, Axis(code, position), now))
  {
    var r1 := r.(last := Debounce(r.last, code, now).1);
    if code == JoystickX && Debounce(r.last, JoystickX, now).0 {
      if position < JoystickMinThreshold {
        assert Step(env, r, Axis(code, position), now) == r1.(player := Player.Previous(r.player, env.player));
      } else if position > JoystickMaxThreshold {
        assert Step(env, r, Axis(code, position), now) == r1.(player := Player.Next(r.player, env.player));
      }
      Player.OperationsKeepOneProcess(r.player, env.player, "");
      Player.OperationsKeepIndexInRange(r.player, env.player, "", "");
    } else if code == JoystickY && Debounce(r.last, JoystickY, now).0 {
      Volume.AdjustUnmutesFirst(r.mixer, env.amixer, "up");
      Volume.AdjustUnmutesFirst(r.mixer, env.amixer, "down");
    }
  }

  /** Every event keeps the radio's invariant: at most one ffplay process,
      alive exactly when the handle is held; the index on a station; every
      volume step right after an unmute. */
  lemma StepKeepsInv(env: Env, r: Radio, ev: InputEvent, now: int)
    requires Inv(env, r)
    ensures Inv(env, Step(env, r, ev, now))
  {
    if ev.evType == Key && ev.state == 1 {
      assert ev == Press(ev.code);
      ButtonKeepsInv(env, r, ev.code, now);
    } else if ev.evType == Absolute {
      assert ev == Axis(ev.code, ev.state);
      AxisKeepsInv(env, r, ev.code, ev.state, now);
    }
  }

  /** The radio as the constructors build it (index 0, nothing playing, no
      mixer calls) satisfies the invariant. */
  lemma InitialInv(env: Env, config: Dict<Value>)
    ensures Inv(env, Radio(InitialLastEventTime, 0, Player.State(0, false, []), Bookmarks.State(config, []), []))
    ensures forall code :: code in InitialLastEventTime ==> InitialLastEventTime[code] == 0
  {
  }

  /** Any run of events keeps the invariant. */
  function Run(env: Env, r: Radio, events: seq<(InputEvent, int)>): Radio
    decreases |events|
  {
    if events == [] then r
    else Run(env, Step(env, r, events[0].0, events[0].1), events[1..])
  }

  lemma {:induction false} RunKeepsInv(env: Env, r: Radio, events: seq<(InputEvent, int)>)
    requires Inv(env, r)
    ensures Inv(env, Run(env, r, events))
    decreases |events|
  {
    if events != [] {
      StepKeepsInv(env, r, events[0].0, events[0].1);
      RunKeepsInv(env, Step(env, r, events[0].0, events[0].1), events[1..]);
    }
  }
}
