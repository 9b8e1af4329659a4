/** `RadioPlayer` of main.py: the current station index and the handle of
    at most one running ffplay process. Spawning, terminating and speaking
    are recorded as effects in an append-only log. */
module Player {
  import opened Wrappers
  import opened Dicts
  import opened Json
  import Stations

  /** What the player does to the outside world. */
  datatype Effect =
    | Speak(text: string)   // a text-to-speech announcement
    | Terminate             // terminate, wait up to 5 s, kill: the held ffplay process is gone
    | Spawn(url: string)    // `ffplay -autoexit -nodisp -rtbufsize 1500M -max_delay 5000000 url`

  /** The player's changing state: `current_station_index`, whether
      `current_process` is set, and what it has done so far. */
  datatype State = State(index: int, playing: bool, log: seq<Effect>)

  /** What the player reads but never writes: its own list of station names
      (taken once, at construction), the station manager's catalog, and
      whether ffplay and a text-to-speech engine were found. */
  datatype Env = Env(names: seq<string>, catalog: Dict<Value>, ffplay: bool, tts: bool)

  /** `speak`: announced only when a TTS engine exists. */
  function Said(p: State, env: Env, text: string): State
  {
    if env.tts then p.(log := p.log + [Speak(text)]) else p
  }

  /** `stop_stream`. */
  function Stop(p: State): State
  {
    if p.playing then p.(playing := false, log := p.log + [Terminate]) else p
  }

  /** The station `start_stream` ends up playing and the URL it hands to
      ffplay, or None when the name has no URL and there are no stations. */
  function Resolve(env: Env, name: string): Option<(string, Value)>
  {
    var url := Stations.UrlOf(env.catalog, name);
    if !url.Null? then Some((name, url))
    else if env.names == [] then None
    else Some((env.names[0], Stations.UrlOf(env.catalog, env.names[0])))
  }

  /** `start_stream`. Popen only accepts a string URL: any other JSON value
      raises inside the try block and leaves no process. */
  function Start(p: State, env: Env, name: string): (q: State)
    ensures q.index == p.index
    ensures |p.log| <= |q.log| && q.log[..|p.log|] == p.log
  {
    match Resolve(env, name)
    case None => p
    case Some((station, url)) =>
      var stopped := Stop(p);
      if !env.ffplay then stopped
      else
        var announced := Said(stopped, env, "Starting stream of " + station);
        if url.Str? then announced.(playing := true, log := announced.log + [Spawn(url.s)])
        else announced
  }

  /** `next_station`. Python's `%` with a positive divisor agrees with Dafny's. */
  function Next(p: State, env: Env): State
  {
    if env.names == [] then p
    else
      var i := (p.index + 1) % |env.names|;
      Start(p.(index := i), env, env.names[i])
  }

  /** `previous_station`. */
  function Previous(p: State, env: Env): State
  {
    if env.names == [] then p
    else
      var i := (p.index - 1) % |env.names|;
      Start(p.(index := i), env, env.names[i])
  }

  /** `list.index`: the first position of `name`. */
  function IndexOf(names: seq<string>, name: string): (i: nat)
    requires name in names
    ensures i < |names| && names[i] == name
    ensures name !in names[..i]
  {
    if names[0] == name then 0
    else
      var i := 1 + IndexOf(names[1..], name);
      assert names[..i] == [names[0]] + names[1..][..i - 1];
      i
  }

  /** `play_station_by_name`. With no stations the fallback `self.stations[0]`
      raises IndexError before anything has changed. */
  function PlayByName(p: State, env: Env, name: string): Outcome<State>
  {
    if name in env.names then Normal(Start(p.(index := IndexOf(env.names, name)), env, name))
    else if env.names == [] then Raised(p)
    else Normal(Start(p, env, env.names[0]))
  }

  /** `get_current_station`. */
  function CurrentStation(p: State, env: Env): (r: Option<string>)
    ensures r.Some? <==> 0 <= p.index < |env.names|
    ensures r.Some? ==> r.value == env.names[p.index]
  {
    if 0 <= p.index < |env.names| then Some(env.names[p.index]) else None
  }

  // ---------------------------------------------------------------------
  // Invariants

  /** Processes started minus processes stopped, according to the log. */
  function Running(log: seq<Effect>): int
  {
    if log == [] then 0
    else
      Running(log[..|log| - 1]) +
      match log[|log| - 1]
      case Spawn(_) => 1
      case Terminate => -1
      case Speak(_) => 0
  }

  /** At most one ffplay process is alive, and it is alive exactly when the handle is held. */
  predicate OneProcess(p: State)
  {
    Running(p.log) == if p.playing then 1 else 0
  }

  /** The index points at a station, or is 0 when there are none. */
  predicate IndexInRange(p: State, env: Env)
  {
    if env.names == [] then p.index == 0 else 0 <= p.index < |env.names|
  }

  lemma RunningAppend(log: seq<Effect>, e: Effect)
    ensures Running(log + [e]) == Running(log) + match e
      case Spawn(_) => 1
      case Terminate => -1
      case Speak(_) => 0
  {
    assert (log + [e])[..|log|] == log;
  }

  /** `stop_stream` and `start_stream` never leave a second process behind. */
  lemma StartStopKeepOneProcess(p: State, env: Env, name: string, text: string)
    requires OneProcess(p)
    ensures OneProcess(Stop(p))
    ensures OneProcess(Said(p, env, text))
    ensures OneProcess(Start(p, env, name))
  {
    RunningAppend(p.log, Terminate);
    RunningAppend(p.log, Speak(text));
    var stopped := Stop(p);
    RunningAppend(stopped.log, Speak("Starting stream of " + name));
    match Resolve(env, name)
    case None =>
    case Some((station, url)) =>
      RunningAppend(stopped.log, Speak("Starting stream of " + station));
      var announced := Said(stopped, env, "Starting stream of " + station);
      if url.Str? {
        RunningAppend(announced.log, Spawn(url.s));
      }
  }

  /** Next, previous and play-by-name keep the one-process invariant. */
  lemma OperationsKeepOneProcess(p: State, env: Env, name: string)
    requires OneProcess(p)
    ensures OneProcess(Next(p, env))
    ensures OneProcess(Previous(p, env))
    ensures OneProcess(PlayByName(p, env, name).state)
  {
    if env.names != [] {
      var i := (p.index + 1) % |env.names|;
      assert Next(p, env) == Start(p.(index := i), env, env.names[i]);
      StartStopKeepOneProcess(p.(index := i), env, env.names[i], "");
      var j := (p.index - 1) % |env.names|;
      assert Previous(p, env) == Start(p.(index := j), env, env.names[j]);
      StartStopKeepOneProcess(p.(index := j), env, env.names[j], "");
    }
    if name in env.names {
      var k := IndexOf(env.names, name);
      assert PlayByName(p, env, name).state == Start(p.(index := k), env, name);
      StartStopKeepOneProcess(p.(index := k), env, name, "");
    } else if env.names != [] {
      assert PlayByName(p, env, name).state == Start(p, env, env.names[0]);
      StartStopKeepOneProcess(p, env, env.names[0], "");
    }
  }

  /** Every player operation keeps the index on a station. */
  lemma OperationsKeepIndexInRange(p: State, env: Env, name: string, text: string)
    requires IndexInRange(p, env)
    ensures IndexInRange(Stop(p), env)
    ensures IndexInRange(Said(p, env, text), env)
    ensures IndexInRange(Start(p, env, name), env)
    ensures IndexInRange(Next(p, env), env)
    ensures IndexInRange(Previous(p, env), env)
    ensures IndexInRange(PlayByName(p, env, name).state, env)
  {
  }

  // ---------------------------------------------------------------------
  // Properties of the individual operations

  /** `stop_stream` always leaves no handle, and a second call does nothing. */
  lemma StopIsIdempotent(p: State)
    ensures !Stop(p).playing && Stop(p).index == p.index
    ensures Stop(Stop(p)) == Stop(p)
    ensures !p.playing ==> Stop(p) == p
  {
  }

  /** After `start_stream` a process is held exactly when ffplay exists and the
      resolved URL is a string; when nothing resolves the old stream keeps playing. */
  lemma StartOutcome(p: State, env: Env, name: string)
    ensures var q := Start(p, env, name);
      q.playing <==>
        match Resolve(env, name)
        case None => p.playing
        case Some((_, url)) => env.ffplay && url.Str?
    ensures var q := Start(p, env, name);
      Resolve(env, name).Some? && env.ffplay && Resolve(env, name).value.1.Str? ==>
        q.log[|q.log| - 1] == Spawn(Resolve(env, name).value.1.s)
    ensures Resolve(env, name).Some? && p.playing ==> Start(p, env, name).log[|p.log|] == Terminate
  {
  }

  /** An unknown name (or one whose URL is null) plays the first station, unless there is none. */
  lemma StartFallsBackToFirst(p: State, env: Env, name: string)
    requires Stations.UrlOf(env.catalog, name).Null?
    ensures env.names == [] ==> Start(p, env, name) == p
    ensures env.names != [] ==> Start(p, env, name) == Start(p, env, env.names[0])
  {
  }

  /** `next_station` from the last index wraps to 0 and plays the station it lands on. */
  lemma NextWraps(p: State, env: Env)
    requires env.names != [] && IndexInRange(p, env)
    ensures var j := if p.index == |env.names| - 1 then 0 else p.index + 1;
      Next(p, env) == Start(p.(index := j), env, env.names[j])
  {
    var n := |env.names|;
    var i := (p.index + 1) % n;
    var j := if p.index == n - 1 then 0 else p.index + 1;
    assert i == j;
    assert Next(p, env) == Start(p.(index := i), env, env.names[i]);
  }

  /** `previous_station` from 0 wraps to the last index and plays the station it lands on. */
  lemma PreviousWraps(p: State, env: Env)
    requires env.names != [] && IndexInRange(p, env)
    ensures var j := if p.index == 0 then |env.names| - 1 else p.index - 1;
      Previous(p, env) == Start(p.(index := j), env, env.names[j])
  {
    var n := |env.names|;
    var i := (p.index - 1) % n;
    var j := if p.index == 0 then n - 1 else p.index - 1;
    assert i == j;
    assert Previous(p, env) == Start(p.(index := i), env, env.names[i]);
  }

  /** Previous undoes Next on the index. */
  lemma PreviousUndoesNext(p: State, env: Env)
    requires env.names != [] && IndexInRange(p, env)
    ensures Previous(Next(p, env), env).index == p.index
  {
    NextWraps(p, env);
    PreviousWraps(Next(p, env), env);
  }

  /** With no stations, next and previous change nothing. */
  lemma NoStationsNoMove(p: State, env: Env)
    requires env.names == []
    ensures Next(p, env) == p && Previous(p, env) == p
  {
  }

  /** `play_station_by_name` moves the index to the first position of a known
      name and starts it; for an unknown name it plays the first station and
      keeps the index where it was. */
  lemma PlayByNameIndex(p: State, env: Env, name: string)
    ensures name in env.names ==>
      var q := PlayByName(p, env, name);
      q.Normal? && q.state == Start(p.(index := q.state.index), env, name) &&
      0 <= q.state.index < |env.names| && env.names[q.state.index] == name &&
      name !in env.names[..q.state.index]
    ensures name !in env.names && env.names != [] ==>
      PlayByName(p, env, name) == Normal(Start(p, env, env.names[0])) &&
      PlayByName(p, env, name).state.index == p.index
    ensures name !in env.names && env.names == [] ==> PlayByName(p, env, name) == Raised(p)
  {
  }

  // ---------------------------------------------------------------------
  // RadioPlayer

  class RadioPlayer {
    const manager: Stations.StationManager
    /** `stations`: the names read from the manager once, at construction. */
    const stations: seq<string>
    /** Whether `shutil.which('ffplay')` finds the binary. */
    const ffplayAvailable: bool
    /** Whether `pyttsx3.init()` succeeded. */
    const ttsAvailable: bool
    var currentStationIndex: int
    /** `current_process is not None`. */
    var playing: bool
    var log: seq<Effect>

    function Environment(): Env
      reads this, manager
    {
      Env(stations, manager.stations, ffplayAvailable, ttsAvailable)
    }

    function Snapshot(): State
      reads this
    {
      State(currentStationIndex, playing, log)
    }

    constructor (manager: Stations.StationManager, ffplayAvailable: bool, ttsAvailable: bool)
      ensures this.manager == manager && stations == manager.GetStationNames()
      ensures this.ffplayAvailable == ffplayAvailable && this.ttsAvailable == ttsAvailable
      ensures Snapshot() == State(0, false, [])
    {
      this.manager := manager;
      stations := manager.GetStationNames();
      this.ffplayAvailable := ffplayAvailable;
      this.ttsAvailable := ttsAvailable;
      currentStationIndex := 0;
      playing := false;
      log := [];
    }

    /** `speak`. */
    method Speak(text: string)
      modifies this
      ensures Snapshot() == Said(old(Snapshot()), Environment(), text)
    {
      if ttsAvailable {
        log := log + [Effect.Speak(text)];
      }
    }

    /** `start_stream`. */
    method StartStream(stationName: string)
      modifies this
      ensures Snapshot() == Start(old(Snapshot()), Environment(), stationName)
    {
      var name := stationName;
      var url := manager.GetStationUrl(name);
      if url.Null? {
        if stations == [] {
          return;
        }
        name := stations[0];
        url := manager.GetStationUrl(name);
      }
      StopStream();
      if !ffplayAvailable {
        return;
      }
      Speak("Starting stream of " + name);
      if url.Str? {
        playing := true;
        log := log + [Spawn(url.s)];
      } else {
        playing := false;
      }
    }

    /** `stop_stream`. */
    method StopStream()
      modifies this
      ensures Snapshot() == Stop(old(Snapshot()))
    {
      if playing {
        log := log + [Terminate];
        playing := false;
      }
    }

    /** `next_station`. */
    method NextStation()
      modifies this
      ensures Snapshot() == Next(old(Snapshot()), Environment())
    {
      if stations == [] {
        return;
      }
      ghost var p := Snapshot();
      currentStationIndex := (currentStationIndex + 1) % |stations|;
      assert Snapshot() == p.(index := currentStationIndex);
      StartStream(stations[currentStationIndex]);
    }

    /** `previous_station`. */
    method PreviousStation()
      modifies this
      ensures Snapshot() == Previous(old(Snapshot()), Environment())
    {
      if stations == [] {
        return;
      }
      ghost var p := Snapshot();
      currentStationIndex := (currentStationIndex - 1) % |stations|;
      assert Snapshot() == p.(index := currentStationIndex);
      StartStream(stations[currentStationIndex]);
    }

    /** `play_station_by_name`; `raised` reports the IndexError of an empty station list. */
    method PlayStationByName(stationName: string) returns (raised: bool)
      modifies this
      ensures raised == PlayByName(old(Snapshot()), Environment(), stationName).Raised?
      ensures Snapshot() == PlayByName(old(Snapshot()), Environment(), stationName).state
    {
      raised := false;
      if stationName in stations {
        currentStationIndex := IndexOf(stations, stationName);
        StartStream(stationName);
      } else {
        if stations == [] {
          raised := true;
          return;
        }
        StartStream(stations[0]);
      }
    }

    /** `is_playing`: exactly "a handle is held". */
    function IsPlaying(): (b: bool)
      reads this
      ensures b <==> Snapshot().playing
    {
      playing
    }

    /** `get_current_station`: the name at the index, None when the index is off the list. */
    function GetCurrentStation(): (r: Option<string>)
      reads this
      ensures r.Some? <==> 0 <= currentStationIndex < |stations|
      ensures r.Some? ==> r.value == stations[currentStationIndex]
    {
      if 0 <= currentStationIndex < |stations| then Some(stations[currentStationIndex]) else None
    }
  }
}
