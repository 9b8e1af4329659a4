/** `BookmarkManager` of main.py: a JSON config holding the two bookmark
    slots, written back to its file on every change. */
module Bookmarks {
  import opened Wrappers
  import opened Dicts
  import opened Json

  /** The config dict and every config written to the file so far. */
  datatype State = State(config: Dict<Value>, writes: seq<Dict<Value>>)

  /** The config used when there is no readable config file: both slots None. */
  const DefaultConfig: Dict<Value> := [("bookmark_A", Null), ("bookmark_B", Null)]

  /** `_load_config`: the file's object, or the default config. */
  function LoadConfig(file: File): Dict<Value>
  {
    if file.Parsed? then file.data else DefaultConfig
  }

  /** `get_bookmark`: `config.get(name)`, with None as Null. */
  function Lookup(config: Dict<Value>, name: string): (v: Value)
    ensures name !in Keys(config) ==> v == Null
  {
    match Get(config, name)
    case Some(v) => v
    case None => Null
  }

  /** `set_bookmark` followed by `_save_config`. */
  function Set(s: State, name: string, station: string): State
  {
    var config := Put(s.config, name, Str(station));
    State(config, s.writes + [config])
  }

  /** A stored bookmark reads back as stored, and the other slots keep their values. */
  lemma SetThenGet(s: State, name: string, station: string, other: string)
    ensures Lookup(Set(s, name, station).config, name) == Str(station)
    ensures other != name ==> Lookup(Set(s, name, station).config, other) == Lookup(s.config, other)
  {
  }

  /** Without a readable config file both slots are unset. */
  lemma NoFileNoBookmarks(file: File)
    requires !file.Parsed?
    ensures Lookup(LoadConfig(file), "bookmark_A") == Null
    ensures Lookup(LoadConfig(file), "bookmark_B") == Null
  {
    assert Get(DefaultConfig, "bookmark_A") == Some(Null);
    assert Get(DefaultConfig, "bookmark_B") == Some(Null);
  }

  /** Every change is written once, and the config written holds the new
      bookmark and every other slot as it was. */
  lemma SetSavesOnce(s: State, name: string, station: string, other: string)
    ensures var t := Set(s, name, station);
      |t.writes| == |s.writes| + 1 && t.writes[..|s.writes|] == s.writes &&
      Lookup(t.writes[|s.writes|], name) == Str(station) &&
      (other != name ==> Lookup(t.writes[|s.writes|], other) == Lookup(s.config, other))
  {
    SetThenGet(s, name, station, other);
  }

  class BookmarkManager {
    var config: Dict<Value>
    /** What `_save_config` wrote, oldest first. */
    var writes: seq<Dict<Value>>

    function Snapshot(): State
      reads this
    {
      State(config, writes)
    }

    /** `__init__`: the config file's contents are given. */
    constructor (file: File)
      ensures Snapshot() == State(LoadConfig(file), [])
    {
      if file.Parsed? {
        config := file.data;
      } else {
        config := DefaultConfig;
      }
      writes := [];
    }

    /** `set_bookmark`. */
    method SetBookmark(bookmarkName: string, stationName: string)
      modifies this
      ensures Snapshot() == Set(old(Snapshot()), bookmarkName, stationName)
    {
      config := Put(config, bookmarkName, Str(stationName));
      writes := writes + [config];
    }

    /** `get_bookmark`: the stored value, Null for a missing slot. */
    function GetBookmark(bookmarkName: string): (v: Value)
      reads this
      ensures bookmarkName !in Keys(config) ==> v == Null
      ensures forall i :: 0 <= i < |config| && config[i].0 == bookmarkName && DistinctKeys(config) ==> v == config[i].1
    {
      Lookup(config, bookmarkName)
    }
  }
}
