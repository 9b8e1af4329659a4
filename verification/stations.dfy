/** The station catalog of stations.py: station name -> stream URL, taken
    from the custom station file when that yields any station, otherwise
    from the default station file. */
module Stations {
  import opened Wrappers
  import opened Dicts
  import opened Json

  /** `_load_json_file`: the file's top-level object, or {} when the file is
      missing or cannot be read or parsed. */
  function LoadJsonFile(file: File): (d: Dict<Value>)
    ensures file.Parsed? ==> d == file.data
    ensures !file.Parsed? ==> d == []
  {
    match file
    case Parsed(data) => data
    case _ => []
  }

  /** What one raw entry becomes: a string is the URL itself, an object
      carrying "url" gives that field (whatever JSON it holds), anything else
      is dropped. */
  function NormalizedValue(v: Value): Option<Value>
  {
    match v
    case Str(_) => Some(v)
    case Obj(fields) => if "url" in fields then Some(fields["url"]) else None
    case _ => None
  }

  /** `_normalize_stations`, entry by entry in the input's order. */
  function Normalized(data: Dict<Value>): (r: Dict<Value>)
    ensures DistinctKeys(r)
    ensures forall k :: k in Keys(r) ==> k in Keys(data)
    decreases |data|
  {
    if data == [] then []
    else
      var pre := data[..|data| - 1];
      var last := data[|data| - 1];
      assert data == pre + [last];
      KeysAppend(pre, last);
      var prefix := Normalized(pre);
      match NormalizedValue(last.1)
      case Some(url) =>
        PutKeepsKeysDistinct(prefix, last.0, url);
        Put(prefix, last.0, url)
      case None => prefix
  }

  /** `_normalize_stations` as the source runs it: one pass that fills a fresh dict. */
  method NormalizeStations(data: Dict<Value>) returns (normalized: Dict<Value>)
    ensures normalized == Normalized(data)
  {
    normalized := [];
    for i := 0 to |data|
      invariant normalized == Normalized(data[..i])
    {
      var key, value := data[i].0, data[i].1;
      assert data[..i + 1][..i] == data[..i];
      if value.Str? {
        normalized := Put(normalized, key, value);
      } else if value.Obj? && "url" in value.fields {
        normalized := Put(normalized, key, value.fields["url"]);
      }
    }
    assert data[..|data|] == data;
  }

  /** `_load_stations`: the custom list if it yields any station, the default list otherwise. */
  function Catalog(customFile: File, defaultFile: File): Dict<Value>
  {
    var custom := Normalized(LoadJsonFile(customFile));
    if custom != [] then custom else Normalized(LoadJsonFile(defaultFile))
  }

  /** `get_station_url` on a catalog: the stored value, None (here Null) for an unknown name. */
  function UrlOf(catalog: Dict<Value>, name: string): (url: Value)
    ensures name !in Keys(catalog) ==> url == Null
    ensures DistinctKeys(catalog) ==>
      forall i :: 0 <= i < |catalog| && catalog[i].0 == name ==> url == catalog[i].1
  {
    match Get(catalog, name)
    case Some(v) => v
    case None => Null
  }

  // ---------------------------------------------------------------------
  // Properties of normalisation and of the custom-or-default choice

  /** A station is kept exactly when its raw value is a string or an object
      with "url", and then under the value `NormalizedValue` gives. */
  lemma {:induction false} NormalizedLookup(data: Dict<Value>, k: string)
    requires DistinctKeys(data)
    ensures Get(Normalized(data), k) ==
      match Get(data, k)
      case None => None
      case Some(v) => NormalizedValue(v)
  {
    if data != [] {
      var pre := data[..|data| - 1];
      var last := data[|data| - 1];
      DistinctPrefix(data);
      GetAppend(pre, last, k);
      NormalizedLookup(pre, k);
    }
  }

  /** Key `a` has an entry in `data` before an entry with key `b`. */
  ghost predicate Before(data: Dict<Value>, a: string, b: string)
  {
    exists p, q :: 0 <= p < q < |data| && data[p].0 == a && data[q].0 == b
  }

  /** `r`'s keys appear in `data` in the same relative order. */
  ghost predicate SameOrder(r: Dict<Value>, data: Dict<Value>)
  {
    forall i, j :: 0 <= i < j < |r| ==> Before(data, r[i].0, r[j].0)
  }

  /** The normalised keys keep the input's insertion order. */
  lemma {:induction false} NormalizedKeepsOrder(data: Dict<Value>)
    requires DistinctKeys(data)
    ensures SameOrder(Normalized(data), data)
  {
    if data != [] {
      var pre := data[..|data| - 1];
      var last := data[|data| - 1];
      DistinctPrefix(data);
      NormalizedKeepsOrder(pre);
      var prefix := Normalized(pre);
      SameOrderExtend(prefix, pre, last);
      match NormalizedValue(last.1)
      case None =>
      case Some(url) =>
        assert last.0 !in Keys(prefix);
        PutFresh(prefix, last.0, url);
        SameOrderAppend(prefix, pre, last, url);
    }
  }

  /** Splitting a dict into all but its last entry keeps the keys distinct and leaves the last key out of the rest. */
  lemma DistinctPrefix(data: Dict<Value>)
    requires DistinctKeys(data) && data != []
    ensures data == data[..|data| - 1] + [data[|data| - 1]]
    ensures DistinctKeys(data[..|data| - 1])
    ensures data[|data| - 1].0 !in Keys(data[..|data| - 1])
  {
    var pre := data[..|data| - 1];
    var last := data[|data| - 1];
    assert data == pre + [last];
    KeysAppend(pre, last);
  }

  lemma SameOrderExtend(r: Dict<Value>, data: Dict<Value>, e: (string, Value))
    requires SameOrder(r, data)
    ensures SameOrder(r, data + [e])
  {
    var data' := data + [e];
    forall i, j | 0 <= i < j < |r| ensures Before(data', r[i].0, r[j].0) {
      assert Before(data, r[i].0, r[j].0);
      var p, q :| 0 <= p < q < |data| && data[p].0 == r[i].0 && data[q].0 == r[j].0;
      assert data'[p] == data[p] && data'[q] == data[q];
    }
  }

  lemma SameOrderAppend(r: Dict<Value>, data: Dict<Value>, e: (string, Value), url: Value)
    requires SameOrder(r, data)
    requires forall k :: k in Keys(r) ==> k in Keys(data)
    ensures SameOrder(r + [(e.0, url)], data + [e])
  {
    var data' := data + [e];
    var r' := r + [(e.0, url)];
    SameOrderExtend(r, data, e);
    forall i, j | 0 <= i < j < |r'| ensures Before(data', r'[i].0, r'[j].0) {
      if j < |r| {
        assert r'[i] == r[i] && r'[j] == r[j];
        assert Before(data', r[i].0, r[j].0);
      } else {
        assert Keys(r)[i] == r[i].0;
        assert r[i].0 in Keys(data);
        var p :| 0 <= p < |data| && Keys(data)[p] == r[i].0;
        assert data'[p] == data[p] && data'[|data'| - 1] == e;
        assert r'[i] == r[i] && r'[j].0 == e.0;
      }
    }
  }

  /** Normalisation yields no station exactly when no entry is a string or an object with "url". */
  lemma {:induction false} NormalizedEmpty(data: Dict<Value>)
    ensures Normalized(data) == [] <==> forall i :: 0 <= i < |data| ==> NormalizedValue(data[i].1).None?
  {
    if data != [] {
      var pre := data[..|data| - 1];
      var last := data[|data| - 1];
      NormalizedEmpty(pre);
      match NormalizedValue(last.1)
      case Some(url) =>
        var r := Put(Normalized(pre), last.0, url);
        assert last.0 in Keys(r);
      case None =>
        assert forall i :: 0 <= i < |pre| ==> data[i] == pre[i];
    }
  }

  /** A map whose values are all strings comes through normalisation unchanged. */
  lemma {:induction false} NormalizedStringsUnchanged(data: Dict<Value>)
    requires DistinctKeys(data)
    requires forall i :: 0 <= i < |data| ==> data[i].1.Str?
    ensures Normalized(data) == data
  {
    if data != [] {
      var pre := data[..|data| - 1];
      var last := data[|data| - 1];
      DistinctPrefix(data);
      NormalizedStringsUnchanged(pre);
      PutFresh(pre, last.0, last.1);
    }
  }

  /** Normalising twice changes nothing when every kept URL is a string. */
  lemma NormalizedIdempotentOnStrings(data: Dict<Value>)
    requires forall i :: 0 <= i < |Normalized(data)| ==> Normalized(data)[i].1.Str?
    ensures Normalized(Normalized(data)) == Normalized(data)
  {
    NormalizedStringsUnchanged(Normalized(data));
  }

  /** In general normalisation is not idempotent: a "url" field holding a
      number survives the first pass and is dropped by the second. */
  lemma NormalizedNotIdempotent()
    ensures var data := [("x", Obj(map["url" := Scalar]))];
      Normalized(data) == [("x", Scalar)] && Normalized(Normalized(data)) == []
  {
    var data := [("x", Obj(map["url" := Scalar]))];
    assert data[..0] == [];
    var once: Dict<Value> := [("x", Scalar)];
    assert once[..0] == [];
    assert Normalized(data) == Put([], "x", Scalar);
  }

  /** A custom file with at least one usable entry replaces the default list
      entirely: the catalog is its normalisation and holds no other name. */
  lemma CustomReplacesDefault(customFile: File, defaultFile: File, i: nat)
    requires customFile.Parsed? && i < |customFile.data|
    requires NormalizedValue(customFile.data[i].1).Some?
    ensures Catalog(customFile, defaultFile) == Normalized(customFile.data)
    ensures forall k :: k in Keys(Catalog(customFile, defaultFile)) ==> k in Keys(customFile.data)
  {
    NormalizedEmpty(customFile.data);
  }

  /** Without a usable custom entry the catalog is the normalised default list (possibly empty). */
  lemma DefaultWithoutCustom(customFile: File, defaultFile: File)
    requires forall i :: 0 <= i < |LoadJsonFile(customFile)| ==>
      NormalizedValue(LoadJsonFile(customFile)[i].1).None?
    ensures Catalog(customFile, defaultFile) == Normalized(LoadJsonFile(defaultFile))
  {
    NormalizedEmpty(LoadJsonFile(customFile));
  }

  /** A custom file {"x": "http://a"} beside any default file gives the catalog {"x": "http://a"}. */
  lemma CustomOnlyExample(defaultFile: File)
    ensures Catalog(Parsed([("x", Str("http://a"))]), defaultFile) == [("x", Str("http://a"))]
  {
    var custom := [("x", Str("http://a"))];
    NormalizedStringsUnchanged(custom);
  }

  // ---------------------------------------------------------------------
  // StationManager

  class StationManager {
    /** `_stations`: the active catalog. */
    var stations: Dict<Value>

    ghost predicate Valid()
      reads this
    {
      DistinctKeys(stations)
    }

    /** `__init__` followed by `_load_stations`, with both files' contents given. */
    constructor (customFile: File, defaultFile: File)
      ensures Valid()
      ensures stations == Catalog(customFile, defaultFile)
    {
      stations := [];
      new;
      LoadStations(customFile, defaultFile);
    }

    /** `_load_stations`. */
    method LoadStations(customFile: File, defaultFile: File)
      modifies this
      ensures Valid()
      ensures stations == Catalog(customFile, defaultFile)
    {
      var custom := NormalizeStations(LoadJsonFile(customFile));
      if custom != [] {
        stations := custom;
      } else {
        var fallback := NormalizeStations(LoadJsonFile(defaultFile));
        stations := fallback;
      }
    }

    /** `reload`: the same custom-or-default rule applied to the files as they
        are now (so files that did not change give back the same catalog). */
    method Reload(customFile: File, defaultFile: File)
      modifies this
      ensures Valid()
      ensures stations == Catalog(customFile, defaultFile)
    {
      LoadStations(customFile, defaultFile);
    }

    /** `get_stations`: the catalog as a value; a Dafny sequence is immutable,
        so nothing a caller does with it reaches `stations`. */
    function GetStations(): (r: Dict<Value>)
      reads this
      ensures Keys(r) == GetStationNames()
      ensures forall n :: GetStationUrl(n) == UrlOf(r, n)
    {
      stations
    }

    /** `get_station_names`: every station name, in insertion order, each once. */
    function GetStationNames(): (names: seq<string>)
      reads this
      ensures |names| == |stations|
      ensures forall i :: 0 <= i < |stations| ==> names[i] == stations[i].0
      ensures Valid() ==> NoDuplicates(names)
    {
      Keys(stations)
    }

    /** `get_station_url`: the stored value for a station name, None (Null) for any other name. */
    function GetStationUrl(name: string): (url: Value)
      reads this
      ensures name !in GetStationNames() ==> url == Null
      ensures Valid() ==> forall i :: 0 <= i < |stations| && stations[i].0 == name ==> url == stations[i].1
    {
      UrlOf(stations, name)
    }

    /** `is_valid_station`: membership among the catalog's names. */
    function IsValidStation(name: string): (b: bool)
      reads this
      ensures b <==> name in GetStationNames()
      ensures b <==> exists i :: 0 <= i < |stations| && stations[i].0 == name
    {
      Get(stations, name).Some?
    }
  }
}
