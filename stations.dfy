/** The weather station of a client and the provider's URLs: the station query and
    record of `get_station`, the area search of `search_areas`, `api_url` and `web_url`. */
module Stations {
  import opened Wrappers
  import opened Values
  import Text

  /** `StationInfo(data)`: the merged provider record, read through five keys. */
  datatype StationInfo = StationInfo(data: Dict) {
    function AreaId(): Value { Get(data, "areaid") }
    function AreaName(): Value { Get(data, "namecn") }
    function AreaCode(): Value { Get(data, "nameen") }
    function Latitude(): Value { Get(data, "lat") }
    function Longitude(): Value { Get(data, "lng") }
  }

  /** `station_code`: the English name, else the Chinese name, else the host's location
      name, as Python's `or` picks them. */
  function StationCode(st: StationInfo, locationName: Value): (r: Value)
    ensures Truthy(st.AreaCode()) ==> r == st.AreaCode()
    ensures !Truthy(st.AreaCode()) && Truthy(st.AreaName()) ==> r == st.AreaName()
    ensures !Truthy(st.AreaCode()) && !Truthy(st.AreaName()) ==> r == locationName
  {
    Or(Or(st.AreaCode(), st.AreaName()), locationName)
  }

  /** `station_name`: the Chinese name, else the station code. */
  function StationName(st: StationInfo, locationName: Value): (r: Value)
    ensures Truthy(st.AreaName()) ==> r == st.AreaName()
    ensures !Truthy(st.AreaName()) ==> r == StationCode(st, locationName)
  {
    Or(st.AreaName(), StationCode(st, locationName))
  }

  /** Without a Chinese name, the name and the code agree: both fall back the same way. */
  lemma NameFallsBackToCode(st: StationInfo, locationName: Value)
    requires !Truthy(st.AreaName())
    ensures StationName(st, locationName) == StationCode(st, locationName)
    ensures StationName(st, locationName) == Or(st.AreaCode(), locationName)
  {
  }

  // ---------------------------------------------------------------- URLs

  /** The path and query part of an API URL: the path without its leading slashes and,
      when a clock reading in milliseconds is given, the parameter `_=<ms>` after `?`,
      or after `&` when the path already has a query. */
  function Query(api: string, millis: Option<int>): string {
    var path := Text.LStripChar(api, '/');
    match millis
    case None => path
    case Some(t) => path + [if '?' in path then '&' else '?'] + "_=" + Text.IntToString(t)
  }

  /** `api_url(api, node, with_time)`, with the clock reading passed in (None for
      `with_time=False`): `https://<node>.<domain>/<query>`, with `https://www` turned
      into `http://www`. An empty domain raises. */
  function ApiUrl(domain: string, api: string, node: string, millis: Option<int>): (r: Result<string>)
    ensures r.Err? <==> domain == ""
    ensures r.Err? ==> r.error == IntegrationError(EmptyDomain)
  {
    if domain == "" then Err(IntegrationError(EmptyDomain))
    else Ok(Text.ReplaceAll("https://" + node + "." + domain + "/" + Query(api, millis), "https://www", "http://www"))
  }

  /** `web_url(path, node)`: the same URL without the clock parameter. */
  function WebUrl(domain: string, path: string, node: string := "m"): (r: Result<string>)
  {
    ApiUrl(domain, path, node, None)
  }

  /** Stripping leading slashes neither adds nor removes a `?`. */
  lemma QuestionKept(api: string)
    ensures '?' in api <==> '?' in Text.LStripChar(api, '/')
  {
    var p := Text.LStripChar(api, '/');
    InSuffix(api, |api| - |p|, '?');
  }

  /** A character none of the first `d` characters is, is in the string exactly when it
      is in what follows them. */
  lemma InSuffix(s: string, d: nat, c: char)
    requires d <= |s| && forall i :: 0 <= i < d ==> s[i] != c
    ensures c in s <==> c in s[d..]
  {
    if c in s {
      var i :| 0 <= i < |s| && s[i] == c;
      assert s[d..][i - d] == s[i];
    }
    if c in s[d..] {
      var j :| 0 <= j < |s| - d && s[d..][j] == c;
      assert s[j + d] == c;
    }
  }

  /** With the clock, the query is the path, then `&` exactly when the path had its own
      `?` (else `?`), then `_=` and digits that read back as the clock reading. */
  lemma TimedQuery(api: string, t: int)
    ensures var r, p := Query(api, Some(t)), Text.LStripChar(api, '/');
      |r| >= |p| + 3 && r[..|p|] == p && r[|p|] == (if '?' in api then '&' else '?')
      && r[|p| + 1..|p| + 3] == "_=" && Text.ParseInt(r[|p| + 3..]) == Some(t)
  {
    var p := Text.LStripChar(api, '/');
    QuestionKept(api);
    var sep := if '?' in api then '&' else '?';
    assert Query(api, Some(t)) == p + [sep] + "_=" + Text.IntToString(t);
    TimeParameter(p, sep, t);
  }

  lemma TimeParameter(p: string, sep: char, t: int)
    ensures var r := p + [sep] + "_=" + Text.IntToString(t);
      |r| >= |p| + 3 && r[..|p|] == p && r[|p|] == sep
      && r[|p| + 1..|p| + 3] == "_=" && Text.ParseInt(r[|p| + 3..]) == Some(t)
  {
    var ms := Text.IntToString(t);
    Concatenated(p, sep, ms);
    Text.ParseIntOfString(t);
  }

  lemma Concatenated(p: string, sep: char, ms: string)
    ensures var r := p + [sep] + "_=" + ms;
      |r| >= |p| + 3 && r[..|p|] == p && r[|p|] == sep && r[|p| + 1..|p| + 3] == "_=" && r[|p| + 3..] == ms
  {
  }

  /** The `www` node (the observation page) is fetched over plain HTTP. */
  lemma WwwIsHttp(domain: string, api: string, millis: Option<int>)
    requires domain != ""
    ensures var r := ApiUrl(domain, api, "www", millis);
      r.Ok? && Text.StartsWith(r.value, "http://www.")
  {
    var q := Query(api, millis);
    var rest := "." + domain + "/" + q;
    assert "https://" + "www" + "." + domain + "/" + q == "https://www" + rest;
    WwwReplaced(rest);
  }

  /** `https://www` followed by a dot becomes `http://www.`. */
  lemma WwwReplaced(x: string)
    requires x != [] && x[0] == '.'
    ensures Text.StartsWith(Text.ReplaceAll("https://www" + x, "https://www", "http://www"), "http://www.")
  {
    var pat, rep := "https://www", "http://www";
    var s := pat + x;
    assert Text.StartsWith(s, pat) by { assert s[..|pat|] == pat; }
    assert s[|pat|..] == x;
    assert !Text.StartsWith(x, pat) by {
      if |pat| <= |x| {
        assert x[..|pat|][0] == '.';
      }
    }
    var z := Text.ReplaceAll(x, pat, rep);
    assert z == [x[0]] + Text.ReplaceAll(x[1..], pat, rep);
    var u := rep + z;
    assert u == Text.ReplaceAll(s, pat, rep);
    assert u[..11] == rep + ['.'];
  }

  /** Every other node the client uses (`d1`, `d3`, `d7`, `toy1`, `m`) keeps HTTPS: no
      `https://www` can start inside `https://<node>.`, so only the domain and the path
      are subject to the replacement. */
  lemma OtherNodeIsHttps(domain: string, api: string, node: string, millis: Option<int>)
    requires domain != "" && node != [] && node[0] != 'w' && 'h' !in node
    ensures var r := ApiUrl(domain, api, node, millis);
      r.Ok? && r.value == "https://" + node + "." + Text.ReplaceAll(domain + "/" + Query(api, millis), "https://www", "http://www")
  {
    var b := domain + "/" + Query(api, millis);
    assert "https://" + node + "." + domain + "/" + Query(api, millis) == "https://" + node + "." + b;
    HttpsKept(node, b);
  }

  /** `https://<node>.` is left alone when the node neither starts with `w` nor holds an `h`. */
  lemma HttpsKept(node: string, b: string)
    requires node != [] && node[0] != 'w' && 'h' !in node
    ensures Text.ReplaceAll("https://" + node + "." + b, "https://www", "http://www")
      == "https://" + node + "." + Text.ReplaceAll(b, "https://www", "http://www")
  {
    var pat := "https://www";
    var tail := "ttps://" + node + ".";
    var a := "h" + tail;
    assert "https://" + node + "." + b == a + b;
    assert "https://" + node + "." == a;
    assert (a + b)[8] == node[0];
    assert !Text.StartsWith(a + b, pat) by {
      if |pat| <= |a + b| {
        assert (a + b)[..|pat|][8] == node[0];
      }
    }
    assert 'h' !in tail;
    Text.NoFirstChar(tail, b, pat);
    assert a[1..] == tail;
    assert Text.NoMatchIn(a, b, pat);
    Text.ReplaceAfter(a, b, pat, "http://www");
  }

  // ---------------------------------------------------------------- get_station

  /** An area id selects the station unless it is falsy or `'auto'`. */
  predicate ByArea(areaId: Value) {
    Truthy(areaId) && areaId != Str("auto")
  }

  /** The `params` of the station request: by area id, else by the host's coordinates
      when `lat` or `lng` is missing. Supplying both coordinates raises: they are never
      used as a query. */
  function StationQuery(areaId: Value, lat: Value, lng: Value, hostLat: Value, hostLng: Value): (r: Result<Dict>)
    ensures r.Err? <==> !ByArea(areaId) && Truthy(lat) && Truthy(lng)
    ensures r.Err? ==> r.error == IntegrationError(InvalidArguments)
    ensures r.Ok? ==> "method" in r.value && r.value["method"] == Str("stationinfo")
    ensures r.Ok? ==> ("areaid" in r.value <==> ByArea(areaId)) && ("lat" in r.value <==> !ByArea(areaId))
    ensures r.Ok? && ByArea(areaId) ==> r.value["areaid"] == areaId && |r.value| == 2
    ensures r.Ok? && !ByArea(areaId) ==> r.value["lat"] == hostLat && "lng" in r.value && r.value["lng"] == hostLng && |r.value| == 3
  {
    var pms := map["method" := Str("stationinfo")];
    if ByArea(areaId) then Ok(pms["areaid" := areaId])
    else if !Truthy(lat) || !Truthy(lng) then Ok(pms["lat" := hostLat]["lng" := hostLng])
    else Err(IntegrationError(InvalidArguments))
  }

  /** The coordinates passed to `get_station` only decide whether it raises; they never
      change the query it sends. */
  lemma CoordinatesUnused(areaId: Value, lat1: Value, lng1: Value, lat2: Value, lng2: Value, hostLat: Value, hostLng: Value)
    requires StationQuery(areaId, lat1, lng1, hostLat, hostLng).Ok?
    requires StationQuery(areaId, lat2, lng2, hostLat, hostLng).Ok?
    ensures StationQuery(areaId, lat1, lng1, hostLat, hostLng) == StationQuery(areaId, lat2, lng2, hostLat, hostLng)
  {
  }

  /** The location and station records of a parsed reply: `dat = reply or {}`, then
      `dat.get('data', {}).get('station') or {}`, which must be truthy, and
      `dat.get('location', {})`; `**` on a value that is not a dict raises TypeError. */
  function Records(reply: Value): (r: Result<(Dict, Dict)>)
    ensures r.Ok? ==> r.value.1 != map[]
  {
    var dat :- AsDict(Or(reply, Obj(map[])));
    var d :- AsDict(GetOr(dat, "data", Obj(map[])));
    var inf := Or(Get(d, "station"), Obj(map[]));
    if !Truthy(inf) then Err(IntegrationError(NoStation))
    else
      var loc := GetOr(dat, "location", Obj(map[]));
      if !loc.Obj? || !inf.Obj? then Err(TypeError)
      else Ok((loc.fields, inf.fields))
  }

  /** A reply whose `data` dict has no truthy `station` is refused. */
  lemma MissingStation(dat: Dict, d: Dict)
    requires Truthy(Obj(dat)) && GetOr(dat, "data", Obj(map[])) == Obj(d) && !Truthy(Get(d, "station"))
    ensures Records(Obj(dat)) == Err(IntegrationError(NoStation))
  {
  }

  /** `get_station(area_id, lat, lng)`. `reply` is what the request and `json.loads` of
      its text gave: an error when the request failed, None when the text is not JSON.
      The checks run in the source's order: the domain (in `api_url`), the query, the
      request, the JSON, then the records. */
  function StationLookup(domain: string, areaId: Value, lat: Value, lng: Value, hostLat: Value, hostLng: Value,
                         reply: Result<Option<Value>>): (r: Result<StationInfo>)
    ensures domain == "" ==> r == Err(IntegrationError(EmptyDomain))
    ensures domain != "" && StationQuery(areaId, lat, lng, hostLat, hostLng).Err? ==>
      r == Err(IntegrationError(InvalidArguments))
    ensures domain != "" && StationQuery(areaId, lat, lng, hostLat, hostLng).Ok? && reply.Err? ==> r == Err(reply.error)
    ensures domain != "" && StationQuery(areaId, lat, lng, hostLat, hostLng).Ok? && reply == Ok(None) ==>
      r == Err(IntegrationError(MalformedReply))
    ensures r.Ok? ==> reply.Ok? && reply.value.Some? && Records(reply.value.value).Ok?
    ensures r.Ok? ==> var (loc, st) := Records(reply.value.value).value;
      (forall k :: k in r.value.data <==> k in loc || k in st)
      && (forall k :: k in st ==> r.value.data[k] == st[k])
      && (forall k :: k in loc && k !in st ==> r.value.data[k] == loc[k])
  {
    var _ :- ApiUrl(domain, "geong/v1/api", "d7", Some(0));
    var _ :- StationQuery(areaId, lat, lng, hostLat, hostLng);
    var parsed :- reply;
    match parsed
    case None => Err(IntegrationError(MalformedReply))
    case Some(v) =>
      var (loc, st) :- Records(v);
      Ok(StationInfo(loc + st))
  }

  /** The station's area id comes from the station record, and from the location
      record only when the station record has none. */
  lemma LookupAreaId(domain: string, areaId: Value, lat: Value, lng: Value, hostLat: Value, hostLng: Value,
                     reply: Result<Option<Value>>)
    requires StationLookup(domain, areaId, lat, lng, hostLat, hostLng, reply).Ok?
    ensures var st := Records(reply.value.value).value.1;
      var info := StationLookup(domain, areaId, lat, lng, hostLat, hostLng, reply).value;
      "areaid" in st ==> info.AreaId() == st["areaid"]
    ensures var (loc, st) := Records(reply.value.value).value;
      var info := StationLookup(domain, areaId, lat, lng, hostLat, hostLng, reply).value;
      "areaid" !in st ==> info.AreaId() == Get(loc, "areaid")
  {
  }

  // ---------------------------------------------------------------- search_areas

  /** The entry one search result contributes, None when it is skipped: its `ref` must be
      truthy and split on `~` into at least ten fields, the first (the area id) at most
      nine characters long; the label is field 9, a dash and field 2. A result that is
      not a dict raises AttributeError at `.get`. A `ref` that is a float prints without
      `~` and is skipped. */
  function AreaEntry(v: Value): (r: Result<Option<(string, string)>>)
    ensures r.Err? <==> !v.Obj?
    ensures r.Err? ==> r.error == AttributeError
    ensures r.Ok? && r.value.Some? ==> |r.value.value.0| <= 9
  {
    var d :- AsDict(v);
    var ref := Get(d, "ref");
    if !Truthy(ref) then Ok(None)
    else match Show(ref)
      case None => Ok(None)
      case Some(t) => Ok(RefEntry(t))
  }

  /** The entry a printed `ref` gives: the id and label when it has ten or more fields
      and the first is at most nine characters long. */
  function RefEntry(t: string): (r: Option<(string, string)>)
    ensures r.Some? ==> |r.value.0| <= 9
  {
    var arr := Text.Split(t, '~');
    if |arr[0]| > 9 || |arr| < 10 then None else Some((arr[0], arr[9] + "-" + arr[2]))
  }

  /** A `ref` joined from ten or more `~`-free fields, the first at most nine characters
      long, gives back its first field as the id and fields 9 and 2 as the label. */
  lemma AreaEntryOfRef(fields: seq<string>, rest: Dict)
    requires |fields| >= 10 && |fields[0]| <= 9
    requires forall i :: 0 <= i < |fields| ==> '~' !in fields[i]
    ensures AreaEntry(Obj(rest["ref" := Str(Text.Join(fields, '~'))])) == Ok(Some((fields[0], fields[9] + "-" + fields[2])))
  {
    var t := Text.Join(fields, '~');
    Text.SplitJoin(fields, '~');
  }

  /** The areas found by the items so far, later items overwriting earlier ones. */
  function Areas(items: seq<Value>): (r: Result<map<string, string>>)
    ensures r.Ok? ==> forall k :: k in r.value ==> |k| <= 9
    decreases |items|
  {
    if items == [] then Ok(map[])
    else
      var m :- Areas(items[..|items| - 1]);
      var e :- AreaEntry(items[|items| - 1]);
      Ok(if e.Some? then m[e.value.0 := e.value.1] else m)
  }

  /** Every area found was named, with that label, by one of the items, when no item
      raises. */
  lemma {:induction false} AreasFound(items: seq<Value>)
    requires Areas(items).Ok?
    ensures forall k :: k in Areas(items).value ==>
      exists i :: 0 <= i < |items| && AreaEntry(items[i]) == Ok(Some((k, Areas(items).value[k])))
    decreases |items|
  {
    if items != [] {
      var n := |items| - 1;
      var init := items[..n];
      AreasFound(init);
      var m := Areas(init).value;
      var e := AreaEntry(items[n]).value;
      var r := Areas(items).value;
      forall k | k in r
        ensures exists i :: 0 <= i < |items| && AreaEntry(items[i]) == Ok(Some((k, r[k])))
      {
        if e.Some? && k == e.value.0 {
          assert AreaEntry(items[n]) == Ok(Some((k, r[k])));
        } else {
          var i :| 0 <= i < |init| && AreaEntry(init[i]) == Ok(Some((k, m[k])));
          assert items[i] == init[i];
        }
      }
    }
  }

  /** The area item `i` names is found, when no item raises. */
  lemma {:induction false} AreasKept(items: seq<Value>, i: nat)
    requires Areas(items).Ok? && i < |items|
    requires AreaEntry(items[i]).Ok? && AreaEntry(items[i]).value.Some?
    ensures AreaEntry(items[i]).value.value.0 in Areas(items).value
    decreases |items|
  {
    var n := |items| - 1;
    var init := items[..n];
    AreasLast(items);
    var m, e, k := Areas(init).value, AreaEntry(items[n]).value, AreaEntry(items[i]).value.value.0;
    var r := Areas(items).value;
    if i < n {
      assert items[i] == init[i];
      AreasKept(init, i);
      assert k in m;
      assert r.Keys >= m.Keys;
    } else {
      assert r == m[e.value.0 := e.value.1];
    }
  }

  /** The areas of a non-empty list are those of all but its last item, updated by the
      last item's entry. */
  lemma AreasLast(items: seq<Value>)
    requires items != [] && Areas(items).Ok?
    ensures var init := items[..|items| - 1];
      var e := AreaEntry(items[|items| - 1]);
      Areas(init).Ok? && e.Ok? &&
      Areas(items).value == if e.value.Some? then Areas(init).value[e.value.value.0 := e.value.value.1] else Areas(init).value
  {
  }

  /** The reply of the search request: its text and what `json.loads` made of the text
      with its surrounding parentheses stripped. */
  datatype SearchReply = SearchReply(text: string, loaded: Result<Value>)

  /** `search_areas(name)`: the domain is checked, the request made, an empty text
      raises, the JSON is read (`or []`) and its items visited in order. */
  function SearchResult(domain: string, reply: Result<SearchReply>): (r: Result<map<string, string>>)
    ensures domain == "" ==> r == Err(IntegrationError(EmptyDomain))
    ensures domain != "" && reply.Ok? && reply.value.text == "" ==> r == Err(IntegrationError(EmptyResponse))
    ensures r.Ok? ==> reply.Ok? && reply.value.loaded.Ok?
  {
    var _ :- ApiUrl(domain, "search", "toy1", Some(0));
    var rep :- reply;
    if rep.text == "" then Err(IntegrationError(EmptyResponse))
    else
      var v :- rep.loaded;
      var items :- Values.Records(Or(v, List([])));
      Areas(items)
  }

  /** `search_areas(name)`, its checks before the loop. */
  method SearchAreas(domain: string, reply: Result<SearchReply>) returns (r: Result<map<string, string>>)
    ensures r == SearchResult(domain, reply)
  {
    if domain == "" {
      return Err(IntegrationError(EmptyDomain));
    }
    if reply.Err? {
      return Err(reply.error);
    }
    if reply.value.text == "" {
      return Err(IntegrationError(EmptyResponse));
    }
    if reply.value.loaded.Err? {
      return Err(reply.value.loaded.error);
    }
    var found := Values.Records(Or(reply.value.loaded.value, List([])));
    if found.Err? {
      return Err(found.error);
    }
    r := CollectAreas(found.value);
  }

  /** The loop of `search_areas`, building the id-to-label dict item by item. */
  method CollectAreas(items: seq<Value>) returns (r: Result<map<string, string>>)
    ensures r == Areas(items)
  {
    var lst: map<string, string> := map[];
    var i := 0;
    while i < |items|
      invariant 0 <= i <= |items|
      invariant Areas(items[..i]) == Ok(lst)
    {
      assert items[..i + 1][..i] == items[..i];
      var e := AreaEntry(items[i]);
      if e.Err? {
        AreasStop(items, i + 1);
        return Err(e.error);
      }
      if e.value.Some? {
        lst := lst[e.value.value.0 := e.value.value.1];
      }
      i := i + 1;
    }
    assert items[..|items|] == items;
    return Ok(lst);
  }

  /** Once an item raises, the items after it are not visited. */
  lemma {:induction false} AreasStop(items: seq<Value>, k: nat)
    requires k <= |items| && Areas(items[..k]).Err?
    ensures Areas(items) == Areas(items[..k])
    decreases |items| - k
  {
    if k < |items| {
      assert items[..k + 1][..k] == items[..k];
      AreasStop(items, k + 1);
    } else {
      assert items[..k] == items;
    }
  }
}
