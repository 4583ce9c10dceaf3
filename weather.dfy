/** The weather entity: the current conditions read from the aggregate store, the alert
    and index attributes, and the daily and hourly forecasts with the hourly series kept
    for the Caiyun-style card. */
module Weather {
  import opened Wrappers
  import opened Values
  import opened Dates
  import opened Conditions
  import Text
  import Stations

  /** The referer the integration sends, which alert links are built on. */
  const HttpReferer := "https://m.weather.com.cn/"
  const AlertPage := "warning/publish_area.shtml?code="

  /** The hourly loop stops once more than this many rows are collected. */
  const HourlyCap := 48

  /** `timedelta(hours=1.5)` in microseconds: older hourly rows are dropped. */
  const LateMicros := 5400000000

  /** A forecast row; `None` marks a key the row does not hold. */
  datatype Forecast = Forecast(condition: string, skycon: string, precipitation: Value, datetime: Moment,
                               humidity: Option<real>, temperature: Option<real>, templow: Option<real>,
                               pressure: Option<real>, windSpeed: Option<real>, windBearing: Value)

  /** One `{'datetime': ..., 'value': ...}` entry of an hourly series. */
  datatype Point<T> = Point(datetime: Moment, value: T)

  /** The four `hourly_*` series of the extra attributes. */
  datatype Hourly = Hourly(temperature: seq<Point<Option<real>>>, precipitation: seq<Point<Value>>,
                           skycon: seq<Point<string>>, cloudrate: seq<Point<real>>)

  const NoHours := Hourly([], [], [], [])

  /** One entry of `forecast_alert.content`; `code` and `link` are None where the printed
      form of an operand is not modelled. */
  datatype Alert = Alert(province: Value, city: Value, code: Option<string>, title: Value,
                         description: Value, alertId: Value, link: Option<string>)

  datatype AlertInfo = AlertInfo(status: string, content: seq<Alert>)

  /** `_attr_extra_state_attributes` as `update_from_client` builds it, without the hourly
      series (held apart in `WeatherEntity.hourly`). */
  datatype Extra = Extra(conditionDesc: Value, skycon: string, aqi: Value, limitNumber: Value, areaId: Value,
                         forecastMinutely: Value, forecastHourly: Value, forecastKeypoint: Value,
                         alert: AlertInfo, updatedTime: Value, indexes: Option<map<Value, Value>>)

  /** The current conditions `update_from_client` assigns, in its order. */
  datatype Reading = Reading(condition: string, humidity: real, pressure: real, temperature: real,
                             windSpeed: real, visibility: real, windBearing: Value, extra: Extra)

  /** `float(v.replace(unit, ''))`: only a str has `replace` (AttributeError otherwise),
      and what is left must parse (ValueError otherwise). */
  function StrippedFloat(v: Value, unit: string): (r: Result<real>)
    ensures !v.Str? ==> r == Err(AttributeError)
    ensures v.Str? ==> r == FloatOf(Str(Text.ReplaceAll(v.s, unit, "")))
  {
    if v.Str? then FloatOf(Str(Text.ReplaceAll(v.s, unit, ""))) else Err(AttributeError)
  }

  /** `f'{a}{b}'` when both printed forms are modelled. */
  function ShowBoth(a: Value, b: Value): (r: Option<string>)
    ensures r.Some? <==> Show(a).Some? && Show(b).Some?
    ensures r.Some? ==> r.value == Show(a).value + Show(b).value
  {
    if Show(a).Some? && Show(b).Some? then Some(Show(a).value + Show(b).value) else None
  }

  /** `HTTP_REFERER` followed by the alert page of the area. */
  function AlertLink(areaId: Value): (r: Option<string>)
    ensures r.Some? <==> Show(areaId).Some?
    ensures r.Some? ==> r.value == HttpReferer + AlertPage + Show(areaId).value
  {
    if Show(areaId).Some? then Some(HttpReferer + AlertPage + Show(areaId).value) else None
  }

  /** One alarm record as an alert; a record that is not a dict raises AttributeError. */
  function AlertOf(v: Value, areaId: Value): (r: Result<Alert>)
    ensures r.Err? <==> !v.Obj?
    ensures r.Ok? ==> r.value.link == AlertLink(areaId)
    ensures r.Ok? ==> r.value.code == ShowBoth(Get(v.fields, "w4"), Get(v.fields, "w6"))
    ensures r.Ok? ==> r.value.title == GetOr(v.fields, "w13", Str("")) && r.value.description == GetOr(v.fields, "w9", Str(""))
  {
    var a :- AsDict(v);
    Ok(Alert(Get(a, "w1"), Get(a, "w2"), ShowBoth(Get(a, "w4"), Get(a, "w6")), GetOr(a, "w13", Str("")),
             GetOr(a, "w9", Str("")), Get(a, "w16"), AlertLink(areaId)))
  }

  /** Every result when all are values, else the first exception in order. */
  function AllOk<T>(rs: seq<Result<T>>): (r: Result<seq<T>>)
    ensures r.Ok? <==> forall i :: 0 <= i < |rs| ==> rs[i].Ok?
    ensures r.Ok? ==> |r.value| == |rs| && forall i :: 0 <= i < |rs| ==> rs[i] == Ok(r.value[i])
    ensures r.Err? ==> exists i :: 0 <= i < |rs| && rs[i] == Err(r.error) && forall j :: 0 <= j < i ==> rs[j].Ok?
    decreases |rs|
  {
    if rs == [] then Ok([])
    else
      match rs[0]
      case Err(e) => Err(e)
      case Ok(x) =>
        var rest :- AllOk(rs[1..]);
        Ok([x] + rest)
  }

  /** What each alarm record gives. */
  function AlertResults(items: seq<Value>, areaId: Value): (r: seq<Result<Alert>>)
    ensures |r| == |items|
  {
    seq(|items|, i requires 0 <= i < |items| => AlertOf(items[i], areaId))
  }

  /** The list comprehension over the alarm records. */
  function AlertList(items: seq<Value>, areaId: Value): (r: Result<seq<Alert>>)
  {
    AllOk(AlertResults(items, areaId))
  }

  /** The comprehension gives one alert per record, in order, and raises exactly when a
      record is not a dict. */
  lemma AlertListFacts(items: seq<Value>, areaId: Value)
    ensures AlertList(items, areaId).Ok? <==> forall i :: 0 <= i < |items| ==> items[i].Obj?
    ensures AlertList(items, areaId).Ok? ==> var alerts := AlertList(items, areaId).value;
      |alerts| == |items| && forall i :: 0 <= i < |items| ==> Ok(alerts[i]) == AlertOf(items[i], areaId)
  {
    var rs := AlertResults(items, areaId);
    assert forall i :: 0 <= i < |items| ==> rs[i] == AlertOf(items[i], areaId);
  }

  /** `forecast_alert`: status `ok` with the alerts when the store holds truthy alarms,
      otherwise an empty status and no alerts. */
  function Alerts(alarms: Value, areaId: Value): (r: Result<AlertInfo>)
    ensures !Truthy(alarms) ==> r == Ok(AlertInfo("", []))
    ensures Truthy(alarms) && r.Ok? ==>
      r.value.status == "ok" && alarms.List? && AlertList(alarms.items, areaId) == Ok(r.value.content)
  {
    if !Truthy(alarms) then Ok(AlertInfo("", []))
    else
      var items :- Records(alarms);
      var content :- AlertList(items, areaId);
      Ok(AlertInfo("ok", content))
  }

  /** `'_name' in k` */
  predicate IsIndexName(k: string) {
    Text.Contains(k, "_name")
  }

  /** `dataZS.get(f'{key}_des_s')` where `key` is `k` without `_name`. */
  function IndexDes(zs: Dict, k: string): Value {
    Get(zs, Text.ReplaceAll(k, "_name", "") + "_des_s")
  }

  /** A key of `dataZS` that names an index with a description. */
  predicate Indexed(zs: Dict, k: string) {
    k in zs && IsIndexName(k) && Truthy(IndexDes(zs, k))
  }

  /** `order` lists the keys of `zs` once each, in the dict's iteration order. */
  predicate KeyOrder(zs: Dict, order: seq<string>) {
    (forall k :: k in zs ==> k in order) && (forall k :: k in order ==> k in zs)
    && forall i, j :: 0 <= i < j < |order| ==> order[i] != order[j]
  }

  /** A dict key must be hashable: a list or dict value raises TypeError. */
  predicate Hashable(v: Value) {
    !v.List? && !v.Obj?
  }

  /** The `indexes` dict after visiting the keys `order` of `dataZS`: each index name
      maps to its description, a later key overwriting an earlier one of the same name. */
  function IndexMap(zs: Dict, order: seq<string>): (r: Result<map<Value, Value>>)
    ensures r.Ok? ==> forall v :: v in r.value ==> Hashable(v)
    decreases |order|
  {
    if order == [] then Ok(map[])
    else
      var m :- IndexMap(zs, order[..|order| - 1]);
      var k := order[|order| - 1];
      if !Indexed(zs, k) then Ok(m)
      else if !Hashable(zs[k]) then Err(TypeError)
      else Ok(m[zs[k] := IndexDes(zs, k)])
  }

  /** The visit of `dataZS` fails exactly when a key naming an index with a description
      holds a value that cannot be hashed. */
  lemma {:induction false} IndexesFail(zs: Dict, order: seq<string>)
    requires forall k :: k in order ==> k in zs
    ensures IndexMap(zs, order).Err? <==> exists i :: 0 <= i < |order| && Indexed(zs, order[i]) && !Hashable(zs[order[i]])
    decreases |order|
  {
    if order != [] {
      var n := |order| - 1;
      var init := order[..n];
      assert forall i :: 0 <= i < n ==> order[i] == init[i];
      IndexesFail(zs, init);
      if IndexMap(zs, init).Ok? && IndexMap(zs, order).Err? {
        assert Indexed(zs, order[n]) && !Hashable(zs[order[n]]);
      }
    }
  }

  /** Every index found comes, with its description, from a key of `dataZS` naming it. */
  lemma {:induction false} IndexesFrom(zs: Dict, order: seq<string>)
    requires forall k :: k in order ==> k in zs
    requires IndexMap(zs, order).Ok?
    ensures forall v :: v in IndexMap(zs, order).value ==>
      exists i :: 0 <= i < |order| && Indexed(zs, order[i]) && zs[order[i]] == v
        && IndexMap(zs, order).value[v] == IndexDes(zs, order[i])
    decreases |order|
  {
    if order != [] {
      var n := |order| - 1;
      var init := order[..n];
      assert forall k :: k in init ==> k in order;
      IndexesFrom(zs, init);
      var k := order[n];
      var m := IndexMap(zs, init).value;
      var r := IndexMap(zs, order).value;
      forall v | v in r
        ensures exists i :: 0 <= i < |order| && Indexed(zs, order[i]) && zs[order[i]] == v && r[v] == IndexDes(zs, order[i])
      {
        if Indexed(zs, k) && v == zs[k] {
          assert Indexed(zs, order[n]) && zs[order[n]] == v && r[v] == IndexDes(zs, order[n]);
        } else {
          var i :| 0 <= i < |init| && Indexed(zs, init[i]) && zs[init[i]] == v && m[v] == IndexDes(zs, init[i]);
          assert order[i] == init[i];
        }
      }
    }
  }

  /** The name under the key at `i` of `order` is found, when that key names an index
      with a description. */
  lemma {:induction false} IndexesKept(zs: Dict, order: seq<string>, i: nat)
    requires forall k :: k in order ==> k in zs
    requires IndexMap(zs, order).Ok? && i < |order| && Indexed(zs, order[i])
    ensures zs[order[i]] in IndexMap(zs, order).value
    decreases |order|
  {
    var n := |order| - 1;
    var init := order[..n];
    if i < n {
      assert forall k :: k in init ==> k in order;
      assert order[i] == init[i];
      IndexesKept(zs, init, i);
      assert IndexMap(zs, order).value.Keys >= IndexMap(zs, init).value.Keys;
    }
  }

  /** The loop of `update_from_client` building `indexes`, visiting `dataZS` in `order`. */
  method CollectIndexes(zs: Dict, order: seq<string>) returns (r: Result<map<Value, Value>>)
    requires forall k :: k in order ==> k in zs
    ensures r == IndexMap(zs, order)
  {
    var indexes: map<Value, Value> := map[];
    var i := 0;
    while i < |order|
      invariant 0 <= i <= |order|
      invariant IndexMap(zs, order[..i]) == Ok(indexes)
    {
      assert order[..i + 1][..i] == order[..i];
      var k := order[i];
      if IsIndexName(k) {
        var des := IndexDes(zs, k);
        if Truthy(des) {
          if !Hashable(zs[k]) {
            IndexesStop(zs, order, i + 1);
            return Err(TypeError);
          }
          indexes := indexes[zs[k] := des];
        }
      }
      i := i + 1;
    }
    assert order[..|order|] == order;
    return Ok(indexes);
  }

  /** Once a key raises, the keys after it are not visited. */
  lemma {:induction false} IndexesStop(zs: Dict, order: seq<string>, k: nat)
    requires k <= |order| && IndexMap(zs, order[..k]).Err?
    ensures IndexMap(zs, order) == IndexMap(zs, order[..k])
    decreases |order| - k
  {
    if k < |order| {
      assert order[..k + 1][..k] == order[..k];
      IndexesStop(zs, order, k + 1);
    } else {
      assert order[..k] == order;
    }
  }

  /** The keys `update_from_client` iterates over: those of `dataZS` when it is a dict. */
  function ZsDict(store: Dict): Dict {
    match Or(Get(store, "dataZS"), Obj(map[]))
    case Obj(m) => m
    case _ => map[]
  }

  /** What `update_from_client` reads from `dataSK` for the current conditions. */
  datatype Measure = Measure(cond: Condition, humidity: real, pressure: real, temperature: real,
                             windSpeed: real, visibility: real)

  /** The current weather code's table row and the five measurements, in the order they
      are read; None when the code is not a member of the condition table. */
  function Measured(sk: Dict): (r: Result<Option<Measure>>)
    ensures r == Ok(None) <==> IsMember(GetOr(sk, "weathercode", Str(""))) == Ok(false)
    ensures r.Ok? && r.value.Some? ==>
      GetOr(sk, "weathercode", Str("")).Str? && GetOr(sk, "weathercode", Str("")).s in Table && r.value.value.cond == Table[GetOr(sk, "weathercode", Str("")).s]
  {
    var known :- IsMember(GetOr(sk, "weathercode", Str("")));
    if !known then Ok(None)
    else
      var humidity :- StrippedFloat(GetOr(sk, "sd", Str("")), "%");
      var pressure :- FloatOf(GetOr(sk, "qy", Str("")));
      var temperature :- FloatOf(GetOr(sk, "temp", Str("")));
      var windSpeed :- StrippedFloat(GetOr(sk, "wse", Str("")), "km/h");
      var visibility :- StrippedFloat(GetOr(sk, "njd", Str("")), "km");
      Ok(Some(Measure(Table[GetOr(sk, "weathercode", Str("")).s], humidity, pressure, temperature, windSpeed, visibility)))
  }

  /** The extra attributes before the indexes: `minutely` and `dataZS` must be dicts,
      and the alerts are read from the alarms. */
  function BaseExtra(store: Dict, sk: Dict, c: Condition, areaId: Value): (r: Result<Extra>)
    ensures r.Ok? ==> (r.value.alert.status == "ok" <==> Truthy(Get(store, "alarms"))) && r.value.indexes.None?
    ensures r.Ok? ==> r.value.skycon == c.skycon && r.value.areaId == areaId
  {
    var minutely :- AsDict(GetOr(store, "minutely", Obj(map[])));
    var zs :- AsDict(Or(Get(store, "dataZS"), Obj(map[])));
    var alert :- Alerts(Or(Get(store, "alarms"), List([])), areaId);
    Ok(Extra(Get(sk, "weather"), c.skycon, Get(sk, "aqi"), Get(sk, "limitnumber"), areaId,
             Get(minutely, "msg"), Get(zs, "ct_des_s"), Get(zs, "ys_des_s"), alert, Get(sk, "time"), None))
  }

  /** `indexes` is attached only when it is not empty. */
  function WithIndexes(ex: Extra, indexes: map<Value, Value>): (r: Extra)
    requires ex.indexes.None?
    ensures r.indexes.None? <==> indexes == map[]
    ensures r.indexes.Some? ==> r.indexes.value == indexes
    ensures r.(indexes := None) == ex.(indexes := None)
  {
    if indexes == map[] then ex else ex.(indexes := Some(indexes))
  }

  /** What `update_from_client` assigns before the forecasts, or None when the current
      weather code is not a member of the condition table (nothing is then updated). */
  function Current(store: Dict, areaId: Value, order: seq<string>): (r: Result<Option<Reading>>)
  {
    var sk :- AsDict(Or(Get(store, "dataSK"), Obj(map[])));
    var m :- Measured(sk);
    if m.None? then Ok(None) else Assembled(store, sk, m.value, areaId, order)
  }

  /** The reading once the measurements `m` are taken: the extra attributes, then the
      indexes. */
  function Assembled(store: Dict, sk: Dict, m: Measure, areaId: Value, order: seq<string>): (r: Result<Option<Reading>>)
  {
    var ex :- BaseExtra(store, sk, m.cond, areaId);
    var indexes :- IndexMap(ZsDict(store), order);
    Ok(Some(Reading(m.cond.state, m.humidity, m.pressure, m.temperature, m.windSpeed,
                    m.visibility, Or(Get(sk, "WD"), Get(sk, "wde")), WithIndexes(ex, indexes))))
  }

  /** An update shows one of Home Assistant's condition states, an `ok` alert status
      exactly when the store holds alarms, and indexes only when some were found. */
  lemma CurrentFacts(store: Dict, areaId: Value, order: seq<string>)
    requires Current(store, areaId, order).Ok? && Current(store, areaId, order).value.Some?
    ensures var rd := Current(store, areaId, order).value.value;
      rd.condition in States && (rd.extra.alert.status == "ok" <==> Truthy(Get(store, "alarms")))
      && (rd.extra.indexes.None? || rd.extra.indexes.value != map[])
  {
    var sk := Or(Get(store, "dataSK"), Obj(map[])).fields;
    var m := Measured(sk).value.value;
    var ex := BaseExtra(store, sk, m.cond, areaId).value;
    var rd := Current(store, areaId, order).value.value;
    assert rd.condition == m.cond.state && rd.extra == WithIndexes(ex, IndexMap(ZsDict(store), order).value);
    ConditionStates(m.cond);
  }

  /** Every row of the condition table carries one of Home Assistant's condition states. */
  lemma ConditionStates(c: Condition)
    requires c in Table.Values
    ensures c.state in States
  {
  }

  // ----- Daily forecast -----

  predicate AtMidnight(t: Moment) {
    t.hour == 0 && t.minute == 0 && t.second == 0 && t.micro == 0
  }

  /** A day that exists in 1900 exists in every year. */
  lemma DayInAnyYear(m: int, d: int, year: int)
    requires ValidDate(Date(1900, m, d)) && 1 <= year <= 9999
    ensures ValidDate(Date(year, m, d))
  {
  }

  /** The row one daily item gives: None when its code is unknown or its `fi` is not a
      `%m/%d` date; the day is placed in the current year at midnight; today's row takes
      the observed rain when it is a number. An item that is not a dict or a `dataSK` that
      is not a dict raises AttributeError. */
  function DailyRow(item: Value, store: Dict, now: Moment): (r: Result<Option<Forecast>>)
    requires ValidMoment(now)
    ensures !item.Obj? ==> r == Err(AttributeError)
    ensures r.Ok? && r.value.Some? ==> var f := r.value.value;
      ItemCode(Get(item.fields, "fa")).Some? && f.condition == Table[ItemCode(Get(item.fields, "fa")).value].state
      && ValidMoment(f.datetime) && AtMidnight(f.datetime) && f.datetime.date.year == now.date.year
      && GetOr(item.fields, "fi", Str("")).Str?
      && ParseMonthDay(GetOr(item.fields, "fi", Str("")).s) == Some((f.datetime.date.month, f.datetime.date.day))
    ensures r.Ok? && r.value.Some? ==> var f := r.value.value;
      f.humidity == ToFloat(Get(item.fields, "fn")) && f.temperature == ToFloat(Get(item.fields, "fc"))
      && f.templow == ToFloat(Get(item.fields, "fd")) && f.windBearing == Get(item.fields, "fe")
      && f.pressure.None? && f.windSpeed.None?
  {
    var it :- AsDict(item);
    match ItemCode(Get(it, "fa"))
    case None => Ok(None)
    case Some(code) =>
      var fi := GetOr(it, "fi", Str(""));
      var md := if fi.Str? then ParseMonthDay(fi.s) else None;
      if md.None? then Ok(None)
      else
        DayInAnyYear(md.value.0, md.value.1, now.date.year);
        var day := Date(now.date.year, md.value.0, md.value.1);
        var sk :- AsDict(GetOr(store, "dataSK", Obj(map[])));
        var rain := Get(sk, "rain");
        var c := Table[code];
        var p := if Truthy(rain) && day == now.date && ToFloat(rain).Some? then Float(ToFloat(rain).value)
                 else c.precipitation;
        Ok(Some(Forecast(c.state, c.skycon, p, Moment(day, 0, 0, 0, 0), ToFloat(Get(it, "fn")),
                         ToFloat(Get(it, "fc")), ToFloat(Get(it, "fd")), None, None, Get(it, "fe"))))
  }

  /** The rain `dataSK` reports, as the precipitation of today's daily row. */
  lemma TodayRain(item: Dict, store: Dict, now: Moment, sk: Dict, rain: real)
    requires ValidMoment(now)
    requires ItemCode(Get(item, "fa")).Some?
    requires "fi" in item && item["fi"].Str? && ParseMonthDay(item["fi"].s) == Some((now.date.month, now.date.day))
    requires "dataSK" in store && store["dataSK"] == Obj(sk) && "rain" in sk && sk["rain"] == Float(rain) && rain != 0.0
    ensures DailyRow(Obj(item), store, now).Ok? && DailyRow(Obj(item), store, now).value.Some?
    ensures DailyRow(Obj(item), store, now).value.value.precipitation == Float(rain)
  {
  }

  /** The rows of the daily items, in order. */
  function DailyRows(items: seq<Value>, store: Dict, now: Moment): (r: Result<seq<Forecast>>)
    requires ValidMoment(now)
    ensures r.Ok? ==> |r.value| <= |items|
    ensures r.Ok? ==> forall i :: 0 <= i < |r.value| ==>
      ValidMoment(r.value[i].datetime) && AtMidnight(r.value[i].datetime) && r.value[i].datetime.date.year == now.date.year
    decreases |items|
  {
    if items == [] then Ok([])
    else
      var rows :- DailyRows(items[..|items| - 1], store, now);
      var row :- DailyRow(items[|items| - 1], store, now);
      Ok(if row.Some? then rows + [row.value] else rows)
  }

  /** `async_forecast_daily` over the items of `store['dailies']`. */
  function Daily(store: Dict, now: Moment): (r: Result<seq<Forecast>>)
    requires ValidMoment(now)
  {
    var items :- Records(GetOr(store, "dailies", List([])));
    DailyRows(items, store, now)
  }

  /** Once a daily item raises, the items after it are not visited. */
  lemma {:induction false} DailyStop(items: seq<Value>, store: Dict, now: Moment, k: nat)
    requires ValidMoment(now)
    requires k <= |items| && DailyRows(items[..k], store, now).Err?
    ensures DailyRows(items, store, now) == DailyRows(items[..k], store, now)
    decreases |items| - k
  {
    if k < |items| {
      assert items[..k + 1][..k] == items[..k];
      DailyStop(items, store, now, k + 1);
    } else {
      assert items[..k] == items;
    }
  }

  /** One more daily item adds its row, when it has one, to the rows before it. */
  lemma DailyNext(items: seq<Value>, store: Dict, now: Moment, i: nat)
    requires ValidMoment(now) && i < |items| && DailyRows(items[..i], store, now).Ok?
    ensures var rows := DailyRows(items[..i], store, now).value;
      DailyRows(items[..i + 1], store, now) ==
        match DailyRow(items[i], store, now)
        case Err(e) => Err(e)
        case Ok(row) => Ok(if row.Some? then rows + [row.value] else rows)
  {
    assert items[..i + 1][..i] == items[..i];
  }

  /** `async_forecast_daily(now)`, item by item. */
  method ForecastDaily(store: Dict, now: Moment) returns (r: Result<seq<Forecast>>)
    requires ValidMoment(now)
    ensures r == Daily(store, now)
  {
    var found := Records(GetOr(store, "dailies", List([])));
    if found.Err? {
      return Err(found.error);
    }
    var items := found.value;
    var lst: seq<Forecast> := [];
    var i := 0;
    while i < |items|
      invariant 0 <= i <= |items|
      invariant DailyRows(items[..i], store, now) == Ok(lst)
    {
      DailyNext(items, store, now, i);
      var row := DailyRow(items[i], store, now);
      if row.Err? {
        DailyStop(items, store, now, i + 1);
        return Err(row.error);
      }
      if row.value.Some? {
        lst := lst + [row.value.value];
      }
      i := i + 1;
    }
    assert items[..|items|] == items;
    return Ok(lst);
  }

  // ----- Hourly forecast -----

  /** `store['observe'].get(ymd)`: a list or dict key cannot be hashed (TypeError), and a
      key that is not a str names no observation. */
  function Observation(obs: Dict, ymd: Value): (r: Result<Value>)
    ensures r.Err? <==> !Hashable(ymd)
    ensures r.Ok? ==> r.value == (if ymd.Str? then Get(obs, ymd.s) else Null)
  {
    match ymd
    case Str(s) => Ok(Get(obs, s))
    case List(_) => Err(TypeError)
    case Obj(_) => Err(TypeError)
    case _ => Ok(Null)
  }

  /** The row one hourly item gives with its table row: None when its code is unknown,
      its `jf` is not a `%Y%m%d%H%M` stamp, the stamp's day does not exist in the current
      year, or the hour lies more than 1.5 hours in the past. The precipitation and wind
      come from the observation of that stamp when there is one. */
  function HourlyRow(item: Value, store: Dict, now: Moment): (r: Result<Option<HourRow>>)
    requires ValidMoment(now)
    ensures !item.Obj? ==> r == Err(AttributeError)
  {
    var it :- AsDict(item);
    match ItemCode(Get(it, "ja"))
    case None => Ok(None)
    case Some(code) =>
      var c := Table[code];
      var ymd := GetOr(it, "jf", Str(""));
      var obs :- AsDict(GetOr(store, "observe", Obj(map[])));
      var hit :- Observation(obs, ymd);
      var observe := Or(hit, Obj(map[]));
      var precipitation :- if Truthy(observe) then (var o :- AsDict(observe); Ok(Get(o, "rain")))
                            else Ok(c.precipitation);
      var st := if ymd.Str? then ParseStamp(ymd.s) else None;
      if st.None? then Ok(None)
      else
        var day := Date(now.date.year, st.value.date.month, st.value.date.day);
        if !ValidDate(day) then Ok(None)
        else
          var tim := Moment(day, st.value.hour, 0, 0, 0);
          if MicrosBetween(now, tim) > LateMicros then Ok(None)
          else
            var wind := if observe.Obj? then Get(observe.fields, "wind") else Null;
            Ok(Some((Forecast(c.state, c.skycon, precipitation, tim, ToFloat(Get(it, "je")), ToFloat(Get(it, "jb")),
                              None, ToFloat(Get(it, "jj")), ToFloat(Get(it, "jg")), wind), c)))
  }

  /** A row an hourly item gives carries its code's table row and a whole hour of the
      current year at most 1.5 hours before `now`. */
  lemma HourlyRowFacts(item: Value, store: Dict, now: Moment)
    requires ValidMoment(now)
    ensures HourlyRow(item, store, now).Ok? && HourlyRow(item, store, now).value.Some? ==> var (f, c) := HourlyRow(item, store, now).value.value;
      ItemCode(Get(item.fields, "ja")).Some? && c == Table[ItemCode(Get(item.fields, "ja")).value]
      && f.condition == c.state && f.skycon == c.skycon
      && ValidMoment(f.datetime) && f.datetime.minute == 0 && f.datetime.second == 0 && f.datetime.micro == 0
      && f.datetime.date.year == now.date.year && MicrosBetween(now, f.datetime) <= LateMicros
      && f.templow.None?
  {
  }

  /** An hourly row with the table row of its code. */
  type HourRow = (Forecast, Condition)

  /** What each hourly item gives, item by item. */
  function RowResults(items: seq<Value>, store: Dict, now: Moment): (r: seq<Result<Option<HourRow>>>)
    requires ValidMoment(now)
    ensures |r| == |items|
  {
    seq(|items|, i requires 0 <= i < |items| => HourlyRow(items[i], store, now))
  }

  /** The rows a loop collects from per-item results that stops at the first item that
      raises and stops visiting items once more than `cap` rows are collected, and whether
      it ended by raising. It never holds more than `cap + 1` rows. */
  function Capped<P>(results: seq<Result<Option<P>>>, cap: nat): (r: (seq<P>, Outcome))
    ensures |r.0| <= |results| && |r.0| <= cap + 1
    decreases |results|
  {
    if results == [] then ([], Pass)
    else
      var (rows, o) := Capped(results[..|results| - 1], cap);
      if o.Fail? || |rows| > cap then (rows, o)
      else
        match results[|results| - 1]
        case Err(e) => (rows, Fail(e))
        case Ok(None) => (rows, Pass)
        case Ok(Some(p)) => (rows + [p], Pass)
  }

  /** Once the loop has raised or reached the cap, the items after it change nothing. */
  lemma {:induction false} CappedStop<P>(results: seq<Result<Option<P>>>, cap: nat, k: nat)
    requires k <= |results|
    requires Capped(results[..k], cap).1.Fail? || |Capped(results[..k], cap).0| > cap
    ensures Capped(results, cap) == Capped(results[..k], cap)
    decreases |results| - k
  {
    if k < |results| {
      assert results[..k + 1][..k] == results[..k];
      CappedStop(results, cap, k + 1);
    } else {
      assert results[..k] == results;
    }
  }

  /** One more item below the cap: it raises, is skipped or adds its row. */
  lemma CappedNext<P>(results: seq<Result<Option<P>>>, cap: nat, i: nat)
    requires i < |results|
    requires Capped(results[..i], cap).1.Pass? && |Capped(results[..i], cap).0| <= cap
    ensures var (rows, _) := Capped(results[..i], cap);
      Capped(results[..i + 1], cap) == match results[i]
        case Err(e) => (rows, Fail(e))
        case Ok(None) => (rows, Pass)
        case Ok(Some(p)) => (rows + [p], Pass)
  {
    assert results[..i + 1][..i] == results[..i];
  }

  /** When every item gives a row, the loop keeps the first `cap + 1` of them. */
  lemma {:induction false} CappedFull<P>(results: seq<Result<Option<P>>>, cap: nat)
    requires forall i :: 0 <= i < |results| ==> results[i].Ok? && results[i].value.Some?
    ensures Capped(results, cap).1 == Pass
    ensures |Capped(results, cap).0| == if |results| <= cap + 1 then |results| else cap + 1
    decreases |results|
  {
    if results != [] {
      var n := |results| - 1;
      assert forall i :: 0 <= i < n ==> results[..n][i] == results[i];
      CappedFull(results[..n], cap);
    }
  }

  /** A property every row given by an item has, every collected row has. */
  lemma {:induction false} CappedKeeps<P>(results: seq<Result<Option<P>>>, cap: nat, ok: P -> bool)
    requires forall i :: 0 <= i < |results| && results[i].Ok? && results[i].value.Some? ==> ok(results[i].value.value)
    ensures forall i :: 0 <= i < |Capped(results, cap).0| ==> ok(Capped(results, cap).0[i])
    decreases |results|
  {
    if results != [] {
      var n := |results| - 1;
      assert forall i :: 0 <= i < n ==> results[..n][i] == results[i];
      CappedKeeps(results[..n], cap, ok);
    }
  }

  /** One pass of the `async_forecast_hourly` loop body, statement by statement; it returns
      None where the source continues with the next item. */
  method HourlyItem(items: seq<Value>, j: nat, store: Dict, now: Moment) returns (r: Result<Option<HourRow>>)
    requires ValidMoment(now) && j < |items|
    ensures r == RowResults(items, store, now)[j]
  {
    var item := items[j];
    if !item.Obj? {
      return Err(AttributeError);
    }
    var code := ItemCode(Get(item.fields, "ja"));
    if code.None? {
      return Ok(None);
    }
    var c := Table[code.value];
    var ymd := GetOr(item.fields, "jf", Str(""));
    var obs := GetOr(store, "observe", Obj(map[]));
    if !obs.Obj? {
      return Err(AttributeError);
    }
    var hit := Observation(obs.fields, ymd);
    if hit.Err? {
      return Err(hit.error);
    }
    var observe := Or(hit.value, Obj(map[]));
    var precipitation := c.precipitation;
    if Truthy(observe) {
      if !observe.Obj? {
        return Err(AttributeError);
      }
      precipitation := Get(observe.fields, "rain");
    }
    var st := if ymd.Str? then ParseStamp(ymd.s) else None;
    if st.None? {
      return Ok(None);
    }
    var day := Date(now.date.year, st.value.date.month, st.value.date.day);
    if !ValidDate(day) {
      return Ok(None);
    }
    var tim := Moment(day, st.value.hour, 0, 0, 0);
    if MicrosBetween(now, tim) > LateMicros {
      return Ok(None);
    }
    var wind := if observe.Obj? then Get(observe.fields, "wind") else Null;
    var f := Forecast(c.state, c.skycon, precipitation, tim, ToFloat(Get(item.fields, "je")),
                      ToFloat(Get(item.fields, "jb")), None, ToFloat(Get(item.fields, "jj")),
                      ToFloat(Get(item.fields, "jg")), wind);
    return Ok(Some((f, c)));
  }

  /** The rows collected from the hourly items, and whether the loop ended by raising. */
  function HourlyScan(items: seq<Value>, store: Dict, now: Moment): (r: (seq<HourRow>, Outcome))
    requires ValidMoment(now)
    ensures |r.0| <= |items| && |r.0| <= HourlyCap + 1
  {
    Capped(RowResults(items, store, now), HourlyCap)
  }

  /** A row the hourly forecast may hold: its condition is its table row's, and its hour
      is a valid moment no more than 1.5 hours before `now`. */
  predicate Recent(now: Moment, p: HourRow) {
    ValidMoment(now) && p.0.condition == p.1.state && ValidMoment(p.0.datetime)
    && MicrosBetween(now, p.0.datetime) <= LateMicros
  }

  lemma HourlyRecent(items: seq<Value>, store: Dict, now: Moment)
    requires ValidMoment(now)
    ensures forall i :: 0 <= i < |HourlyScan(items, store, now).0| ==> Recent(now, HourlyScan(items, store, now).0[i])
  {
    var results := RowResults(items, store, now);
    forall i | 0 <= i < |items|
      ensures results[i].Ok? && results[i].value.Some? ==> Recent(now, results[i].value.value)
    {
      HourlyRowFacts(items[i], store, now);
    }
    CappedKeeps(results, HourlyCap, p => Recent(now, p));
  }

  /** When every hourly item gives a row, the forecast holds the first `HourlyCap + 1`
      of them: the cap check runs before an item is added, so 49 rows, not 48, are kept. */
  lemma HourlyFull(items: seq<Value>, store: Dict, now: Moment)
    requires ValidMoment(now)
    requires forall i :: 0 <= i < |items| ==> HourlyRow(items[i], store, now).Ok? && HourlyRow(items[i], store, now).value.Some?
    ensures HourlyScan(items, store, now).1 == Pass
    ensures |HourlyScan(items, store, now).0| == if |items| <= HourlyCap + 1 then |items| else HourlyCap + 1
  {
    CappedFull(RowResults(items, store, now), HourlyCap);
  }

  /** The series entries the rows add: one entry per row in each series. */
  function Points(rows: seq<HourRow>): (r: Hourly)
    ensures |r.temperature| == |rows| && |r.precipitation| == |rows| && |r.skycon| == |rows| && |r.cloudrate| == |rows|
    ensures forall i :: 0 <= i < |rows| ==>
      r.temperature[i] == Point(rows[i].0.datetime, rows[i].0.temperature)
      && r.precipitation[i] == Point(rows[i].0.datetime, rows[i].0.precipitation)
      && r.skycon[i] == Point(rows[i].0.datetime, rows[i].1.skycon)
      && r.cloudrate[i] == Point(rows[i].0.datetime, rows[i].1.cloud as real / 100.0)
    decreases |rows|
  {
    if rows == [] then NoHours
    else
      var init := Points(rows[..|rows| - 1]);
      var (f, c) := rows[|rows| - 1];
      Hourly(init.temperature + [Point(f.datetime, f.temperature)], init.precipitation + [Point(f.datetime, f.precipitation)],
             init.skycon + [Point(f.datetime, c.skycon)], init.cloudrate + [Point(f.datetime, c.cloud as real / 100.0)])
  }

  function Join(a: Hourly, b: Hourly): Hourly {
    Hourly(a.temperature + b.temperature, a.precipitation + b.precipitation, a.skycon + b.skycon, a.cloudrate + b.cloudrate)
  }

  /** `async_forecast_hourly` over the items of `store['hourlies']`: the rows collected,
      and whether it raised. */
  function Hourlies(store: Dict, now: Moment): (seq<HourRow>, Outcome)
    requires ValidMoment(now)
  {
    match Records(GetOr(store, "hourlies", List([])))
    case Err(e) => ([], Fail(e))
    case Ok(items) => HourlyScan(items, store, now)
  }

  /** The loop of `async_forecast_hourly`: the rows in item order, stopping after more
      than `HourlyCap` rows or at the first item that raises. */
  method CollectHourly(items: seq<Value>, store: Dict, now: Moment) returns (rows: seq<HourRow>, o: Outcome)
    requires ValidMoment(now)
    ensures (rows, o) == HourlyScan(items, store, now)
  {
    ghost var results := RowResults(items, store, now);
    rows, o := [], Pass;
    var i := 0;
    while i < |items|
      invariant 0 <= i <= |items|
      invariant Capped(results[..i], HourlyCap) == (rows, Pass)
    {
      if |rows| > HourlyCap {
        CappedStop(results, HourlyCap, i);
        return;
      }
      CappedNext(results, HourlyCap, i);
      var row := HourlyItem(items, i, store, now);
      if row.Err? {
        CappedStop(results, HourlyCap, i + 1);
        o := Fail(row.error);
        return;
      }
      if row.value.Some? {
        rows := rows + [row.value.value];
      }
      i := i + 1;
    }
    assert results[..i] == results;
  }

  function Rows(rows: seq<HourRow>): (r: seq<Forecast>)
  {
    seq(|rows|, i requires 0 <= i < |rows| => rows[i].0)
  }

  /** The reads of `update_from_client` before the forecasts, in its order. */
  method ReadCurrent(store: Dict, areaId: Value, order: seq<string>) returns (r: Result<Option<Reading>>)
    requires KeyOrder(ZsDict(store), order)
    ensures r == Current(store, areaId, order)
  {
    var skv := Or(Get(store, "dataSK"), Obj(map[]));
    if !skv.Obj? {
      return Err(AttributeError);
    }
    var m := Measured(skv.fields);
    if m.Err? {
      return Err(m.error);
    }
    if m.value.None? {
      return Ok(None);
    }
    r := AssembleCurrent(store, skv.fields, m.value.value, areaId, order);
  }

  /** The reads after the measurements: the extra attributes, then the indexes. */
  method AssembleCurrent(store: Dict, sk: Dict, m: Measure, areaId: Value, order: seq<string>)
    returns (r: Result<Option<Reading>>)
    requires KeyOrder(ZsDict(store), order)
    ensures r == Assembled(store, sk, m, areaId, order)
  {
    var ex := BaseExtra(store, sk, m.cond, areaId);
    if ex.Err? {
      return Err(ex.error);
    }
    var indexes := CollectIndexes(ZsDict(store), order);
    if indexes.Err? {
      return Err(indexes.error);
    }
    return Ok(Some(Reading(m.cond.state, m.humidity, m.pressure, m.temperature, m.windSpeed, m.visibility,
                           Or(Get(sk, "WD"), Get(sk, "wde")), WithIndexes(ex.value, indexes.value))));
  }

  /** The fields of the weather entity that change after construction. */
  datatype WeatherView = WeatherView(added: bool, condition: Option<string>, humidity: Option<real>,
                                     pressure: Option<real>, temperature: Option<real>, windSpeed: Option<real>,
                                     visibility: Option<real>, windBearing: Value, extra: Option<Extra>,
                                     hourly: Option<Hourly>, forecast: Option<seq<Forecast>>)

  /** The entity after the current conditions `rd` are assigned; the fresh extra
      attributes hold no hourly series. */
  function Shown(v: WeatherView, rd: Reading): (r: WeatherView)
    ensures r.condition == Some(rd.condition) && r.humidity == Some(rd.humidity) && r.pressure == Some(rd.pressure)
    ensures r.temperature == Some(rd.temperature) && r.windSpeed == Some(rd.windSpeed)
    ensures r.visibility == Some(rd.visibility) && r.windBearing == rd.windBearing
    ensures r.extra == Some(rd.extra) && r.hourly.None? && r.forecast == v.forecast && r.added == v.added
  {
    v.(condition := Some(rd.condition), humidity := Some(rd.humidity), pressure := Some(rd.pressure),
       temperature := Some(rd.temperature), windSpeed := Some(rd.windSpeed), visibility := Some(rd.visibility),
       windBearing := rd.windBearing, extra := Some(rd.extra), hourly := None)
  }

  /** The hourly series after `rows` are collected: created empty when missing, then one
      entry per row appended to each. */
  function Extended(h: Option<Hourly>, caiyun: bool, rows: seq<HourRow>): (r: Option<Hourly>)
    ensures !caiyun ==> r == h
    ensures caiyun ==> r.Some?
    ensures caiyun ==>
      && r.value.temperature == h.GetOr(NoHours).temperature + Points(rows).temperature
      && r.value.precipitation == h.GetOr(NoHours).precipitation + Points(rows).precipitation
      && r.value.skycon == h.GetOr(NoHours).skycon + Points(rows).skycon
      && r.value.cloudrate == h.GetOr(NoHours).cloudrate + Points(rows).cloudrate
    ensures caiyun ==>
      && |r.value.cloudrate| == |h.GetOr(NoHours).cloudrate| + |rows|
      && |r.value.temperature| == |h.GetOr(NoHours).temperature| + |rows|
  {
    if caiyun then Some(Join(h.GetOr(NoHours), Points(rows))) else h
  }

  /** The entity after the forecast part of `update_from_client`: the daily forecast
      is assigned unless it raises, then the hourly one is collected into the series. */
  function Forecasted(u: WeatherView, caiyun: bool, store: Dict, now: Moment): (r: (WeatherView, Outcome))
    requires ValidMoment(now)
  {
    match Daily(store, now)
    case Err(e) => (u, Fail(e))
    case Ok(days) =>
      if caiyun && u.extra.None? then (u.(forecast := Some(days)), Fail(AttributeError))
      else
        var (rows, h) := Hourlies(store, now);
        (u.(forecast := Some(days), hourly := Extended(u.hourly, caiyun, rows)), h)
  }

  /** The entity after `update_from_client` once the current conditions are read as
      `cur`: nothing changes when the code is unknown or the read raised; otherwise the
      current conditions and the extra attributes are assigned (which drops the hourly
      series) and the forecasts follow. */
  function AfterRead(v: WeatherView, caiyun: bool, cur: Result<Option<Reading>>, store: Dict, now: Moment)
    : (r: (WeatherView, Outcome))
    requires ValidMoment(now)
  {
    match cur
    case Err(e) => (v, Fail(e))
    case Ok(None) => (v, Pass)
    case Ok(Some(rd)) => Forecasted(Shown(v, rd), caiyun, store, now)
  }

  /** The entity after `update_from_client`, and whether it raised. */
  function Updated(v: WeatherView, caiyun: bool, store: Dict, areaId: Value, order: seq<string>, now: Moment)
    : (r: (WeatherView, Outcome))
    requires ValidMoment(now)
  {
    AfterRead(v, caiyun, Current(store, areaId, order), store, now)
  }

  class WeatherEntity {
    const name: Value            // `_attr_name`
    const code: Value            // the station code the entity id is built from
    const supportCaiyun: bool
    var added: bool
    var condition: Option<string>
    var humidity: Option<real>
    var pressure: Option<real>
    var temperature: Option<real>
    var windSpeed: Option<real>
    var visibility: Option<real>
    var windBearing: Value
    var extra: Option<Extra>     // None until the first update assigns the attributes
    var hourly: Option<Hourly>   // the `hourly_*` series inside the extra attributes
    var forecast: Option<seq<Forecast>>

    function View(): WeatherView
      reads this
    {
      WeatherView(added, condition, humidity, pressure, temperature, windSpeed, visibility, windBearing,
                  extra, hourly, forecast)
    }

    /** `WeatherEntity.__init__`: named after the station (its code, else its name, else
        the location name), with Caiyun series when the config asks for them. */
    constructor (station: Stations.StationInfo, locationName: Value, caiyun: Value)
      ensures code == Stations.StationCode(station, locationName) && name == Stations.StationName(station, locationName)
      ensures supportCaiyun == Truthy(caiyun)
      ensures View() == WeatherView(false, None, None, None, None, None, None, Null, None, None, None)
    {
      code := Stations.StationCode(station, locationName);
      name := Stations.StationName(station, locationName);
      supportCaiyun := Truthy(caiyun);
      added := false;
      condition, humidity, pressure, temperature, windSpeed, visibility := None, None, None, None, None, None;
      windBearing, extra, hourly, forecast := Null, None, None, None;
    }

    /** The first part of `update_from_client`, given what `ReadCurrent` returned: the
        current conditions and the extra attributes are assigned unless the read raised
        or found the code unknown; `go` says whether the update goes on. */
    method ApplyCurrent(cur: Result<Option<Reading>>) returns (go: bool)
      modifies this
      ensures go <==> cur.Ok? && cur.value.Some?
      ensures go ==> View() == Shown(old(View()), cur.value.value)
      ensures !go ==> View() == old(View())
    {
      if cur.Err? || cur.value.None? {
        return false;
      }
      var rd := cur.value.value;
      condition, humidity, pressure := Some(rd.condition), Some(rd.humidity), Some(rd.pressure);
      temperature, windSpeed, visibility := Some(rd.temperature), Some(rd.windSpeed), Some(rd.visibility);
      windBearing, extra, hourly := rd.windBearing, Some(rd.extra), None;
      return true;
    }

    /** `update_from_client(now)`; `wrote` says whether it reached `async_write_ha_state`,
        which it does exactly when the code is known and nothing raised. */
    method UpdateFromClient(store: Dict, areaId: Value, order: seq<string>, now: Moment) returns (o: Outcome, wrote: bool)
      requires ValidMoment(now) && KeyOrder(ZsDict(store), order)
      modifies this
      ensures (View(), o) == Updated(old(View()), supportCaiyun, store, areaId, order, now)
      ensures wrote <==> o.Pass? && Current(store, areaId, order).Ok? && Current(store, areaId, order).value.Some?
    {
      var cur := ReadCurrent(store, areaId, order);
      o, wrote := UpdateWith(cur, store, now);
    }

    /** `update_from_client` after the reads, given what they returned. */
    method UpdateWith(cur: Result<Option<Reading>>, store: Dict, now: Moment) returns (o: Outcome, wrote: bool)
      requires ValidMoment(now)
      modifies this
      ensures (View(), o) == AfterRead(old(View()), supportCaiyun, cur, store, now)
      ensures wrote <==> o.Pass? && cur.Ok? && cur.value.Some?
    {
      var go := ApplyCurrent(cur);
      if !go {
        return if cur.Err? then Fail(cur.error) else Pass, false;
      }
      o := ApplyForecasts(store, now);
      wrote := o.Pass?;
    }

    /** `async_added_to_hass` once the client has registered the entity: it is marked
        added and updated from the client's store. */
    method AddedToHass(store: Dict, areaId: Value, order: seq<string>, now: Moment) returns (o: Outcome, wrote: bool)
      requires ValidMoment(now) && KeyOrder(ZsDict(store), order)
      modifies this
      ensures (View(), o) == Updated(old(View()).(added := true), supportCaiyun, store, areaId, order, now)
      ensures wrote <==> o.Pass? && Current(store, areaId, order).Ok? && Current(store, areaId, order).value.Some?
    {
      added := true;
      o, wrote := UpdateFromClient(store, areaId, order, now);
    }

    /** The forecast part of `update_from_client`. */
    method ApplyForecasts(store: Dict, now: Moment) returns (o: Outcome)
      requires ValidMoment(now)
      modifies this
      ensures (View(), o) == Forecasted(old(View()), supportCaiyun, store, now)
    {
      var daily := ForecastDaily(store, now);
      if daily.Err? {
        return Fail(daily.error);
      }
      forecast := Some(daily.value);
      var hourlyRows := ForecastHourly(store, now);
      o := if hourlyRows.Err? then Fail(hourlyRows.error) else Pass;
    }

    /** `async_forecast_hourly(now)`: with Caiyun support the four series are created when
        missing (the attributes must exist by then) and each row collected appends one
        entry to each, including the rows collected before an item raises. The rows are
        appended once the loop is done, which leaves the same series. */
    method ForecastHourly(store: Dict, now: Moment) returns (r: Result<seq<Forecast>>)
      requires ValidMoment(now)
      modifies this
      ensures supportCaiyun && old(extra).None? ==> r == Err(AttributeError) && View() == old(View())
      ensures !(supportCaiyun && old(extra).None?) ==>
        var (rows, o) := Hourlies(store, now);
        && r == (if o.Pass? then Ok(Rows(rows)) else Err(o.error))
        && View() == old(View()).(hourly := Extended(old(hourly), supportCaiyun, rows))
    {
      if supportCaiyun {
        if extra.None? {
          return Err(AttributeError);
        }
        if hourly.None? {
          hourly := Some(NoHours);
        }
      }
      var rows: seq<HourRow> := [];
      var o := Pass;
      var found := Records(GetOr(store, "hourlies", List([])));
      if found.Err? {
        o := Fail(found.error);
      } else {
        rows, o := CollectHourly(found.value, store, now);
      }
      if supportCaiyun {
        hourly := Some(Join(hourly.value, Points(rows)));
      }
      r := if o.Pass? then Ok(Rows(rows)) else Err(o.error);
    }
  }
}
