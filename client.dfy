/** `TianqiClient`: the converter registry, the decode pass that turns provider data
    into attribute payloads, the delivery of payloads to the entities that subscribe to
    them, the creation of entities per platform, and the rules by which each fetch
    updates the aggregate store. */
module Tianqi {
  import opened Wrappers
  import opened Values
  import opened Converters
  import opened Entities
  import Stations
  import Weather
  import Dates
  import Observe

  /** The platform domains. */
  const SensorDomain := "sensor"
  const BinaryDomain := "binary_sensor"
  const WeatherDomain := "weather"

  /** The `setup(...)` closure a platform's `setuper(add_entities)` returns: the sensor
      and binary-sensor ones take `(client, conv)`, the weather one takes `(client)`. */
  datatype Setuper = SensorSetup | BinarySetup | WeatherSetup

  // ---------------------------------------------------------------- registry

  /** The converter registered under `attr`. */
  function Lookup(convs: seq<Converter>, attr: string): (r: Option<Converter>)
    ensures r.Some? ==> r.value in convs && r.value.attr == attr
    ensures r.None? ==> forall i :: 0 <= i < |convs| ==> convs[i].attr != attr
    decreases |convs|
  {
    if convs == [] then None
    else if convs[0].attr == attr then Some(convs[0])
    else Lookup(convs[1..], attr)
  }

  /** No two converters share an attribute, as keys of a dict. */
  predicate DistinctAttrs(convs: seq<Converter>) {
    forall i, j :: 0 <= i < j < |convs| ==> convs[i].attr != convs[j].attr
  }

  /** `converters[conv.attr] = conv`: a new attribute goes last, an existing one keeps
      its place and takes the new converter. */
  function Registered(convs: seq<Converter>, conv: Converter): (r: seq<Converter>)
    ensures |r| == |convs| || r == convs + [conv]
    decreases |convs|
  {
    if convs == [] then [conv]
    else if convs[0].attr == conv.attr then [conv] + convs[1..]
    else [convs[0]] + Registered(convs[1..], conv)
  }

  /** After registering, the attribute gives the new converter, every other attribute
      gives what it gave before, and the attributes stay distinct. */
  lemma {:induction false} RegisteredLookup(convs: seq<Converter>, conv: Converter, attr: string)
    requires DistinctAttrs(convs)
    ensures Lookup(Registered(convs, conv), attr) == if attr == conv.attr then Some(conv) else Lookup(convs, attr)
    ensures DistinctAttrs(Registered(convs, conv))
    decreases |convs|
  {
    if convs != [] && convs[0].attr != conv.attr {
      var tail := convs[1..];
      assert DistinctAttrs(tail) by {
        forall i, j | 0 <= i < j < |tail|
          ensures tail[i].attr != tail[j].attr
        {
          assert tail[i] == convs[i + 1] && tail[j] == convs[j + 1];
        }
      }
      RegisteredLookup(tail, conv, attr);
      var r := Registered(convs, conv);
      assert r == [convs[0]] + Registered(tail, conv);
      forall k | 0 <= k < |tail|
        ensures tail[k].attr != convs[0].attr
      {
        assert tail[k] == convs[k + 1];
      }
      RegisteredAttrs(tail, conv);
    } else if convs != [] {
      var r := Registered(convs, conv);
      forall i, j | 0 <= i < j < |r|
        ensures r[i].attr != r[j].attr
      {
        assert r[j] == convs[j];
        if i > 0 {
          assert r[i] == convs[i];
        }
      }
    }
  }

  /** The attributes present after registering are the old ones plus the new one. */
  lemma {:induction false} RegisteredAttrs(convs: seq<Converter>, conv: Converter)
    ensures forall k :: 0 <= k < |Registered(convs, conv)| ==>
      Registered(convs, conv)[k].attr == conv.attr || exists i :: 0 <= i < |convs| && convs[i].attr == Registered(convs, conv)[k].attr
    decreases |convs|
  {
    if convs != [] && convs[0].attr != conv.attr {
      RegisteredAttrs(convs[1..], conv);
      var r := Registered(convs, conv);
      forall k | 0 <= k < |r|
        ensures r[k].attr == conv.attr || exists i :: 0 <= i < |convs| && convs[i].attr == r[k].attr
      {
        if k == 0 {
          assert convs[0].attr == r[k].attr;
        } else {
          assert r[k] == Registered(convs[1..], conv)[k - 1];
          if r[k].attr != conv.attr {
            var i :| 0 <= i < |convs[1..]| && convs[1..][i].attr == r[k].attr;
            assert convs[i + 1].attr == r[k].attr;
          }
        }
      }
    } else if convs != [] {
      var r := Registered(convs, conv);
      forall k | 0 <= k < |r|
        ensures r[k].attr == conv.attr || exists i :: 0 <= i < |convs| && convs[i].attr == r[k].attr
      {
        if k > 0 {
          assert r[k] == convs[k];
        }
      }
    }
  }

  /** `add_converters(*args)`: one registration after another. */
  function RegisteredAll(convs: seq<Converter>, added: seq<Converter>): (r: seq<Converter>)
    decreases |added|
  {
    if added == [] then convs
    else Registered(RegisteredAll(convs, added[..|added| - 1]), added[|added| - 1])
  }

  /** Registering a converter whose attribute is new appends it. */
  lemma {:induction false} RegisteredNew(convs: seq<Converter>, conv: Converter)
    requires forall i :: 0 <= i < |convs| ==> convs[i].attr != conv.attr
    ensures Registered(convs, conv) == convs + [conv]
    decreases |convs|
  {
    if convs != [] {
      RegisteredNew(convs[1..], conv);
      assert [convs[0]] + (convs[1..] + [conv]) == convs + [conv];
    }
  }

  /** Registering converters with new, distinct attributes appends them in order. */
  lemma {:induction false} RegisteredAllNew(convs: seq<Converter>, added: seq<Converter>)
    requires DistinctAttrs(convs + added)
    ensures RegisteredAll(convs, added) == convs + added
    decreases |added|
  {
    if added != [] {
      var n := |added| - 1;
      var front := added[..n];
      assert DistinctAttrs(convs + front) by {
        forall i, j | 0 <= i < j < |convs + front|
          ensures (convs + front)[i].attr != (convs + front)[j].attr
        {
          assert (convs + front)[i] == (convs + added)[i] && (convs + front)[j] == (convs + added)[j];
        }
      }
      RegisteredAllNew(convs, front);
      forall i | 0 <= i < |convs + front|
        ensures (convs + front)[i].attr != added[n].attr
      {
        assert (convs + front)[i] == (convs + added)[i] && added[n] == (convs + added)[|convs| + n];
      }
      RegisteredNew(convs + front, added[n]);
      assert convs + front + [added[n]] == convs + added;
    }
  }

  /** What a converter the client registers is built with. */
  datatype ConvSpec = ConvSpec(attr: string, prop: Option<string>, kind: Kind, enabled: Option<bool>, option: Dict)

  /** The device class, state class and unit a measurement converter is given. */
  function MeasureOption(deviceClass: string, unit: string): (r: Dict)
    ensures r.Keys == {"device_class", "state_class", "unit_of_measurement"}
    ensures r["state_class"] == Str("measurement") && r["unit_of_measurement"] == Str(unit)
  {
    map["device_class" := Str(deviceClass), "state_class" := Str("measurement"),
        "unit_of_measurement" := Str(unit)]
  }

  /** The converters the client registers, in registration order. The alarm and minutely
      converters are registered between `wind_speed` and `limit_number` in the source;
      their classes are not part of this model. */
  const Defaults: seq<ConvSpec> := [
    ConvSpec("precipitation", Some("rain"), Number(" ", 1), Some(true), MeasureOption("precipitation", "mm")),
    ConvSpec("precipitation_24h", Some("rain24h"), Number(" ", 1), Some(true), MeasureOption("precipitation", "mm")),
    ConvSpec("temperature", Some("temp"), Number(" ", 1), Some(true), MeasureOption("temperature", "°C")),
    ConvSpec("humidity", Some("sd"), Number("%", 1), Some(true), MeasureOption("humidity", "%")),
    ConvSpec("pm25", Some("aqi_pm25"), Number(" ", 1), Some(true), MeasureOption("pm25", "µg/m³")),
    ConvSpec("atmospheric_pressure", Some("qy"), Number(" ", 1), Some(true), MeasureOption("atmospheric_pressure", "hPa")),
    ConvSpec("visibility", Some("njd"), Number("km", 1), Some(true), MeasureOption("distance", "km")),
    WindSpec,
    ConvSpec("limit_number", Some("limitnumber"), Plain, Some(false), map["icon" := Str("mdi:counter")])
  ]

  /** The converter is a sensor converter built as `s` says. */
  predicate Matches(c: Converter, s: ConvSpec)
    reads c
  {
    c.attr == s.attr && c.domain == Some(SensorDomain) && c.prop == s.prop && c.parent.None?
    && c.kind == s.kind && c.enabled == s.enabled && c.option == s.option && c.Coherent() && !c.ignoreProp
  }

  /** The wind converter's row. */
  const WindSpec := ConvSpec("wind_speed", Some("wse"), WindSpeed("km/h", 1), Some(true), WindOption)

  /** A row the converter classes can build: a numeric converter is always enabled, and
      the only wind converter is the default one. */
  predicate Buildable(s: ConvSpec) {
    (s.kind.Number? ==> s.enabled == Some(true)) && (s.kind.WindSpeed? ==> s == WindSpec)
  }

  /** The table names each attribute once, and each of its rows can be built. */
  lemma DefaultsDistinct()
    ensures forall i, j :: 0 <= i < j < |Defaults| ==> Defaults[i].attr != Defaults[j].attr
    ensures forall i :: 0 <= i < |Defaults| ==> Buildable(Defaults[i])
  {
  }

  /** Builds one converter of the table: a `NumberSensorConv`, the `WindSpeedSensorConv`
      or a `SensorConv`, then `with_option` unless it is the wind converter, whose class
      sets its own option. */
  method Build(s: ConvSpec) returns (c: Converter)
    requires Buildable(s)
    ensures fresh(c) && Matches(c, s)
  {
    if s.kind.Number? {
      c := new Converter.NumberSensor(s.attr, s.prop, s.kind.unit, s.kind.precision);
      c := c.WithOption(s.option);
    } else if s.kind.WindSpeed? {
      c := new Converter.WindSpeedSensor();
    } else {
      c := new Converter.Sensor(s.attr, s.prop, None, s.enabled);
      c := c.WithOption(s.option);
    }
  }

  /** Builds the converters of `specs`, in order. */
  method BuildAll(specs: seq<ConvSpec>) returns (convs: seq<Converter>)
    requires forall i :: 0 <= i < |specs| ==> Buildable(specs[i])
    ensures |convs| == |specs| && forall i :: 0 <= i < |convs| ==> Matches(convs[i], specs[i])
  {
    convs := [];
    for i := 0 to |specs|
      invariant |convs| == i && forall j :: 0 <= j < i ==> Matches(convs[j], specs[j])
    {
      var c := Build(specs[i]);
      convs := convs + [c];
    }
  }

  /** The converters `TianqiClient.__init__` builds, in order. */
  method DefaultConverters() returns (convs: seq<Converter>)
    ensures |convs| == |Defaults| && forall i :: 0 <= i < |convs| ==> Matches(convs[i], Defaults[i])
    ensures DistinctAttrs(convs)
  {
    DefaultsDistinct();
    convs := BuildAll(Defaults);
  }

  // ---------------------------------------------------------------- subscription

  /** `subscribe_attrs(conv)`: the converter's own attribute, its children, and the
      attribute of every registered converter whose parent it is. */
  function SubscribeAttrs(convs: seq<Converter>, conv: Converter): (r: set<string>)
    ensures conv.attr in r && conv.childs <= r
    ensures forall i :: 0 <= i < |convs| && convs[i].parent == Some(conv.attr) ==> convs[i].attr in r
    ensures forall k :: k in r ==>
      k == conv.attr || k in conv.childs || exists i :: 0 <= i < |convs| && convs[i].parent == Some(conv.attr) && convs[i].attr == k
  {
    {conv.attr} + conv.childs + (set i | 0 <= i < |convs| && convs[i].parent == Some(conv.attr) :: convs[i].attr)
  }

  /** An entity subscribes to every key its converter's decode can write. */
  lemma WritesSubscribed(convs: seq<Converter>, conv: Converter)
    requires conv.Coherent()
    ensures conv.Writes() <= SubscribeAttrs(convs, conv)
  {
  }

  // ---------------------------------------------------------------- decode

  /** The decode pass over the registry in order: a converter whose field is absent is
      skipped, the others write into the shared payload; the first exception ends it. */
  function DecodeAll(convs: seq<Converter>, data: Value, store: Dict): (r: (Dict, Outcome))
    decreases |convs|
  {
    if convs == [] then (map[], Pass)
    else
      var (p, o) := DecodeAll(convs[..|convs| - 1], data, store);
      var c := convs[|convs| - 1];
      if o.Fail? then (p, o) else Stepped(c, p, data, store)
  }

  /** One converter's turn in the decode pass. */
  function Stepped(c: Converter, p: Dict, data: Value, store: Dict): (Dict, Outcome) {
    match c.Input(data)
    case Err(e) => (p, Fail(e))
    case Ok(None) => (p, Pass)
    case Ok(Some(v)) => c.Decoded(p, v, store)
  }

  /** The turn of the converter at `i`, writing into the shared payload. */
  method Feed(convs: seq<Converter>, i: nat, p: Payload, data: Value, store: Dict) returns (o: Outcome)
    requires i < |convs| && DecodeAll(convs[..i], data, store) == (p.items, Pass)
    modifies p
    ensures (p.items, o) == DecodeAll(convs[..i + 1], data, store)
  {
    assert convs[..i + 1][..i] == convs[..i];
    var c := convs[i];
    var v := c.Input(data);
    if v.Err? {
      return Fail(v.error);
    }
    o := Pass;
    if v.value.Some? {
      o := c.Decode(store, p, v.value.value);
    }
  }

  /** The decode pass as the loop of `decode`. */
  method DecodePass(convs: seq<Converter>, data: Value, store: Dict) returns (payload: Dict, o: Outcome)
    ensures (payload, o) == DecodeAll(convs, data, store)
  {
    var p := new Payload();
    o := Pass;
    for i := 0 to |convs|
      invariant (p.items, o) == DecodeAll(convs[..i], data, store) && o.Pass?
    {
      o := Feed(convs, i, p, data, store);
      if o.Fail? {
        DecodeStop(convs, data, store, i + 1);
        return p.items, o;
      }
    }
    assert convs[..|convs|] == convs;
    payload := p.items;
  }

  /** The converter at `i` was handed a value. */
  predicate Fed(convs: seq<Converter>, i: int, data: Value) {
    0 <= i < |convs| && convs[i].Input(data).Ok? && convs[i].Input(data).value.Some?
  }

  /** Every key of the payload was written by a converter that was handed a value. */
  lemma {:induction false} DecodeWritesOnly(convs: seq<Converter>, data: Value, store: Dict)
    ensures forall k :: k in DecodeAll(convs, data, store).0 ==>
      exists i :: Fed(convs, i, data) && k in convs[i].Writes()
    decreases |convs|
  {
    if convs != [] {
      var n := |convs| - 1;
      var front := convs[..n];
      DecodeWritesOnly(front, data, store);
      forall k | k in DecodeAll(convs, data, store).0
        ensures exists i :: Fed(convs, i, data) && k in convs[i].Writes()
      {
        if k in DecodeAll(front, data, store).0 {
          var i :| Fed(front, i, data) && k in front[i].Writes();
          assert front[i] == convs[i];
          assert Fed(convs, i, data);
        } else {
          assert Fed(convs, n, data);
        }
      }
    }
  }

  /** What the payload holds for a converter that was handed `v` and whose attribute no
      later converter writes: the value itself, or its number for a numeric converter. */
  function Delivered(c: Converter, v: Value): Value {
    if c.kind.Plain? then v else Float(NumberValue(v, c.kind.unit).GetOr(0.0))
  }

  /** A decode pass that raises nothing gives each converter that was handed a value its
      attribute in the payload, unless a later converter writes the same key. */
  lemma {:induction false} DecodeDelivers(convs: seq<Converter>, data: Value, store: Dict, i: nat)
    requires Fed(convs, i, data) && DecodeAll(convs, data, store).1.Pass?
    requires forall j :: i < j < |convs| ==> convs[i].attr !in convs[j].Writes()
    requires convs[i].kind.WindSpeed? ==> convs[i].attr !in WindChilds
    ensures convs[i].attr in DecodeAll(convs, data, store).0
    ensures DecodeAll(convs, data, store).0[convs[i].attr] == Delivered(convs[i], convs[i].Input(data).value.value)
    decreases |convs|
  {
    var n := |convs| - 1;
    if i < n {
      DecodeFront(convs, data, store, i);
      DecodeDelivers(convs[..n], data, store, i);
      DecodeKeeps(convs, data, store, convs[i].attr);
    } else {
      DecodeLast(convs, data, store, i);
    }
  }

  /** The conditions of `DecodeDelivers` carry over to the prefix without the last
      converter. */
  lemma DecodeFront(convs: seq<Converter>, data: Value, store: Dict, i: nat)
    requires Fed(convs, i, data) && DecodeAll(convs, data, store).1.Pass? && i < |convs| - 1
    requires forall j :: i < j < |convs| ==> convs[i].attr !in convs[j].Writes()
    ensures var front := convs[..|convs| - 1];
      && Fed(front, i, data) && DecodeAll(front, data, store).1.Pass? && front[i] == convs[i]
      && (forall j :: i < j < |front| ==> front[i].attr !in front[j].Writes())
      && convs[i].attr !in convs[|convs| - 1].Writes()
  {
    var front := convs[..|convs| - 1];
    assert front[i] == convs[i];
    forall j | i < j < |front|
      ensures front[i].attr !in front[j].Writes()
    {
      assert front[j] == convs[j];
    }
  }

  /** The last converter's write is what the payload holds for its attribute. */
  lemma DecodeLast(convs: seq<Converter>, data: Value, store: Dict, i: nat)
    requires i == |convs| - 1 && Fed(convs, i, data) && DecodeAll(convs, data, store).1.Pass?
    requires convs[i].kind.WindSpeed? ==> convs[i].attr !in WindChilds
    ensures convs[i].attr in DecodeAll(convs, data, store).0
    ensures DecodeAll(convs, data, store).0[convs[i].attr] == Delivered(convs[i], convs[i].Input(data).value.value)
  {
    var c := convs[i];
    var (p, o) := DecodeAll(convs[..i], data, store);
    assert DecodeAll(convs, data, store) == c.Decoded(p, c.Input(data).value.value, store);
  }

  /** The last converter leaves every key it does not write as it was. */
  lemma DecodeKeeps(convs: seq<Converter>, data: Value, store: Dict, k: string)
    requires convs != [] && DecodeAll(convs, data, store).1.Pass?
    requires k in DecodeAll(convs[..|convs| - 1], data, store).0 && k !in convs[|convs| - 1].Writes()
    ensures k in DecodeAll(convs, data, store).0
    ensures DecodeAll(convs, data, store).0[k] == DecodeAll(convs[..|convs| - 1], data, store).0[k]
  {
    var n := |convs| - 1;
    var c := convs[n];
    var (p, o) := DecodeAll(convs[..n], data, store);
    match c.Input(data)
    case Ok(None) =>
    case Ok(Some(v)) =>
      assert DecodeAll(convs, data, store) == c.Decoded(p, v, store);
  }

  /** Once a converter raises, the converters after it are not run. */
  lemma {:induction false} DecodeStop(convs: seq<Converter>, data: Value, store: Dict, k: nat)
    requires k <= |convs| && DecodeAll(convs[..k], data, store).1.Fail?
    ensures DecodeAll(convs, data, store) == DecodeAll(convs[..k], data, store)
    decreases |convs| - k
  {
    if k < |convs| {
      assert convs[..k + 1][..k] == convs[..k];
      DecodeStop(convs, data, store, k + 1);
    } else {
      assert convs[..k] == convs;
    }
  }

  // ---------------------------------------------------------------- delivery

  /** The entity subscribes to a key of the payload. */
  predicate Hit(e: XEntity, value: Dict) {
    e.subscribed * value.Keys != {}
  }

  /** The keys of the entities that receive the payload and are already added, so are
      written. */
  function Written(ents: map<string, XEntity>, value: Dict): (r: set<string>)
    reads set k | k in ents :: ents[k]
  {
    set k | k in ents && Hit(ents[k], value) && ents[k].added
  }

  /** Each entity that subscribes to a key of the payload took it; the others did not
      change. */
  twostate predicate Took(ents: map<string, XEntity>, value: Dict)
    reads set k | k in ents :: ents[k]
  {
    forall k :: k in ents ==>
      ents[k].View() == if Hit(ents[k], value) then ents[k].Applied(old(ents[k].View()), old(ents[k].conv.option), value) else old(ents[k].View())
  }

  /** Marking one more key done keeps the marked keys those of `all` that are done. */
  lemma MarkedStep(all: set<string>, todo: set<string>, hit: set<string>, k: string, wrote: bool)
    requires hit == all - todo && k in todo && (wrote <==> k in all)
    ensures (if wrote then hit + {k} else hit) == all - (todo - {k})
  {
  }

  /** One entity's turn in `push_state`: it takes the payload if it subscribes to one of
      its keys, and reports whether it was written. */
  method Deliver(ents: map<string, XEntity>, k: string, value: Dict) returns (wrote: bool)
    requires k in ents && forall j :: j in ents ==> ents[j].name == j
    modifies ents[k]
    ensures Hit(ents[k], value) ==> ents[k].View() == ents[k].Applied(old(ents[k].View()), ents[k].conv.option, value)
    ensures !Hit(ents[k], value) ==> ents[k].View() == old(ents[k].View())
    ensures forall j :: j in ents && j != k ==> ents[j].View() == old(ents[j].View())
    ensures wrote <==> Hit(ents[k], value) && old(ents[k].added)
  {
    var e := ents[k];
    wrote := false;
    if e.subscribed * value.Keys != {} {
      e.SetState(value);
      wrote := e.added;
    }
  }

  /** The loop of `push_state` over the entities, each named by its own key; returns the
      keys of the entities written. */
  method DeliverAll(ents: map<string, XEntity>, value: Dict) returns (hit: set<string>)
    requires forall k :: k in ents ==> ents[k].name == k
    modifies set k | k in ents :: ents[k]
    ensures Took(ents, value)
    ensures hit == old(Written(ents, value))
  {
    hit := {};
    var todo := ents.Keys;
    while todo != {}
      invariant todo <= ents.Keys
      invariant forall k :: k in ents && (k in todo || !Hit(ents[k], value)) ==> ents[k].View() == old(ents[k].View())
      invariant forall k :: k in ents && k !in todo && Hit(ents[k], value) ==>
        ents[k].View() == ents[k].Applied(old(ents[k].View()), old(ents[k].conv.option), value)
      invariant hit == old(Written(ents, value)) - todo
      decreases todo
    {
      var k :| k in todo;
      var wrote := Deliver(ents, k, value);
      MarkedStep(old(Written(ents, value)), todo, hit, k, wrote);
      if wrote {
        hit := hit + {k};
      }
      todo := todo - {k};
    }
  }

  // ---------------------------------------------------------------- entity setup

  /** The setuper registered for the converter's domain, if any. */
  function HandlerOf(setups: map<string, Setuper>, c: Converter): (r: Option<Setuper>)
  {
    if c.domain.Some? && c.domain.value in setups then Some(setups[c.domain.value]) else None
  }

  /** The entity class a sensor or binary-sensor setuper builds. */
  function PlatformOf(s: Setuper): Platform
    requires !s.WeatherSetup?
  {
    if s.SensorSetup? then SensorPlatform else BinaryPlatform
  }

  /** `setup_entities(only_domain)` looks at the converter: it has a domain, and that is
      the one asked for unless none is (`only` is empty for None). */
  predicate Selected(c: Converter, only: string) {
    c.domain.Some? && (only == "" || c.domain.value == only)
  }

  /** The converters `setup_entities(only)` builds an entity for, in registry order, and
      whether it raised; `keys` are the entity keys it starts from. A converter that is
      not selected, already has an entity or has no setuper is skipped, and one whose
      setuper is the weather one raises TypeError, because that setup takes no
      converter. */
  function SetupPlan(convs: seq<Converter>, only: string, setups: map<string, Setuper>, keys: set<string>)
    : (r: (seq<Converter>, Outcome))
    ensures forall c :: c in r.0 ==> c in convs
    ensures forall c :: c in r.0 ==>
      Selected(c, only) && c.attr !in keys && HandlerOf(setups, c).Some? && !HandlerOf(setups, c).value.WeatherSetup?
    ensures r.1.Fail? ==> r.1 == Fail(TypeError)
    decreases |convs|
  {
    if convs == [] then ([], Pass)
    else
      var (made, o) := SetupPlan(convs[..|convs| - 1], only, setups, keys);
      var c := convs[|convs| - 1];
      if o.Fail? || !Selected(c, only) || c.attr in keys then (made, o)
      else match HandlerOf(setups, c)
        case None => (made, o)
        case Some(WeatherSetup) => (made, Fail(TypeError))
        case Some(_) => (made + [c], o)
  }

  /** The converter `SetupPlan` stops at: selected, without an entity, and given the
      weather setuper. */
  predicate Raises(c: Converter, only: string, setups: map<string, Setuper>, keys: set<string>) {
    Selected(c, only) && c.attr !in keys && HandlerOf(setups, c) == Some(WeatherSetup)
  }

  /** `setup_entities` raises exactly when some converter reaches the weather setuper. */
  lemma {:induction false} SetupRaises(convs: seq<Converter>, only: string, setups: map<string, Setuper>, keys: set<string>)
    ensures SetupPlan(convs, only, setups, keys).1.Fail? <==> exists i :: 0 <= i < |convs| && Raises(convs[i], only, setups, keys)
    decreases |convs|
  {
    if convs != [] {
      var n := |convs| - 1;
      var front := convs[..n];
      SetupRaises(front, only, setups, keys);
      if exists i :: 0 <= i < |front| && Raises(front[i], only, setups, keys) {
        var i :| 0 <= i < |front| && Raises(front[i], only, setups, keys);
        assert convs[i] == front[i];
      }
      if exists i :: 0 <= i < |convs| && Raises(convs[i], only, setups, keys) {
        var i :| 0 <= i < |convs| && Raises(convs[i], only, setups, keys);
        if i < n {
          assert front[i] == convs[i];
        }
      }
    }
  }

  /** Without a weather setuper in play, every selected converter without an entity and
      with a setuper gets one. */
  lemma {:induction false} SetupCovers(convs: seq<Converter>, only: string, setups: map<string, Setuper>, keys: set<string>, i: nat)
    requires SetupPlan(convs, only, setups, keys).1.Pass?
    requires i < |convs| && Selected(convs[i], only) && convs[i].attr !in keys && HandlerOf(setups, convs[i]).Some?
    ensures convs[i] in SetupPlan(convs, only, setups, keys).0
    decreases |convs|
  {
    var n := |convs| - 1;
    if i < n {
      assert convs[..n][i] == convs[i];
      SetupCovers(convs[..n], only, setups, keys, i);
    }
  }

  /** Once `setup_entities` has raised, the later converters are not looked at. */
  lemma {:induction false} SetupStop(convs: seq<Converter>, only: string, setups: map<string, Setuper>, keys: set<string>, k: nat)
    requires k <= |convs| && SetupPlan(convs[..k], only, setups, keys).1.Fail?
    ensures SetupPlan(convs, only, setups, keys) == SetupPlan(convs[..k], only, setups, keys)
    decreases |convs| - k
  {
    if k < |convs| {
      assert convs[..k + 1][..k] == convs[..k];
      SetupStop(convs, only, setups, keys, k + 1);
    } else {
      assert convs[..k] == convs;
    }
  }

  /** The attributes of some converters. */
  function AttrsOf(convs: seq<Converter>): (r: set<string>)
    ensures forall c :: c in convs ==> c.attr in r
    ensures forall k :: k in r ==> exists c :: c in convs && c.attr == k
  {
    set c | c in convs :: c.attr
  }

  /** One more converter adds its attribute. */
  lemma AttrsSnoc(made: seq<Converter>, c: Converter)
    ensures AttrsOf(made + [c]) == AttrsOf(made) + {c.attr}
  {
  }

  /** With distinct attributes, the converter at `i` has an attribute none of the earlier
      ones has. */
  lemma AttrAhead(convs: seq<Converter>, i: nat, made: seq<Converter>)
    requires DistinctAttrs(convs) && i < |convs|
    requires forall c :: c in made ==> c in convs[..i]
    ensures convs[i].attr !in AttrsOf(made)
  {
  }

  /** An entity `setup_entities` built is of the class its converter's setuper makes,
      named by the converter's attribute and subscribed to what that converter feeds. */
  predicate Fits(e: XEntity, setups: map<string, Setuper>, convs: seq<Converter>) {
    && HandlerOf(setups, e.conv).Some? && !HandlerOf(setups, e.conv).value.WeatherSetup?
    && e.name == e.conv.attr && e.platform == PlatformOf(HandlerOf(setups, e.conv).value)
    && e.subscribed == SubscribeAttrs(convs, e.conv)
  }

  /** The entities `ents` and hand-overs `ann` extend `ents0` and `ann0` by the entities
      `born` built for the converters `made`: each fits its converter and sits under its
      attribute, and they were handed over in order. */
  predicate Extended(made: seq<Converter>, born: map<string, XEntity>, ents0: map<string, XEntity>, ann0: seq<object>,
                     ents: map<string, XEntity>, ann: seq<object>, setups: map<string, Setuper>, convs: seq<Converter>)
  {
    && born.Keys == AttrsOf(made) && ents0.Keys !! born.Keys && ents == ents0 + born
    && (forall c :: c in made ==> born[c.attr].conv == c)
    && (forall k :: k in born ==> Fits(born[k], setups, convs))
    && ann == ann0 + Order(made, born)
  }

  /** The entity still has the fields it was built with. */
  predicate Pristine(e: XEntity)
    reads e, e.conv
  {
    e.View() == Snapshot(e.conv.option, None, Get(e.conv.option, "entity_picture"), map[], None, None, false)
  }

  /** One more entity built for one more converter keeps the entities and hand-overs
      extended. */
  lemma ExtendedStep(made: seq<Converter>, born: map<string, XEntity>, ents0: map<string, XEntity>, ann0: seq<object>,
                     ents: map<string, XEntity>, ann: seq<object>, setups: map<string, Setuper>, convs: seq<Converter>,
                     c: Converter, e: XEntity)
    requires Extended(made, born, ents0, ann0, ents, ann, setups, convs)
    requires c.attr !in ents && e.conv == c && Fits(e, setups, convs)
    ensures Extended(made + [c], born[c.attr := e], ents0, ann0, ents[c.attr := e], ann + [e], setups, convs)
  {
    var made', born' := made + [c], born[c.attr := e];
    OrderStep(made, born, c, e);
    assert ann + [e] == ann0 + Order(made', born');
    AttrsSnoc(made, c);
    assert ents[c.attr := e] == ents0 + born';
    forall k | k in born'
      ensures Fits(born'[k], setups, convs)
    {
      if k != c.attr {
        assert born'[k] == born[k];
      }
    }
    forall d | d in made'
      ensures born'[d.attr].conv == d
    {
      if d != c {
        assert d in made;
      }
    }
  }

  /** The entities built for `made`, in order. */
  function Order(made: seq<Converter>, born: map<string, XEntity>): (r: seq<object>)
    requires forall c :: c in made ==> c.attr in born
  {
    seq(|made|, j requires 0 <= j < |made| => born[made[j].attr] as object)
  }

  /** Building one more entity extends the order by it. */
  lemma OrderStep(made: seq<Converter>, born: map<string, XEntity>, c: Converter, e: XEntity)
    requires forall d :: d in made ==> d.attr in born
    requires c.attr !in AttrsOf(made)
    ensures Order(made + [c], born[c.attr := e]) == Order(made, born) + [e]
  {
    var r := Order(made + [c], born[c.attr := e]);
    forall j | 0 <= j < |made|
      ensures r[j] == Order(made, born)[j]
    {
      assert (made + [c])[j] == made[j];
    }
  }

  // ---------------------------------------------------------------- store updates

  /** The key under which a facet keeps the text of a reply whose status is not 200. */
  function TextKey(facet: string): string {
    facet + "_text"
  }

  /** The `<facet>_text` rule: the text is kept after a reply whose status is not 200
      and dropped after a 200. */
  predicate TextRule(store: Dict, facet: string, resp: Response) {
    && (resp.status != 200 ==> TextKey(facet) in store && store[TextKey(facet)] == Str(resp.body))
    && (resp.status == 200 ==> TextKey(facet) !in store)
  }

  /** `after` holds for `key` what `before` held, present or absent. */
  predicate Same(before: Dict, after: Dict, key: string) {
    (key in after <==> key in before) && (key in before ==> after[key] == before[key])
  }

  /** The store once a reply for `facet` has arrived: an empty body raises and changes
      nothing; otherwise the `_text` rule is applied and nothing else changes. */
  function Received(store: Dict, facet: string, resp: Response): (r: Result<Dict>)
    ensures r.Err? <==> resp.body == ""
    ensures r.Err? ==> r.error == IntegrationError(EmptyResponse)
    ensures r.Ok? ==> TextRule(r.value, facet, resp)
    ensures r.Ok? ==> forall k :: k != TextKey(facet) ==> Same(store, r.value, k)
  {
    if resp.body == "" then Err(IntegrationError(EmptyResponse))
    else if resp.status != 200 then Ok(store[TextKey(facet) := Str(resp.body)])
    else Ok(store - {TextKey(facet)})
  }

  /** What a fetch leaves behind: the new store, the payload pushed to the entities (if
      a decode ran and raised nothing), and whether it raised. */
  datatype Update = Update(store: Dict, push: Option<Dict>, outcome: Outcome)

  /** The facet key set from an extracted object when the marker was found:
      `(json.loads(...) or {}).get(field) or default`. The extraction itself is an input:
      None when the marker is absent, an error when its text is not JSON. */
  function Stored(store: Dict, key: string, found: Option<Result<Dict>>, field: string, default: Value): (r: Update)
    ensures r.push.None?
    ensures found.None? ==> r == Update(store, None, Pass)
    ensures found.Some? && found.value.Err? ==> r == Update(store, None, Fail(found.value.error))
    ensures found.Some? && found.value.Ok? ==>
      r.outcome.Pass? && key in r.store && r.store[key] == Or(Get(found.value.value, field), default)
    ensures forall k :: k != key ==> Same(store, r.store, k)
  {
    match found
    case None => Update(store, None, Pass)
    case Some(Err(e)) => Update(store, None, Fail(e))
    case Some(Ok(d)) => Update(store[key := Or(Get(d, field), default)], None, Pass)
  }

  /** A facet without decode: `update_dailies` (`fc` marker, field `f`) and
      `update_hourlies` (`fc180` marker, field `jh`). `url` is the result of `api_url`. */
  function Refreshed(store: Dict, url: Result<string>, facet: string, field: string, resp: Response,
                     found: Option<Result<Dict>>): (r: Update)
    ensures r.push.None?
    ensures url.Err? ==> r == Update(store, None, Fail(url.error))
    ensures url.Ok? && resp.body == "" ==> r == Update(store, None, Fail(IntegrationError(EmptyResponse)))
    ensures url.Ok? && resp.body != "" ==> TextRule(r.store, facet, resp)
    ensures found.None? || r.outcome.Fail? ==> Same(store, r.store, facet)
    ensures url.Ok? && resp.body != "" && found.Some? && found.value.Ok? ==>
      r.outcome.Pass? && facet in r.store && r.store[facet] == Or(Get(found.value.value, field), List([]))
    ensures forall k :: k != facet && k != TextKey(facet) ==> Same(store, r.store, k)
  {
    match url
    case Err(e) => Update(store, None, Fail(e))
    case Ok(_) =>
      match Received(store, facet, resp)
      case Err(e) => Update(store, None, Fail(e))
      case Ok(s) => Stored(s, facet, found, field, List([]))
  }

  /** A facet whose new value is decoded and pushed: `key` is set to `v`, then the decode
      pass runs over `input` (the new value, or the whole store) with the new store. */
  function Pushed(s: Dict, convs: seq<Converter>, key: string, v: Value, wholeStore: bool): (r: Update)
  {
    var s2 := s[key := v];
    var (p, o) := DecodeAll(convs, if wholeStore then Obj(s2) else v, s2);
    Update(s2, if o.Pass? then Some(p) else None, o)
  }

  /** `update_alarms`: the `alarmDZ` marker's `w` field, then the whole store decoded. */
  function AfterAlarms(store: Dict, convs: seq<Converter>, url: Result<string>, resp: Response,
                       found: Option<Result<Dict>>): (r: Update)
    ensures url.Err? ==> r == Update(store, None, Fail(url.error))
    ensures url.Ok? && resp.body == "" ==> r == Update(store, None, Fail(IntegrationError(EmptyResponse)))
    ensures url.Ok? && resp.body != "" ==> TextRule(r.store, "alarms", resp)
    ensures r.push.Some? ==> found.Some? && found.value.Ok?
    ensures found.None? ==> Same(store, r.store, "alarms")
    ensures url.Ok? && resp.body != "" && found.Some? && found.value.Ok? ==>
      "alarms" in r.store && r.store["alarms"] == Or(Get(found.value.value, "w"), List([]))
    ensures r.push.Some? ==> r.outcome.Pass? && r.push.value == DecodeAll(convs, Obj(r.store), r.store).0
    ensures url.Ok? && resp.body != "" && found.Some? && found.value.Ok? ==>
      var (p, o) := DecodeAll(convs, Obj(r.store), r.store);
      r.push == (if o.Pass? then Some(p) else None) && r.outcome == o
    ensures url.Ok? && resp.body != "" && found.None? ==> r.outcome.Pass? && r.push.None?
    ensures found.Some? && found.value.Err? ==> r.outcome.Fail? && r.push.None?
    ensures forall k :: k != "alarms" && k != TextKey("alarms") ==> Same(store, r.store, k)
  {
    match url
    case Err(e) => Update(store, None, Fail(e))
    case Ok(_) =>
      match Received(store, "alarms", resp)
      case Err(e) => Update(store, None, Fail(e))
      case Ok(s) =>
        match found
        case None => Update(s, None, Pass)
        case Some(Err(e)) => Update(s, None, Fail(e))
        case Some(Ok(d)) => Pushed(s, convs, "alarms", Or(Get(d, "w"), List([])), true)
  }

  /** `update_minutely`: the whole text is JSON (`loaded`), stored under `minutely` and
      decoded. */
  function AfterMinutely(store: Dict, convs: seq<Converter>, url: Result<string>, resp: Response,
                         loaded: Result<Value>): (r: Update)
    ensures url.Err? ==> r == Update(store, None, Fail(url.error))
    ensures url.Ok? && resp.body == "" ==> r == Update(store, None, Fail(IntegrationError(EmptyResponse)))
    ensures url.Ok? && resp.body != "" ==> TextRule(r.store, "minutely", resp)
    ensures url.Ok? && resp.body != "" && loaded.Ok? ==>
      "minutely" in r.store && r.store["minutely"] == Or(loaded.value, Obj(map[]))
    ensures loaded.Err? ==> Same(store, r.store, "minutely") && r.push.None?
    ensures r.push.Some? ==> r.outcome.Pass? && r.push.value == DecodeAll(convs, r.store["minutely"], r.store).0
    ensures url.Ok? && resp.body != "" && loaded.Ok? ==>
      var (p, o) := DecodeAll(convs, r.store["minutely"], r.store);
      r.push == (if o.Pass? then Some(p) else None) && r.outcome == o
    ensures loaded.Err? ==> r.outcome.Fail?
    ensures forall k :: k != "minutely" && k != TextKey("minutely") ==> Same(store, r.store, k)
  {
    match url
    case Err(e) => Update(store, None, Fail(e))
    case Ok(_) =>
      match Received(store, "minutely", resp)
      case Err(e) => Update(store, None, Fail(e))
      case Ok(s) =>
        match loaded
        case Err(e) => Update(s, None, Fail(e))
        case Ok(v) => Pushed(s, convs, "minutely", Or(v, Obj(map[])), false)
  }

  /** The `dataZS` step of `update_summary`: the `zs` field of the extracted object. */
  function WithZs(u: Update, zs: Option<Result<Dict>>): (r: Update)
    requires u.outcome.Pass?
    ensures r.push == u.push
    ensures zs.None? ==> r == u
    ensures zs.Some? && zs.value.Err? ==> r == u.(outcome := Fail(zs.value.error))
    ensures zs.Some? && zs.value.Ok? ==>
      r.outcome.Pass? && "dataZS" in r.store && r.store["dataZS"] == Or(Get(zs.value.value, "zs"), Obj(map[]))
    ensures forall k :: k != "dataZS" ==> Same(u.store, r.store, k)
  {
    var s := Stored(u.store, "dataZS", zs, "zs", Obj(map[]));
    s.(push := u.push)
  }

  /** `update_summary`: the `dataSK` object is stored and decoded, then the `zs` field of
      the `dataZS` object is stored; a step that raises ends the update. */
  function AfterSummary(store: Dict, convs: seq<Converter>, url: Result<string>, resp: Response,
                        sk: Option<Result<Dict>>, zs: Option<Result<Dict>>): (r: Update)
    ensures url.Err? ==> r == Update(store, None, Fail(url.error))
    ensures url.Ok? && resp.body == "" ==> r == Update(store, None, Fail(IntegrationError(EmptyResponse)))
    ensures url.Ok? && resp.body != "" ==> TextRule(r.store, "summary", resp)
    ensures sk.None? ==> Same(store, r.store, "dataSK") && r.push.None?
    ensures url.Ok? && resp.body != "" && sk.Some? && sk.value.Ok? ==>
      "dataSK" in r.store && r.store["dataSK"] == Obj(sk.value.value)
    ensures r.push.Some? ==> sk.Some? && sk.value.Ok?
    ensures zs.None? ==> Same(store, r.store, "dataZS")
    ensures url.Ok? && resp.body != "" && sk.Some? && sk.value.Ok? ==>
      var s2 := Received(store, "summary", resp).value["dataSK" := Obj(sk.value.value)];
      var (p, o) := DecodeAll(convs, Obj(sk.value.value), s2);
      && r.push == (if o.Pass? then Some(p) else None)
      && (o.Fail? ==> r == Update(s2, None, o))
      && (o.Pass? && zs.None? ==> r.outcome.Pass? && r.store == s2)
      && (o.Pass? && zs.Some? && zs.value.Ok? ==>
            r.outcome.Pass? && r.store == s2["dataZS" := Or(Get(zs.value.value, "zs"), Obj(map[]))])
      && (o.Pass? && zs.Some? && zs.value.Err? ==> r.outcome == Fail(zs.value.error) && r.store == s2)
    ensures url.Ok? && resp.body != "" && sk.Some? && sk.value.Err? ==>
      r.outcome == Fail(sk.value.error) && r.push.None? && Same(store, r.store, "dataZS")
    ensures url.Ok? && resp.body != "" && sk.None? ==>
      && r.push.None?
      && (zs.None? ==> r.outcome.Pass?)
      && (zs.Some? && zs.value.Ok? ==>
            r.outcome.Pass? && "dataZS" in r.store && r.store["dataZS"] == Or(Get(zs.value.value, "zs"), Obj(map[])))
      && (zs.Some? && zs.value.Err? ==> r.outcome == Fail(zs.value.error))
    ensures forall k :: k !in {"dataSK", "dataZS", TextKey("summary")} ==> Same(store, r.store, k)
  {
    match url
    case Err(e) => Update(store, None, Fail(e))
    case Ok(_) =>
      match Received(store, "summary", resp)
      case Err(e) => Update(store, None, Fail(e))
      case Ok(s) =>
        match sk
        case None => WithZs(Update(s, None, Pass), zs)
        case Some(Err(e)) => Update(s, None, Fail(e))
        case Some(Ok(d)) =>
          var u := Pushed(s, convs, "dataSK", Or(Obj(d), Obj(map[])), false);
          if u.outcome.Fail? then u else WithZs(u, zs)
  }

  /** The value `update_observe` stores: the records by timestamp, as a dict. */
  function ObserveValue(records: map<string, Dict>): (r: Value)
  {
    Obj(map k | k in records :: Obj(records[k]))
  }

  /** `od` after `lst.reverse()`: the list is the one held under `od2`, so a non-empty
      list is reversed in `od` as well. */
  function ReversedIn(rdt: Dict, l: seq<Value>): (r: Dict)
  {
    if Truthy(Get(rdt, "od2")) then rdt["od2" := List(Observe.Reversed(l))] else rdt
  }

  /** `update_observe` once the `observe24h_data` marker (`found`) is known: an absent
      marker gives no records; the `od` dict's `od2` list is reversed and walked from the
      `od0` timestamp; a bad timestamp gives the `od` data back. When the result is not
      empty it replaces `observe`; nothing else changes. */
  function AfterObserve(store: Dict, url: Result<string>, found: Option<Result<Dict>>)
    : (r: (Dict, Result<Observe.Observed>))
    ensures r.1.Ok? && r.1.value.Records? && r.1.value.records != map[] ==>
      r.0 == store["observe" := ObserveValue(r.1.value.records)]
    ensures !(r.1.Ok? && r.1.value.Records? && r.1.value.records != map[]) ==> r.0 == store
    ensures url.Err? ==> r.1 == Err(url.error)
    ensures url.Ok? && found.None? ==> r.1 == Ok(Observe.Records(map[]))
  {
    match url
    case Err(e) => (store, Err(e))
    case Ok(_) =>
      match found
      case None => (store, Ok(Observe.Records(map[])))
      case Some(Err(e)) => (store, Err(e))
      case Some(Ok(d)) =>
        match Or(Get(d, "od"), Obj(map[]))
        case Obj(rdt) =>
          (match Or(Get(rdt, "od2"), List([]))
           case List(l) =>
             (match GetOr(rdt, "od0", Str(""))
              case Str(t) =>
                (match Dates.ParseStamp(t)
                 case None => (store, Ok(Observe.BadBase(ReversedIn(rdt, l))))
                 case Some(base) =>
                   match Observe.Replay(base, Observe.Reversed(l))
                   case Err(e) => (store, Err(e))
                   case Ok(w) =>
                     (if w.kept == map[] then store else store["observe" := ObserveValue(w.kept)],
                      Ok(Observe.Records(w.kept))))
              case _ => (store, Err(TypeError)))
           case _ => (store, Err(AttributeError)))
        case _ => (store, Err(AttributeError))
  }

  /** The marker search of `update_summary`, `update_alarms`, `update_dailies`,
      `update_hourlies` and `update_observe` as written: `re` is never imported into
      `__init__.py`, so `re.search` raises NameError whatever the text. */
  function SearchAsWritten(text: string): Option<Result<Dict>> {
    Some(Err(NameError))
  }

  /** As written, every fetch that searches its reply for a marker raises NameError once
      the reply has arrived: the `_text` rule has been applied, nothing else in the store
      changed and nothing was pushed. */
  lemma UnimportedRe(store: Dict, convs: seq<Converter>, url: Result<string>, resp: Response,
                     zs: Option<Result<Dict>>)
    requires url.Ok? && resp.body != ""
    ensures var u := AfterSummary(store, convs, url, resp, SearchAsWritten(resp.body), zs);
      u.outcome == Fail(NameError) && u.push.None? && TextRule(u.store, "summary", resp)
      && forall k :: k != TextKey("summary") ==> Same(store, u.store, k)
    ensures var u := AfterAlarms(store, convs, url, resp, SearchAsWritten(resp.body));
      u.outcome == Fail(NameError) && u.push.None? && TextRule(u.store, "alarms", resp)
      && forall k :: k != TextKey("alarms") ==> Same(store, u.store, k)
    ensures var u := Refreshed(store, url, "dailies", "f", resp, SearchAsWritten(resp.body));
      u.outcome == Fail(NameError) && forall k :: k != TextKey("dailies") ==> Same(store, u.store, k)
    ensures var u := Refreshed(store, url, "hourlies", "jh", resp, SearchAsWritten(resp.body));
      u.outcome == Fail(NameError) && forall k :: k != TextKey("hourlies") ==> Same(store, u.store, k)
    ensures AfterObserve(store, url, SearchAsWritten(resp.body)) == (store, Err(NameError))
  {
  }

  /** The loop of `update_observe` at the URL `url`: the `od2` list is reversed in
      place and walked from the `od0` timestamp, and the records found replace
      `observe` in the store. */
  method Observation(store: Dict, url: Result<string>, found: Option<Result<Dict>>) returns (s: Dict, r: Result<Observe.Observed>)
    ensures (s, r) == AfterObserve(store, url, found)
  {
    s := store;
    if url.Err? {
      return s, Err(url.error);
    }
    var dat: map<string, Dict> := map[];
    match found {
      case None =>
      case Some(Err(e)) =>
        return s, Err(e);
      case Some(Ok(d)) =>
        var od := Or(Get(d, "od"), Obj(map[]));
        if !od.Obj? {
          return s, Err(AttributeError);
        }
        var rdt := od.fields;
        var l := Or(Get(rdt, "od2"), List([]));
        if !l.List? {
          return s, Err(AttributeError);
        }
        var lst := new Value[|l.items|](j requires 0 <= j < |l.items| => l.items[j]);
        assert lst[..] == l.items;
        Observe.Reverse(lst);
        var t := GetOr(rdt, "od0", Str(""));
        if !t.Str? {
          return s, Err(TypeError);
        }
        var base := Dates.ParseStamp(t.s);
        if base.None? {
          return s, Ok(Observe.BadBase(ReversedIn(rdt, l.items)));
        }
        var kept := Observe.Reconstruct(base.value, lst);
        if kept.Err? {
          return s, Err(kept.error);
        }
        dat := kept.value;
    }
    if dat != map[] {
      s := store["observe" := ObserveValue(dat)];
    }
    r := Ok(Observe.Records(dat));
  }

  // ---------------------------------------------------------------- the client

  /** The fields a freshly built sensor or binary-sensor entity has. */
  predicate Built(e: XEntity, conv: Converter, subscribed: set<string>, platform: Platform)
    reads e, conv
  {
    e.conv == conv && e.name == conv.attr && e.platform == platform && e.subscribed == subscribed && Pristine(e)
  }

  class Client {
    const station: Stations.StationInfo
    const domain: string             // `config['domain']`, empty when missing
    const caiyun: Value              // `config.get('caiyun')`
    const locationName: Value        // Home Assistant's location name
    var store: Dict                  // `data`, the aggregate store
    var converters: seq<Converter>   // `converters`, in insertion order
    var entities: map<string, XEntity>       // the sensor entities of `entities`
    var weather: Option<Weather.WeatherEntity>  // `entities['weather']`, once added
    var setups: map<string, Setuper>
    var announced: seq<object>       // the entities handed to `add_entities`, in order
    var written: multiset<string>    // the keys of the sensor entities `push_state` wrote

    /** The registry keeps one converter per attribute, each entity under its own
        attribute, and the weather key for at most one entity. */
    predicate Valid()
      reads this
    {
      && DistinctAttrs(converters)
      && (forall k :: k in entities ==> entities[k].name == k)
      && (WeatherDomain in entities ==> weather.None?)
    }

    /** The keys of `entities`. */
    function Keys(): (r: set<string>)
      reads this
    {
      entities.Keys + (if weather.Some? then {WeatherDomain} else {})
    }

    /** The sensor entity objects. */
    function Ents(): set<XEntity>
      reads this
    {
      set k | k in entities :: entities[k]
    }

    /** The area id's text, as `'%s' % area_id` prints it (empty for the kinds whose
        printed form is not modelled). */
    function AreaText(): string {
      match Show(station.AreaId())
      case Some(t) => t
      case None => ""
    }

    /** `api_url(path, node)` at the clock reading `millis`. */
    function Url(path: string, node: string, millis: int): (r: Result<string>)
      ensures r.Err? <==> domain == ""
    {
      Stations.ApiUrl(domain, path, node, Some(millis))
    }

    /** The pages the fetches read, on the default node `d1` unless named. */
    function SummaryUrl(millis: int): Result<string> {
      Url("weather_index/" + AreaText() + ".html", "d1", millis)
    }

    function AlarmsUrl(millis: int): Result<string> {
      Url("dingzhi/" + AreaText() + ".html", "d1", millis)
    }

    function DailiesUrl(millis: int): Result<string> {
      Url("weixinfc/" + AreaText() + ".html", "d1", millis)
    }

    function HourliesUrl(millis: int): Result<string> {
      Url("wap_180h/" + AreaText() + ".html", "d1", millis)
    }

    function MinutelyUrl(millis: int): Result<string> {
      Url("webgis_rain_new/webgis/minute", "d3", millis)
    }

    function ObserveUrl(millis: int): Result<string> {
      Url("weather/" + AreaText() + ".shtml", "www", millis)
    }

    /** The registry, the entities and the record of handed and written entities are
        unchanged. */
    twostate predicate Registry()
      reads this
    {
      && converters == old(converters) && entities == old(entities) && weather == old(weather)
      && setups == old(setups) && announced == old(announced)
    }

    /** After a fetch: each entity took the pushed payload if it subscribes to one of its
        keys, and the added ones among them were written; with nothing pushed, no entity
        changed. */
    twostate predicate Notified(push: Option<Dict>)
      reads this, Ents()
    {
      && (push.Some? ==> old(entities) == entities && Took(old(entities), push.value) && written == old(written) + multiset(old(Written(entities, push.value))))
      && (push.None? ==> written == old(written) && old(entities) == entities && unchanged(Ents()))
    }

    /** `TianqiClient(hass, config)` once its station is known: an empty store, no
        entities or setupers, and the default converters registered in order. */
    constructor (station: Stations.StationInfo, domain: string, caiyun: Value, locationName: Value)
      ensures Valid()
      ensures this.station == station && this.domain == domain && this.caiyun == caiyun && this.locationName == locationName
      ensures store == map[] && entities == map[] && weather.None? && setups == map[]
      ensures announced == [] && written == multiset{}
      ensures |converters| == |Defaults| && forall i :: 0 <= i < |converters| ==> Matches(converters[i], Defaults[i])
    {
      this.station, this.domain, this.caiyun, this.locationName := station, domain, caiyun, locationName;
      store, converters, entities, weather := map[], [], map[], None;
      setups, announced, written := map[], [], multiset{};
      new;
      var convs := DefaultConverters();
      assert [] + convs == convs;
      RegisteredAllNew([], convs);
      AddConverters(convs);
    }

    /** `add_converter(conv)`: `converters[conv.attr] = conv`. */
    method AddConverter(conv: Converter)
      requires Valid()
      modifies this
      ensures Valid() && converters == Registered(old(converters), conv)
      ensures store == old(store) && entities == old(entities) && weather == old(weather)
      ensures setups == old(setups) && announced == old(announced) && written == old(written)
    {
      RegisteredLookup(converters, conv, conv.attr);
      converters := Registered(converters, conv);
    }

    /** `add_converters(*args)`. */
    method AddConverters(added: seq<Converter>)
      requires Valid()
      modifies this
      ensures Valid() && converters == RegisteredAll(old(converters), added)
      ensures store == old(store) && entities == old(entities) && weather == old(weather)
      ensures setups == old(setups) && announced == old(announced) && written == old(written)
    {
      for i := 0 to |added|
        invariant Valid() && converters == RegisteredAll(old(converters), added[..i])
        invariant store == old(store) && entities == old(entities) && weather == old(weather)
        invariant setups == old(setups) && announced == old(announced) && written == old(written)
      {
        assert added[..i + 1][..i] == added[..i];
        AddConverter(added[i]);
      }
      assert added[..|added|] == added;
    }

    /** `decode(data)`: the converters in registry order write into one payload; those
        whose field is absent are skipped, and the first exception ends the pass. */
    method Decode(data: Value) returns (payload: Dict, o: Outcome)
      ensures (payload, o) == DecodeAll(converters, data, store)
    {
      payload, o := DecodePass(converters, data, store);
    }

    /** `push_state(value)`: nothing for an empty payload; otherwise every entity that
        subscribes to one of its keys takes the whole payload, and those already added
        are written. */
    method PushState(value: Dict)
      requires Valid()
      modifies this, Ents()
      ensures Valid() && Registry() && store == old(store)
      ensures Took(entities, value)
      ensures written == old(written) + multiset(old(Written(entities, value)))
    {
      if value == map[] {
        assert Written(entities, value) == {};
        return;
      }
      var hit := DeliverAll(entities, value);
      written := written + multiset(hit);
    }

    /** The end of a fetch that decodes and pushes: the payload `u` pushes, if any, goes
        out to the entities and the store takes its new value. The push reads nothing of
        the store, so it may run before the write-back. */
    method Deliver(u: Update) returns (o: Outcome)
      requires Valid()
      modifies this, Ents()
      ensures store == u.store && o == u.outcome && Notified(u.push)
      ensures Valid() && Registry()
    {
      if u.push.Some? {
        PushState(u.push.value);
      }
      store, o := u.store, u.outcome;
    }

    /** The weather entity object, once registered. */
    function WeatherObj(): set<object>
      reads this
    {
      if weather.Some? then {weather.value} else {}
    }

    /** The entity `entities.get(k)` finds. */
    function EntityAt(k: string): object
      requires k in Keys()
      reads this
    {
      if k in entities then entities[k] else weather.value
    }

    /** Whether the entity under `k` is already added. */
    function AddedAt(k: string): bool
      requires k in Keys()
      reads this, Ents(), WeatherObj()
    {
      if k in entities then entities[k].added else weather.value.added
    }

    /** Nothing about the client changed. */
    twostate predicate Same()
      reads this
    {
      && store == old(store) && converters == old(converters) && entities == old(entities)
      && weather == old(weather) && setups == old(setups) && announced == old(announced) && written == old(written)
    }

    /** The effect of a sensor or binary-sensor `setup(client, conv)`: the entity already
        under the attribute is handed to `add_entities` unless it is added; otherwise a new
        entity of the platform's class is built, registered under the attribute and handed
        over. */
    twostate predicate SetUp(conv: Converter, platform: Platform)
      reads this, Ents(), conv
    {
      && Valid() && converters == old(converters) && store == old(store) && setups == old(setups)
      && weather == old(weather) && written == old(written)
      && (conv.attr in old(Keys()) ==>
            entities == old(entities)
            && announced == old(announced) + (if old(AddedAt(conv.attr)) then [] else [old(EntityAt(conv.attr))]))
      && (conv.attr !in old(Keys()) ==>
            conv.attr in entities && entities == old(entities)[conv.attr := entities[conv.attr]]
            && fresh(entities[conv.attr]) && Built(entities[conv.attr], conv, SubscribeAttrs(converters, conv), platform)
            && announced == old(announced) + [entities[conv.attr]])
    }

    /** The `setup(client, conv)` of the sensor and binary-sensor setupers. */
    method Setup(platform: Platform, conv: Converter)
      requires Valid()
      modifies this
      ensures SetUp(conv, platform)
    {
      if conv.attr in entities {
        var e := entities[conv.attr];
        if !e.added {
          announced := announced + [e];
        }
      } else if conv.attr == WeatherDomain && weather.Some? {
        var w := weather.value;
        if !w.added {
          announced := announced + [w];
        }
      } else {
        var e := new XEntity(conv, map[], SubscribeAttrs(converters, conv), platform);
        assert map[] + conv.option == conv.option;
        entities := entities[conv.attr := e];
        announced := announced + [e];
      }
    }

    /** The effect of the weather setuper's `setup(client)`: the entity under `weather` is
        handed to `add_entities` unless it is added; otherwise a new weather entity is
        built for the station and handed over. */
    twostate predicate WeatherSetUp(new made: Option<Weather.WeatherEntity>)
      reads this, if made.Some? then {made.value} else {}
    {
      && Valid() && converters == old(converters) && store == old(store)
      && entities == old(entities) && weather == old(weather) && written == old(written)
      && (WeatherDomain in old(Keys()) ==>
            made.None? && announced == old(announced) + (if old(AddedAt(WeatherDomain)) then [] else [old(EntityAt(WeatherDomain))]))
      && (WeatherDomain !in old(Keys()) ==>
            made.Some? && fresh(made.value) && announced == old(announced) + [made.value]
            && made.value.code == Stations.StationCode(station, locationName) && made.value.supportCaiyun == Truthy(caiyun)
            && made.value.View() == Weather.WeatherView(false, None, None, None, None, None, None, Null, None, None, None))
    }

    /** The weather setuper's `setup(client)`: the entity under `weather` is handed to
        `add_entities` unless it is added; otherwise a new weather entity is built and
        handed over (it registers itself only once added). */
    method SetupWeather() returns (made: Option<Weather.WeatherEntity>)
      requires Valid()
      modifies this
      ensures setups == old(setups) && WeatherSetUp(made)
    {
      made := None;
      if WeatherDomain in entities {
        var e := entities[WeatherDomain];
        if !e.added {
          announced := announced + [e];
        }
      } else if weather.Some? {
        var w := weather.value;
        if !w.added {
          announced := announced + [w];
        }
      } else {
        var w := new Weather.WeatherEntity(station, locationName, caiyun);
        announced := announced + [w];
        made := Some(w);
      }
    }

    /** `setup_entity(client, conv)`: the setuper of the converter's domain is called with
        the converter; without one nothing happens, and the weather setuper raises
        TypeError, since it takes no converter. */
    method SetupEntity(conv: Converter) returns (o: Outcome)
      requires Valid()
      modifies this
      ensures HandlerOf(setups, conv).None? ==> o.Pass? && Same()
      ensures HandlerOf(setups, conv) == Some(WeatherSetup) ==> o == Fail(TypeError) && Same()
      ensures HandlerOf(setups, conv).Some? && !HandlerOf(setups, conv).value.WeatherSetup? ==>
        o.Pass? && SetUp(conv, PlatformOf(HandlerOf(setups, conv).value))
    {
      var h := HandlerOf(setups, conv);
      if h.None? {
        return Pass;
      }
      if h.value.WeatherSetup? {
        return Fail(TypeError);
      }
      Setup(PlatformOf(h.value), conv);
      o := Pass;
    }

    /** What `setup_entities` has done once it has built the entities `born` for the
        converters `made`: each is new, fits its converter and sits under its attribute
        beside the entities there before, and they were handed to `add_entities` in
        order; nothing else changed. */
    twostate predicate Grown(new made: seq<Converter>, new born: map<string, XEntity>)
      reads this
    {
      && Valid() && converters == old(converters) && store == old(store)
      && weather == old(weather) && written == old(written)
      && Extended(made, born, old(entities), old(announced), entities, announced, setups, converters)
      && (forall k :: k in born ==> fresh(born[k]))
    }

    /** One turn in the loop of `setup_entities`, at the converter `i`; `made` and `born`
        are the converters and entities of the turns before, and `ents0` and `ann0` the
        entities and hand-overs before the loop. */
    method SetupNext(only: string, i: nat, ghost keys: set<string>, ghost made: seq<Converter>, ghost born: map<string, XEntity>,
                     ghost ents0: map<string, XEntity>, ghost ann0: seq<object>)
      returns (o: Outcome, ghost made': seq<Converter>, ghost born': map<string, XEntity>)
      requires i < |converters| && SetupPlan(converters[..i], only, setups, keys) == (made, Pass)
      requires Valid() && Extended(made, born, ents0, ann0, entities, announced, setups, converters)
      requires keys == ents0.Keys + (if weather.Some? then {WeatherDomain} else {})
      modifies this
      ensures Valid() && converters == old(converters) && store == old(store) && setups == old(setups)
      ensures weather == old(weather) && written == old(written)
      ensures SetupPlan(converters[..i + 1], only, setups, keys) == (made', o)
      ensures Extended(made', born', ents0, ann0, entities, announced, setups, converters)
      ensures forall k :: k in born' ==> k in born || fresh(born'[k])
      ensures forall k :: k in born ==> k in born' && born'[k] == born[k]
    {
      var c := converters[i];
      assert converters[..i + 1][..i] == converters[..i];
      AttrAhead(converters, i, made);
      made', born', o := made, born, Pass;
      if Selected(c, only) && c.attr !in Keys() {
        label Step:
        o := SetupEntity(c);
        if o.Pass? && HandlerOf(setups, c).Some? {
          var e := entities[c.attr];
          ExtendedStep(made, born, ents0, ann0, old@Step(entities), old@Step(announced), setups, converters, c, e);
          AttrsSnoc(made, c);
          made', born' := made + [c], born[c.attr := e];
        }
      }
    }

    /** `setup_entities(only_domain)`: every selected converter without an entity is
        handed to its domain's setuper, in registry order, until one raises. */
    method SetupEntities(only: string) returns (o: Outcome, ghost born: map<string, XEntity>)
      requires Valid()
      modifies this
      ensures o == SetupPlan(converters, only, setups, old(Keys())).1 && setups == old(setups)
      ensures Grown(SetupPlan(converters, only, setups, old(Keys())).0, born)
    {
      ghost var keys := Keys();
      ghost var made: seq<Converter> := [];
      born := map[];
      o := Pass;
      for i := 0 to |converters|
        invariant converters == old(converters) && setups == old(setups)
        invariant SetupPlan(converters[..i], only, setups, keys) == (made, Pass)
        invariant Grown(made, born) && o.Pass?
      {
        o, made, born := SetupNext(only, i, keys, made, born, old(entities), old(announced));
        if o.Fail? {
          SetupStop(converters, only, setups, keys, i + 1);
          return;
        }
      }
      assert converters[..|converters|] == converters;
    }
  
    /** `async_add_setuper(domain, setuper)`: a domain seen before changes nothing;
        otherwise the setuper is registered, the weather one is called at once (a sensor
        or binary-sensor setuper raises TypeError there, since it wants a converter) and
        any other domain's entities are set up. */
    method AddSetuper(domain: string, s: Setuper)
      returns (o: Outcome, made: Option<Weather.WeatherEntity>, ghost born: map<string, XEntity>)
      requires Valid()
      modifies this
      ensures domain in old(setups) ==> o.Pass? && Same()
      ensures domain !in old(setups) ==> setups == old(setups)[domain := s]
      ensures domain !in old(setups) && domain == WeatherDomain && s.WeatherSetup? ==> o.Pass? && WeatherSetUp(made)
      ensures domain !in old(setups) && domain == WeatherDomain && !s.WeatherSetup? ==>
        o == Fail(TypeError) && Valid() && store == old(store) && converters == old(converters) && entities == old(entities)
        && weather == old(weather) && announced == old(announced) && written == old(written)
      ensures domain !in old(setups) && domain != WeatherDomain ==>
        o == SetupPlan(converters, domain, setups, old(Keys())).1 && Grown(SetupPlan(converters, domain, setups, old(Keys())).0, born)
    {
      made, born := None, map[];
      o := Pass;
      if domain in setups {
        return;
      }
      setups := setups[domain := s];
      if domain == WeatherDomain {
        if !s.WeatherSetup? {
          o := Fail(TypeError);
          return;
        }
        made := SetupWeather();
      } else {
        o, born := SetupEntities(domain);
      }
    }

    /** The registration step of the weather entity's `async_added_to_hass`:
        `entities['weather'] = self`, in place of whatever was there. */
    method Register(w: Weather.WeatherEntity)
      requires Valid()
      modifies this
      ensures Valid() && weather == Some(w) && entities == old(entities) - {WeatherDomain}
      ensures store == old(store) && converters == old(converters) && setups == old(setups)
      ensures announced == old(announced) && written == old(written)
    {
      entities := entities - {WeatherDomain};
      weather := Some(w);
    }

    /** The weather entity's `async_added_to_hass`: it marks itself added, registers
        under `weather` and updates from the store; `wrote` tells whether it wrote its
        state. The registration is done after the update here, which reads nothing of
        the registry. */
    method WeatherAdded(w: Weather.WeatherEntity, order: seq<string>, now: Dates.Moment) returns (o: Outcome, wrote: bool)
      requires Valid() && Dates.ValidMoment(now) && Weather.KeyOrder(Weather.ZsDict(store), order)
      modifies this, w
      ensures Valid() && weather == Some(w) && entities == old(entities) - {WeatherDomain}
      ensures store == old(store) && converters == old(converters) && setups == old(setups)
      ensures announced == old(announced) && written == old(written)
      ensures (w.View(), o) == Weather.Updated(old(w.View()).(added := true), w.supportCaiyun, store, station.AreaId(), order, now)
      ensures wrote <==> o.Pass? && Weather.Current(store, station.AreaId(), order).Ok? && Weather.Current(store, station.AreaId(), order).value.Some?
    {
      o, wrote := w.AddedToHass(store, station.AreaId(), order, now);
      Register(w);
    }

    /** `update_entities()`: only the weather entity has `update_from_client`, so only it
        is updated, once it is registered; `wrote` tells whether it wrote its state. */
    method UpdateEntities(order: seq<string>, now: Dates.Moment) returns (o: Outcome, wrote: bool)
      requires Dates.ValidMoment(now) && Weather.KeyOrder(Weather.ZsDict(store), order)
      modifies WeatherObj()
      ensures weather.None? ==> o.Pass? && !wrote
      ensures weather.Some? ==>
        (weather.value.View(), o) == Weather.Updated(old(weather.value.View()), weather.value.supportCaiyun, store, station.AreaId(), order, now)
      ensures wrote <==> weather.Some? && o.Pass? && Weather.Current(store, station.AreaId(), order).Ok? && Weather.Current(store, station.AreaId(), order).value.Some?
    {
      o, wrote := Pass, false;
      if weather.Some? {
        o, wrote := weather.value.UpdateFromClient(store, station.AreaId(), order, now);
      }
    }

    /** The `_text` rule of a fetch for `facet`: an empty text raises, a status other
        than 200 keeps the text and a 200 drops it. */
    method Receive(facet: string, resp: Response) returns (o: Outcome)
      modifies this
      ensures Received(old(store), facet, resp).Err? ==> o == Fail(Received(old(store), facet, resp).error) && store == old(store)
      ensures Received(old(store), facet, resp).Ok? ==> o.Pass? && store == Received(old(store), facet, resp).value
      ensures Registry() && written == old(written)
    {
      if resp.body == "" {
        return Fail(IntegrationError(EmptyResponse));
      }
      if resp.status != 200 {
        store := store[TextKey(facet) := Str(resp.body)];
      } else {
        store := store - {TextKey(facet)};
      }
      o := Pass;
    }

    /** A fetch without decode, at the URL `url`, storing the `field` of the object found
        under `facet`. */
    method Refresh(url: Result<string>, facet: string, field: string, resp: Response, found: Option<Result<Dict>>) returns (o: Outcome)
      modifies this
      ensures (store, o) == (var u := Refreshed(old(store), url, facet, field, resp, found); (u.store, u.outcome))
      ensures Registry() && written == old(written)
    {
      if url.Err? {
        return Fail(url.error);
      }
      o := Receive(facet, resp);
      if o.Fail? {
        return;
      }
      match found {
        case None =>
        case Some(Err(e)) =>
          o := Fail(e);
        case Some(Ok(d)) =>
          store := store[facet := Or(Get(d, field), List([]))];
      }
    }

    /** `update_dailies()` given the reply to its request at the clock reading `millis` and
        the object after the `fc` marker, if found. */
    method UpdateDailies(millis: int, resp: Response, found: Option<Result<Dict>>) returns (o: Outcome)
      modifies this
      ensures (store, o) == (var u := Refreshed(old(store), DailiesUrl(millis), "dailies", "f", resp, found);
        (u.store, u.outcome))
      ensures Registry() && written == old(written)
    {
      o := Refresh(DailiesUrl(millis), "dailies", "f", resp, found);
    }

    /** `update_hourlies()` given the reply and the object after the `fc180` marker. */
    method UpdateHourlies(millis: int, resp: Response, found: Option<Result<Dict>>) returns (o: Outcome)
      modifies this
      ensures (store, o) == (var u := Refreshed(old(store), HourliesUrl(millis), "hourlies", "jh", resp, found);
        (u.store, u.outcome))
      ensures Registry() && written == old(written)
    {
      o := Refresh(HourliesUrl(millis), "hourlies", "jh", resp, found);
    }

    /** `update_alarms()` given the reply and the object after the `alarmDZ` marker: the
        `w` field is stored under `alarms`, then the whole store is decoded and pushed. */
    method UpdateAlarms(millis: int, resp: Response, found: Option<Result<Dict>>) returns (o: Outcome)
      requires Valid()
      modifies this, Ents()
      ensures var u := AfterAlarms(old(store), converters, AlarmsUrl(millis), resp, found);
        store == u.store && o == u.outcome && Notified(u.push)
      ensures Valid() && Registry()
    {
      o := Deliver(AfterAlarms(store, converters, AlarmsUrl(millis), resp, found));
    }

    /** `update_minutely()` given the reply and what `json.loads` makes of its text: the
        result is stored under `minutely`, then decoded and pushed. */
    method UpdateMinutely(millis: int, resp: Response, loaded: Result<Value>) returns (o: Outcome)
      requires Valid()
      modifies this, Ents()
      ensures var u := AfterMinutely(old(store), converters, MinutelyUrl(millis), resp, loaded);
        store == u.store && o == u.outcome && Notified(u.push)
      ensures Valid() && Registry()
    {
      o := Deliver(AfterMinutely(store, converters, MinutelyUrl(millis), resp, loaded));
    }

    /** `update_summary()` given the reply and the objects after the `dataSK` and `dataZS`
        markers: `dataSK` is stored, decoded and pushed, then the `zs` field of `dataZS`
        is stored. */
    method UpdateSummary(millis: int, resp: Response, sk: Option<Result<Dict>>, zs: Option<Result<Dict>>) returns (o: Outcome)
      requires Valid()
      modifies this, Ents()
      ensures var u := AfterSummary(old(store), converters, SummaryUrl(millis), resp, sk, zs);
        store == u.store && o == u.outcome && Notified(u.push)
      ensures Valid() && Registry()
    {
      o := Deliver(AfterSummary(store, converters, SummaryUrl(millis), resp, sk, zs));
    }

    /** `update_observe()` given the object after the `observe24h_data` marker: the
        records found replace `observe`. */
    method UpdateObserve(millis: int, found: Option<Result<Dict>>) returns (r: Result<Observe.Observed>)
      modifies this
      ensures (store, r) == AfterObserve(old(store), ObserveUrl(millis), found)
      ensures Registry() && written == old(written)
    {
      store, r := Observation(store, ObserveUrl(millis), found);
    }
  }
}
