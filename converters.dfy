/** Converters: rules that turn one field of the provider's data into an entity
    attribute, written into the caller's payload dict in place. */
module Converters {
  import opened Wrappers
  import opened Values
  import Text

  /** The converter classes the registry uses. */
  datatype Kind =
    | Plain                                      // Converter and SensorConv
    | Number(unit: string, precision: int)       // NumberSensorConv
    | WindSpeed(unit: string, precision: int)    // WindSpeedSensorConv

  /** The four attributes the wind-speed converter fills beside `wind_speed`. */
  const WindChilds: set<string> := {"wind_direction", "wind_direction_code", "wind_level", "wind_speed_and_unit"}

  /** The class-level option of the wind-speed converter. */
  const WindOption: Dict := map["device_class" := Str("wind_speed"), "state_class" := Str("measurement"),
                                "unit_of_measurement" := Str("km/h")]

  /** A dict the converters write into: the payload of one decode pass. */
  class Payload {
    var items: Dict

    constructor ()
      ensures items == map[]
    {
      items := map[];
    }
  }

  /** `float(f'{value}'.strip().replace(unit, ''))`: the number a numeric converter
      stores, or None for the ValueError `float` raises. A float is printed so that
      `float` reads it back, and none of the units in use occur in that text. */
  function NumberValue(value: Value, unit: string): (r: Option<real>)
    ensures value.Float? ==> r == Some(value.r)
    ensures value.List? || value.Obj? ==> r.None?
  {
    if value.Float? then Some(value.r)
    else match Show(value)
      case Some(t) => Text.ParseFloat(Text.ReplaceAll(Text.Strip(t), unit, ""))
      case None => None
  }

  /** The four sibling attributes, read from the summary record's WD, wde, WS and wse
      keys, each None when absent. */
  function WindSiblings(sk: Dict): (r: Dict)
  {
    map["wind_direction" := Get(sk, "WD"), "wind_direction_code" := Get(sk, "wde"),
        "wind_level" := Get(sk, "WS"), "wind_speed_and_unit" := Get(sk, "wse")]
  }

  /** The `payload.update(...)` step of the wind converter, after `wind_speed` is written. */
  function WithSiblings(q: Dict, store: Dict): (r: (Dict, Outcome))
    ensures r.0.Keys == q.Keys + (if r.1.Pass? then WindChilds else {})
    ensures forall k :: k in q && k !in WindChilds ==> r.0[k] == q[k]
    ensures r.1.Pass? <==> Get(store, "dataSK").Obj? || !Truthy(Get(store, "dataSK"))
    ensures r.1.Fail? ==> r == (q, Fail(AttributeError))
  {
    match Or(Get(store, "dataSK"), Obj(map[]))
    case Obj(sk) => (q + WindSiblings(sk), Pass)
    case _ => (q, Fail(AttributeError))
  }

  class Converter {
    const attr: string
    const domain: Option<string>
    const prop: Option<string>
    const parent: Option<string>
    const enabled: Option<bool>
    const poll: bool
    const ignoreProp: bool
    const childs: set<string>  // None in the source is the empty set here
    const kind: Kind
    var option: Dict           // None in the source is the empty dict here

    /** `Converter(attr, domain, prop, parent, enabled, poll, ignore_prop)`. */
    constructor Base(attr: string, domain: Option<string> := None, prop: Option<string> := None,
                     parent: Option<string> := None, enabled: Option<bool> := Some(true),
                     poll: bool := false, ignoreProp: bool := false)
      ensures this.attr == attr && this.domain == domain && this.prop == prop && this.parent == parent
      ensures this.enabled == enabled && this.poll == poll && this.ignoreProp == ignoreProp
      ensures childs == {} && kind == Plain && option == map[]
    {
      this.attr, this.domain, this.prop, this.parent := attr, domain, prop, parent;
      this.enabled, this.poll, this.ignoreProp := enabled, poll, ignoreProp;
      childs, kind, option := {}, Plain, map[];
    }

    /** `SensorConv(attr, ...)`: a plain converter whose entity is a sensor. */
    constructor Sensor(attr: string, prop: Option<string> := None, parent: Option<string> := None,
                       enabled: Option<bool> := Some(true))
      ensures this.attr == attr && domain == Some("sensor") && this.prop == prop && this.parent == parent
      ensures this.enabled == enabled && !poll && !ignoreProp
      ensures childs == {} && kind == Plain && option == map[]
    {
      this.attr, domain, this.prop, this.parent := attr, Some("sensor"), prop, parent;
      this.enabled, poll, ignoreProp := enabled, false, false;
      childs, kind, option := {}, Plain, map[];
    }

    /** `NumberSensorConv(attr, prop=..., unit=...)`; the unit defaults to a space and the
        precision to 1. */
    constructor NumberSensor(attr: string, prop: Option<string> := None, unit: string := " ",
                             precision: int := 1)
      ensures this.attr == attr && domain == Some("sensor") && this.prop == prop && parent == None
      ensures enabled == Some(true) && !poll && !ignoreProp
      ensures childs == {} && kind == Number(unit, precision) && option == map[]
    {
      this.attr, domain, this.prop, parent := attr, Some("sensor"), prop, None;
      enabled, poll, ignoreProp := Some(true), false, false;
      childs, kind, option := {}, Number(unit, precision), map[];
    }

    /** `WindSpeedSensorConv()`: attribute `wind_speed` from `wse`, unit `km/h`, with its
        four sibling attributes as children. */
    constructor WindSpeedSensor()
      ensures attr == "wind_speed" && domain == Some("sensor") && prop == Some("wse") && parent == None
      ensures enabled == Some(true) && !poll && !ignoreProp
      ensures childs == WindChilds && kind == WindSpeed("km/h", 1) && option == WindOption
    {
      attr, domain, prop, parent := "wind_speed", Some("sensor"), Some("wse"), None;
      enabled, poll, ignoreProp := Some(true), false, false;
      childs, kind, option := WindChilds, WindSpeed("km/h", 1), WindOption;
    }

    /** `prop or attr`: the field this converter reads and `encode` writes. */
    function Source(): (r: string)
    {
      if prop.Some? && prop.value != "" then prop.value else attr
    }

    /** Only the wind-speed class has children, and they are its four siblings. */
    predicate Coherent() {
      kind.WindSpeed? ==> childs == WindChilds
    }

    /** The payload keys `decode` can write. */
    function Writes(): (r: set<string>)
      ensures attr in r
    {
      if kind.WindSpeed? then {attr} + WindChilds else {attr}
    }

    /** The value the decode pass hands to this converter: the whole input when
        `ignore_prop` is set, else `data[prop or attr]`, or None when that field is absent.
        `in` on a list compares elements, on a str looks for a substring and raises
        TypeError on anything else; indexing a list or str by a str raises TypeError. */
    function Input(data: Value): (r: Result<Option<Value>>)
      ensures ignoreProp ==> r == Ok(Some(data))
      ensures !ignoreProp && data.Obj? ==>
        r == Ok(if Source() in data.fields then Some(data.fields[Source()]) else None)
    {
      if ignoreProp then Ok(Some(data))
      else match data
        case Obj(m) => Ok(if Source() in m then Some(m[Source()]) else None)
        case List(l) => if Str(Source()) in l then Err(TypeError) else Ok(None)
        case Str(s) => if Text.Contains(s, Source()) then Err(TypeError) else Ok(None)
        case _ => Err(TypeError)
    }

    /** The payload after `decode(client, payload, value)` and whether it raised; `store`
        is the client's aggregate store. A numeric value that does not parse raises
        ValueError before anything is written; the wind converter writes `wind_speed` and
        then raises AttributeError if the store's `dataSK` is truthy but not a dict. */
    function Decoded(p: Dict, value: Value, store: Dict): (r: (Dict, Outcome))
      ensures p.Keys <= r.0.Keys <= p.Keys + Writes()
      ensures forall k :: k in p && k !in Writes() ==> r.0[k] == p[k]
      ensures r.1.Pass? ==> Writes() <= r.0.Keys
      ensures kind.Plain? ==> r == (p[attr := value], Pass)
      ensures !kind.Plain? ==> (NumberValue(value, kind.unit).None? <==> r == (p, Fail(ValueError)))
      ensures !kind.Plain? && NumberValue(value, kind.unit).Some? && (kind.Number? || attr !in WindChilds) ==>
        attr in r.0 && r.0[attr] == Float(NumberValue(value, kind.unit).value)
      ensures kind.Number? ==> (r.1.Pass? <==> NumberValue(value, kind.unit).Some?)
    {
      match kind
      case Plain => (p[attr := value], Pass)
      case Number(unit, _) =>
        (match NumberValue(value, unit)
         case Some(x) => (p[attr := Float(x)], Pass)
         case None => (p, Fail(ValueError)))
      case WindSpeed(unit, _) =>
        match NumberValue(value, unit)
        case None => (p, Fail(ValueError))
        case Some(x) => WithSiblings(p[attr := Float(x)], store)
    }

    /** `payload[prop or attr] = value`. */
    function Encoded(p: Dict, value: Value): (r: Dict)
      ensures Source() in r && r[Source()] == value
      ensures forall k :: k != Source() ==> (k in r <==> k in p) && (k in p ==> r[k] == p[k])
    {
      p[Source() := value]
    }

    /** `decode`, writing into `payload` in place. */
    method Decode(store: Dict, payload: Payload, value: Value) returns (r: Outcome)
      modifies payload
      ensures (payload.items, r) == Decoded(old(payload.items), value, store)
    {
      var res := Decoded(payload.items, value, store);
      payload.items := res.0;
      r := res.1;
    }

    /** `encode`, writing into `payload` in place. */
    method Encode(payload: Payload, value: Value)
      modifies payload
      ensures payload.items == Encoded(old(payload.items), value)
    {
      payload.items := payload.items[Source() := value];
    }

    /** `with_option`: stores the option and returns the converter itself. */
    method WithOption(option: Dict) returns (r: Converter)
      modifies this
      ensures r == this && this.option == option
    {
      this.option := option;
      r := this;
    }
  }

  /** Encoding a value into a dict and handing that dict to the decode pass gives the
      converter back the same value. */
  lemma EncodeThenInput(c: Converter, p: Dict, value: Value)
    requires !c.ignoreProp
    ensures c.Input(Obj(c.Encoded(p, value))) == Ok(Some(value))
  {
  }

  /** The wind converter writes `wind_speed` and then its four children (the keys of
      `WindSiblings`), taken from the summary record. */
  lemma WindWrites(c: Converter, p: Dict, value: Value, store: Dict)
    requires c.kind.WindSpeed? && NumberValue(value, c.kind.unit).Some?
    requires Get(store, "dataSK").Obj?
    ensures var (q, o) := c.Decoded(p, value, store);
      o == Pass && q == p[c.attr := Float(NumberValue(value, c.kind.unit).value)] + WindSiblings(Get(store, "dataSK").fields)
  {
    var x := NumberValue(value, c.kind.unit).value;
    var q0 := p[c.attr := Float(x)];
    var sk := Get(store, "dataSK").fields;
    OrEmptyObj(sk);
    assert WithSiblings(q0, store) == (q0 + WindSiblings(sk), Pass);
    assert c.Decoded(p, value, store) == WithSiblings(q0, store);
  }

  /** A dict `or {}` is the dict itself, empty or not. */
  lemma OrEmptyObj(m: Dict)
    ensures Or(Obj(m), Obj(map[])) == Obj(m)
  {
    if !Truthy(Obj(m)) {
      assert m == map[];
    }
  }

  /** With the default unit, the text a numeric converter parses holds no space; a
      string value that reads as a number once spaces are removed is stored as it. */
  lemma DefaultUnitDropsSpaces(s: string)
    ensures ' ' !in Text.ReplaceAll(Text.Strip(s), " ", "")
  {
    Text.RemoveChar(Text.Strip(s), ' ');
  }

  /** `NumberSensorConv('visibility', unit='km')` stores 10 for the text `" 10km "`. */
  lemma NumberExample()
    ensures NumberValue(Str(" 10km "), "km") == Some(10.0)
  {
    var t := Text.ReplaceAll(Text.Strip(" 10km "), "km", "");
    assert NumberValue(Str(" 10km "), "km") == Text.ParseFloat(t);
    StripExample();
    ReplaceExample();
    assert t == "10";
    TenString();
    Text.ParseFloatOfString(10);
  }

  lemma TenString()
    ensures Text.IntToString(10) == "10"
  {
    assert Text.NatToString(1) == "1";
  }

  lemma StripExample()
    ensures Text.Strip(" 10km ") == "10km"
  {
    assert " 10km "[1..] == "10km " && "10km "[..4] == "10km";
    assert Text.IsSpace(' ') && !Text.IsSpace('1') && !Text.IsSpace('m');
    assert Text.TrimStart("10km ") == "10km ";
    assert Text.TrimStart(" 10km ") == "10km ";
    assert Text.TrimEnd("10km") == "10km";
    assert Text.TrimEnd("10km ") == "10km";
  }

  lemma ReplaceExample()
    ensures Text.ReplaceAll("10km", "km", "") == "10"
  {
    assert Text.ReplaceAll("km", "km", "") == "";
    assert Text.ReplaceAll("0km", "km", "") == "0";
  }
}
