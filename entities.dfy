/** The sensor and binary-sensor entities the client feeds: the common base `XEntity`
    and the overrides of `SensorEntity` and `BinarySensorEntity`, held here as one class
    tagged with its platform. */
module Entities {
  import opened Wrappers
  import opened Values
  import opened Converters

  /** The entity class a converter's domain selects. */
  datatype Platform = SensorPlatform | BinaryPlatform

  /** The Home Assistant state string a restored binary sensor compares with. */
  const StateOn := "on"

  /** The fields an entity updates after construction. `state`, `nativeValue` and `isOn`
      are None until they are first assigned (Home Assistant's own defaults are not
      modelled). */
  datatype Snapshot = Snapshot(option: Dict, state: Option<Value>, picture: Value, extra: Dict,
                       nativeValue: Option<Value>, isOn: Option<Value>, added: bool)

  /** The extra state attributes after `async_set_state(data)`: with `payload_attrs`
      every key of the payload is copied, otherwise only the subscribed ones; all other
      extra attributes stay as they were. */
  function SetExtra(extra: Dict, data: Dict, subscribed: set<string>, payloadAttrs: bool): (r: Dict)
    ensures payloadAttrs ==> r.Keys == extra.Keys + data.Keys
    ensures !payloadAttrs ==> r.Keys == extra.Keys + (data.Keys * subscribed)
    ensures forall k :: k in data && (payloadAttrs || k in subscribed) ==> r[k] == data[k]
    ensures forall k :: k in extra && (k !in data || (!payloadAttrs && k !in subscribed)) ==> r[k] == extra[k]
  {
    if payloadAttrs then extra + data
    else extra + map k | k in data && k in subscribed :: data[k]
  }

  /** Delivering the same payload twice leaves the extra attributes as once. */
  lemma SetExtraTwice(extra: Dict, data: Dict, subscribed: set<string>, payloadAttrs: bool)
    ensures var once := SetExtra(extra, data, subscribed, payloadAttrs);
      SetExtra(once, data, subscribed, payloadAttrs) == once
  {
    var once := SetExtra(extra, data, subscribed, payloadAttrs);
    var twice := SetExtra(once, data, subscribed, payloadAttrs);
    assert twice.Keys == once.Keys;
    forall k | k in once
      ensures twice[k] == once[k]
    {
    }
  }

  /** The loop `for k in subscribed_attrs: if k in data: extra[k] = data[k]`. */
  method CopySubscribed(extra: Dict, data: Dict, subscribed: set<string>) returns (r: Dict)
    ensures r == SetExtra(extra, data, subscribed, false)
  {
    r := extra;
    var todo := subscribed;
    while todo != {}
      invariant todo <= subscribed
      invariant r.Keys == extra.Keys + (data.Keys * (subscribed - todo))
      invariant forall k :: k in r ==> r[k] == if k in data && k in subscribed - todo then data[k] else extra[k]
      decreases todo
    {
      var k :| k in todo;
      if k in data {
        r := r[k := data[k]];
      }
      todo := todo - {k};
    }
    var want := SetExtra(extra, data, subscribed, false);
    assert r.Keys == want.Keys;
    forall k | k in r
      ensures r[k] == want[k]
    {
    }
  }

  /** A sensor's value after a restore: the restored attribute named like the entity,
      else the restored state text. */
  function RestoredValue(state: string, attrs: Dict, name: string): (r: Value)
    ensures name in attrs ==> r == attrs[name]
    ensures name !in attrs ==> r == Str(state)
  {
    GetOr(attrs, name, Str(state))
  }

  class XEntity {
    const conv: Converter
    const name: string              // `_name`, the converter's attribute
    const platform: Platform
    const subscribed: set<string>   // `subscribed_attrs`
    const icon: Value
    const deviceClass: Value
    const category: Value
    const translationKey: Value
    const enabledDefault: bool
    const stateClass: Value         // sensors only; None for binary sensors
    const unit: Value               // sensors only; None for binary sensors
    var option: Dict
    var state: Option<Value>        // `_attr_state`
    var picture: Value              // `_attr_entity_picture`
    var extra: Dict                 // `_attr_extra_state_attributes`
    var nativeValue: Option<Value>  // `_attr_native_value` of a sensor
    var isOn: Option<Value>         // `_attr_is_on` of a binary sensor
    var added: bool

    function View(): Snapshot
      reads this
    {
      Snapshot(option, state, picture, extra, nativeValue, isOn, added)
    }

    /** `XEntity.__init__` followed by the subclass's: the given option overlaid by the
        converter's, the display fields read from it (the translation key defaulting to
        the attribute), enabled by default unless the converter says `enabled=False`;
        a sensor also copies its state class and unit. */
    constructor (conv: Converter, option: Dict, subscribed: set<string>, platform: Platform)
      ensures this.conv == conv && name == conv.attr && this.platform == platform && this.subscribed == subscribed
      ensures this.option == option + conv.option
      ensures icon == Get(this.option, "icon") && deviceClass == Get(this.option, "device_class")
      ensures picture == Get(this.option, "entity_picture") && category == Get(this.option, "entity_category")
      ensures translationKey == GetOr(this.option, "translation_key", Str(conv.attr))
      ensures enabledDefault <==> conv.enabled != Some(false)
      ensures stateClass == (if platform.SensorPlatform? then Get(this.option, "state_class") else Null)
      ensures unit == (if platform.SensorPlatform? then Get(this.option, "unit_of_measurement") else Null)
      ensures extra == map[] && state.None? && nativeValue.None? && isOn.None? && !added
    {
      var opt := option + conv.option;
      this.conv, name, this.platform, this.subscribed := conv, conv.attr, platform, subscribed;
      this.option := opt;
      icon, deviceClass := Get(opt, "icon"), Get(opt, "device_class");
      picture, category := Get(opt, "entity_picture"), Get(opt, "entity_category");
      translationKey := GetOr(opt, "translation_key", Str(conv.attr));
      enabledDefault := conv.enabled != Some(false);
      stateClass := if platform.SensorPlatform? then Get(opt, "state_class") else Null;
      unit := if platform.SensorPlatform? then Get(opt, "unit_of_measurement") else Null;
      extra, state, nativeValue, isOn, added := map[], None, None, None, false;
    }

    /** What `async_set_state(data)` makes of the snapshot `s` when the converter's
        option is `convOption`. */
    function Applied(s: Snapshot, convOption: Dict, data: Dict): (r: Snapshot)
    {
      var opt := s.option + convOption;
      var st := if name in data then Some(data[name]) else s.state;
      Snapshot(opt, st, if name in data then Get(opt, "entity_picture") else s.picture,
           SetExtra(s.extra, data, subscribed, Truthy(Get(opt, "payload_attrs"))),
           if platform.SensorPlatform? then st else s.nativeValue,
           if platform.BinaryPlatform? && name in data then Some(data[name]) else s.isOn, s.added)
    }

    /** Taking the same payload twice leaves the entity as taking it once. */
    lemma AppliedTwice(s: Snapshot, convOption: Dict, data: Dict)
      ensures Applied(Applied(s, convOption, data), convOption, data) == Applied(s, convOption, data)
    {
      var once := Applied(s, convOption, data);
      assert once.option + convOption == once.option;
      SetExtraTwice(s.extra, data, subscribed, Truthy(Get(once.option, "payload_attrs")));
    }

    /** `async_set_state(data)`: the option is refreshed from the converter, the state
        and picture are set only when the payload holds the entity's own attribute, and
        the extra attributes take the payload (with `payload_attrs`) or the subscribed
        keys it holds, one at a time. A sensor then mirrors its state into its value; a
        binary sensor sets `is_on` from its own attribute. */
    method SetState(data: Dict)
      modifies this
      ensures View() == Applied(old(View()), conv.option, data)
    {
      var opt := option + conv.option;
      var st, pic := state, picture;
      if name in data {
        st, pic := Some(data[name]), Get(opt, "entity_picture");
      }
      var pa := Truthy(Get(opt, "payload_attrs"));
      var ex;
      if pa {
        ex := extra + data;
      } else {
        ex := CopySubscribed(extra, data, subscribed);
      }
      assert ex == SetExtra(extra, data, subscribed, pa);
      var nv, on := nativeValue, isOn;
      if platform.SensorPlatform? {
        nv := st;
      } else if name in data {
        on := Some(data[name]);
      }
      option, state, picture, extra, nativeValue, isOn := opt, st, pic, ex, nv, on;
    }

    /** `async_restore_last_state(state, attrs)` of the two subclasses (neither calls
        the base version): a sensor takes its value from the restored attributes or the
        state text, a binary sensor is on exactly when the state is `on`; both merge the
        restored attributes into the extra attributes. */
    method RestoreLastState(st: string, attrs: Dict)
      modifies this
      ensures extra == old(extra) + attrs
      ensures platform.SensorPlatform? ==> nativeValue == Some(RestoredValue(st, attrs, name)) && isOn == old(isOn)
      ensures platform.BinaryPlatform? ==> isOn == Some(Bool(st == StateOn)) && nativeValue == old(nativeValue)
      ensures option == old(option) && state == old(state) && picture == old(picture) && added == old(added)
    {
      if platform.SensorPlatform? {
        nativeValue := Some(RestoredValue(st, attrs, name));
      } else {
        isOn := Some(Bool(st == StateOn));
      }
      extra := extra + attrs;
    }

    /** `async_added_to_hass`, given what `async_get_last_state` would return: with a
        last state the entity restores it and returns without marking itself added. */
    method AddedToHass(last: Option<(string, Dict)>)
      modifies this
      ensures last.Some? ==> added == old(added) && extra == old(extra) + last.value.1
      ensures last.Some? && platform.SensorPlatform? ==>
        nativeValue == Some(RestoredValue(last.value.0, last.value.1, name)) && isOn == old(isOn)
      ensures last.Some? && platform.BinaryPlatform? ==>
        isOn == Some(Bool(last.value.0 == StateOn)) && nativeValue == old(nativeValue)
      ensures last.Some? ==> option == old(option) && state == old(state) && picture == old(picture)
      ensures last.None? ==> added && View() == old(View()).(added := true)
    {
      if last.Some? {
        RestoreLastState(last.value.0, last.value.1);
        return;
      }
      added := true;
    }
  }
}
