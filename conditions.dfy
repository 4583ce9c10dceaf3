/** The `ConditionCodes` table of the weather entity: for each provider weather code,
    the Home Assistant condition, the skycon name, a precipitation rate in mm/h, a cloud
    coverage in percent and the Chinese name of the weather. */
module Conditions {
  import opened Wrappers
  import opened Values
  import Text

  /** One row `[state, skycon, precipitation, cloud_coverage, name]`. The precipitation
      keeps the Python type of the literal (int 0 or a float). */
  datatype Condition = Condition(state: string, skycon: string, precipitation: Value, cloud: int, name: string)

  /** The Home Assistant condition names the table uses. */
  const States: set<string> := {"sunny", "partlycloudy", "cloudy", "rainy", "lightning-rainy", "hail",
                                "snowy-rainy", "pouring", "snowy", "fog", "exceptional", "windy"}

  /** The table as written, member name to value; `d54` has its precipitation and cloud
      coverage the other way round from the neighbouring haze rows. */
  const Table: map<string, Condition> := map[
    "d00" := Condition("sunny", "CLEAR_DAY", Int(0), 10, "\U{6674}"),
    "d01" := Condition("partlycloudy", "PARTLY_CLOUDY_DAY", Int(0), 50, "\U{591a}\U{4e91}"),
    "d02" := Condition("cloudy", "CLOUDY", Int(0), 80, "\U{9634}"),
    "d03" := Condition("rainy", "MODERATE_RAIN", Float(0.1), 70, "\U{9635}\U{96e8}"),
    "d04" := Condition("lightning-rainy", "LIGHT_RAIN", Float(0.1), 80, "\U{96f7}\U{9635}\U{96e8}"),
    "d05" := Condition("hail", "LIGHT_RAIN", Float(0.2), 80, "\U{96f7}\U{9635}\U{96e8}\U{4f34}\U{6709}\U{51b0}\U{96f9}"),
    "d06" := Condition("snowy-rainy", "LIGHT_SNOW", Float(0.5), 90, "\U{96e8}\U{5939}\U{96ea}"),
    "d07" := Condition("rainy", "LIGHT_RAIN", Float(0.5), 90, "\U{5c0f}\U{96e8}"),
    "d08" := Condition("rainy", "MODERATE_RAIN", Float(1.0), 100, "\U{4e2d}\U{96e8}"),
    "d09" := Condition("rainy", "HEAVY_RAIN", Float(2.0), 100, "\U{5927}\U{96e8}"),
    "d10" := Condition("pouring", "STORM_RAIN", Float(4.0), 100, "\U{66b4}\U{96e8}"),
    "d11" := Condition("pouring", "STORM_RAIN", Float(10.0), 100, "\U{5927}\U{66b4}\U{96e8}"),
    "d12" := Condition("pouring", "STORM_RAIN", Float(20.0), 100, "\U{7279}\U{5927}\U{66b4}\U{96e8}"),
    "d13" := Condition("snowy", "LIGHT_SNOW", Float(0.1), 90, "\U{9635}\U{96ea}"),
    "d14" := Condition("snowy", "LIGHT_SNOW", Float(0.25), 90, "\U{5c0f}\U{96ea}"),
    "d15" := Condition("snowy", "MODERATE_SNOW", Float(0.5), 100, "\U{4e2d}\U{96ea}"),
    "d16" := Condition("snowy", "HEAVY_SNOW", Float(1.0), 100, "\U{5927}\U{96ea}"),
    "d17" := Condition("snowy", "STORM_SNOW", Float(2.0), 100, "\U{66b4}\U{96ea}"),
    "d18" := Condition("fog", "LIGHT_HAZE", Int(0), 80, "\U{96fe}"),
    "d19" := Condition("hail", "LIGHT_RAIN", Float(0.5), 100, "\U{51bb}\U{96e8}"),
    "d20" := Condition("exceptional", "SAND", Int(0), 70, "\U{6c99}\U{5c18}\U{66b4}"),
    "d21" := Condition("rainy", "MODERATE_RAIN", Float(0.8), 90, "\U{5c0f}\U{5230}\U{4e2d}\U{96e8}"),
    "d22" := Condition("rainy", "HEAVY_RAIN", Float(1.5), 100, "\U{4e2d}\U{5230}\U{5927}\U{96e8}"),
    "d23" := Condition("pouring", "STORM_RAIN", Float(3.0), 100, "\U{5927}\U{5230}\U{66b4}\U{96e8}"),
    "d24" := Condition("pouring", "STORM_RAIN", Float(7.0), 100, "\U{66b4}\U{96e8}\U{5230}\U{5927}\U{66b4}\U{96e8}"),
    "d25" := Condition("pouring", "STORM_RAIN", Float(15.0), 100, "\U{5927}\U{66b4}\U{96e8}\U{5230}\U{7279}\U{5927}\U{66b4}\U{96e8}"),
    "d26" := Condition("snowy", "MODERATE_SNOW", Float(0.35), 90, "\U{5c0f}\U{5230}\U{4e2d}\U{96ea}"),
    "d27" := Condition("snowy", "HEAVY_SNOW", Float(0.75), 100, "\U{4e2d}\U{5230}\U{5927}\U{96ea}"),
    "d28" := Condition("snowy", "STORM_SNOW", Float(1.5), 100, "\U{5927}\U{5230}\U{66b4}\U{96ea}"),
    "d29" := Condition("windy", "DUST", Int(0), 60, "\U{6d6e}\U{5c18}"),
    "d30" := Condition("windy", "DUST", Int(0), 60, "\U{626c}\U{6c99}"),
    "d31" := Condition("exceptional", "SAND", Int(0), 80, "\U{5f3a}\U{6c99}\U{5c18}\U{66b4}"),
    "d32" := Condition("fog", "FOG", Int(0), 90, "\U{6d53}\U{96fe}"),
    "d49" := Condition("fog", "FOG", Int(0), 100, "\U{5f3a}\U{6d53}\U{96fe}"),
    "d53" := Condition("fog", "LIGHT_HAZE", Int(0), 90, "\U{973e}"),
    "d54" := Condition("fog", "MODERATE_HAZE", Int(90), 0, "\U{4e2d}\U{5ea6}\U{973e}"),
    "d55" := Condition("fog", "HEAVY_HAZE", Int(0), 100, "\U{91cd}\U{5ea6}\U{973e}"),
    "d56" := Condition("fog", "HEAVY_HAZE", Int(0), 100, "\U{4e25}\U{91cd}\U{973e}"),
    "d57" := Condition("fog", "FOG", Int(0), 100, "\U{5927}\U{96fe}"),
    "d58" := Condition("fog", "FOG", Int(0), 100, "\U{7279}\U{5f3a}\U{6d53}\U{96fe}"),
    "d301" := Condition("rainy", "MODERATE_RAIN", Float(1.0), 100, "\U{96e8}"),
    "d302" := Condition("snowy", "MODERATE_SNOW", Float(0.5), 100, "\U{96ea}")
  ]

  /** `code in ConditionCodes.__members__`: a str is looked up by name, any other hashable
      value is never a member, and a list or dict cannot be hashed (TypeError). */
  function IsMember(code: Value): (r: Result<bool>)
    ensures r.Err? <==> code.List? || code.Obj?
    ensures r == Ok(true) <==> code.Str? && code.s in Table
  {
    match code
    case Str(s) => Ok(s in Table)
    case List(_) => Err(TypeError)
    case Obj(_) => Err(TypeError)
    case _ => Ok(false)
  }

  /** `f'd{v}'`, the table key a forecast item names with its numeric code, when it is a
      member. Every member name is `d` followed by digits only. A float never prints as
      digits only (it has a `.`, an exponent such as `1e+16`, or is `inf`/`nan`), and a
      list or dict prints with `[` or `{`, so these never name a member. */
  function ItemCode(v: Value): (r: Option<string>)
    ensures r.Some? ==> r.value in Table && Show(v).Some? && r.value == "d" + Show(v).value
    ensures r.None? ==> Show(v).None? || "d" + Show(v).value !in Table
  {
    match Show(v)
    case Some(t) => if "d" + t in Table then Some("d" + t) else None
    case None => None
  }

  /** `d54` (moderate haze) is the one row whose precipitation and cloud coverage sit the
      other way round from its neighbours `d53` and `d55`. */
  lemma HazeRows()
    ensures Table["d54"].precipitation == Int(90) && Table["d54"].cloud == 0
    ensures Table["d53"].precipitation == Int(0) && Table["d53"].cloud == 90
    ensures Table["d55"].precipitation == Int(0) && Table["d55"].cloud == 100
  {
  }

  /** The provider's zero-padded text code `"07"` names the light-rain row, while the
      integer 7 prints as `d7` and so never reaches that row. */
  lemma ItemCodeExample()
    ensures ItemCode(Str("07")) == Some("d07") && Table["d07"].state == "rainy"
    ensures ItemCode(Int(7)) != Some("d07")
  {
    assert "d" + "07" == "d07";
    assert Text.IntToString(7) == "7";
    assert |"d" + "7"| == 2;
  }
}
