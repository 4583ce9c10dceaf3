/** Calendar dates, `datetime.strptime` for the two formats the integration parses
    (`%Y%m%d%H%M` and `%m/%d`) and `strftime('%Y%m%d%H%M')`. */
module Dates {
  import opened Wrappers
  import Text

  datatype Date = Date(year: int, month: int, day: int)

  /** A wall-clock reading as `dt.now()` returns it, down to microseconds. */
  datatype Moment = Moment(date: Date, hour: int, minute: int, second: int, micro: int)

  predicate IsLeap(year: int) {
    year % 4 == 0 && (year % 100 != 0 || year % 400 == 0)
  }

  function DaysIn(year: int, month: int): int
    requires 1 <= month <= 12
  {
    if month == 2 then (if IsLeap(year) then 29 else 28)
    else if month == 4 || month == 6 || month == 9 || month == 11 then 30
    else 31
  }

  /** What `datetime.date` accepts: years 1 to 9999 and a day that exists in its month. */
  predicate ValidDate(d: Date) {
    1 <= d.year <= 9999 && 1 <= d.month <= 12 && 1 <= d.day <= DaysIn(d.year, d.month)
  }

  predicate ValidMoment(t: Moment) {
    ValidDate(t.date) && 0 <= t.hour < 24 && 0 <= t.minute < 60 && 0 <= t.second < 60
    && 0 <= t.micro < 1000000
  }

  /** The calendar day after `d`; the year may run past 9999, which `AddDay` rejects. */
  function NextDate(d: Date): (r: Date)
    requires ValidDate(d)
    ensures 1 <= r.month <= 12 && 1 <= r.day <= DaysIn(r.year, r.month)
    ensures r.year == d.year || (r.year == d.year + 1 && r.month == 1 && r.day == 1)
  {
    if d.day < DaysIn(d.year, d.month) then Date(d.year, d.month, d.day + 1)
    else if d.month < 12 then Date(d.year, d.month + 1, 1)
    else Date(d.year + 1, 1, 1)
  }

  /** `date + timedelta(days=1)`, which raises OverflowError past 9999-12-31. */
  function AddDay(d: Date): (r: Result<Date>)
    requires ValidDate(d)
    ensures r.Ok? <==> d != Date(9999, 12, 31)
    ensures r.Ok? ==> ValidDate(r.value) && r.value == NextDate(d)
  {
    var n := NextDate(d);
    if n.year > 9999 then Err(OverflowError) else Ok(n)
  }

  /** Days of `year` before the first of `month`. */
  function DaysBefore(year: int, month: int): nat
    requires 1 <= month <= 13
    decreases month
  {
    if month == 1 then 0 else DaysBefore(year, month - 1) + DaysIn(year, month - 1)
  }

  function DaysInYear(year: int): int {
    if IsLeap(year) then 366 else 365
  }

  /** `date.toordinal()`: 1 for 0001-01-01, counting every day since. */
  function DayNumber(d: Date): int
    requires ValidDate(d) || (d.year == 10000 && d.month == 1 && d.day == 1)
  {
    YearStart(d.year) + DaysBefore(d.year, d.month) + d.day
  }

  /** Days before January 1st of `year`, counted from 0001-01-01. */
  function YearStart(year: int): int
    requires year >= 1
  {
    var y := year - 1;
    365 * y + y / 4 - y / 100 + y / 400
  }

  lemma YearStartNext(year: int)
    requires year >= 1
    ensures YearStart(year + 1) == YearStart(year) + DaysInYear(year)
  {
    var y := year - 1;
    DivSucc(y, 4);
    DivSucc(y, 100);
    DivSucc(y, 400);
  }

  lemma DivSucc(y: nat, k: int)
    requires k == 4 || k == 100 || k == 400
    ensures (y + 1) / k == y / k + (if (y + 1) % k == 0 then 1 else 0)
  {
  }

  lemma DaysBeforeYearEnd(year: int)
    ensures DaysBefore(year, 13) == DaysInYear(year)
  {
  }

  lemma DayNumberNext(d: Date)
    requires ValidDate(d)
    ensures var n := NextDate(d); n.year <= 10000 && DayNumber(n) == DayNumber(d) + 1
  {
    if d.day == DaysIn(d.year, d.month) && d.month == 12 {
      YearStartNext(d.year);
      DaysBeforeYearEnd(d.year);
    }
  }

  // ---------------------------------------------------------------------------------
  // strptime: each directive is the regular expression `_strptime` compiles for it, a
  // list of alternatives tried in order; the whole format is matched from the start of
  // the text with backtracking, and a match that leaves text unconsumed is a ValueError.

  /** One character position of an alternative: an inclusive range of characters. */
  datatype CharRange = CharRange(lo: char, hi: char)

  datatype Directive =
    | Field(alts: seq<seq<CharRange>>)
    | Literal(c: char)

  const Digit := CharRange('0', '9')

  function Exactly(c: char): CharRange {
    CharRange(c, c)
  }

  /** `%Y`: `\d\d\d\d`. */
  const YearField := Field([[Digit, Digit, Digit, Digit]])
  /** `%m`: `1[0-2]|0[1-9]|[1-9]`. */
  const MonthField := Field([[Exactly('1'), CharRange('0', '2')], [Exactly('0'), CharRange('1', '9')],
                             [CharRange('1', '9')]])
  /** `%d`: `3[01]|[12]\d|0[1-9]|[1-9]| [1-9]`. */
  const DayField := Field([[Exactly('3'), CharRange('0', '1')], [CharRange('1', '2'), Digit],
                           [Exactly('0'), CharRange('1', '9')], [CharRange('1', '9')],
                           [Exactly(' '), CharRange('1', '9')]])
  /** `%H`: `2[0-3]|[0-1]\d|\d`. */
  const HourField := Field([[Exactly('2'), CharRange('0', '3')], [CharRange('0', '1'), Digit], [Digit]])
  /** `%M`: `[0-5]\d|\d`. */
  const MinuteField := Field([[CharRange('0', '5'), Digit], [Digit]])

  /** `'%Y%m%d%H%M'` */
  const StampFormat := [YearField, MonthField, DayField, HourField, MinuteField]
  /** `'%m/%d'` */
  const MonthDayFormat := [MonthField, Literal('/'), DayField]

  predicate Fits(s: string, alt: seq<CharRange>) {
    |alt| <= |s| && forall i :: 0 <= i < |alt| ==> alt[i].lo <= s[i] <= alt[i].hi
  }

  function FieldCount(ds: seq<Directive>): nat {
    if ds == [] then 0 else (if ds[0].Field? then 1 else 0) + FieldCount(ds[1..])
  }

  /** `int()` of a matched field: its digits, after the optional padding space. */
  function FieldValue(t: string): nat {
    if t != [] && t[0] == ' ' then Text.DigitsValue(t[1..]) else Text.DigitsValue(t)
  }

  /** The first match of the format on a prefix of `s`, in the regular expression's
      backtracking order: the field values and the text left over. */
  function Scan(s: string, ds: seq<Directive>): (r: Option<(seq<nat>, string)>)
    ensures r.Some? ==> |r.value.0| == FieldCount(ds) && |r.value.1| <= |s|
    decreases |ds|, 1, 0
  {
    if ds == [] then Some(([], s))
    else match ds[0]
      case Literal(c) =>
        if s != [] && s[0] == c then Scan(s[1..], ds[1..]) else None
      case Field(alts) => ScanAlts(s, alts, ds[1..])
  }

  function ScanAlts(s: string, alts: seq<seq<CharRange>>, rest: seq<Directive>): (r: Option<(seq<nat>, string)>)
    ensures r.Some? ==> |r.value.0| == FieldCount(rest) + 1 && |r.value.1| <= |s|
    decreases |rest| + 1, 0, |alts|
  {
    if alts == [] then None
    else if Fits(s, alts[0]) then
      var n := |alts[0]|;
      match Scan(s[n..], rest)
      case Some((vs, tail)) => Some(([FieldValue(s[..n])] + vs, tail))
      case None => ScanAlts(s, alts[1..], rest)
    else ScanAlts(s, alts[1..], rest)
  }

  /** `datetime.strptime(s, format)` up to the field values: None is the ValueError for
      text the format does not match or text left over after the match. */
  function Strptime(s: string, ds: seq<Directive>): (r: Option<seq<nat>>)
    ensures r.Some? ==> |r.value| == FieldCount(ds)
  {
    match Scan(s, ds)
    case Some((vs, tail)) => if tail == [] then Some(vs) else None
    case None => None
  }

  lemma FormatCounts()
    ensures FieldCount(StampFormat) == 5 && FieldCount(MonthDayFormat) == 2
  {
    AllFieldsCount(StampFormat);
    assert FieldCount(MonthDayFormat[2..]) == 1 + FieldCount(MonthDayFormat[3..]);
    assert FieldCount(MonthDayFormat[1..]) == FieldCount(MonthDayFormat[2..]);
  }

  lemma {:induction false} AllFieldsCount(ds: seq<Directive>)
    requires forall i :: 0 <= i < |ds| ==> ds[i].Field?
    ensures FieldCount(ds) == |ds|
  {
    if ds != [] {
      AllFieldsCount(ds[1..]);
    }
  }

  /** Alternatives that do not fit are passed over. */
  lemma {:induction false} SkipUnfit(s: string, alts: seq<seq<CharRange>>, rest: seq<Directive>, j: nat)
    requires j <= |alts| && forall i :: 0 <= i < j ==> !Fits(s, alts[i])
    ensures ScanAlts(s, alts, rest) == ScanAlts(s, alts[j..], rest)
    decreases j
  {
    if j > 0 {
      SkipUnfit(s, alts[1..], rest, j - 1);
      assert alts[1..][j - 1..] == alts[j..];
    }
  }

  /** The first alternative of a field that fits is taken when the rest of the format
      then matches. */
  lemma FieldStep(s: string, ds: seq<Directive>, j: nat)
    requires ds != [] && ds[0].Field? && j < |ds[0].alts|
    requires Fits(s, ds[0].alts[j]) && forall i :: 0 <= i < j ==> !Fits(s, ds[0].alts[i])
    requires Scan(s[|ds[0].alts[j]|..], ds[1..]).Some?
    ensures var n := |ds[0].alts[j]|; var x := Scan(s[n..], ds[1..]).value;
      Scan(s, ds) == Some(([FieldValue(s[..n])] + x.0, x.1))
  {
    SkipUnfit(s, ds[0].alts, ds[1..], j);
    assert ds[0].alts[j..][0] == ds[0].alts[j];
  }

  /** `TwoDigits(v)` at the front of `s` is read back as `v` by the field's first fitting
      alternative, `alts[j]`, which spans both digits. */
  predicate ReadsTwo(s: string, alts: seq<seq<CharRange>>, j: nat, v: int) {
    j < |alts| && |alts[j]| == 2 && |s| >= 2 && Fits(s, alts[j])
    && (forall i :: 0 <= i < j ==> !Fits(s, alts[i])) && FieldValue(s[..2]) == v
  }

  lemma TwoDigitsValue(s: string, v: int)
    requires 0 <= v < 100 && |s| >= 2 && s[..2] == TwoDigits(v)
    ensures FieldValue(s[..2]) == v && s[0] == Text.DigitChar(v / 10) && s[1] == Text.DigitChar(v % 10)
  {
    assert s[0] == s[..2][0];
    assert s[1] == s[..2][1];
  }

  lemma PickMonth(s: string, m: int) returns (j: nat)
    requires 1 <= m <= 12 && |s| >= 2 && s[..2] == TwoDigits(m)
    ensures ReadsTwo(s, MonthField.alts, j, m)
  {
    TwoDigitsValue(s, m);
    j := if m >= 10 then 0 else 1;
  }

  lemma PickDay(s: string, d: int) returns (j: nat)
    requires 1 <= d <= 31 && |s| >= 2 && s[..2] == TwoDigits(d)
    ensures ReadsTwo(s, DayField.alts, j, d)
  {
    TwoDigitsValue(s, d);
    j := if d >= 30 then 0 else if d >= 10 then 1 else 2;
  }

  lemma PickHour(s: string, h: int) returns (j: nat)
    requires 0 <= h < 24 && |s| >= 2 && s[..2] == TwoDigits(h)
    ensures ReadsTwo(s, HourField.alts, j, h)
  {
    TwoDigitsValue(s, h);
    j := if h >= 20 then 0 else 1;
  }

  lemma PickMinute(s: string, mi: int) returns (j: nat)
    requires 0 <= mi < 60 && |s| >= 2 && s[..2] == TwoDigits(mi)
    ensures ReadsTwo(s, MinuteField.alts, j, mi)
  {
    TwoDigitsValue(s, mi);
    j := 0;
  }

  /** A base timestamp: a date with an hour and a minute. */
  datatype Stamp = Stamp(date: Date, hour: int, minute: int)

  predicate ValidStamp(t: Stamp) {
    ValidDate(t.date) && 0 <= t.hour < 24 && 0 <= t.minute < 60
  }

  /** `datetime.strptime(s, '%Y%m%d%H%M')`; None is the ValueError it raises. */
  function ParseStamp(s: string): (r: Option<Stamp>)
    ensures r.Some? ==> ValidStamp(r.value)
  {
    FormatCounts();
    match Strptime(s, StampFormat)
    case Some(vs) =>
      var t := Stamp(Date(vs[0], vs[1], vs[2]), vs[3], vs[4]);
      if ValidStamp(t) then Some(t) else None
    case None => None
  }

  /** `datetime.strptime(s, '%m/%d')` as (month, day): the year is 1900, so 29 February
      is rejected. */
  function ParseMonthDay(s: string): (r: Option<(int, int)>)
    ensures r.Some? ==> ValidDate(Date(1900, r.value.0, r.value.1))
  {
    FormatCounts();
    match Strptime(s, MonthDayFormat)
    case Some(vs) =>
      if ValidDate(Date(1900, vs[0], vs[1])) then Some((vs[0], vs[1])) else None
    case None => None
  }

  /** `%02d` */
  function TwoDigits(n: int): (r: string)
    requires 0 <= n < 100
    ensures |r| == 2 && Text.AllDigits(r) && Text.DigitsValue(r) == n
  {
    var r := [Text.DigitChar(n / 10), Text.DigitChar(n % 10)];
    assert r[..1] == [Text.DigitChar(n / 10)] && r[..1][..0] == [];
    assert Text.DigitsValue(r[..1]) == n / 10;
    r
  }

  /** `strftime('%Y%m%d%H%M')`; `%Y` prints the year without padding, as the C library
      of a Linux host does. */
  function FormatStamp(t: Stamp): (r: string)
    requires ValidStamp(t)
    ensures Text.AllDigits(r) && (t.date.year >= 1000 ==> |r| == 12)
  {
    var y := Text.NatToString(t.date.year);
    assert t.date.year >= 1000 ==> |y| == 4 by {
      if t.date.year >= 1000 {
        YearDigits(t.date.year);
      }
    }
    y + TwoDigits(t.date.month) + TwoDigits(t.date.day) + TwoDigits(t.hour) + TwoDigits(t.minute)
  }

  lemma YearDigits(y: nat)
    requires 1000 <= y <= 9999
    ensures |Text.NatToString(y)| == 4
  {
    assert |Text.NatToString(y / 10 / 10 / 10)| == 1;
    assert |Text.NatToString(y / 10 / 10)| == 2;
    assert |Text.NatToString(y / 10)| == 3;
  }

  /** A two-digit field read through `ReadsTwo` followed by a matching rest of the format. */
  lemma ScanTwo(s: string, ds: seq<Directive>, j: nat, v: int, vs: seq<nat>)
    requires ds != [] && ds[0].Field? && ReadsTwo(s, ds[0].alts, j, v)
    requires Scan(s[2..], ds[1..]) == Some((vs, []))
    ensures v >= 0 && Scan(s, ds) == Some(([v as nat] + vs, []))
  {
    FieldStep(s, ds, j);
  }

  /** The hour and minute digits of a formatted timestamp are read back. */
  lemma ScanHourMinute(h: int, mi: int)
    requires 0 <= h < 24 && 0 <= mi < 60
    ensures Scan(TwoDigits(h) + TwoDigits(mi), StampFormat[3..]) == Some(([h, mi], []))
  {
    var hs, ms := TwoDigits(h), TwoDigits(mi);
    var p := hs + ms;
    assert p[..2] == hs && p[2..] == ms;
    assert ms[..2] == ms && ms[2..] == [];
    var j := PickMinute(ms, mi);
    ScanTwo(ms, StampFormat[4..], j, mi, []);
    assert StampFormat[3..][1..] == StampFormat[4..] && [mi as nat] + [] == [mi];
    j := PickHour(p, h);
    ScanTwo(p, StampFormat[3..], j, h, [mi]);
    assert [h as nat] + [mi as nat] == [h, mi];
  }

  /** The month, day, hour and minute digits of a formatted timestamp are read back. */
  lemma ScanClock(t: Stamp)
    requires ValidStamp(t)
    ensures var p := TwoDigits(t.date.month) + TwoDigits(t.date.day) + TwoDigits(t.hour) + TwoDigits(t.minute);
      Scan(p, StampFormat[1..]) == Some(([t.date.month, t.date.day, t.hour, t.minute], []))
  {
    var mo, d := TwoDigits(t.date.month), TwoDigits(t.date.day);
    var p8 := TwoDigits(t.hour) + TwoDigits(t.minute);
    ScanHourMinute(t.hour, t.minute);
    var p6 := d + p8;
    var p4 := mo + p6;
    assert p4 == mo + d + TwoDigits(t.hour) + TwoDigits(t.minute);
    assert p4[..2] == mo && p4[2..] == p6;
    assert p6[..2] == d && p6[2..] == p8;
    assert StampFormat[2..][1..] == StampFormat[3..];
    var j := PickDay(p6, t.date.day);
    ScanTwo(p6, StampFormat[2..], j, t.date.day, [t.hour, t.minute]);
    assert StampFormat[1..][1..] == StampFormat[2..];
    assert [t.date.day as nat] + [t.hour as nat, t.minute as nat] == [t.date.day, t.hour, t.minute];
    j := PickMonth(p4, t.date.month);
    ScanTwo(p4, StampFormat[1..], j, t.date.month, [t.date.day, t.hour, t.minute]);
    assert [t.date.month as nat] + [t.date.day as nat, t.hour as nat, t.minute as nat]
        == [t.date.month, t.date.day, t.hour, t.minute];
  }

  /** A timestamp written with `strftime('%Y%m%d%H%M')` is parsed back to itself by
      `strptime` with the same format, for four-digit years. */
  lemma StampRoundTrip(t: Stamp)
    requires ValidStamp(t) && t.date.year >= 1000
    ensures ParseStamp(FormatStamp(t)) == Some(t)
  {
    var y := Text.NatToString(t.date.year);
    YearDigits(t.date.year);
    Text.DigitsOfNat(t.date.year);
    var p := TwoDigits(t.date.month) + TwoDigits(t.date.day) + TwoDigits(t.hour) + TwoDigits(t.minute);
    var s := y + p;
    assert s == FormatStamp(t);
    assert s[..4] == y && s[4..] == p;
    ScanClock(t);
    assert Fits(s, YearField.alts[0]) by {
      assert forall i :: 0 <= i < 4 ==> s[i] == y[i] && Text.IsDigit(y[i]);
    }
    assert s[0] != ' ' by { assert Text.IsDigit(y[0]); }
    FieldStep(s, StampFormat, 0);
    assert FieldValue(s[..4]) == t.date.year;
    assert [t.date.year as nat] + [t.date.month as nat, t.date.day as nat, t.hour as nat, t.minute as nat]
        == [t.date.year, t.date.month, t.date.day, t.hour, t.minute];
    assert Strptime(s, StampFormat) == Some([t.date.year, t.date.month, t.date.day, t.hour, t.minute]);
  }

  /** A zero-padded `MM/DD` of a day that exists in 1900 is parsed by `%m/%d`. */
  lemma MonthDayRoundTrip(m: int, d: int)
    requires ValidDate(Date(1900, m, d))
    ensures ParseMonthDay(TwoDigits(m) + "/" + TwoDigits(d)) == Some((m, d))
  {
    var ms, ds := TwoDigits(m), TwoDigits(d);
    var tail := "/" + ds;
    var s := ms + tail;
    assert s == TwoDigits(m) + "/" + TwoDigits(d);
    assert s[..2] == ms && s[2..] == tail;
    assert ds[..2] == ds && ds[2..] == [];
    assert MonthDayFormat[1..][1..] == [DayField];
    var j := PickDay(ds, d);
    ScanTwo(ds, [DayField], j, d, []);
    assert tail[0] == '/' && tail[1..] == ds && [d as nat] + [] == [d];
    assert MonthDayFormat[1..][0] == Literal('/');
    assert Scan(tail, MonthDayFormat[1..]) == Some(([d], []));
    j := PickMonth(s, m);
    ScanTwo(s, MonthDayFormat, j, m, [d]);
    assert [m as nat] + [d as nat] == [m, d];
  }

  function MicrosOfDay(t: Moment): int {
    (t.hour * 3600 + t.minute * 60 + t.second) * 1000000 + t.micro
  }

  /** `a - b` in microseconds, for two valid moments. */
  function MicrosBetween(a: Moment, b: Moment): int
    requires ValidMoment(a) && ValidMoment(b)
  {
    (DayNumber(a.date) - DayNumber(b.date)) * 86400000000 + MicrosOfDay(a) - MicrosOfDay(b)
  }
}
