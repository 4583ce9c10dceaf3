/** The 24-hour observation history: the provider lists the last hours newest first, each
    record holding only its hour of day (`od21`), and the client rebuilds full timestamps
    from one base timestamp (`od0`) by walking the records oldest first. */
module Observe {
  import opened Wrappers
  import opened Values
  import opened Dates

  /** `s` in the opposite order, what `list.reverse()` leaves in the list. */
  function Reversed<T>(s: seq<T>): (r: seq<T>)
    ensures |r| == |s|
  {
    seq(|s|, i requires 0 <= i < |s| => s[|s| - 1 - i])
  }

  lemma ReversedTwice<T>(s: seq<T>)
    ensures Reversed(Reversed(s)) == s
  {
  }

  /** A non-empty sequence is its front followed by its last element. */
  lemma FrontLast<T>(s: seq<T>)
    requires s != []
    ensures s == s[..|s| - 1] + [s[|s| - 1]]
  {
  }

  /** `lst.reverse()` on the array holding the list. */
  method Reverse<T>(a: array<T>)
    modifies a
    ensures a[..] == Reversed(old(a[..]))
  {
    var i, j := 0, a.Length - 1;
    while i < j
      invariant 0 <= i <= a.Length && j == a.Length - 1 - i && i <= j + 1
      invariant forall k :: 0 <= k < i ==> a[k] == old(a[a.Length - 1 - k]) && a[a.Length - 1 - k] == old(a[k])
      invariant forall k :: i <= k <= j ==> a[k] == old(a[k])
    {
      a[i], a[j] := a[j], a[i];
      i, j := i + 1, j - 1;
    }
  }

  /** Minutes from 0001-01-01 00:00 to `t`, the order `datetime` comparison follows. */
  function Minutes(t: Stamp): int
    requires ValidStamp(t)
  {
    DayNumber(t.date) * 1440 + t.hour * 60 + t.minute
  }

  lemma ShiftMinutes(t: Stamp, d: Date, h: int)
    requires ValidStamp(t) && ValidDate(d) && 0 <= h < 24
    requires DayNumber(d) == DayNumber(t.date) + (if h < t.hour then 1 else 0)
    ensures Minutes(Stamp(d, h, t.minute)) == Minutes(t) + HoursAhead(t.hour, h) * 60
  {
  }

  /** Hours from hour `a` forward to the next hour `b` of the clock. */
  function HoursAhead(a: int, b: int): (r: int)
    requires 0 <= a < 24 && 0 <= b < 24
    ensures 0 <= r < 24 && (a + r) % 24 == b
  {
    if b < a then b - a + 24 else b - a
  }

  /** `stm.replace(hour=h)`, plus one day when that is earlier than `stm`: the next time
      of day `h:mm` at or after `stm`. `replace` raises ValueError for an hour outside
      0..23 and the addition raises OverflowError past 9999-12-31. */
  function Advance(t: Stamp, h: int): (r: Result<Stamp>)
    requires ValidStamp(t)
    ensures r.Err? <==> !(0 <= h < 24) || (h < t.hour && t.date == Date(9999, 12, 31))
    ensures r.Err? ==> r.error == (if 0 <= h < 24 then OverflowError else ValueError)
    ensures r.Ok? ==> ValidStamp(r.value) && r.value.hour == h && r.value.minute == t.minute
    ensures r.Ok? ==> r.value.date == if h < t.hour then NextDate(t.date) else t.date
  {
    if !(0 <= h < 24) then Err(ValueError)
    else if h < t.hour then
      (match AddDay(t.date)
       case Ok(d) => Ok(Stamp(d, h, t.minute))
       case Err(e) => Err(e))
    else Ok(Stamp(t.date, h, t.minute))
  }

  /** The clock moves forward by the hours from its hour to `h`, so by less than a day. */
  lemma AdvanceMinutes(t: Stamp, h: int)
    requires ValidStamp(t) && Advance(t, h).Ok?
    ensures var u := Advance(t, h).value;
      Minutes(u) == Minutes(t) + HoursAhead(t.hour, h) * 60
      && Minutes(t) <= Minutes(u) < Minutes(t) + 24 * 60
  {
    var u := Advance(t, h).value;
    if h < t.hour {
      DayNumberNext(t.date);
    }
    ShiftMinutes(t, u.date, h);
  }

  /** The keys `update_observe` adds to each record it keeps. */
  const Added: set<string> := {"aqi", "temp", "humi", "rain", "wind", "wind_level", "wind_angel"}

  /** The stored form of one record: the provider's fields plus the seven added keys; None
      when one of the five `float` conversions fails, which drops the record. */
  function Parsed(v: Dict): Option<Dict> {
    var temp, humi := ToFloat(Get(v, "od22")), ToFloat(Get(v, "od27"));
    var rain, level := ToFloat(Or(Get(v, "od26"), Int(0))), ToFloat(Or(Get(v, "od25"), Int(0)));
    var angle := ToFloat(Or(Get(v, "od23"), Int(0)));
    if temp.Some? && humi.Some? && rain.Some? && level.Some? && angle.Some? then
      Some(v + map["aqi" := Get(v, "od28"), "temp" := Float(temp.value), "humi" := Float(humi.value),
                   "rain" := Float(rain.value), "wind" := Get(v, "od24"), "wind_level" := Float(level.value),
                   "wind_angel" := Float(angle.value)])
    else None
  }

  /** A record is kept exactly when its five numbers parse. */
  lemma ParsedRecord(v: Dict)
    ensures Parsed(v).Some? <==>
      (ToFloat(Get(v, "od22")).Some? && ToFloat(Get(v, "od27")).Some?
       && ToFloat(Or(Get(v, "od26"), Int(0))).Some? && ToFloat(Or(Get(v, "od25"), Int(0))).Some?
       && ToFloat(Or(Get(v, "od23"), Int(0))).Some?)
  {
  }

  /** A record kept is stored with the provider's fields and the seven added keys. */
  lemma ParsedFields(v: Dict)
    ensures var r := Parsed(v); r.Some? ==> r.value.Keys == v.Keys + Added
    ensures var r := Parsed(v); r.Some? ==> forall k :: k in v && k !in Added ==> r.value[k] == v[k]
  {
  }

  /** The added keys hold the numbers as floats, and the reading and wind text as given. */
  lemma ParsedValues(v: Dict)
    ensures var r := Parsed(v); r.Some? ==>
      r.value["temp"] == Float(ToFloat(Get(v, "od22")).value)
      && r.value["humi"] == Float(ToFloat(Get(v, "od27")).value)
      && r.value["rain"] == Float(ToFloat(Or(Get(v, "od26"), Int(0))).value)
      && r.value["aqi"] == Get(v, "od28") && r.value["wind"] == Get(v, "od24")
  {
    var temp, humi := ToFloat(Get(v, "od22")), ToFloat(Get(v, "od27"));
    var rain, level := ToFloat(Or(Get(v, "od26"), Int(0))), ToFloat(Or(Get(v, "od25"), Int(0)));
    var angle := ToFloat(Or(Get(v, "od23"), Int(0)));
    if temp.Some? && humi.Some? && rain.Some? && level.Some? && angle.Some? {
      var m := map["aqi" := Get(v, "od28"), "temp" := Float(temp.value), "humi" := Float(humi.value),
                   "rain" := Float(rain.value), "wind" := Get(v, "od24"), "wind_level" := Float(level.value),
                   "wind_angel" := Float(angle.value)];
      assert Parsed(v) == Some(v + m);
      assert m["temp"] == Float(temp.value) && m["humi"] == Float(humi.value) && m["rain"] == Float(rain.value);
      assert m["aqi"] == Get(v, "od28") && m["wind"] == Get(v, "od24");
    }
  }

  /** The state of the walk after some records: the running clock, the timestamp given
      to each record so far, and the records kept under their formatted timestamps. */
  datatype Walk = Walk(clock: Stamp, trace: seq<Stamp>, kept: map<string, Dict>)

  /** The hour a record names: `int(v.get('od21', 0))`. */
  function HourOf(v: Value): (r: Result<int>)
    ensures r.Ok? ==> v.Obj?
  {
    var d :- AsDict(v);
    IntOf(GetOr(d, "od21", Int(0)))
  }

  /** The walk over `recs` (already oldest first) from `base`; an exception while reading
      an hour or moving the clock ends it. */
  function Replay(base: Stamp, recs: seq<Value>): (r: Result<Walk>)
    requires ValidStamp(base)
    ensures r.Ok? ==> ValidStamp(r.value.clock) && |r.value.trace| == |recs|
    ensures r.Ok? ==> r.value.clock == if recs == [] then base else r.value.trace[|recs| - 1]
    decreases |recs|
  {
    if recs == [] then Ok(Walk(base, [], map[]))
    else
      var w :- Replay(base, recs[..|recs| - 1]);
      var v := recs[|recs| - 1];
      var h :- HourOf(v);
      var t :- Advance(w.clock, h);
      var kept := match Parsed(v.fields)
        case Some(x) => w.kept[FormatStamp(t) := x]
        case None => w.kept;
      Ok(Walk(t, w.trace + [t], kept))
  }

  /** The clock before record `i` is stamped. */
  function Prior(base: Stamp, trace: seq<Stamp>, i: nat): Stamp
    requires i <= |trace|
  {
    if i == 0 then base else trace[i - 1]
  }

  /** The last record of a finished walk: the walk before it finished too, and the
      record moved its clock to the final one. */
  lemma ReplayLast(base: Stamp, recs: seq<Value>)
    requires ValidStamp(base) && recs != [] && Replay(base, recs).Ok?
    ensures var w0 := Replay(base, recs[..|recs| - 1]);
      var w := Replay(base, recs).value;
      w0.Ok? && HourOf(recs[|recs| - 1]).Ok?
      && Advance(w0.value.clock, HourOf(recs[|recs| - 1]).value) == Ok(w.clock)
      && w.trace == w0.value.trace + [w.clock]
      && w.kept == match Parsed(recs[|recs| - 1].fields)
                   case Some(x) => w0.value.kept[FormatStamp(w.clock) := x]
                   case None => w0.value.kept
  {
  }

  /** One step of the walk from clock `p` to stamp `t` for record `v`: the record's own
      hour and the base minute `m`, reached by advancing the clock to that hour. */
  predicate Stepped(p: Stamp, v: Value, t: Stamp, m: int) {
    ValidStamp(p) && ValidStamp(t) && HourOf(v) == Ok(t.hour) && t.minute == m
    && Advance(p, t.hour) == Ok(t)
  }

  /** Every record is stamped by a step from the clock before it. */
  predicate Stamped(base: Stamp, recs: seq<Value>, trace: seq<Stamp>)
    decreases |recs|
  {
    |trace| == |recs|
    && (recs != [] ==>
          var n := |recs| - 1;
          Stamped(base, recs[..n], trace[..n]) && Stepped(Prior(base, trace, n), recs[n], trace[n], base.minute))
  }

  /** A record the walk keeps: a dict whose numbers parse. */
  predicate Keeps(v: Value) {
    v.Obj? && Parsed(v.fields).Some?
  }

  /** What one record does to the kept map. */
  function Keep(kept: map<string, Dict>, v: Value, t: Stamp): map<string, Dict>
    requires ValidStamp(t)
  {
    if Keeps(v) then kept[FormatStamp(t) := Parsed(v.fields).value] else kept
  }

  lemma StampedStep(base: Stamp, recs: seq<Value>, trace: seq<Stamp>, v: Value, t: Stamp)
    requires Stamped(base, recs, trace) && Stepped(Prior(base, trace, |trace|), v, t, base.minute)
    ensures Stamped(base, recs + [v], trace + [t])
  {
    var recs', trace' := recs + [v], trace + [t];
    var n := |recs|;
    assert recs'[..n] == recs && trace'[..n] == trace && recs'[n] == v && trace'[n] == t;
    assert Prior(base, trace', n) == Prior(base, trace, n);
  }

  /** Record `i` of a stamped trace is stamped by a step from the clock before it. */
  lemma {:induction false} StampedAt(base: Stamp, recs: seq<Value>, trace: seq<Stamp>, i: nat)
    requires Stamped(base, recs, trace) && i < |recs|
    ensures Stepped(Prior(base, trace, i), recs[i], trace[i], base.minute)
    decreases |recs|
  {
    var n := |recs| - 1;
    if i < n {
      StampedAt(base, recs[..n], trace[..n], i);
      assert recs[..n][i] == recs[i] && trace[..n][i] == trace[i];
      assert Prior(base, trace[..n], i) == Prior(base, trace, i);
    }
  }

  /** Which records are kept, in order. */
  function Marks(recs: seq<Value>): (r: seq<bool>)
    ensures |r| == |recs|
    decreases |recs|
  {
    if recs == [] then [] else Marks(recs[..|recs| - 1]) + [Keeps(recs[|recs| - 1])]
  }

  lemma {:induction false} MarksAt(recs: seq<Value>, i: nat)
    requires i < |recs|
    ensures Marks(recs)[i] == Keeps(recs[i])
    decreases |recs|
  {
    var n := |recs| - 1;
    if i < n {
      MarksAt(recs[..n], i);
      assert recs[..n][i] == recs[i];
    }
  }

  /** The last position marked whose timestamp formats to `k`. */
  function LastWith(marks: seq<bool>, trace: seq<Stamp>, k: string): (r: Option<nat>)
    requires |trace| == |marks|
    ensures r.Some? ==> r.value < |marks| && marks[r.value]
    decreases |marks|
  {
    if marks == [] then None
    else
      var n := |marks| - 1;
      if marks[n] && ValidStamp(trace[n]) && FormatStamp(trace[n]) == k then Some(n)
      else LastWith(marks[..n], trace[..n], k)
  }

  /** The position `LastWith` finds has the key `k`. */
  lemma {:induction false} LastWithFound(marks: seq<bool>, trace: seq<Stamp>, k: string)
    requires |trace| == |marks| && LastWith(marks, trace, k).Some?
    ensures var i := LastWith(marks, trace, k).value; ValidStamp(trace[i]) && FormatStamp(trace[i]) == k
    decreases |marks|
  {
    var n := |marks| - 1;
    if !(marks[n] && ValidStamp(trace[n]) && FormatStamp(trace[n]) == k) {
      LastWithFound(marks[..n], trace[..n], k);
      assert trace[..n][LastWith(marks[..n], trace[..n], k).value] == trace[LastWith(marks, trace, k).value];
    }
  }

  /** No position `j` marked after the one `LastWith` finds has the key `k`; when it
      finds none, no position marked has it. */
  lemma {:induction false} LastWithIsLast(marks: seq<bool>, trace: seq<Stamp>, k: string, j: nat)
    requires |trace| == |marks| && j < |marks| && marks[j] && ValidStamp(trace[j])
    requires var r := LastWith(marks, trace, k); r.None? || r.value < j
    ensures FormatStamp(trace[j]) != k
    decreases |marks|
  {
    var n := |marks| - 1;
    if j < n {
      assert marks[..n][j] == marks[j] && trace[..n][j] == trace[j];
      LastWithIsLast(marks[..n], trace[..n], k, j);
    }
  }

  /** The stored form of a record the walk keeps. */
  function Entry(v: Value): (r: Option<Dict>)
    ensures r.Some? <==> Keeps(v)
  {
    if v.Obj? then Parsed(v.fields) else None
  }

  /** The kept map holds, under each key, the last record kept with that timestamp, as
      parsed, and no other keys. */
  ghost predicate KeptLast(recs: seq<Value>, trace: seq<Stamp>, kept: map<string, Dict>) {
    |trace| == |recs|
    && (forall k :: k in kept <==> LastWith(Marks(recs), trace, k).Some?)
    && (forall k :: k in kept ==> Entry(recs[LastWith(Marks(recs), trace, k).value]) == Some(kept[k]))
  }

  lemma LastWithStep(marks: seq<bool>, trace: seq<Stamp>, b: bool, t: Stamp, k: string)
    requires |trace| == |marks| && ValidStamp(t)
    ensures LastWith(marks + [b], trace + [t], k)
            == if b && FormatStamp(t) == k then Some(|marks|) else LastWith(marks, trace, k)
  {
    var marks', trace' := marks + [b], trace + [t];
    assert marks'[..|marks|] == marks && trace'[..|marks|] == trace;
  }

  lemma KeptStep(recs: seq<Value>, trace: seq<Stamp>, kept: map<string, Dict>, v: Value, t: Stamp)
    requires KeptLast(recs, trace, kept) && ValidStamp(t)
    ensures KeptLast(recs + [v], trace + [t], Keep(kept, v, t))
  {
    var recs', trace', kept' := recs + [v], trace + [t], Keep(kept, v, t);
    assert recs'[..|recs|] == recs;
    assert Marks(recs') == Marks(recs) + [Keeps(v)];
    forall k
      ensures (k in kept' <==> LastWith(Marks(recs'), trace', k).Some?)
      ensures k in kept' ==> Entry(recs'[LastWith(Marks(recs'), trace', k).value]) == Some(kept'[k])
    {
      LastWithStep(Marks(recs), trace, Keeps(v), t, k);
      if LastWith(Marks(recs), trace, k).Some? {
        assert recs'[LastWith(Marks(recs), trace, k).value] == recs[LastWith(Marks(recs), trace, k).value];
      }
    }
  }

  /** The facts a finished walk keeps: every record stamped by one step of the clock,
      and under each key the last record kept with that timestamp. */
  lemma {:induction false} ReplayFacts(base: Stamp, recs: seq<Value>)
    requires ValidStamp(base) && Replay(base, recs).Ok?
    ensures var w := Replay(base, recs).value;
      Stamped(base, recs, w.trace) && KeptLast(recs, w.trace, w.kept)
    decreases |recs|
  {
    if recs != [] {
      var n := |recs| - 1;
      var front := recs[..n];
      ReplayLast(base, recs);
      ReplayFacts(base, front);
      var w0 := Replay(base, front).value;
      var w := Replay(base, recs).value;
      assert w0.clock == Prior(base, w0.trace, n);
      assert w0.clock.minute == base.minute by {
        if n > 0 {
          StampedAt(base, front, w0.trace, n - 1);
        }
      }
      FrontLast(recs);
      assert w.kept == Keep(w0.kept, recs[n], w.clock);
      StampedStep(base, front, w0.trace, recs[n], w.clock);
      KeptStep(front, w0.trace, w0.kept, recs[n], w.clock);
    }
  }

  /** Along a stamped trace the timestamps never go backwards. */
  lemma {:induction false} StampedMonotone(base: Stamp, recs: seq<Value>, trace: seq<Stamp>, i: nat, j: nat)
    requires Stamped(base, recs, trace) && i <= j < |recs|
    ensures ValidStamp(trace[i]) && ValidStamp(trace[j]) && Minutes(trace[i]) <= Minutes(trace[j])
  {
    StampedValid(base, recs, trace, i);
    forall k | 0 <= k < |trace| - 1
      ensures NoLaterAt(trace, k)
    {
      StampedAfter(base, recs, trace, k + 1);
    }
    AscendingMonotone(trace, i, j);
  }

  /** Timestamps each no earlier than the one before them never go backwards. */
  lemma AscendingMonotone(trace: seq<Stamp>, i: nat, j: nat)
    requires i <= j < |trace| && ValidStamp(trace[i])
    requires forall k :: 0 <= k < |trace| - 1 ==> NoLaterAt(trace, k)
    ensures ValidStamp(trace[j]) && Minutes(trace[i]) <= Minutes(trace[j])
  {
    var k := i;
    while k < j
      invariant i <= k <= j
      invariant ValidStamp(trace[k]) && Minutes(trace[i]) <= Minutes(trace[k])
    {
      assert NoLaterAt(trace, k);
      k := k + 1;
    }
  }

  /** The stamp at `k + 1` is no earlier than the one at `k`. */
  predicate NoLaterAt(trace: seq<Stamp>, k: nat) {
    k + 1 < |trace| && ValidStamp(trace[k]) && ValidStamp(trace[k + 1]) && Minutes(trace[k]) <= Minutes(trace[k + 1])
  }

  /** Every stamp of a stamped trace is a valid timestamp. */
  lemma StampedValid(base: Stamp, recs: seq<Value>, trace: seq<Stamp>, i: nat)
    requires Stamped(base, recs, trace) && i < |recs|
    ensures ValidStamp(trace[i])
  {
    StampedWithinDay(base, recs, trace, i);
  }

  /** Each stamp after the first is no earlier than the one before it. */
  lemma StampedAfter(base: Stamp, recs: seq<Value>, trace: seq<Stamp>, j: nat)
    requires Stamped(base, recs, trace) && 0 < j < |recs|
    ensures ValidStamp(trace[j - 1]) && ValidStamp(trace[j]) && Minutes(trace[j - 1]) <= Minutes(trace[j])
  {
    StampedWithinDay(base, recs, trace, j);
  }

  /** Each stamp lies within a day after the clock before it. */
  lemma StampedWithinDay(base: Stamp, recs: seq<Value>, trace: seq<Stamp>, i: nat)
    requires Stamped(base, recs, trace) && i < |recs|
    ensures var p := Prior(base, trace, i);
      ValidStamp(p) && ValidStamp(trace[i]) && Minutes(p) <= Minutes(trace[i]) < Minutes(p) + 24 * 60
    ensures i > 0 ==> Prior(base, trace, i) == trace[i - 1]
  {
    StampedAt(base, recs, trace, i);
    AdvanceMinutes(Prior(base, trace, i), trace[i].hour);
  }

  /** Three records at hours 23, 0 and 1 after the base 202401010000 land at 23:00 on
      the first and at 00:00 and 01:00 on the second: the clock rolls over to the next
      day exactly when an hour is below the running clock's hour. */
  lemma ReplayExample(a: Dict, b: Dict, c: Dict)
    requires Get(a, "od21") == Int(23) && Get(b, "od21") == Int(0) && Get(c, "od21") == Int(1)
    ensures var base := Stamp(Date(2024, 1, 1), 0, 0);
      Replay(base, [Obj(a), Obj(b), Obj(c)]).Ok?
      && Replay(base, [Obj(a), Obj(b), Obj(c)]).value.trace
         == [Stamp(Date(2024, 1, 1), 23, 0), Stamp(Date(2024, 1, 2), 0, 0), Stamp(Date(2024, 1, 2), 1, 0)]
  {
    var base := Stamp(Date(2024, 1, 1), 0, 0);
    var recs := [Obj(a), Obj(b), Obj(c)];
    assert recs[..2] == [Obj(a), Obj(b)] && recs[..2][..1] == [Obj(a)] && [Obj(a)][..0] == [];
    assert HourOf(Obj(a)) == Ok(23) && HourOf(Obj(b)) == Ok(0) && HourOf(Obj(c)) == Ok(1);
    var t1 := Stamp(Date(2024, 1, 1), 23, 0);
    var t2 := Stamp(Date(2024, 1, 2), 0, 0);
    var t3 := Stamp(Date(2024, 1, 2), 1, 0);
    assert Advance(base, 23) == Ok(t1);
    assert AddDay(Date(2024, 1, 1)) == Ok(Date(2024, 1, 2));
    assert Advance(t1, 0) == Ok(t2);
    assert Advance(t2, 1) == Ok(t3);
    assert Replay(base, []) == Ok(Walk(base, [], map[]));
    assert Replay(base, [Obj(a)]).Ok? && Replay(base, [Obj(a)]).value.trace == [t1];
    assert Replay(base, [Obj(a), Obj(b)]).Ok? && Replay(base, [Obj(a), Obj(b)]).value.trace == [t1, t2];
  }

  /** Once the walk has raised, the records after that one change nothing. */
  lemma {:induction false} ReplayStops(base: Stamp, recs: seq<Value>, k: nat)
    requires ValidStamp(base) && k <= |recs| && Replay(base, recs[..k]).Err?
    ensures Replay(base, recs) == Replay(base, recs[..k])
    decreases |recs| - k
  {
    if k < |recs| {
      assert recs[..k + 1][..k] == recs[..k];
      ReplayStops(base, recs, k + 1);
    } else {
      assert recs[..k] == recs;
    }
  }

  /** The outcome of `update_observe` once the marker was found: the records by
      timestamp, or the provider's `od` data when `od0` is not a timestamp. */
  datatype Observed = Records(records: map<string, Dict>) | BadBase(data: Dict)

  /** The loop over the reversed list, on the array `lst.reverse()` left behind. */
  method Reconstruct(base: Stamp, lst: array<Value>) returns (r: Result<map<string, Dict>>)
    requires ValidStamp(base)
    ensures r == (match Replay(base, lst[..]) case Ok(w) => Ok(w.kept) case Err(e) => Err(e))
  {
    var stm := base;
    var dat: map<string, Dict> := map[];
    ghost var trace: seq<Stamp> := [];
    var i := 0;
    while i < lst.Length
      invariant 0 <= i <= lst.Length
      invariant Replay(base, lst[..i]) == Ok(Walk(stm, trace, dat))
    {
      assert lst[..i + 1][..i] == lst[..i];
      var h := HourOf(lst[i]);
      if h.Err? {
        ReplayStops(base, lst[..], i + 1);
        return Err(h.error);
      }
      var t := Advance(stm, h.value);
      if t.Err? {
        ReplayStops(base, lst[..], i + 1);
        return Err(t.error);
      }
      var rec := Parsed(lst[i].fields);
      if rec.Some? {
        dat := dat[FormatStamp(t.value) := rec.value];
      }
      stm := t.value;
      trace := trace + [stm];
      i := i + 1;
    }
    assert lst[..] == lst[..lst.Length];
    return Ok(dat);
  }
}
