/** The employee page: the hour and minute text fields of the time
    picker, the week-day table, today's and current workers, the daily
    working time, the monthly labour cost and the work-day toggle of the
    employee form. The weekday, the time of day and the number of days in
    the month are parameters. */
module Employees {
  import opened Base
  import opened Text

  // ----- the time picker -----

  /** The characters of `s` that are decimal digits, in order
      (`s.replace(/\D/g, '')`). */
  function DigitsOnly(s: string): (r: string)
    ensures r == Filter(s, IsDigit)
    ensures AllDigits(r) && |r| <= |s|
    ensures r == [] <==> forall i :: 0 <= i < |s| ==> !IsDigit(s[i])
    ensures AllDigits(s) ==> r == s
  {
    if s == [] then []
    else (if IsDigit(s[0]) then [s[0]] else []) + DigitsOnly(s[1..])
  }

  /** `slice(0, 2)`: the first two characters, or all of a shorter text. */
  function FirstTwo(d: string): (t: string)
    ensures t <= d && |t| == (if |d| < 2 then |d| else 2)
    ensures AllDigits(d) ==> AllDigits(t)
  {
    if |d| > 2 then d[..2] else d
  }

  /** The reference result of sanitising a typed field: its digits, cut to
      two, and `cap` when they read as more than `cap`. */
  function Sanitized(raw: string, cap: nat): string
    requires cap < 100
  {
    var t := FirstTwo(DigitsOnly(raw));
    if t != [] && DecValue(t) > cap then TwoDigits(cap) else t
  }

  /** A sanitised field is empty or one or two digits worth at most `cap`,
      and it is empty exactly when the typed text has no digit. */
  lemma SanitizedShape(raw: string, cap: nat)
    requires cap < 100
    ensures var r := Sanitized(raw, cap);
      && AllDigits(r) && |r| <= 2
      && (r != [] ==> DecValue(r) <= cap)
      && (r == [] <==> forall i :: 0 <= i < |raw| ==> !IsDigit(raw[i]))
  {
    TwoDigitsValue(cap);
  }

  /** Which digits survive: the first two typed digits when they read as
      at most `cap`, otherwise exactly `cap` written with two digits; so
      the field reads as the typed value clamped to `cap` ("99" becomes
      "23" in the hour field and "59" in the minute field). */
  lemma SanitizedKeeps(raw: string, cap: nat)
    requires cap < 100
    ensures FirstTwo(DigitsOnly(raw)) == [] ==> Sanitized(raw, cap) == []
    ensures var t := FirstTwo(DigitsOnly(raw));
      t != [] && DecValue(t) <= cap ==> Sanitized(raw, cap) == t
    ensures var t := FirstTwo(DigitsOnly(raw));
      t != [] && DecValue(t) > cap ==> Sanitized(raw, cap) == TwoDigits(cap)
    ensures var t, r := FirstTwo(DigitsOnly(raw)), Sanitized(raw, cap);
      t != [] ==> AllDigits(r) && DecValue(r) == if DecValue(t) > cap then cap else DecValue(t)
  {
    TwoDigitsValue(cap);
  }

  /** "99" typed into the hour field becomes "23", into the minute field
      "59". */
  lemma SanitizedCapsNinetyNine()
    ensures Sanitized("99", 23) == "23" && Sanitized("99", 59) == "59"
  {
    assert DigitsOnly("99") == "99" by { assert AllDigits("99"); }
    assert DecValue("99") == 99 by { assert "99"[..1] == "9"; }
    assert NatToString(23) == "23" by { assert NatToString(2) == "2"; }
    assert NatToString(59) == "59" by { assert NatToString(5) == "5"; }
  }

  /** Sanitising an already sanitised field changes nothing. */
  lemma SanitizedIdempotent(raw: string, cap: nat)
    requires cap < 100
    ensures Sanitized(Sanitized(raw, cap), cap) == Sanitized(raw, cap)
  {
    SanitizedShape(raw, cap);
  }

  /** The typed-field step of the hour and minute handlers: digits only,
      at most two, capped. */
  method SanitizeField(raw: string, cap: nat, capText: string) returns (input: string)
    requires cap < 100 && capText == TwoDigits(cap)
    ensures input == Sanitized(raw, cap)
  {
    input := DigitsOnly(raw);
    if |input| > 2 {
      input := input[..2];
    }
    var n := ParseInt(input);
    if n.Some? && n.value > cap {
      input := capText;
    }
  }

  /** The hour part of a picker value: the text before the first `:`. */
  function HourPart(value: string): string
  {
    Before(value, ':')
  }

  /** The minute part of a picker value: the text after the first `:` up
      to the next one, "" when there is no `:`. */
  function MinutePart(value: string): string
  {
    SecondField(value, ':')
  }

  /** Joining an hour part and a minute part and splitting again gives
      both back. */
  lemma PartsOfJoin(hour: string, minute: string)
    requires ':' !in hour && ':' !in minute
    ensures HourPart(hour + ":" + minute) == hour
    ensures MinutePart(hour + ":" + minute) == minute
  {
    FieldsOfJoin(hour, minute, ':');
    BeforeWithoutSep(minute, ':');
  }

  /** `handleHourInput`: the sanitised hour (cap 23) followed by the
      unchanged minute part. */
  method HourInput(value: string, typed: string) returns (r: string)
    ensures r == Sanitized(typed, 23) + ":" + MinutePart(value)
    ensures HourPart(r) == Sanitized(typed, 23) && MinutePart(r) == MinutePart(value)
    ensures var h := HourPart(r); h != [] ==> DecValue(h) <= 23
  {
    var input := SanitizeField(typed, 23, "23");
    r := input + ":" + MinutePart(value);
    SanitizedShape(typed, 23);
    PartsOfJoin(input, MinutePart(value));
  }

  /** `handleMinuteInput`: the unchanged hour part followed by the
      sanitised minute (cap 59). */
  method MinuteInput(value: string, typed: string) returns (r: string)
    ensures r == HourPart(value) + ":" + Sanitized(typed, 59)
    ensures MinutePart(r) == Sanitized(typed, 59) && HourPart(r) == HourPart(value)
    ensures var m := MinutePart(r); m != [] ==> DecValue(m) <= 59
  {
    var input := SanitizeField(typed, 59, "59");
    r := HourPart(value) + ":" + input;
    SanitizedShape(typed, 59);
    PartsOfJoin(HourPart(value), input);
  }

  /** The blur step on one field: a non-empty field is left-padded with
      '0' to two characters; an empty one is left alone (`None`: no
      change is reported). */
  function PaddedOnBlur(field: string): (r: Option<string>)
    ensures field == [] ==> r.None?
    ensures field != [] && |field| >= 2 ==> r == Some(field)
    ensures |field| == 1 ==> r == Some("0" + field)
  {
    if field == [] then None
    else
      assert |field| == 1 ==> Repeat('0', 1) == "0";
      Some(PadStart(field, 2, '0'))
  }

  /** `handleHourBlur`. */
  function HourBlur(value: string): (r: string)
    ensures HourPart(value) == [] ==> r == value
  {
    match PaddedOnBlur(HourPart(value))
    case None => value
    case Some(h) => h + ":" + MinutePart(value)
  }

  /** `handleMinuteBlur`. */
  function MinuteBlur(value: string): (r: string)
    ensures MinutePart(value) == [] ==> r == value
  {
    match PaddedOnBlur(MinutePart(value))
    case None => value
    case Some(m) => HourPart(value) + ":" + m
  }
  /** `selectHour`: a hour picked from the drop-down replaces the hour
      part; the minute part is kept. */
  function SelectHour(value: string, picked: string): (r: string)
    ensures AllDigits(picked) ==> HourPart(r) == picked && MinutePart(r) == MinutePart(value)
  {
    assert AllDigits(picked) ==> ':' !in picked by {
      assert forall i :: 0 <= i < |picked| && AllDigits(picked) ==> IsDigit(picked[i]);
    }
    assert AllDigits(picked) ==>
      (HourPart(picked + ":" + MinutePart(value)) == picked &&
       MinutePart(picked + ":" + MinutePart(value)) == MinutePart(value)) by {
      if AllDigits(picked) {
        PartsOfJoin(picked, MinutePart(value));
      }
    }
    picked + ":" + MinutePart(value)
  }

  /** `selectMinute`: a minute picked from the drop-down replaces the
      minute part; the hour part is kept. */
  function SelectMinute(value: string, picked: string): (r: string)
    ensures AllDigits(picked) ==> MinutePart(r) == picked && HourPart(r) == HourPart(value)
  {
    assert AllDigits(picked) ==> ':' !in picked by {
      assert forall i :: 0 <= i < |picked| && AllDigits(picked) ==> IsDigit(picked[i]);
    }
    assert AllDigits(picked) ==>
      (HourPart(HourPart(value) + ":" + picked) == HourPart(value) &&
       MinutePart(HourPart(value) + ":" + picked) == picked) by {
      if AllDigits(picked) {
        PartsOfJoin(HourPart(value), picked);
      }
    }
    HourPart(value) + ":" + picked
  }

  /** Blurring a sanitised hour leaves exactly two digits of the same
      value and keeps the minute part; blurring again changes nothing. */
  lemma HourBlurPads(hour: string, minute: string)
    requires AllDigits(hour) && 1 <= |hour| <= 2 && ':' !in minute
    ensures var r := HourBlur(hour + ":" + minute);
      && |HourPart(r)| == 2 && AllDigits(HourPart(r)) && DecValue(HourPart(r)) == DecValue(hour)
      && MinutePart(r) == minute
      && HourBlur(r) == r
  {
    assert ':' !in hour by { assert forall i :: 0 <= i < |hour| ==> IsDigit(hour[i]); }
    PartsOfJoin(hour, minute);
    var h := PadStart(hour, 2, '0');
    if |hour| == 1 {
      assert h == "0" + hour;
      assert h[..1] == "0";
    } else {
      assert h == hour;
    }
    assert ':' !in h by { assert forall i :: 0 <= i < |h| ==> IsDigit(h[i]); }
    PartsOfJoin(h, minute);
  }

  /** Blurring a sanitised minute leaves exactly two digits of the same
      value and keeps the hour part; blurring again changes nothing. */
  lemma MinuteBlurPads(hour: string, minute: string)
    requires AllDigits(minute) && 1 <= |minute| <= 2 && ':' !in hour
    ensures var r := MinuteBlur(hour + ":" + minute);
      && |MinutePart(r)| == 2 && AllDigits(MinutePart(r)) && DecValue(MinutePart(r)) == DecValue(minute)
      && HourPart(r) == hour
      && MinuteBlur(r) == r
  {
    assert ':' !in minute by { assert forall i :: 0 <= i < |minute| ==> IsDigit(minute[i]); }
    PartsOfJoin(hour, minute);
    var m := PadStart(minute, 2, '0');
    if |minute| == 1 {
      assert m == "0" + minute;
      assert m[..1] == "0";
    } else {
      assert m == minute;
    }
    assert ':' !in m by { assert forall i :: 0 <= i < |m| ==> IsDigit(m[i]); }
    PartsOfJoin(hour, m);
  }

  /** The hour dropdown: "00" to "23". */
  function HourOptions(): (r: seq<string>)
    ensures |r| == 24
  {
    seq(24, i requires 0 <= i < 24 => TwoDigits(i))
  }

  /** The minute dropdown: "00" to "55" in steps of five. */
  function MinuteOptions(): (r: seq<string>)
    ensures |r| == 12
  {
    seq(12, i requires 0 <= i < 12 => TwoDigits(i * 5))
  }

  /** Every dropdown entry is two digits reading as its hour or its five
      minutes, and typing it into the field leaves it as it is. */
  lemma OptionsAreSanitized()
    ensures forall i :: 0 <= i < 24 ==>
      |HourOptions()[i]| == 2 && AllDigits(HourOptions()[i]) && DecValue(HourOptions()[i]) == i
      && Sanitized(HourOptions()[i], 23) == HourOptions()[i]
    ensures forall i :: 0 <= i < 12 ==>
      |MinuteOptions()[i]| == 2 && AllDigits(MinuteOptions()[i]) && DecValue(MinuteOptions()[i]) == 5 * i
      && Sanitized(MinuteOptions()[i], 59) == MinuteOptions()[i]
  {
    forall i | 0 <= i < 24
      ensures |HourOptions()[i]| == 2 && AllDigits(HourOptions()[i]) && DecValue(HourOptions()[i]) == i
      ensures Sanitized(HourOptions()[i], 23) == HourOptions()[i]
    {
      TwoDigitsValue(i);
    }
    forall i | 0 <= i < 12
      ensures |MinuteOptions()[i]| == 2 && AllDigits(MinuteOptions()[i]) && DecValue(MinuteOptions()[i]) == 5 * i
      ensures Sanitized(MinuteOptions()[i], 59) == MinuteOptions()[i]
    {
      TwoDigitsValue(i * 5);
    }
  }

  // ----- week days -----

  datatype DayInfo = DayInfo(key: string, dayLabel: string, dayNum: int)

  const DaysOfWeek: seq<DayInfo> := [
    DayInfo("MONDAY", "월", 1), DayInfo("TUESDAY", "화", 2), DayInfo("WEDNESDAY", "수", 3),
    DayInfo("THURSDAY", "목", 4), DayInfo("FRIDAY", "금", 5), DayInfo("SATURDAY", "토", 6),
    DayInfo("SUNDAY", "일", 7)]

  /** `DAYS_OF_WEEK.find(d => d.key === key)?.dayNum`. */
  function FindDayNum(ds: seq<DayInfo>, key: string): (r: Option<int>)
    ensures r.Some? ==> exists i :: 0 <= i < |ds| && ds[i].key == key && ds[i].dayNum == r.value
    ensures r.None? ==> forall i :: 0 <= i < |ds| ==> ds[i].key != key
  {
    if ds == [] then None
    else if ds[0].key == key then Some(ds[0].dayNum)
    else FindDayNum(ds[1..], key)
  }

  /** The day number of JavaScript's `getDay()` (0 is Sunday): Sunday
      becomes 7, every other day keeps its number. */
  function TodayNum(weekday: int): (r: int)
    requires 0 <= weekday <= 6
    ensures 1 <= r <= 7
    ensures weekday == 0 <==> r == 7
    ensures weekday != 0 ==> r == weekday
  {
    if weekday == 0 then 7 else weekday
  }

  /** The table numbers its days 1 to 7 in order, under seven distinct
      keys. */
  lemma DaysOfWeekShape()
    ensures |DaysOfWeek| == 7
    ensures forall i :: 0 <= i < 7 ==> DaysOfWeek[i].dayNum == i + 1
    ensures forall i, j :: 0 <= i < j < 7 ==> DaysOfWeek[i].key != DaysOfWeek[j].key
  {
  }

  /** So the day number found for a key is that of the key's own day. */
  lemma DayKeysMatchNumbers(key: string, n: int)
    requires 1 <= n <= 7
    ensures FindDayNum(DaysOfWeek, key) == Some(n) <==> key == DaysOfWeek[n - 1].key
  {
    DaysOfWeekShape();
    var ds := DaysOfWeek;
    var r := FindDayNum(ds, key);
    if r == Some(n) {
      var i :| 0 <= i < |ds| && ds[i].key == key && ds[i].dayNum == n;
      assert i == n - 1;
    }
    if key == ds[n - 1].key {
      assert r.Some?;
      var i :| 0 <= i < |ds| && ds[i].key == key && ds[i].dayNum == r.value;
      assert i == n - 1;
    }
  }

  datatype Employee = Employee(
    id: int, name: string, role: string, hourlyWage: int,
    workStartTime: string, workEndTime: string, workDays: seq<string>)

  /** Whether one of the employee's work days has that day number. */
  function WorksOn(e: Employee, todayNum: int): (r: bool)
    ensures r ==> 1 <= todayNum <= 7
  {
    DaysOfWeekShape();
    exists i :: 0 <= i < |e.workDays| && FindDayNum(DaysOfWeek, e.workDays[i]) == Some(todayNum)
  }

  /** An employee works today exactly when today's key is among their
      work days; on a Sunday that key is "SUNDAY". */
  lemma WorksTodayIff(e: Employee, weekday: int)
    requires 0 <= weekday <= 6
    ensures WorksOn(e, TodayNum(weekday)) <==> DaysOfWeek[TodayNum(weekday) - 1].key in e.workDays
    ensures weekday == 0 ==> (WorksOn(e, TodayNum(weekday)) <==> "SUNDAY" in e.workDays)
  {
    var n := TodayNum(weekday);
    forall k | true
      ensures FindDayNum(DaysOfWeek, k) == Some(n) <==> k == DaysOfWeek[n - 1].key
    {
      DayKeysMatchNumbers(k, n);
    }
  }

  /** `getTodayWorkers`. */
  function TodayWorkers(es: seq<Employee>, weekday: int): (r: seq<Employee>)
    requires 0 <= weekday <= 6
    ensures forall i :: 0 <= i < |r| ==> r[i] in es && WorksOn(r[i], TodayNum(weekday))
    ensures forall i :: 0 <= i < |es| && WorksOn(es[i], TodayNum(weekday)) ==> es[i] in r
  {
    Filter(es, (e: Employee) => WorksOn(e, TodayNum(weekday)))
  }

  /** The current time as the page writes it: "HH:MM". */
  function TimeText(hour: nat, minute: nat): string
  {
    TwoDigits(hour) + ":" + TwoDigits(minute)
  }

  /** Below 100 both numbers take two digits, so the text is "HH:MM". */
  lemma TimeTextShape(hour: nat, minute: nat)
    requires hour < 100 && minute < 100
    ensures var r := TimeText(hour, minute);
      |r| == 5 && AllDigits(r[..2]) && r[2] == ':' && AllDigits(r[3..])
  {
    TwoDigitsValue(hour);
    TwoDigitsValue(minute);
    var r := TimeText(hour, minute);
    assert r[..2] == TwoDigits(hour) && r[3..] == TwoDigits(minute);
  }

  /** Working today and `start <= now <= end`, compared as strings. */
  function OnShift(e: Employee, weekday: int, hour: nat, minute: nat): (r: bool)
    requires 0 <= weekday <= 6
    ensures r ==> WorksOn(e, TodayNum(weekday))
    ensures (WorksOn(e, TodayNum(weekday)) && e.workStartTime <= TimeText(hour, minute) &&
      TimeText(hour, minute) <= e.workEndTime) ==> r
  {
    var now := TimeText(hour, minute);
    WorksOn(e, TodayNum(weekday)) && LexLe(e.workStartTime, now) && LexLe(now, e.workEndTime)
  }

  /** The test `getCurrentWorkers` filters with. */
  function OnShiftNow(weekday: int, hour: nat, minute: nat): Employee -> bool
    requires 0 <= weekday <= 6
  {
    (e: Employee) => OnShift(e, weekday, hour, minute)
  }

  /** `getCurrentWorkers`: how many employees are on shift now. */
  function CurrentWorkers(es: seq<Employee>, weekday: int, hour: nat, minute: nat): (r: nat)
    requires 0 <= weekday <= 6
    ensures r <= |TodayWorkers(es, weekday)|
  {
    CurrentAmongToday(es, weekday, hour, minute);
    |Filter(es, OnShiftNow(weekday, hour, minute))|
  }

  lemma {:induction false} CurrentAmongToday(es: seq<Employee>, weekday: int, hour: nat, minute: nat)
    requires 0 <= weekday <= 6
    ensures |Filter(es, OnShiftNow(weekday, hour, minute))| <= |TodayWorkers(es, weekday)|
  {
    if es != [] {
      CurrentAmongToday(es[1..], weekday, hour, minute);
    }
  }

  /** The count employee by employee: nobody is on shift in an empty
      staff, and one more employee adds one exactly when they are on
      shift, so the count is the number of employees on shift. */
  lemma CurrentWorkersSnoc(es: seq<Employee>, e: Employee, weekday: int, hour: nat, minute: nat)
    requires 0 <= weekday <= 6
    ensures CurrentWorkers([], weekday, hour, minute) == 0
    ensures CurrentWorkers(es + [e], weekday, hour, minute) ==
      CurrentWorkers(es, weekday, hour, minute) + (if OnShift(e, weekday, hour, minute) then 1 else 0)
  {
    FilterAppend(es, [e], OnShiftNow(weekday, hour, minute));
  }

  lemma TwoDigitsChars(n: nat)
    requires n < 100
    ensures TwoDigits(n) == [DigitChar(n / 10), DigitChar(n % 10)]
  {
    if n >= 10 {
      assert NatToString(n / 10) == [DigitChar(n / 10)];
    }
  }

  /** Comparing two-digit fields as text compares their values. */
  lemma LexLeTwoDigits(a: nat, b: nat, ra: string, rb: string)
    requires a < 100 && b < 100
    ensures LexLe(TwoDigits(a) + ra, TwoDigits(b) + rb) == if a != b then a < b else LexLe(ra, rb)
  {
    TwoDigitsChars(a);
    TwoDigitsChars(b);
    var s, t := TwoDigits(a) + ra, TwoDigits(b) + rb;
    assert s[1..] == [DigitChar(a % 10)] + ra;
    assert t[1..] == [DigitChar(b % 10)] + rb;
    assert s[1..][1..] == ra && t[1..][1..] == rb;
  }

  /** Times written as "HH:MM" compare as text exactly as they compare as
      minutes of the day. */
  lemma TimeTextOrder(h1: nat, m1: nat, h2: nat, m2: nat)
    requires h1 < 24 && m1 < 60 && h2 < 24 && m2 < 60
    ensures LexLe(TimeText(h1, m1), TimeText(h2, m2)) <==> h1 * 60 + m1 <= h2 * 60 + m2
  {
    assert TimeText(h1, m1) == TwoDigits(h1) + (":" + TwoDigits(m1));
    assert TimeText(h2, m2) == TwoDigits(h2) + (":" + TwoDigits(m2));
    LexLeTwoDigits(h1, h2, ":" + TwoDigits(m1), ":" + TwoDigits(m2));
    var x, y := ":" + TwoDigits(m1), ":" + TwoDigits(m2);
    assert x[1..] == TwoDigits(m1) + "" && y[1..] == TwoDigits(m2) + "";
    LexLeTwoDigits(m1, m2, "", "");
  }

  /** For shift times written as "HH:MM", an employee working today is on
      shift exactly when the current minute of the day lies between the
      start and the end, both included. */
  lemma OnShiftByMinutes(e: Employee, weekday: int, hour: nat, minute: nat, sh: nat, sm: nat, eh: nat, em: nat)
    requires 0 <= weekday <= 6 && hour < 24 && minute < 60
    requires sh < 24 && sm < 60 && eh < 24 && em < 60
    requires e.workStartTime == TimeText(sh, sm) && e.workEndTime == TimeText(eh, em)
    ensures OnShift(e, weekday, hour, minute) <==>
      WorksOn(e, TodayNum(weekday)) && sh * 60 + sm <= hour * 60 + minute <= eh * 60 + em
  {
    TimeTextOrder(sh, sm, hour, minute);
    TimeTextOrder(hour, minute, eh, em);
  }

  // ----- working time and labour cost -----

  /** Minutes of the day of a time text, `Number` on both parts; `None`
      for `NaN` (a part that is not a number, or no minute part). */
  function MinutesOf(t: string): (r: Option<int>)
    ensures ':' !in t ==> r.None?
    ensures r.Some? ==> r.value >= 0
  {
    var h := NumberOf(Before(t, ':'));
    var m := if ':' in t then NumberOf(SecondField(t, ':')) else None;
    if h.Some? && m.Some? then Some(h.value * 60 + m.value) else None
  }

  /** `calculateDailyHours`: end minus start in minutes, divided by 60,
      with no wrap past midnight. */
  function DailyHours(startTime: string, endTime: string): (r: Option<real>)
    ensures r.Some? <==> MinutesOf(startTime).Some? && MinutesOf(endTime).Some?
    ensures r.Some? ==> r.value * 60.0 == (MinutesOf(endTime).value - MinutesOf(startTime).value) as real
  {
    match (MinutesOf(startTime), MinutesOf(endTime))
    case (Some(s), Some(e)) => Some((e - s) as real / 60.0)
    case _ => None
  }

  /** A time whose parts are runs of digits is that many minutes of the
      day. */
  lemma MinutesOfParts(t: string, hv: int, mv: int)
    requires ':' in t
    requires NumberOf(Before(t, ':')) == Some(hv) && NumberOf(SecondField(t, ':')) == Some(mv)
    ensures MinutesOf(t) == Some(hv * 60 + mv)
  {
  }

  /** "HH:MM" is `HH × 60 + MM` minutes of the day, so the daily length of
      a shift is the difference of its ends' minutes over 60, negative
      when it ends before it starts. */
  lemma MinutesOfTimeText(h: nat, m: nat)
    requires h < 24 && m < 60
    ensures MinutesOf(TimeText(h, m)) == Some(h * 60 + m)
  {
    TwoDigitsField(h);
    TwoDigitsField(m);
    var hh, mm := TwoDigits(h), TwoDigits(m);
    PartsOfJoin(hh, mm);
    var t := hh + ":" + mm;
    assert t[|hh|] == ':';
    MinutesOfParts(t, h, m);
  }

  /** `Math.ceil(daysInMonth / 7)`. */
  function WeeksInMonth(daysInMonth: nat): (w: nat)
    ensures 7 * w >= daysInMonth && (daysInMonth > 0 ==> 7 * (w - 1) < daysInMonth)
  {
    (daysInMonth + 6) / 7
  }

  /** One employee's month: work days × weeks × daily hours × wage;
      `None` (NaN) when the daily hours are not a number. */
  function EmployeeCost(e: Employee, weeks: nat): (r: Option<real>)
    ensures r.Some? <==> DailyHours(e.workStartTime, e.workEndTime).Some?
    ensures r.Some? && e.hourlyWage >= 0 && DailyHours(e.workStartTime, e.workEndTime).value >= 0.0 ==>
      r.value >= 0.0
    ensures r.Some? && (weeks == 0 || e.workDays == []) ==> r.value == 0.0
  {
    match DailyHours(e.workStartTime, e.workEndTime)
    case Some(h) => Some(MonthCost(|e.workDays|, weeks, h, e.hourlyWage))
    case None => None
  }

  /** Work days × weeks × daily hours × wage. */
  function MonthCost(days: nat, weeks: nat, hours: real, wage: int): (r: real)
    ensures hours >= 0.0 && wage >= 0 ==> r >= 0.0
    ensures days == 0 || weeks == 0 ==> r == 0.0
  {
    var k := days as real * weeks as real;
    MulNonNegative(days as real, weeks as real);
    assert hours >= 0.0 ==> k * hours >= 0.0 by {
      if hours >= 0.0 {
        MulNonNegative(k, hours);
      }
    }
    assert hours >= 0.0 && wage >= 0 ==> k * hours * wage as real >= 0.0 by {
      if hours >= 0.0 && wage >= 0 {
        MulNonNegative(k * hours, wage as real);
      }
    }
    k * hours * wage as real
  }

  /** A cost added to a running total; NaN on either side gives NaN. */
  function AddCost(total: Option<real>, c: Option<real>): Option<real>
  {
    if total.Some? && c.Some? then Some(total.value + c.value) else None
  }

  /** The running total of `reduce`, from the left. */
  function SumCosts(cs: seq<Option<real>>): (r: Option<real>)
    ensures r.Some? <==> forall i :: 0 <= i < |cs| ==> cs[i].Some?
  {
    if cs == [] then Some(0.0) else AddCost(SumCosts(cs[..|cs| - 1]), cs[|cs| - 1])
  }

  /** Every employee's cost, in order. */
  function Costs(es: seq<Employee>, weeks: nat): (r: seq<Option<real>>)
    ensures |r| == |es|
  {
    if es == [] then [] else [EmployeeCost(es[0], weeks)] + Costs(es[1..], weeks)
  }

  lemma {:induction false} CostsAt(es: seq<Employee>, weeks: nat, i: int)
    requires 0 <= i < |es|
    ensures Costs(es, weeks)[i] == EmployeeCost(es[i], weeks)
  {
    if i > 0 {
      CostsAt(es[1..], weeks, i - 1);
    }
  }

  lemma {:induction false} CostsAppend(a: seq<Employee>, b: seq<Employee>, weeks: nat)
    ensures Costs(a + b, weeks) == Costs(a, weeks) + Costs(b, weeks)
  {
    if a == [] {
      assert a + b == b;
    } else {
      assert (a + b)[1..] == a[1..] + b;
      CostsAppend(a[1..], b, weeks);
    }
  }

  /** `calculateMonthlyLaborCost`: every employee's cost for the month's
      `ceil(days / 7)` weeks, added up. */
  function MonthlyLaborCost(es: seq<Employee>, daysInMonth: nat): (r: Option<real>)
    ensures es == [] ==> r == Some(0.0)
    ensures |es| == 1 ==> r == EmployeeCost(es[0], WeeksInMonth(daysInMonth))
  {
    assert |es| == 1 ==> SumCosts(Costs(es, WeeksInMonth(daysInMonth))) == EmployeeCost(es[0], WeeksInMonth(daysInMonth)) by {
      if |es| == 1 {
        var cs := Costs(es, WeeksInMonth(daysInMonth));
        assert cs == [EmployeeCost(es[0], WeeksInMonth(daysInMonth))];
        assert cs[..0] == [];
      }
    }
    SumCosts(Costs(es, WeeksInMonth(daysInMonth)))
  }

  /** The monthly cost is a number exactly when every employee's daily
      hours are. */
  lemma LaborCostDefined(es: seq<Employee>, daysInMonth: nat)
    ensures MonthlyLaborCost(es, daysInMonth).Some? <==>
      forall i :: 0 <= i < |es| ==> DailyHours(es[i].workStartTime, es[i].workEndTime).Some?
  {
    var cs := Costs(es, WeeksInMonth(daysInMonth));
    forall i | 0 <= i < |es|
      ensures cs[i].Some? <==> DailyHours(es[i].workStartTime, es[i].workEndTime).Some?
    {
      CostsAt(es, WeeksInMonth(daysInMonth), i);
    }
  }

  /** `reduce` over two pieces: the total of the whole is the first total
      plus the second, NaN when either is. */
  lemma {:induction false} SumCostsAppend(xs: seq<Option<real>>, ys: seq<Option<real>>)
    ensures SumCosts(xs + ys) == AddCost(SumCosts(xs), SumCosts(ys))
  {
    if ys == [] {
      assert xs + ys == xs;
    } else {
      assert (xs + ys)[..|xs + ys| - 1] == xs + ys[..|ys| - 1];
      SumCostsAppend(xs, ys[..|ys| - 1]);
    }
  }

  /** The cost of two groups of employees is the sum of their costs, and
      NaN when either is. */
  lemma LaborCostAppend(a: seq<Employee>, b: seq<Employee>, daysInMonth: nat)
    ensures MonthlyLaborCost(a + b, daysInMonth) ==
      AddCost(MonthlyLaborCost(a, daysInMonth), MonthlyLaborCost(b, daysInMonth))
  {
    var w := WeeksInMonth(daysInMonth);
    CostsAppend(a, b, w);
    SumCostsAppend(Costs(a, w), Costs(b, w));
  }

  lemma MulNonNegative(x: real, y: real)
    requires x >= 0.0 && y >= 0.0
    ensures x * y >= 0.0
  {
  }

  lemma {:induction false} SumCostsNonNegative(cs: seq<Option<real>>)
    requires forall i :: 0 <= i < |cs| ==> cs[i].Some? && cs[i].value >= 0.0
    ensures SumCosts(cs).Some? && SumCosts(cs).value >= 0.0
  {
    if cs != [] {
      SumCostsNonNegative(cs[..|cs| - 1]);
    }
  }

  /** With non-negative wages and shifts that do not end before they
      start, the monthly cost is not negative. */
  lemma LaborCostNonNegative(es: seq<Employee>, daysInMonth: nat)
    requires forall i :: 0 <= i < |es| ==> es[i].hourlyWage >= 0
    requires forall i :: 0 <= i < |es| ==>
      var h := DailyHours(es[i].workStartTime, es[i].workEndTime); h.Some? && h.value >= 0.0
    ensures MonthlyLaborCost(es, daysInMonth).Some? && MonthlyLaborCost(es, daysInMonth).value >= 0.0
  {
    var w := WeeksInMonth(daysInMonth);
    var cs := Costs(es, w);
    forall i | 0 <= i < |es|
      ensures cs[i].Some? && cs[i].value >= 0.0
    {
      CostsAt(es, w, i);
    }
    SumCostsNonNegative(cs);
  }

  // ----- the employee form -----

  /** `handleWorkDayChange` on a list of day keys: a present day leaves
      (every copy of it), an absent one is appended. */
  function ToggledDays(days: seq<string>, day: string): (r: seq<string>)
    ensures day in days ==> day !in r && forall d :: d != day ==> (d in r <==> d in days)
    ensures day !in days ==> r == days + [day]
  {
    if day in days then Filter(days, (d: string) => d != day) else days + [day]
  }

  predicate NoDuplicates(days: seq<string>)
  {
    forall i, j :: 0 <= i < j < |days| ==> days[i] != days[j]
  }

  lemma {:induction false} FilterKeepsNoDuplicates(days: seq<string>, day: string)
    requires NoDuplicates(days)
    ensures NoDuplicates(Filter(days, (d: string) => d != day))
  {
    if days != [] {
      FilterKeepsNoDuplicates(days[1..], day);
      var rest := Filter(days[1..], (d: string) => d != day);
      assert days[0] !in days[1..];
      assert days[0] !in rest;
    }
  }

  /** Appending an absent day keeps the list free of duplicates. */
  lemma AppendKeepsNoDuplicates(days: seq<string>, day: string)
    requires NoDuplicates(days) && day !in days
    ensures NoDuplicates(days + [day])
  {
    var r := days + [day];
    forall i, j | 0 <= i < j < |r|
      ensures r[i] != r[j]
    {
      assert r[i] == days[i];
      if j < |days| {
        assert r[j] == days[j];
      } else {
        assert r[j] == day;
      }
    }
  }

  /** Removing an appended day gives the list back. */
  lemma ToggleAbsentTwice(days: seq<string>, day: string)
    requires day !in days
    ensures ToggledDays(ToggledDays(days, day), day) == days
  {
    var p := (d: string) => d != day;
    FilterAll(days, p);
    assert forall i :: 0 <= i < |days| ==> p(days[i]);
    FilterAppend(days, [day], p);
    assert Filter([day], p) == [];
  }

  /** Toggling a day never creates a duplicate, and toggling it twice
      restores a list that did not have it; a list that had it gets the
      same days back, with that day moved to the end. */
  lemma ToggleDayTwice(days: seq<string>, day: string)
    ensures NoDuplicates(days) ==> NoDuplicates(ToggledDays(days, day))
    ensures day !in days ==> ToggledDays(ToggledDays(days, day), day) == days
    ensures day in days ==> var r := ToggledDays(ToggledDays(days, day), day);
      day in r && r[|r| - 1] == day && forall d :: d in r <==> d in days
  {
    if day in days {
      if NoDuplicates(days) {
        FilterKeepsNoDuplicates(days, day);
      }
    } else {
      if NoDuplicates(days) {
        AppendKeepsNoDuplicates(days, day);
      }
      ToggleAbsentTwice(days, day);
    }
  }

  /** The employee form (`formData`). */
  class EmployeeForm {
    var name: string
    var role: string
    var hourlyWage: string
    var workStartTime: string
    var workEndTime: string
    var workDays: seq<string>

    /** The empty form `resetForm` restores. */
    constructor()
      ensures name == "" && role == "" && hourlyWage == ""
      ensures workStartTime == "" && workEndTime == "" && workDays == []
    {
      name, role, hourlyWage := "", "", "";
      workStartTime, workEndTime := "", "";
      workDays := [];
    }

    /** A work-day checkbox. */
    method HandleWorkDayChange(day: string)
      modifies this`workDays
      ensures workDays == ToggledDays(old(workDays), day)
    {
      if day in workDays {
        workDays := Filter(workDays, (d: string) => d != day);
      } else {
        workDays := workDays + [day];
      }
    }

    /** A change reported by the start-time picker. */
    method SetWorkStartTime(value: string)
      modifies this`workStartTime
      ensures workStartTime == value
    {
      workStartTime := value;
    }

    /** A change reported by the end-time picker. */
    method SetWorkEndTime(value: string)
      modifies this`workEndTime
      ensures workEndTime == value
    {
      workEndTime := value;
    }
  }
}
