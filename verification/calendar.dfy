/**
 * The driver's availability calendar: the hour-slot list, the date picker's
 * selectable range, the table of saved start/end hours per date, the
 * "upcoming" summary and its hours badge.
 *
 * Instants are milliseconds on the local clock; a date key (the
 * `yyyy-MM-dd` string of the source) is the number of the local day,
 * `instant / MsPerDay`, which determines that string and is determined by it.
 */
module Calendar {
  import opened Common

  const MsPerDay: int := 86_400_000
  /** How far ahead the date picker lets the driver go. */
  const HorizonDays: int := 90
  /** How many entries the upcoming summary lists. */
  const UpcomingLimit: nat := 5

  // ---------------------------------------------------------------------------
  // Hour strings

  predicate IsDigit(c: char) { '0' <= c <= '9' }

  predicate AllDigits(s: string) { forall i :: 0 <= i < |s| ==> IsDigit(s[i]) }

  function DigitChar(d: nat): (c: char)
    requires d < 10
    ensures IsDigit(c) && c as int - '0' as int == d
  {
    "0123456789"[d]
  }

  /** `n.toString()` for a non-negative integer. */
  function Decimal(n: nat): (s: string)
    ensures |s| >= 1 && AllDigits(s)
    ensures n < 10 <==> |s| == 1
    ensures 10 <= n < 100 ==> |s| == 2
  {
    if n < 10 then [DigitChar(n)] else Decimal(n / 10) + [DigitChar(n % 10)]
  }

  /** `s.padStart(width, fill)`: prefix copies of `fill` until `s` is `width` long. */
  function PadStart(s: string, width: nat, fill: char): (r: string)
    ensures |r| == if |s| >= width then |s| else width
    ensures r[|r| - |s|..] == s
    ensures forall i :: 0 <= i < |r| - |s| ==> r[i] == fill
    decreases width - |s|
  {
    if |s| >= width then s else PadStart([fill] + s, width, fill)
  }

  /** Entry `i` of the time-slot list: the hour, two digits, then ":00". */
  function Slot(i: nat): (r: string)
  {
    PadStart(Decimal(i), 2, '0') + ":00"
  }

  /** The 24 choices of the start and end selects (`Array.from` over 0..23). */
  function TimeSlots(): seq<string>
  {
    seq(24, i requires 0 <= i < 24 => Slot(i))
  }

  /** There are 24 slots; slot `i` is "HH:00" with two digits that read back as `i`. */
  lemma TimeSlotsSpec()
    ensures |TimeSlots()| == 24
    ensures forall i :: 0 <= i < 24 ==>
      |TimeSlots()[i]| == 5 && TimeSlots()[i][2..] == ":00" && AllDigits(TimeSlots()[i][..2])
    ensures forall i :: 0 <= i < 24 ==> HourOf(TimeSlots()[i]) == Some(i)
  {
    forall i | 0 <= i < 24
      ensures |TimeSlots()[i]| == 5 && TimeSlots()[i][2..] == ":00" && AllDigits(TimeSlots()[i][..2])
      ensures HourOf(TimeSlots()[i]) == Some(i)
    {
      SlotShape(i);
      SlotRoundTrip(i);
    }
  }

  /** `s.split(':')[0]`: the text before the first colon, or all of `s`. */
  function BeforeColon(s: string): (r: string)
    ensures r <= s && ':' !in r
    ensures |r| < |s| ==> s[|r|] == ':'
  {
    if s == [] || s[0] == ':' then [] else [s[0]] + BeforeColon(s[1..])
  }

  /** The longest prefix of `s` made of decimal digits. */
  function LeadingDigits(s: string): (r: string)
    ensures r <= s && AllDigits(r)
    ensures |r| < |s| ==> !IsDigit(s[|r|])
  {
    if s == [] || !IsDigit(s[0]) then [] else [s[0]] + LeadingDigits(s[1..])
  }

  /** The number a digit string denotes. */
  function DigitsValue(ds: string): (v: nat)
    requires AllDigits(ds)
  {
    if ds == [] then 0
    else DigitsValue(ds[..|ds| - 1]) * 10 + (ds[|ds| - 1] as int - '0' as int)
  }

  /** `parseInt(s)` on its leading digits; `None` is `NaN`. */
  function ParseInt(s: string): (r: Option<int>)
    ensures r.Some? <==> s != [] && IsDigit(s[0])
    ensures r.Some? ==> r.value >= 0
  {
    var ds := LeadingDigits(s);
    if ds == [] then None else Some(DigitsValue(ds))
  }

  /** The hour of an "HH:MM" string, as the hours badge reads it. */
  function HourOf(s: string): (r: Option<int>)
    ensures r.Some? ==> r.value >= 0
  {
    ParseInt(BeforeColon(s))
  }

  /** Decimal digits read back as the number they came from. */
  lemma {:induction false} DecimalRoundTrip(n: nat)
    ensures DigitsValue(Decimal(n)) == n
  {
    if n >= 10 {
      DecimalRoundTrip(n / 10);
      var s := Decimal(n);
      assert s[..|s| - 1] == Decimal(n / 10);
    }
  }

  /** A leading zero does not change the value of a digit string. */
  lemma {:induction false} LeadingZero(ds: string)
    requires AllDigits(ds)
    ensures DigitsValue(['0'] + ds) == DigitsValue(ds)
    decreases |ds|
  {
    if ds != [] {
      var front := ds[..|ds| - 1];
      LeadingZero(front);
      assert (['0'] + ds)[..|ds|] == ['0'] + front;
    }
  }

  /** Zero padding does not change the value of a digit string. */
  lemma {:induction false} ZeroPadValue(ds: string, width: nat)
    requires AllDigits(ds)
    ensures AllDigits(PadStart(ds, width, '0'))
    ensures DigitsValue(PadStart(ds, width, '0')) == DigitsValue(ds)
    decreases width - |ds|
  {
    if |ds| < width {
      LeadingZero(ds);
      ZeroPadValue(['0'] + ds, width);
    }
  }

  /** The text before the first colon, when the colon follows a colon-free prefix. */
  lemma {:induction false} BeforeColonOf(head: string, rest: string)
    requires ':' !in head
    ensures BeforeColon(head + [':'] + rest) == head
  {
    if head != [] {
      BeforeColonOf(head[1..], rest);
      assert (head + [':'] + rest)[1..] == head[1..] + [':'] + rest;
    }
  }

  /** A digit string is its own digit prefix. */
  lemma {:induction false} LeadingDigitsOfDigits(ds: string)
    requires AllDigits(ds)
    ensures LeadingDigits(ds) == ds
  {
    if ds != [] {
      LeadingDigitsOfDigits(ds[1..]);
    }
  }

  /** The hour read from digits followed by a colon is the value of those digits. */
  lemma HourOfDigitsColon(ds: string, rest: string)
    requires ds != [] && AllDigits(ds)
    ensures HourOf(ds + [':'] + rest) == Some(DigitsValue(ds))
  {
    assert ':' !in ds by {
      forall i | 0 <= i < |ds| ensures ds[i] != ':' { assert IsDigit(ds[i]); }
    }
    BeforeColonOf(ds, rest);
    LeadingDigitsOfDigits(ds);
  }

  /** Slot `i` reads back as hour `i`: the hours badge and the selects agree. */
  lemma SlotRoundTrip(i: nat)
    ensures HourOf(Slot(i)) == Some(i)
  {
    PaddedDecimal(i);
    HourOfDigitsThenZeroMinutes(PadStart(Decimal(i), 2, '0'));
  }

  /** The hour read from digits followed by ":00" is the value of those digits. */
  lemma HourOfDigitsThenZeroMinutes(ds: string)
    requires ds != [] && AllDigits(ds)
    ensures HourOf(ds + ":00") == Some(DigitsValue(ds))
  {
    assert ":00" == [':'] + "00";
    assert ds + ([':'] + "00") == ds + [':'] + "00";
    HourOfDigitsColon(ds, "00");
  }

  /** The zero-padded decimal of `i` is a digit string denoting `i`. */
  lemma PaddedDecimal(i: nat)
    ensures PadStart(Decimal(i), 2, '0') != []
    ensures AllDigits(PadStart(Decimal(i), 2, '0'))
    ensures DigitsValue(PadStart(Decimal(i), 2, '0')) == i
  {
    ZeroPadValue(Decimal(i), 2);
    DecimalRoundTrip(i);
  }

  /** An hour below 24 gives a five-character "HH:00" slot. */
  lemma SlotShape(i: nat)
    requires i < 24
    ensures |Slot(i)| == 5 && Slot(i)[2..] == ":00" && AllDigits(Slot(i)[..2])
  {
    var d := Decimal(i);
    assert |d| <= 2;
    var p := PadStart(d, 2, '0');
    ZeroPadValue(d, 2);
    assert |p| == 2;
    var slot := p + ":00";
    assert Slot(i) == slot;
    assert slot[..2] == p;
    assert slot[2..] == ":00";
  }

  // ---------------------------------------------------------------------------
  // Date picker

  /** The picker's `disabled` test: before now or after now plus 90 days. */
  predicate Disabled(date: int, now: int)
  {
    date < now || date > now + HorizonDays * MsPerDay
  }

  /** The first day whose midnight the picker offers, given the time of day of `now`. */
  function FirstSelectableDay(today: int, timeOfDay: int): int
  {
    if timeOfDay == 0 then today else today + 1
  }

  /**
   * The picker hands out days at local midnight. Unless it is exactly
   * midnight, today's midnight already lies before now, so the offered days
   * are tomorrow through today + 90.
   */
  lemma SelectableDays(today: int, timeOfDay: int, day: int)
    requires 0 <= timeOfDay < MsPerDay
    ensures !Disabled(day * MsPerDay, today * MsPerDay + timeOfDay)
        <==> FirstSelectableDay(today, timeOfDay) <= day <= today + HorizonDays
  {
    var now := today * MsPerDay + timeOfDay;
    if day < FirstSelectableDay(today, timeOfDay) {
      assert day * MsPerDay <= (today + 1) * MsPerDay - MsPerDay;
    }
    if day > today + HorizonDays {
      assert day * MsPerDay >= (today + HorizonDays + 1) * MsPerDay;
    }
    if FirstSelectableDay(today, timeOfDay) <= day <= today + HorizonDays {
      assert day * MsPerDay <= (today + HorizonDays) * MsPerDay;
      assert timeOfDay > 0 ==> day * MsPerDay >= (today + 1) * MsPerDay;
    }
  }

  /** The local day an instant falls on (the `format(date, 'yyyy-MM-dd')` key). */
  function DayKey(instant: int): int
  {
    instant / MsPerDay
  }

  // ---------------------------------------------------------------------------
  // Saved schedules

  /** A saved start/end pair of hour strings. */
  datatype Window = Window(start: string, end: string)

  /**
   * The `schedules` object: its keys in insertion order (the order
   * `Object.entries` lists them in) and the window saved for each.
   */
  datatype Schedules = Schedules(order: seq<int>, windows: map<int, Window>)

  ghost predicate ValidSchedules(t: Schedules)
  {
    && (forall i, j :: 0 <= i < j < |t.order| ==> t.order[i] != t.order[j])
    && (forall k :: k in t.order <==> k in t.windows)
  }

  const NoSchedules: Schedules := Schedules([], map[])

  /** `getSchedule`: the window saved for a day, `None` when there is none. */
  function Lookup(t: Schedules, day: int): Option<Window>
  {
    if day in t.windows then Some(t.windows[day]) else None
  }

  /** `hasSchedule`: whether a window is saved for a day. */
  predicate Has(t: Schedules, day: int)
  {
    day in t.windows
  }

  /** A day has a schedule exactly when looking it up finds one. */
  lemma HasIffLookup(t: Schedules, day: int)
    ensures Has(t, day) <==> Lookup(t, day).Some?
  {
  }

  /**
   * `saveSchedule`: store `w` under `day`, replacing any earlier window. No
   * pair is rejected; a start at or after the end is stored as given. A new
   * key goes to the end of the order; an existing key keeps its place.
   */
  function Save(t: Schedules, day: int, w: Window): (r: Schedules)
    ensures ValidSchedules(t) ==> ValidSchedules(r)
    ensures Lookup(r, day) == Some(w)
    ensures forall k :: k != day ==> Lookup(r, k) == Lookup(t, k)
    ensures r.order == if day in t.windows then t.order else t.order + [day]
  {
    if day in t.windows then Schedules(t.order, t.windows[day := w])
    else Schedules(t.order + [day], t.windows[day := w])
  }

  /** Saving a day twice keeps only the second window. */
  lemma SaveTwice(t: Schedules, day: int, w1: Window, w2: Window)
    ensures Save(Save(t, day, w1), day, w2) == Save(t, day, w2)
  {
    assert t.windows[day := w1][day := w2] == t.windows[day := w2];
  }

  /** The first `n` elements, or all of them: `slice(0, n)`. */
  function Take<T>(s: seq<T>, n: nat): (r: seq<T>)
    ensures |r| == if |s| <= n then |s| else n
    ensures forall i :: 0 <= i < |r| ==> r[i] == s[i]
  {
    if |s| <= n then s else s[..n]
  }

  /** The saved days on or after `today`, in the table's order. */
  function DaysFrom(t: Schedules, today: int): (r: seq<int>)
    ensures IsSubsequence(r, t.order)
    ensures forall k :: k in r <==> k in t.order && k >= today
  {
    Where(t.order, (k: int) => k >= today)
  }

  /**
   * The "Upcoming Schedule" list: the first five saved days on or after
   * today, in the table's order (not sorted by date), with their windows.
   */
  function Upcoming(t: Schedules, today: int): (r: seq<(int, Window)>)
    requires ValidSchedules(t)
    ensures |r| == if |DaysFrom(t, today)| <= UpcomingLimit then |DaysFrom(t, today)| else UpcomingLimit
    ensures forall i :: 0 <= i < |r| ==> r[i].0 >= today && Lookup(t, r[i].0) == Some(r[i].1)
    ensures forall i :: 0 <= i < |r| ==> r[i].0 == DaysFrom(t, today)[i]
  {
    DaysFromSaved(t, today);
    FirstWithWindows(t, DaysFrom(t, today), today)
  }

  /** The first five of `days`, each paired with its saved window. */
  function FirstWithWindows(t: Schedules, days: seq<int>, today: int): (r: seq<(int, Window)>)
    requires forall i :: 0 <= i < |days| ==> days[i] in t.windows && days[i] >= today
    ensures |r| == if |days| <= UpcomingLimit then |days| else UpcomingLimit
    ensures forall i :: 0 <= i < |r| ==> r[i].0 >= today && Lookup(t, r[i].0) == Some(r[i].1)
    ensures forall i :: 0 <= i < |r| ==> r[i].0 == days[i]
  {
    WithWindows(t, Take(days, UpcomingLimit))
  }

  /** Every day listed from the table has a saved window and is not before today. */
  lemma DaysFromSaved(t: Schedules, today: int)
    requires ValidSchedules(t)
    ensures forall i :: 0 <= i < |DaysFrom(t, today)| ==>
      DaysFrom(t, today)[i] in t.windows && DaysFrom(t, today)[i] >= today
  {
    var all := DaysFrom(t, today);
    forall i | 0 <= i < |all|
      ensures all[i] in t.windows && all[i] >= today
    {
      assert all[i] in all;
    }
  }

  /** Each listed day paired with its saved window. */
  function WithWindows(t: Schedules, days: seq<int>): (r: seq<(int, Window)>)
    requires forall i :: 0 <= i < |days| ==> days[i] in t.windows
    ensures |r| == |days|
    ensures forall i :: 0 <= i < |r| ==> r[i].0 == days[i] && r[i].1 == t.windows[days[i]]
  {
    seq(|days|, i requires 0 <= i < |days| => (days[i], t.windows[days[i]]))
  }

  /** A list shorter than five leaves out no saved day on or after today. */
  lemma UpcomingComplete(t: Schedules, today: int, day: int)
    requires ValidSchedules(t)
    requires |Upcoming(t, today)| < UpcomingLimit
    requires day in t.windows && day >= today
    ensures exists i :: 0 <= i < |Upcoming(t, today)| && Upcoming(t, today)[i] == (day, t.windows[day])
  {
    var r := Upcoming(t, today);
    var days := DaysFrom(t, today);
    assert day in days;
    var i :| 0 <= i < |days| && days[i] == day;
    assert r[i].0 == day;
  }

  /** "No scheduled hours yet" is shown when the table has no keys at all. */
  predicate ShowsNoSchedulesMessage(t: Schedules)
  {
    |t.order| == 0
  }

  /**
   * The message depends on the whole table, not on the upcoming list: it is
   * shown exactly when nothing is saved, and then the list is empty too.
   */
  lemma NoSchedulesMessage(t: Schedules, today: int)
    requires ValidSchedules(t)
    ensures ShowsNoSchedulesMessage(t) <==> t.windows == map[]
    ensures ShowsNoSchedulesMessage(t) ==> Upcoming(t, today) == []
  {
    if |t.order| == 0 {
      assert forall k :: k !in t.windows;
      assert t.windows == map[];
    } else {
      assert t.order[0] in t.order;
    }
  }

  /** With only a past day saved, neither the message nor any upcoming entry is shown. */
  lemma OnlyPastDaySaved()
    ensures Upcoming(Save(NoSchedules, 10, Window("09:00", "17:00")), 11) == []
    ensures !ShowsNoSchedulesMessage(Save(NoSchedules, 10, Window("09:00", "17:00")))
  {
    var t := Save(NoSchedules, 10, Window("09:00", "17:00"));
    assert t.order == [10];
    assert DaysFrom(t, 11) == [];
  }

  /** The badge's "N hours": end hour minus start hour; `None` where that is `NaN`. */
  function HoursBadge(w: Window): Option<int>
  {
    match (HourOf(w.end), HourOf(w.start))
    case (Some(e), Some(s)) => Some(e - s)
    case _ => None
  }

  /** For windows picked from the slot list the badge is end hour minus start hour, zero or negative included. */
  lemma HoursBadgeOfSlots(start: nat, end: nat)
    ensures HoursBadge(Window(Slot(start), Slot(end))) == Some(end - start)
    ensures end <= start ==> HoursBadge(Window(Slot(start), Slot(end))).value <= 0
  {
    var w := Window(Slot(start), Slot(end));
    SlotRoundTrip(start);
    SlotRoundTrip(end);
    HoursBadgeOfHours(w, start, end);
  }

  /** The badge of a window whose two hours both parse. */
  lemma HoursBadgeOfHours(w: Window, s: int, e: int)
    requires HourOf(w.start) == Some(s) && HourOf(w.end) == Some(e)
    ensures HoursBadge(w) == Some(e - s)
  {
  }

  // ---------------------------------------------------------------------------
  // The screen

  /** The calendar screen's state: the picked date, the saved table and the draft pair. */
  class CalendarScreen {
    var selected: int
    var schedules: Schedules
    var draft: Window

    ghost predicate Valid()
      reads this
    {
      ValidSchedules(schedules)
    }

    /** Opened at instant `now`: today picked, nothing saved, draft 09:00 to 17:00. */
    constructor (now: int)
      ensures Valid()
      ensures selected == now && schedules == NoSchedules && draft == Window("09:00", "17:00")
    {
      selected := now;
      schedules := NoSchedules;
      draft := Window("09:00", "17:00");
    }

    function HasSchedule(date: int): bool
      reads this
    {
      Has(schedules, DayKey(date))
    }

    function GetSchedule(date: int): Option<Window>
      reads this
    {
      Lookup(schedules, DayKey(date))
    }

    /** The picker's `onSelect`: a date replaces the selection; a cleared selection is ignored. */
    method SelectDate(date: Option<int>)
      modifies this
      ensures selected == if date.Some? then date.value else old(selected)
      ensures schedules == old(schedules) && draft == old(draft)
    {
      if date.Some? {
        selected := date.value;
      }
    }

    method SetDraftStart(start: string)
      modifies this
      ensures draft == old(draft).(start := start)
      ensures selected == old(selected) && schedules == old(schedules)
    {
      draft := draft.(start := start);
    }

    method SetDraftEnd(end: string)
      modifies this
      ensures draft == old(draft).(end := end)
      ensures selected == old(selected) && schedules == old(schedules)
    {
      draft := draft.(end := end);
    }

    /** "Save Schedule": the draft is stored under the selected day, whatever the hours. */
    method SaveSchedule()
      requires Valid()
      modifies this
      ensures Valid()
      ensures schedules == Save(old(schedules), DayKey(selected), draft)
      ensures GetSchedule(selected) == Some(draft) && HasSchedule(selected)
      ensures forall d :: DayKey(d) != DayKey(selected) ==> GetSchedule(d) == old(GetSchedule(d))
      ensures selected == old(selected) && draft == old(draft)
    {
      schedules := Save(schedules, DayKey(selected), draft);
    }

    /** The upcoming summary for the local day `today`. */
    function UpcomingNow(today: int): seq<(int, Window)>
      reads this
      requires Valid()
    {
      Upcoming(schedules, today)
    }
  }
}
