/**
 * The live clock: the time string `updateClock` builds from the local hour,
 * minute and second, in 24-hour or 12-hour form, and the `use24Hour`
 * preference that the format button flips and the store keeps.
 *
 * Reading the clock (`new Date()`), the date line and the time-zone label are
 * not modelled; the hour, minute and second come in as parameters.
 */
module Clock {
  import opened Wrappers
  import opened Storage
  import opened Decimal

  /** The hour a 12-hour clock shows: `hours % 12`, with 0 shown as 12. */
  function Hour12(hours: nat): (r: nat)
    ensures 1 <= r <= 12
    ensures r % 12 == hours % 12
  {
    var h := hours % 12;
    if h == 0 then 12 else h
  }

  /** "AM" before noon and "PM" from noon on. */
  function Suffix(hours: nat): (r: string)
    ensures |r| == 2 && r[1] == 'M'
    ensures r[0] == 'P' <==> hours >= 12
    ensures r[0] == 'A' <==> hours < 12
  {
    if hours >= 12 then "PM" else "AM"
  }

  /** The hour field: the hour itself in 24-hour form, `Hour12` in 12-hour form. */
  function ShownHour(hours: nat, use24Hour: bool): nat
  {
    if use24Hour then hours else Hour12(hours)
  }

  /** What follows the seconds: nothing in 24-hour form, " AM" or " PM" in 12-hour form. */
  function Tail(hours: nat, use24Hour: bool): string
  {
    if use24Hour then "" else " " + Suffix(hours)
  }

  /** The string `updateClock` puts on the clock for the given time and format. */
  function FormatTime(hours: nat, minutes: nat, seconds: nat, use24Hour: bool): (r: string)
    ensures |r| >= if use24Hour then 8 else 11
    ensures use24Hour ==> r[|r| - 1] != 'M'
    ensures !use24Hour ==> r[|r| - 3..] == " " + Suffix(hours)
  {
    Pad2(ShownHour(hours, use24Hour)) + ":" + Pad2(minutes) + ":" + Pad2(seconds) + Tail(hours, use24Hour)
  }

  /** The two digits `s` shows, if it is exactly two digits. */
  function TwoDigits(s: string): Option<nat>
  {
    if |s| == 2 && AllDigits(s) then Some(Value(s)) else None
  }

  /**
   * Reads a clock string back into (hours, minutes, seconds): `HH:MM:SS` in
   * 24-hour form, `hh:MM:SS AM` or `hh:MM:SS PM` in 12-hour form, where the
   * 12-hour `hh` stands for `hh % 12` before noon and `hh % 12 + 12` after.
   */
  function ParseTime(r: string, use24Hour: bool): Option<(nat, nat, nat)>
  {
    var width := if use24Hour then 8 else 11;
    if |r| != width || r[2] != ':' || r[5] != ':' then None
    else if TwoDigits(r[0..2]).None? || TwoDigits(r[3..5]).None? || TwoDigits(r[6..8]).None? then None
    else
      var h, m, s := TwoDigits(r[0..2]).value, TwoDigits(r[3..5]).value, TwoDigits(r[6..8]).value;
      if use24Hour then Some((h, m, s))
      else if r[8..] == " AM" then Some((h % 12, m, s))
      else if r[8..] == " PM" then Some((h % 12 + 12, m, s))
      else None
  }

  /** The 12-hour mapping, case by case: 0 is 12 AM, 12 is 12 PM, 13..23 drop 12, 1..11 stay. */
  lemma Hour12Cases(hours: nat)
    requires hours < 24
    ensures hours == 0 ==> Hour12(hours) == 12 && Suffix(hours) == "AM"
    ensures 1 <= hours < 12 ==> Hour12(hours) == hours && Suffix(hours) == "AM"
    ensures hours == 12 ==> Hour12(hours) == 12 && Suffix(hours) == "PM"
    ensures 12 < hours ==> Hour12(hours) == hours - 12 && Suffix(hours) == "PM"
  {
  }

  /** Three two-character fields joined by ':' sit at 0..2, 3..5 and 6..8. */
  lemma JoinFields(a: string, b: string, c: string, tail: string)
    requires |a| == 2 && |b| == 2 && |c| == 2
    ensures var r := a + ":" + b + ":" + c + tail;
      && |r| == 8 + |tail| && r[0..2] == a && r[2] == ':' && r[3..5] == b && r[5] == ':'
      && r[6..8] == c && r[8..] == tail
  {
  }

  /**
   * The shape of a clock string for an in-range time: three two-digit fields
   * at 0..2, 3..5 and 6..8 separated by ':', then nothing (24-hour form, eight
   * characters in all) or " AM"/" PM" (12-hour form, eleven characters).
   */
  lemma FormatTimeShape(hours: nat, minutes: nat, seconds: nat, use24Hour: bool)
    requires hours < 24 && minutes < 60 && seconds < 60
    ensures var r := FormatTime(hours, minutes, seconds, use24Hour);
      && |r| == (if use24Hour then 8 else 11)
      && r[2] == ':' && r[5] == ':'
      && r[0..2] == Pad2(ShownHour(hours, use24Hour))
      && r[3..5] == Pad2(minutes) && r[6..8] == Pad2(seconds)
      && r[8..] == Tail(hours, use24Hour)
  {
    var hh := ShownHour(hours, use24Hour);
    assert hh < 24 by { if !use24Hour { Hour12Cases(hours); } }
    assert FormatTime(hours, minutes, seconds, use24Hour)
      == Pad2(hh) + ":" + Pad2(minutes) + ":" + Pad2(seconds) + Tail(hours, use24Hour);
    Pad2Length(hh);
    Pad2Length(minutes);
    Pad2Length(seconds);
    JoinFields(Pad2(hh), Pad2(minutes), Pad2(seconds), Tail(hours, use24Hour));
  }

  /** Every field is two digits, with a leading '0' exactly when its value is below 10. */
  lemma FormatTimeLeadingZeros(hours: nat, minutes: nat, seconds: nat, use24Hour: bool)
    requires hours < 24 && minutes < 60 && seconds < 60
    ensures var r := FormatTime(hours, minutes, seconds, use24Hour);
      && AllDigits(r[0..2]) && AllDigits(r[3..5]) && AllDigits(r[6..8])
      && (r[0] == '0' <==> ShownHour(hours, use24Hour) < 10)
      && (r[3] == '0' <==> minutes < 10)
      && (r[6] == '0' <==> seconds < 10)
  {
    var r := FormatTime(hours, minutes, seconds, use24Hour);
    FormatTimeShape(hours, minutes, seconds, use24Hour);
    Pad2Digits(ShownHour(hours, use24Hour));
    Pad2Digits(minutes);
    Pad2Digits(seconds);
    assert r[0] == r[0..2][0] && r[3] == r[3..5][0] && r[6] == r[6..8][0];
  }

  /** A field below 100 reads back as itself. */
  lemma TwoDigitsOfPad2(n: nat)
    requires n < 100
    ensures TwoDigits(Pad2(n)) == Some(n)
  {
    Pad2Digits(n);
  }

  /** Any string with the clock's layout reads back as the time its fields and suffix stand for. */
  lemma ParseTimeOfLayout(r: string, hours: nat, minutes: nat, seconds: nat, use24Hour: bool)
    requires hours < 24
    requires |r| == (if use24Hour then 8 else 11) && r[2] == ':' && r[5] == ':'
    requires TwoDigits(r[0..2]) == Some(ShownHour(hours, use24Hour))
    requires TwoDigits(r[3..5]) == Some(minutes) && TwoDigits(r[6..8]) == Some(seconds)
    requires r[8..] == Tail(hours, use24Hour)
    ensures ParseTime(r, use24Hour) == Some((hours, minutes, seconds))
  {
    if !use24Hour {
      Hour12Cases(hours);
      if hours >= 12 {
        assert r[8..] == " PM";
      } else {
        assert r[8..] == " AM";
      }
    }
  }

  /** The clock string determines the time: reading it back gives the hour, minute and second shown. */
  lemma ParseFormatTime(hours: nat, minutes: nat, seconds: nat, use24Hour: bool)
    requires hours < 24 && minutes < 60 && seconds < 60
    ensures ParseTime(FormatTime(hours, minutes, seconds, use24Hour), use24Hour) == Some((hours, minutes, seconds))
  {
    var r := FormatTime(hours, minutes, seconds, use24Hour);
    FormatTimeShape(hours, minutes, seconds, use24Hour);
    TwoDigitsOfPad2(ShownHour(hours, use24Hour));
    TwoDigitsOfPad2(minutes);
    TwoDigitsOfPad2(seconds);
    ParseTimeOfLayout(r, hours, minutes, seconds, use24Hour);
  }

  /**
   * Worked examples of the hour field and the suffix, at any minute and
   * second: midnight reads "12 … AM", not "00 … AM"; noon reads "12 … PM";
   * 13h reads "01 … PM".
   */
  lemma TwelveHourExamples(minutes: nat, seconds: nat)
    requires minutes < 60 && seconds < 60
    ensures var r := FormatTime(0, minutes, seconds, false); r[0..2] == "12" && r[8..] == " AM"
    ensures var r := FormatTime(12, minutes, seconds, false); r[0..2] == "12" && r[8..] == " PM"
    ensures var r := FormatTime(13, minutes, seconds, false); r[0..2] == "01" && r[8..] == " PM"
  {
    assert ShownHour(0, false) == 12 && Tail(0, false) == " AM";
    assert ShownHour(12, false) == 12 && Tail(12, false) == " PM";
    assert ShownHour(13, false) == 1 && Tail(13, false) == " PM";
    Pad2Is(12, '1', '2');
    Pad2Is(1, '0', '1');
    FormatTimeShape(0, minutes, seconds, false);
    FormatTimeShape(12, minutes, seconds, false);
    FormatTimeShape(13, minutes, seconds, false);
  }

  /** Worked example: in 24-hour form, midnight's hour reads "00" and there is no suffix. */
  lemma MidnightExample24(minutes: nat, seconds: nat)
    requires minutes < 60 && seconds < 60
    ensures var r := FormatTime(0, minutes, seconds, true); r[0..2] == "00" && |r| == 8
  {
    assert ShownHour(0, true) == 0;
    Pad2Is(0, '0', '0');
    FormatTimeShape(0, minutes, seconds, true);
  }

  /**
   * The startup value of `use24Hour`: `JSON.parse(stored || "false")`, taken
   * for its truthiness. A stored text that is not JSON makes the parse throw
   * at the top level of the script, which then stops: None.
   */
  function LoadUse24Hour(saved: Stored<bool>): (r: Option<bool>)
    ensures r.None? <==> saved.Corrupt?
    ensures saved.Missing? ==> r == Some(false)
    ensures saved.Parsed? ==> r == Some(saved.value)
  {
    match saved
    case Missing => Some(false)
    case Parsed(b) => Some(b)
    case Corrupt => None
  }

  /** The clock's format flag and the "use24Hour" key that persists it. */
  class FormatPreference {
    var use24Hour: bool
    var saved: Stored<bool>

    /** Reloading the page would start the clock in the format it shows now. */
    ghost predicate Valid()
      reads this
    {
      LoadUse24Hour(saved) == Some(use24Hour)
    }

    /** The script's start-up; it only gets past this line when the stored text parses. */
    constructor (saved: Stored<bool>)
      requires !saved.Corrupt?
      ensures Valid() && this.saved == saved
      ensures use24Hour == (saved.Parsed? && saved.value)
    {
      this.saved := saved;
      use24Hour := saved.Parsed? && saved.value;
    }

    /** The format button: flip the flag and store it. */
    method Toggle()
      requires Valid()
      modifies this
      ensures Valid()
      ensures use24Hour == !old(use24Hour)
      ensures saved == Parsed(use24Hour)
    {
      use24Hour := !use24Hour;
      saved := Parsed(use24Hour);
    }

    /** What a clock tick shows for the given local time in the current format. */
    function Display(hours: nat, minutes: nat, seconds: nat): (r: string)
      requires hours < 24 && minutes < 60 && seconds < 60
      reads this
      ensures |r| == if use24Hour then 8 else 11
      ensures ParseTime(r, use24Hour) == Some((hours, minutes, seconds))
    {
      ParseFormatTime(hours, minutes, seconds, use24Hour);
      FormatTimeShape(hours, minutes, seconds, use24Hour);
      FormatTime(hours, minutes, seconds, use24Hour)
    }
  }

  /** Pressing the format button twice brings back the format (and the stored value) the clock had. */
  method ToggleTwice(p: FormatPreference)
    requires p.Valid()
    modifies p
    ensures p.Valid()
    ensures p.use24Hour == old(p.use24Hour)
    ensures LoadUse24Hour(p.saved) == Some(old(p.use24Hour))
  {
    p.Toggle();
    p.Toggle();
  }
}
