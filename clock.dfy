/**
 * Clock readings and the minute keys of the schedule.
 *
 * The bot compares times as strings of the form `YYYY-MM-DD HH:mm`, all in
 * one fixed timezone. A reading of the clock is truncated to the start of its
 * minute and then formatted; the schedule is authored with date-time strings
 * that are parsed and formatted back into the same key space.
 */
module Clock {
  import opened Wrappers

  /** A reading of the wall clock, already converted to the bot's timezone. */
  datatype Instant = Instant(year: int, month: int, day: int,
                             hour: int, minute: int, second: int, millisecond: int)

  /** A calendar minute: what one schedule key denotes. */
  datatype Minute = Minute(year: int, month: int, day: int, hour: int, minute: int)

  /** The ranges the four-digit year and two-digit fields of a key can show. */
  predicate ValidMinute(m: Minute) {
    0 <= m.year <= 9999 && 1 <= m.month <= 12 && 1 <= m.day <= 31 &&
    0 <= m.hour <= 23 && 0 <= m.minute <= 59
  }

  function MinuteOf(t: Instant): Minute {
    Minute(t.year, t.month, t.day, t.hour, t.minute)
  }

  predicate ValidInstant(t: Instant) {
    ValidMinute(MinuteOf(t)) && 0 <= t.second <= 59 && 0 <= t.millisecond <= 999
  }

  /** `moment().startOf('minute')`: seconds and milliseconds become zero. */
  function StartOfMinute(t: Instant): (r: Instant)
    ensures MinuteOf(r) == MinuteOf(t) && r.second == 0 && r.millisecond == 0
    ensures ValidInstant(t) ==> ValidInstant(r)
  {
    t.(second := 0, millisecond := 0)
  }

  // ---------------------------------------------------------------------
  // Digits

  predicate IsDigit(c: char) { '0' <= c <= '9' }

  predicate AllDigits(s: string) {
    forall i :: 0 <= i < |s| ==> IsDigit(s[i])
  }

  function DigitChar(d: int): (c: char)
    requires 0 <= d <= 9
    ensures IsDigit(c)
  {
    ('0' as int + d) as char
  }

  function DigitValue(c: char): int {
    c as int - '0' as int
  }

  /** A number below 100 with a leading zero, as moment's `MM`, `DD`, `HH`, `mm`. */
  function Pad2(n: int): (s: string)
    requires 0 <= n <= 99
    ensures |s| == 2 && AllDigits(s)
  {
    [DigitChar(n / 10), DigitChar(n % 10)]
  }

  /** A number below 10000 with leading zeros, as moment's `YYYY`. */
  function Pad4(n: int): (s: string)
    requires 0 <= n <= 9999
    ensures |s| == 4 && AllDigits(s)
  {
    Pad2(n / 100) + Pad2(n % 100)
  }

  function Num2(s: string): int
    requires |s| == 2
  {
    10 * DigitValue(s[0]) + DigitValue(s[1])
  }

  function Num4(s: string): int
    requires |s| == 4
  {
    100 * Num2(s[..2]) + Num2(s[2..])
  }

  lemma Num2Pad2(n: int)
    requires 0 <= n <= 99
    ensures Num2(Pad2(n)) == n
  {
  }

  lemma Num4Pad4(n: int)
    requires 0 <= n <= 9999
    ensures Num4(Pad4(n)) == n
  {
    var s := Pad4(n);
    assert s[..2] == Pad2(n / 100);
    assert s[2..] == Pad2(n % 100);
    Num2Pad2(n / 100);
    Num2Pad2(n % 100);
  }

  lemma Pad2Num2(s: string)
    requires |s| == 2 && AllDigits(s)
    ensures 0 <= Num2(s) <= 99 && Pad2(Num2(s)) == s
  {
    assert IsDigit(s[0]) && IsDigit(s[1]);
    var n := Num2(s);
    assert n / 10 == DigitValue(s[0]) && n % 10 == DigitValue(s[1]);
  }

  lemma Pad4Num4(s: string)
    requires |s| == 4 && AllDigits(s)
    ensures 0 <= Num4(s) <= 9999 && Pad4(Num4(s)) == s
  {
    var hi, lo := s[..2], s[2..];
    assert AllDigits(hi) && AllDigits(lo) by {
      forall i | 0 <= i < 2 ensures IsDigit(hi[i]) && IsDigit(lo[i]) {
        assert hi[i] == s[i] && lo[i] == s[i + 2];
      }
    }
    Pad2Num2(hi);
    Pad2Num2(lo);
    var n := Num4(s);
    assert n / 100 == Num2(hi) && n % 100 == Num2(lo);
    assert s == hi + lo;
  }

  // ---------------------------------------------------------------------
  // Keys

  /** moment's `format('YYYY-MM-DD HH:mm')` of a minute. */
  function Format(m: Minute): (s: string)
    requires ValidMinute(m)
    ensures |s| == 16
  {
    Pad4(m.year) + "-" + Pad2(m.month) + "-" + Pad2(m.day) + " " +
    Pad2(m.hour) + ":" + Pad2(m.minute)
  }

  /** True of a string laid out as `DDDD-DD-DD DD:DD` with digits D. */
  predicate WellFormedKey(s: string) {
    |s| == 16 && s[4] == '-' && s[7] == '-' && s[10] == ' ' && s[13] == ':' &&
    AllDigits(s[0..4]) && AllDigits(s[5..7]) && AllDigits(s[8..10]) &&
    AllDigits(s[11..13]) && AllDigits(s[14..16])
  }

  /**
   * Reads a `YYYY-MM-DD HH:mm` string back into a minute; `None` for any
   * other layout and for out-of-range fields (moment's invalid date).
   */
  function ParseKey(s: string): (r: Option<Minute>)
    ensures r.Some? ==> ValidMinute(r.value) && WellFormedKey(s)
  {
    if WellFormedKey(s) then
      var m := Minute(Num4(s[0..4]), Num2(s[5..7]), Num2(s[8..10]),
                      Num2(s[11..13]), Num2(s[14..16]));
      if ValidMinute(m) then Some(m) else None
    else None
  }

  lemma FormatSlices(m: Minute)
    requires ValidMinute(m)
    ensures var s := Format(m);
      s[0..4] == Pad4(m.year) && s[4] == '-' && s[5..7] == Pad2(m.month) &&
      s[7] == '-' && s[8..10] == Pad2(m.day) && s[10] == ' ' &&
      s[11..13] == Pad2(m.hour) && s[13] == ':' && s[14..16] == Pad2(m.minute)
  {
  }

  /** Formatting a valid minute and parsing it back gives that minute. */
  lemma {:induction false} ParseFormat(m: Minute)
    requires ValidMinute(m)
    ensures ParseKey(Format(m)) == Some(m)
  {
    FormatSlices(m);
    Num4Pad4(m.year);
    Num2Pad2(m.month);
    Num2Pad2(m.day);
    Num2Pad2(m.hour);
    Num2Pad2(m.minute);
  }

  /** A string that parses is exactly the format of what it parses to. */
  lemma {:induction false} FormatParse(s: string)
    requires ParseKey(s).Some?
    ensures Format(ParseKey(s).value) == s
  {
    var m := ParseKey(s).value;
    Pad4Num4(s[0..4]);
    Pad2Num2(s[5..7]);
    Pad2Num2(s[8..10]);
    Pad2Num2(s[11..13]);
    Pad2Num2(s[14..16]);
    FormatSlices(m);
    var f := Format(m);
    assert f[0..4] == s[0..4] && f[5..7] == s[5..7] && f[8..10] == s[8..10] &&
           f[11..13] == s[11..13] && f[14..16] == s[14..16];
    forall i | 0 <= i < 16 ensures f[i] == s[i] {
      if i < 4 { assert f[i] == f[0..4][i]; assert s[i] == s[0..4][i]; }
      else if 5 <= i < 7 { assert f[i] == f[5..7][i - 5]; assert s[i] == s[5..7][i - 5]; }
      else if 8 <= i < 10 { assert f[i] == f[8..10][i - 8]; assert s[i] == s[8..10][i - 8]; }
      else if 11 <= i < 13 { assert f[i] == f[11..13][i - 11]; assert s[i] == s[11..13][i - 11]; }
      else if 14 <= i { assert f[i] == f[14..16][i - 14]; assert s[i] == s[14..16][i - 14]; }
    }
  }

  /** Distinct valid minutes have distinct keys. */
  lemma {:induction false} FormatInjective(a: Minute, b: Minute)
    requires ValidMinute(a) && ValidMinute(b)
    ensures Format(a) == Format(b) <==> a == b
  {
    if Format(a) == Format(b) {
      ParseFormat(a);
      ParseFormat(b);
    }
  }

  /** What moment renders for a date-time it could not parse. */
  const InvalidDate: string := "Invalid date"

  /**
   * The schedule's `key` helper: parse an authored date-time and format it
   * as a minute key.
   */
  function Key(d: string): (k: string)
    ensures ParseKey(d).Some? ==> k == Format(ParseKey(d).value)
    ensures ParseKey(d).None? ==> k == InvalidDate
  {
    match ParseKey(d)
    case Some(m) => Format(m)
    case None => InvalidDate
  }

  /** The key of the current minute, as `checkTimeMatch` computes it. */
  function NowKey(t: Instant): (k: string)
    requires ValidInstant(t)
    ensures ParseKey(k) == Some(MinuteOf(t))
  {
    ParseFormat(MinuteOf(t));
    Format(MinuteOf(StartOfMinute(t)))
  }

  /** Two readings give the same key exactly when they fall in the same minute. */
  lemma {:induction false} SameKeyIffSameMinute(t1: Instant, t2: Instant)
    requires ValidInstant(t1) && ValidInstant(t2)
    ensures NowKey(t1) == NowKey(t2) <==> MinuteOf(t1) == MinuteOf(t2)
  {
    FormatInjective(MinuteOf(t1), MinuteOf(t2));
  }

  /**
   * A reading matches an authored date-time exactly when the date-time parses
   * to the reading's minute; in particular it never matches `Invalid date`.
   */
  lemma {:induction false} KeyMatchesNow(d: string, t: Instant)
    requires ValidInstant(t)
    ensures Key(d) == NowKey(t) <==> ParseKey(d) == Some(MinuteOf(t))
  {
    var m := MinuteOf(t);
    match ParseKey(d)
    case Some(p) => FormatInjective(p, m);
    case None =>
      assert NowKey(t)[0] != InvalidDate[0];
  }

  /** Parsing a canonical key and formatting it again changes nothing. */
  lemma {:induction false} KeyIdempotent(m: Minute)
    requires ValidMinute(m)
    ensures Key(Format(m)) == Format(m)
  {
    ParseFormat(m);
  }
}
