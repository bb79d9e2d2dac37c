/**
 * util.go: the timestamp normaliser (a local wall-clock string plus the
 * process's UTC offset becomes an absolute instant), its millisecond view,
 * and the common-flag reader every Action calls first.
 */
module Util {
  import opened Wrappers
  import opened GoLib
  import opened Calendar
  import opened Cli

  /** A wall-clock reading with no zone. */
  datatype DateTime = DateTime(date: Date, hour: int, minute: int, second: int)

  /** Nanoseconds within a second, as a time.Time holds them. */
  type Nanos = n: nat | n < 1_000_000_000

  /** An absolute instant: seconds since 1970-01-01T00:00:00Z and a nanosecond part. */
  datatype Instant = Instant(sec: int, nsec: Nanos)

  predicate ValidDateTime(t: DateTime)
  {
    ValidDate(t.date) && 0 <= t.hour < 24 && 0 <= t.minute < 60 && 0 <= t.second < 60
  }

  /** The wall-clock reading taken as UTC, in seconds since the epoch. */
  function WallSeconds(t: DateTime): int
    requires ValidDateTime(t)
  {
    DaysFromCivil(t.date) * 86400 + t.hour * 3600 + t.minute * 60 + t.second
  }

  // ---------------------------------------------------------------------------
  // The layout 2006-01-02T15:04:05

  predicate DigitsAt(s: string, i: nat, n: nat)
  {
    i + n <= |s| && AllDigits(s[i..i + n])
  }

  function NumAt(s: string, i: nat, n: nat): nat
    requires DigitsAt(s, i, n)
  {
    DigitsValue(s[i..i + n])
  }

  /** Four digits, '-', two, '-', two, 'T', two, ':', two, ':', two, and nothing else. */
  predicate LayoutShape(s: string)
  {
    && |s| == 19
    && DigitsAt(s, 0, 4) && s[4] == '-' && DigitsAt(s, 5, 2) && s[7] == '-' && DigitsAt(s, 8, 2)
    && s[10] == 'T' && DigitsAt(s, 11, 2) && s[13] == ':' && DigitsAt(s, 14, 2) && s[16] == ':'
    && DigitsAt(s, 17, 2)
  }

  /**
   * time.Parse("2006-01-02T15:04:05", s): the strict layout, then the field
   * ranges (month 1-12, the day within that month of that year, hour 0-23,
   * minute and second 0-59).
   */
  function ParseLayout(s: string): (r: Option<DateTime>)
    ensures r.Some? ==> ValidDateTime(r.value) && r.value.date.year < 10000
  {
    if !LayoutShape(s) then None
    else
      var t := DateTime(Date(NumAt(s, 0, 4), NumAt(s, 5, 2), NumAt(s, 8, 2)),
                        NumAt(s, 11, 2), NumAt(s, 14, 2), NumAt(s, 17, 2));
      if ValidDateTime(t) then Some(t) else None
  }

  /** The w-digit zero-padded spelling of n (n below 10^w). */
  function Fixed(n: nat, w: nat): (s: string)
    requires n < Pow10(w)
    ensures |s| == w && AllDigits(s) && DigitsValue(s) == n
  {
    if w == 0 then ""
    else
      var s := Fixed(n / 10, w - 1) + [DigitChar(n % 10)];
      DigitsValueSnoc(Fixed(n / 10, w - 1), DigitChar(n % 10));
      s
  }

  /** Every digit string is the padded spelling of its own value. */
  lemma {:induction false} FixedOfDigits(s: string)
    requires AllDigits(s)
    ensures Fixed(DigitsValue(s), |s|) == s
  {
    if s != [] {
      var init, last := s[..|s| - 1], s[|s| - 1];
      FixedOfDigits(init);
      assert DigitsValue(s) / 10 == DigitsValue(init);
      assert DigitsValue(s) % 10 == DigitValue(last);
      assert s == init + [last];
    }
  }

  /** Six field spellings between the layout's separators. */
  function Assemble(year: string, month: string, day: string, hour: string, minute: string, second: string): string
  {
    year + "-" + month + "-" + day + "T" + hour + ":" + minute + ":" + second
  }

  /** The layout as a formatter: the reference the recogniser is checked against. */
  function FormatLayout(t: DateTime): string
    requires ValidDateTime(t) && t.date.year < 10000
  {
    Assemble(Fixed(t.date.year, 4), Fixed(t.date.month, 2), Fixed(t.date.day, 2),
             Fixed(t.hour, 2), Fixed(t.minute, 2), Fixed(t.second, 2))
  }

  /** The recogniser accepts every formatted valid date-time and reads it back unchanged. */
  lemma ParseFormatLayout(t: DateTime)
    requires ValidDateTime(t) && t.date.year < 10000
    ensures ParseLayout(FormatLayout(t)) == Some(t)
  {
    var s := FormatLayout(t);
    assert s[0..4] == Fixed(t.date.year, 4);
    assert s[5..7] == Fixed(t.date.month, 2);
    assert s[8..10] == Fixed(t.date.day, 2);
    assert s[11..13] == Fixed(t.hour, 2);
    assert s[14..16] == Fixed(t.minute, 2);
    assert s[17..19] == Fixed(t.second, 2);
  }

  /** A string of the layout's shape is its six fields between the layout's separators. */
  lemma LayoutSplit(s: string)
    requires LayoutShape(s)
    ensures s == Assemble(s[0..4], s[5..7], s[8..10], s[11..13], s[14..16], s[17..19])
  {
    var time := s[11..13] + ":" + s[14..16] + ":" + s[17..19];
    assert s[10..] == "T" + time;
    var date := s[0..4] + "-" + s[5..7] + "-" + s[8..10];
    assert s[..10] == date;
    assert s == s[..10] + s[10..];
  }

  /** The recogniser accepts nothing but formatted valid date-times. */
  lemma FormatParseLayout(s: string)
    requires ParseLayout(s).Some?
    ensures FormatLayout(ParseLayout(s).value) == s
  {
    var t := ParseLayout(s).value;
    assert t.date == Date(NumAt(s, 0, 4), NumAt(s, 5, 2), NumAt(s, 8, 2));
    assert t.hour == NumAt(s, 11, 2) && t.minute == NumAt(s, 14, 2) && t.second == NumAt(s, 17, 2);
    FixedOfDigits(s[0..4]);
    FixedOfDigits(s[5..7]);
    FixedOfDigits(s[8..10]);
    FixedOfDigits(s[11..13]);
    FixedOfDigits(s[14..16]);
    FixedOfDigits(s[17..19]);
    LayoutSplit(s);
  }

  // ---------------------------------------------------------------------------
  // The layout 2006-01-02T15:04:05Z07:00

  /**
   * The zone part of time.Parse's "Z07:00": either "Z", or a sign, two digits,
   * ':', two digits, with hours at most 24 and minutes at most 60 (Go's range
   * test uses > rather than >=). The result is the offset in seconds east of UTC.
   */
  function ParseZone(z: string): (r: Option<int>)
    ensures r.Some? ==> -90000 <= r.value <= 90000 && r.value % 60 == 0
  {
    if z == "Z" then Some(0)
    else if |z| == 6 && (z[0] == '+' || z[0] == '-') && DigitsAt(z, 1, 2) && z[3] == ':'
            && DigitsAt(z, 4, 2) && NumAt(z, 1, 2) <= 24 && NumAt(z, 4, 2) <= 60 then
      var east := (NumAt(z, 1, 2) * 60 + NumAt(z, 4, 2)) * 60;
      Some(if z[0] == '-' then -east else east)
    else None
  }

  /**
   * time.Parse("2006-01-02T15:04:05Z07:00", s): the first nineteen characters
   * are the zone-less layout, the rest is the zone; the instant is the wall
   * clock read as UTC, moved back by the zone's offset.
   */
  function ParseZoned(s: string): (r: Option<Instant>)
    ensures r.Some? ==> |s| >= 19 && ParseLayout(s[..19]).Some? && ParseZone(s[19..]).Some?
  {
    if |s| < 19 then None
    else match (ParseLayout(s[..19]), ParseZone(s[19..]))
      case (Some(t), Some(east)) => Some(Instant(WallSeconds(t) - east, 0))
      case _ => None
  }

  /**
   * The suffix "+%02d:%02d" built from the offset (seconds east of UTC) with
   * Go's truncating division: hours offset/3600, minutes
   * offset/60 - (offset/3600)*60. The sign is always a literal '+'.
   */
  function OffsetSuffix(offset: int): string
  {
    var hours := Quot(offset, 3600);
    var minutes := Quot(offset, 60) - hours * 60;
    "+" + Pad2(hours) + ":" + Pad2(minutes)
  }

  const TimestampNotValid := "timestamp not valid: "

  /**
   * parseConvertTimestamp with the process's current UTC offset passed in:
   * check the zone-less layout, append the offset suffix, parse again with a
   * zone. Each failure names the string that was being parsed.
   */
  function ParseConvertTimestamp(raw: string, offset: int): (r: Result<Instant>)
    ensures ParseLayout(raw).None? ==> r == Failure(TimestampNotValid + raw)
    ensures r.Success? ==> ParseLayout(raw).Some? && r.value.nsec == 0
  {
    if ParseLayout(raw).None? then Failure(TimestampNotValid + raw)
    else
      var zoned := raw + OffsetSuffix(offset);
      match ParseZoned(zoned)
      case None => Failure(TimestampNotValid + zoned)
      case Some(t) => Success(t)
  }

  /** get_timestampms: UnixNano() / 1e6, truncated toward zero. */
  function TimestampMs(t: Instant): (ms: int)
    ensures t.sec >= 0 ==> ms == t.sec * 1000 + t.nsec / 1_000_000
  {
    Quot(t.sec * 1_000_000_000 + t.nsec, 1_000_000)
  }

  // ---------------------------------------------------------------------------
  // Properties of the suffix and of the normaliser

  /** The suffix "+" + hh + ":" + mm for two-character fields, position by position. */
  lemma SuffixLayout(hh: string, mm: string)
    requires |hh| == 2 && |mm| == 2
    ensures var z := "+" + hh + ":" + mm;
            |z| == 6 && z[0] == '+' && z[3] == ':' && z[1..3] == hh && z[4..6] == mm
  {
    var z := "+" + hh + ":" + mm;
    assert z[1..3] == hh && z[4..6] == mm;
  }

  /** The two fields of such a suffix, read as digits, are hh and mm. */
  lemma SuffixFields(hh: string, mm: string)
    requires |hh| == 2 && |mm| == 2 && AllDigits(hh) && AllDigits(mm)
    ensures var z := "+" + hh + ":" + mm;
            && DigitsAt(z, 1, 2) && DigitsAt(z, 4, 2)
            && NumAt(z, 1, 2) == DigitsValue(hh) && NumAt(z, 4, 2) == DigitsValue(mm)
  {
    SuffixLayout(hh, mm);
  }

  /** A six-character "+DD:DD" is a zone exactly when its fields are in Go's range. */
  lemma ZoneOfShape(z: string)
    requires |z| == 6 && z[0] == '+' && z[3] == ':' && DigitsAt(z, 1, 2) && DigitsAt(z, 4, 2)
    ensures ParseZone(z) == if NumAt(z, 1, 2) <= 24 && NumAt(z, 4, 2) <= 60
                            then Some((NumAt(z, 1, 2) * 60 + NumAt(z, 4, 2)) * 60)
                            else None
  {
    assert z != "Z";
  }

  /** A "+HH:MM" suffix of two in-range digit pairs reads back as that many seconds east. */
  lemma ZoneOfDigitFields(hh: string, mm: string)
    requires |hh| == 2 && |mm| == 2 && AllDigits(hh) && AllDigits(mm)
    requires DigitsValue(hh) <= 24 && DigitsValue(mm) <= 60
    ensures ParseZone("+" + hh + ":" + mm) == Some((DigitsValue(hh) * 60 + DigitsValue(mm)) * 60)
  {
    SuffixLayout(hh, mm);
    SuffixFields(hh, mm);
    ZoneOfShape("+" + hh + ":" + mm);
  }

  /** Two digits above 24 in the hour field make the suffix no zone (Go's range check). */
  lemma ZoneOfHourAbove24(hh: string, mm: string)
    requires |hh| == 2 && |mm| == 2 && AllDigits(hh) && AllDigits(mm)
    requires DigitsValue(hh) > 24
    ensures ParseZone("+" + hh + ":" + mm) == None
  {
    SuffixLayout(hh, mm);
    SuffixFields(hh, mm);
    ZoneOfShape("+" + hh + ":" + mm);
  }

  /** A field that starts with '-' where a digit belongs makes the suffix no zone. */
  lemma ZoneOfSignedField(hh: string, mm: string)
    requires (|hh| >= 2 && hh[0] == '-') || (|hh| == 2 && |mm| >= 2 && mm[0] == '-')
    ensures ParseZone("+" + hh + ":" + mm) == None
  {
    var z := "+" + hh + ":" + mm;
    if |hh| >= 2 && hh[0] == '-' {
      assert z[1] == '-';
      assert !DigitsAt(z, 1, 2) by {
        if 3 <= |z| {
          assert z[1..3][0] == z[1];
        }
      }
    } else if |z| == 6 {
      assert z[4] == '-';
      assert z[4..6][0] == z[4];
    }
  }

  /** An hour field longer than two characters makes the suffix too long to be a zone. */
  lemma ZoneOfLongHour(hh: string, mm: string)
    requires |hh| > 2 && |mm| >= 2
    ensures ParseZone("+" + hh + ":" + mm) == None
  {
    assert |"+" + hh + ":" + mm| > 6;
  }

  /** For an offset of 0 to 24h59m59s east the suffix reads back as the offset without its seconds. */
  lemma ZoneOfNonNegativeOffset(offset: int)
    requires 0 <= offset < 90000
    ensures ParseZone(OffsetSuffix(offset)) == Some(offset - offset % 60)
  {
    var hours := Quot(offset, 3600);
    var minutes := Quot(offset, 60) - hours * 60;
    EastFields(offset);
    ZoneOfDigitFields(Pad2(hours), Pad2(minutes));
  }

  /** The hour and minute fields of an offset east of UTC, and what they add up to. */
  lemma EastFields(offset: int)
    requires offset >= 0
    ensures var hours := Quot(offset, 3600);
            var minutes := Quot(offset, 60) - hours * 60;
            && hours == offset / 3600 && 0 <= minutes < 60
            && (hours * 60 + minutes) * 60 == offset - offset % 60
  {
    var q := offset / 60;
    assert offset == q * 60 + offset % 60;
    assert q / 60 == offset / 3600;
    assert q == (q / 60) * 60 + q % 60;
  }

  /** Less than a minute west of UTC the hour and minute fields are both zero. */
  lemma ZoneOfSubMinuteWest(offset: int)
    requires -60 < offset < 0
    ensures OffsetSuffix(offset) == "+00:00"
    ensures ParseZone(OffsetSuffix(offset)) == Some(0)
  {
    assert Quot(offset, 3600) == 0 && Quot(offset, 60) == 0;
    assert DigitChar(0) == '0';
    assert Pad2(0) == "00";
    ZoneOfDigitFields(Pad2(0), Pad2(0));
  }

  /**
   * A minute or more west of UTC a negative %02d field follows the '+'
   * ("+-5:00", "+00:-30"), which is no zone at all.
   */
  lemma ZoneOfWestOffset(offset: int)
    requires offset <= -60
    ensures ParseZone(OffsetSuffix(offset)) == None
  {
    var hours := Quot(offset, 3600);
    var minutes := Quot(offset, 60) - hours * 60;
    assert hours < 0 || (hours == 0 && minutes < 0);
    ZoneOfSignedField(Pad2(hours), Pad2(minutes));
  }

  /** From 25 hours east the hour field is out of Go's range (or has three digits). */
  lemma ZoneOfFarEastOffset(offset: int)
    requires offset >= 90000
    ensures ParseZone(OffsetSuffix(offset)) == None
  {
    var hours := Quot(offset, 3600);
    var minutes := Quot(offset, 60) - hours * 60;
    EastFields(offset);
    if hours < 100 {
      ZoneOfHourAbove24(Pad2(hours), Pad2(minutes));
    } else {
      ZoneOfLongHour(Pad2(hours), Pad2(minutes));
    }
  }

  /** A zone appended to a valid zone-less reading is parsed as that reading moved back by the zone. */
  lemma ParseZonedAppend(raw: string, z: string)
    requires ParseLayout(raw).Some?
    ensures ParseZoned(raw + z) == match ParseZone(z)
                                   case Some(east) => Some(Instant(WallSeconds(ParseLayout(raw).value) - east, 0))
                                   case None => None
  {
    var s := raw + z;
    assert s[..19] == raw && s[19..] == z;
  }

  /** For a valid reading, the normaliser's verdict is the verdict on the offset's suffix as a zone. */
  lemma NormalizeByZone(raw: string, offset: int)
    requires ParseLayout(raw).Some?
    ensures ParseConvertTimestamp(raw, offset) ==
              match ParseZone(OffsetSuffix(offset))
              case Some(east) => Success(Instant(WallSeconds(ParseLayout(raw).value) - east, 0))
              case None => Failure(TimestampNotValid + (raw + OffsetSuffix(offset)))
  {
    ParseZonedAppend(raw, OffsetSuffix(offset));
  }

  /**
   * What the normaliser makes of a well-formed wall-clock string: east of UTC
   * (up to 24h59m) the instant is the wall clock read as UTC less the offset,
   * whose seconds are dropped; less than a minute west it is the wall clock
   * read as UTC; otherwise the second parse fails and the error names the
   * suffixed string.
   */
  lemma {:induction false} NormalizeWellFormed(raw: string, offset: int)
    requires ParseLayout(raw).Some?
    ensures var t := ParseLayout(raw).value;
            var r := ParseConvertTimestamp(raw, offset);
            && (0 <= offset < 90000 ==> r == Success(Instant(WallSeconds(t) - (offset - offset % 60), 0)))
            && (-60 < offset < 0 ==> r == Success(Instant(WallSeconds(t), 0)))
            && (offset <= -60 || offset >= 90000 ==>
                  r == Failure(TimestampNotValid + raw + OffsetSuffix(offset)))
  {
    if 0 <= offset < 90000 {
      NormalizeEast(raw, offset);
    } else if -60 < offset < 0 {
      NormalizeSubMinuteWest(raw, offset);
    } else {
      NormalizeRejected(raw, offset);
    }
  }

  /** East of UTC, up to 24h59m59s: the wall clock less the offset without its seconds. */
  lemma NormalizeEast(raw: string, offset: int)
    requires ParseLayout(raw).Some? && 0 <= offset < 90000
    ensures ParseConvertTimestamp(raw, offset)
              == Success(Instant(WallSeconds(ParseLayout(raw).value) - (offset - offset % 60), 0))
  {
    NormalizeByZone(raw, offset);
    ZoneOfNonNegativeOffset(offset);
  }

  /** Less than a minute west: the wall clock read as UTC. */
  lemma NormalizeSubMinuteWest(raw: string, offset: int)
    requires ParseLayout(raw).Some? && -60 < offset < 0
    ensures ParseConvertTimestamp(raw, offset) == Success(Instant(WallSeconds(ParseLayout(raw).value), 0))
  {
    NormalizeByZone(raw, offset);
    ZoneOfSubMinuteWest(offset);
  }

  /** A minute or more west, or 25 hours or more east: the error names the suffixed string. */
  lemma NormalizeRejected(raw: string, offset: int)
    requires ParseLayout(raw).Some? && (offset <= -60 || offset >= 90000)
    ensures ParseConvertTimestamp(raw, offset) == Failure(TimestampNotValid + raw + OffsetSuffix(offset))
  {
    NormalizeByZone(raw, offset);
    if offset <= -60 {
      ZoneOfWestOffset(offset);
    } else {
      ZoneOfFarEastOffset(offset);
    }
  }

  /** For a whole-second instant the milliseconds are the seconds times 1000. */
  lemma TimestampMsWholeSeconds(t: Instant)
    requires t.nsec == 0
    ensures TimestampMs(t) == t.sec * 1000
  {
  }

  // ---------------------------------------------------------------------------
  // parse_params

  datatype Level = Info | Debug | Trace

  /** The log level after parse_params: --trace wins over --debug; neither leaves it as it was. */
  function ChosenLevel(c: Context, current: Level): (l: Level)
    ensures l == Trace <==> c.Bool("trace") || (!c.Bool("debug") && current == Trace)
    ensures !c.Bool("trace") && c.Bool("debug") ==> l == Debug
    ensures l != current ==> c.Bool("trace") || c.Bool("debug")
  {
    if c.Bool("trace") then Trace else if c.Bool("debug") then Debug else current
  }

  /** The configuration path parse_params returns: the --config value when set, otherwise "". */
  function ConfigPath(c: Context): (path: string)
    ensures c.IsSet("config") ==> path == c.Str("config")
    ensures !c.IsSet("config") ==> path == ""
  {
    if c.IsSet("config") then c.Str("config") else ""
  }
}
