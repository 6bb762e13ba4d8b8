/**
 * The text forms of instants the scripts write: `strftime` patterns and the
 * `year=/month=/day=/hour=/minute=` partition path. Each has a parser that
 * reads the fields back; the round-trip lemmas show no information is lost.
 */
module TimeFormat {
  import opened Wrappers
  import opened Digits
  import opened Calendar

  /** `%Y-%m-%dT%H:%M:%S`; the year is zero-padded to four digits. */
  function DateTimeText(f: DateTime): string
  {
    Pad(f.date.year, 4) + ClockTail(f)
  }

  /** The fixed-width part after the year: `-%m-%dT%H:%M:%S`. */
  function ClockTail(f: DateTime): string
  {
    "-" + Pad(f.date.month, 2) + "-" + Pad(f.date.day, 2) + "T" + Pad(f.hour, 2)
    + ":" + Pad(f.minute, 2) + ":" + Pad(f.second, 2)
  }

  /** `%Y-%m-%dT%H:%M:%S.%f0Z`: microseconds, then a literal `0Z`. */
  function IsoMicros(t: Instant): string
  {
    DateTimeText(Fields(t)) + "." + Pad(Fields(t).micro, 6) + "0Z"
  }

  /** `%Y-%m-%dT%H:%M:%S.0000000Z`: whole seconds and a constant seven-zero fraction. */
  function IsoSevenZeros(t: Instant): string
  {
    DateTimeText(Fields(t)) + ".0000000Z"
  }

  /** `%Y-%m-%dT%H:%M:%S`. */
  function IsoSeconds(t: Instant): string
  {
    DateTimeText(Fields(t))
  }

  /** `%Y%m%d`. */
  function CompactDate(t: Instant): string
  {
    Pad(Fields(t).date.year, 4) + Pad(Fields(t).date.month, 2) + Pad(Fields(t).date.day, 2)
  }

  /** `year={Y}/month={MM}/day={DD}/hour={HH}/minute={mm}`; the year is not padded. */
  function PartitionPath(t: Instant): string
  {
    KeyPath(KeyOf(t))
  }

  function KeyPath(key: MinuteKey): string
  {
    "year=" + Dec(key.date.year) + PathTail(key)
  }

  function PathTail(key: MinuteKey): string
  {
    "/month=" + Pad(key.date.month, 2) + "/day=" + Pad(key.date.day, 2)
    + "/hour=" + Pad(key.hour, 2) + "/minute=" + Pad(key.minute, 2)
  }

  /** The instant whose fields these are: the inverse of `Fields`. */
  function InstantOf(f: DateTime): Instant
    requires ValidDate(f.date)
  {
    ((((ToOrdinal(f.date) - 1) * 24 + f.hour) * 60 + f.minute) * 60 + f.second) * MicrosPerSecond + f.micro
  }

  /** Reads `%Y-%m-%dT%H:%M:%S` back; the microsecond field is left 0. */
  function ParseDateTimeText(s: string): Option<DateTime>
  {
    if |s| < 16 then None
    else
      var n := |s|;
      if s[n - 15] != '-' || s[n - 12] != '-' || s[n - 9] != 'T' || s[n - 6] != ':' || s[n - 3] != ':'
      then None
      else Some(DateTime(Date(Parse(s[..n - 15], 10), Parse(s[n - 14..n - 12], 10), Parse(s[n - 11..n - 9], 10)),
                         Parse(s[n - 8..n - 6], 10), Parse(s[n - 5..n - 3], 10), Parse(s[n - 2..], 10), 0))
  }

  /** Reads `%Y-%m-%dT%H:%M:%S.%f0Z` back. */
  function ParseIsoMicros(s: string): Option<DateTime>
  {
    if |s| < 25 || s[|s| - 9] != '.' || s[|s| - 2..] != "0Z" then None
    else match ParseDateTimeText(s[..|s| - 9])
      case None => None
      case Some(f) => Some(f.(micro := Parse(s[|s| - 8..|s| - 2], 10)))
  }

  /** Reads a partition path back into its minute key. */
  function ParsePartitionPath(p: string): Option<MinuteKey>
  {
    if |p| < 40 || p[..5] != "year=" then None
    else
      var n := |p|;
      var tail := p[n - 34..];
      if tail[..7] != "/month=" || tail[9..14] != "/day=" || tail[16..22] != "/hour=" || tail[24..32] != "/minute="
      then None
      else Some(MinuteKey(Date(Parse(p[5..n - 34], 10), Parse(tail[7..9], 10), Parse(tail[14..16], 10)),
                          Parse(tail[22..24], 10), Parse(tail[32..], 10)))
  }

  /** Reads `%Y%m%d` back. */
  function ParseCompactDate(s: string): Option<Date>
  {
    if |s| < 5 then None
    else Some(Date(Parse(s[..|s| - 4], 10), Parse(s[|s| - 4..|s| - 2], 10), Parse(s[|s| - 2..], 10)))
  }

  lemma PadTwoRoundTrip(n: nat)
    requires n < 100
    ensures |Pad(n, 2)| == 2 && Parse(Pad(n, 2), 10) == n
  {
    PadTwo(n);
    ParseFormat(n, 10, 2);
  }

  lemma ClockTailShape(f: DateTime)
    requires f.date.month < 100 && f.date.day < 100 && f.hour < 100 && f.minute < 100 && f.second < 100
    ensures var t := ClockTail(f);
      |t| == 15 && t[0] == '-' && t[3] == '-' && t[6] == 'T' && t[9] == ':' && t[12] == ':'
      && t[1..3] == Pad(f.date.month, 2) && t[4..6] == Pad(f.date.day, 2) && t[7..9] == Pad(f.hour, 2)
      && t[10..12] == Pad(f.minute, 2) && t[13..] == Pad(f.second, 2)
  {
    PadTwo(f.date.month);
    PadTwo(f.date.day);
    PadTwo(f.hour);
    PadTwo(f.minute);
    PadTwo(f.second);
  }

  lemma TailSlices(y: string, t: string)
    requires |y| >= 1 && |t| == 15
    ensures var s := y + t; var n := |s|;
      && s[n - 15] == t[0] && s[n - 12] == t[3] && s[n - 9] == t[6] && s[n - 6] == t[9] && s[n - 3] == t[12]
      && s[..n - 15] == y && s[n - 14..n - 12] == t[1..3] && s[n - 11..n - 9] == t[4..6]
      && s[n - 8..n - 6] == t[7..9] && s[n - 5..n - 3] == t[10..12] && s[n - 2..] == t[13..]
  {
  }

  /** How `ParseDateTimeText` splits a year followed by a well-formed fixed-width tail. */
  lemma ParseDateTimeTextSplit(y: string, t: string)
    requires |y| >= 1 && |t| == 15
    requires t[0] == '-' && t[3] == '-' && t[6] == 'T' && t[9] == ':' && t[12] == ':'
    ensures ParseDateTimeText(y + t)
      == Some(DateTime(Date(Parse(y, 10), Parse(t[1..3], 10), Parse(t[4..6], 10)),
                       Parse(t[7..9], 10), Parse(t[10..12], 10), Parse(t[13..], 10), 0))
  {
    TailSlices(y, t);
  }

  /** `%Y-%m-%dT%H:%M:%S` reads back to the fields it was written from (microseconds aside). */
  lemma DateTimeTextRoundTrip(f: DateTime)
    requires ValidDate(f.date) && f.hour < 24 && f.minute < 60 && f.second < 60
    ensures ParseDateTimeText(DateTimeText(f)) == Some(f.(micro := 0))
  {
    var t := ClockTail(f);
    ClockTailShape(f);
    ParseDateTimeTextSplit(Pad(f.date.year, 4), t);
    ParseFormat(f.date.year, 10, 4);
    PadTwoRoundTrip(f.date.month);
    PadTwoRoundTrip(f.date.day);
    PadTwoRoundTrip(f.hour);
    PadTwoRoundTrip(f.minute);
    PadTwoRoundTrip(f.second);
  }

  /** The record timestamp text of a set of fields reads back to exactly those fields. */
  lemma MicrosTextRoundTrip(f: DateTime)
    requires ValidDate(f.date) && f.hour < 24 && f.minute < 60 && f.second < 60 && f.micro < MicrosPerSecond
    ensures ParseIsoMicros(DateTimeText(f) + "." + Pad(f.micro, 6) + "0Z") == Some(f)
  {
    var d := DateTimeText(f);
    var us := Pad(f.micro, 6);
    assert Pow(10, 6) == 1_000_000;
    FormatExactWidth(f.micro, 10, 6);
    ParseFormat(f.micro, 10, 6);
    DateTimeTextRoundTrip(f);
    var s := d + "." + us + "0Z";
    var n := |s|;
    assert s[..n - 9] == d;
    assert s[n - 9] == '.';
    assert s[n - 8..n - 2] == us;
    assert s[n - 2..] == "0Z";
  }

  /** The timestamp text the log records carry reads back to exactly the fields of its instant. */
  lemma IsoMicrosRoundTrip(t: Instant)
    ensures ParseIsoMicros(IsoMicros(t)) == Some(Fields(t))
  {
    MicrosTextRoundTrip(Fields(t));
  }

  /** `Fields` loses nothing: the instant is recovered from its fields. */
  lemma FieldsInverse(t: Instant)
    ensures InstantOf(Fields(t)) == t
  {
    var s := SecondsOf(t);
    var m := s / 60;
    var h := m / 60;
    var d := h / 24;
    CivilRoundTrip(d);
    assert ToOrdinal(CivilOfDay(d)) - 1 == d;
    assert d * 24 + h % 24 == h;
    assert h * 60 + m % 60 == m;
    assert m * 60 + s % 60 == s;
    assert s * MicrosPerSecond + t % MicrosPerSecond == t;
  }

  /** Two record timestamps are the same text exactly when they are the same instant. */
  lemma IsoMicrosInjective(t1: Instant, t2: Instant)
    ensures IsoMicros(t1) == IsoMicros(t2) <==> t1 == t2
  {
    IsoMicrosRoundTrip(t1);
    IsoMicrosRoundTrip(t2);
    FieldsInverse(t1);
    FieldsInverse(t2);
  }

  /** The fixed-width tail after the year: its separators and its two-digit fields read back. */
  lemma PathTailParts(key: MinuteKey)
    requires key.date.month < 100 && key.date.day < 100 && key.hour < 100 && key.minute < 100
    ensures var tail := PathTail(key);
      && |tail| == 34
      && tail[..7] == "/month=" && tail[9..14] == "/day=" && tail[16..22] == "/hour=" && tail[24..32] == "/minute="
      && Parse(tail[7..9], 10) == key.date.month && Parse(tail[14..16], 10) == key.date.day
      && Parse(tail[22..24], 10) == key.hour && Parse(tail[32..], 10) == key.minute
  {
    var tail := PathTail(key);
    PadTwoRoundTrip(key.date.month);
    PadTwoRoundTrip(key.date.day);
    PadTwoRoundTrip(key.hour);
    PadTwoRoundTrip(key.minute);
    var a, b := "/month=" + Pad(key.date.month, 2), "/day=" + Pad(key.date.day, 2);
    var c, e := "/hour=" + Pad(key.hour, 2), "/minute=" + Pad(key.minute, 2);
    assert tail == a + b + c + e;
    assert tail[..9] == a;
    assert tail[9..16] == b;
    assert tail[16..24] == c;
    assert tail[24..] == e;
  }

  /** A key's path reads back to the key. */
  lemma KeyPathRoundTrip(key: MinuteKey)
    requires key.date.month < 100 && key.date.day < 100 && key.hour < 100 && key.minute < 100
    ensures ParsePartitionPath(KeyPath(key)) == Some(key)
  {
    var y := Dec(key.date.year);
    var tail := PathTail(key);
    PathTailParts(key);
    ParseFormat(key.date.year, 10, 1);
    var p := KeyPath(key);
    var n := |p|;
    assert p[..5] == "year=";
    assert p[5..n - 34] == y;
    assert p[n - 34..] == tail;
  }

  /** The partition path reads back to the minute key of its instant. */
  lemma PartitionPathRoundTrip(t: Instant)
    ensures ParsePartitionPath(PartitionPath(t)) == Some(KeyOf(t))
  {
    KeyPathRoundTrip(KeyOf(t));
  }

  /** Two cursors share a partition directory exactly when they fall in the same minute. */
  lemma PartitionPathIffSameMinute(t1: Instant, t2: Instant)
    ensures PartitionPath(t1) == PartitionPath(t2) <==> MinuteIndex(t1) == MinuteIndex(t2)
  {
    PartitionPathRoundTrip(t1);
    PartitionPathRoundTrip(t2);
    SameKeyIffSameMinute(t1, t2);
  }

  /** `%Y%m%d` of a date reads back to the date. */
  lemma DateDigitsRoundTrip(date: Date)
    requires date.month < 100 && date.day < 100
    ensures ParseCompactDate(Pad(date.year, 4) + Pad(date.month, 2) + Pad(date.day, 2)) == Some(date)
  {
    var y, md := Pad(date.year, 4), Pad(date.month, 2) + Pad(date.day, 2);
    PadTwoRoundTrip(date.month);
    PadTwoRoundTrip(date.day);
    ParseFormat(date.year, 10, 4);
    var s := y + md;
    assert Pad(date.year, 4) + Pad(date.month, 2) + Pad(date.day, 2) == s;
    var n := |s|;
    assert s[..n - 4] == y;
    assert s[n - 4..] == md;
    assert md[..2] == Pad(date.month, 2);
    assert md[2..] == Pad(date.day, 2);
  }

  /** `%Y%m%d` reads back to the date of its instant. */
  lemma CompactDateRoundTrip(t: Instant)
    ensures ParseCompactDate(CompactDate(t)) == Some(Fields(t).date)
  {
    DateDigitsRoundTrip(Fields(t).date);
  }

  /** Instants on different days give different `%Y%m%d` texts. */
  lemma CompactDateIffSameDay(t1: Instant, t2: Instant)
    ensures CompactDate(t1) == CompactDate(t2) <==> DayIndex(t1) == DayIndex(t2)
  {
    CompactDateRoundTrip(t1);
    CompactDateRoundTrip(t2);
    if CompactDate(t1) == CompactDate(t2) {
      CivilInjective(DayIndex(t1), DayIndex(t2));
    }
  }
}
