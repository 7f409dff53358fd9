/**
  The text the logger writes to its SD card: one CSV line per sample, a header
  line, and the daily file name.  Each format is paired with a reader that
  takes the text back to the values it was written from.
 */
module Csv {
  import opened Wrappers
  import opened Decimal
  import opened Clock

  /** One sample as it is logged: the cached time and the three integer readings. */
  datatype Record = Record(at: Stamp, x: int, y: int, z: int)

  /** `"%d/%d/%d %d:%d:%d"` of year, month, day, hour, minute and second. */
  function DateText(t: Stamp): string {
    Text(t.year) + "/" + Text(t.month) + "/" + Text(t.day) + " " +
    Text(t.hour) + ":" + Text(t.minute) + ":" + Text(t.second)
  }

  /** `"%s,%d,%d,%d,\n"` of the date text and the three readings. */
  function Line(r: Record): string {
    DateText(r.at) + "," + Text(r.x) + "," + Text(r.y) + "," + Text(r.z) + ",\n"
  }

  /**
    The header: `"%s,%s,%s,%s,"` of Date, X, Y and Z, then the line end that
    the print library's `println` writes (carriage return, line feed).
   */
  const Header: string := "Date,X,Y,Z," + "\r\n"

  /** `"/test%d%d%d.csv"` of year, month and day. */
  function FileName(year: int, month: int, day: int): (name: string)
    ensures |name| >= 12
    ensures name[..5] == "/test" && name[|name| - 4..] == ".csv"
  {
    "/test" + Text(year) + Text(month) + Text(day) + ".csv"
  }

  // ---------- Splitting and joining on a separator ----------

  /** The pieces of `s` between occurrences of `sep`. */
  function Split(s: string, sep: char): (r: seq<string>)
    ensures |r| >= 1
    ensures forall i :: 0 <= i < |r| ==> sep !in r[i]
    decreases |s|
  {
    if s == [] then [""]
    else
      var rest := Split(s[1..], sep);
      if s[0] == sep then [""] + rest else [[s[0]] + rest[0]] + rest[1..]
  }

  /** The pieces written one after another with `sep` between neighbours. */
  function Join(parts: seq<string>, sep: char): string
    requires |parts| >= 1
    decreases |parts|
  {
    if |parts| == 1 then parts[0] else parts[0] + [sep] + Join(parts[1..], sep)
  }

  lemma {:induction false} SplitWithout(a: string, sep: char)
    requires sep !in a
    ensures Split(a, sep) == [a]
    decreases |a|
  {
    if a != [] {
      SplitWithout(a[1..], sep);
      assert [a[0]] + a[1..] == a;
    }
  }

  lemma {:induction false} SplitAtFirst(a: string, b: string, sep: char)
    requires sep !in a
    ensures Split(a + [sep] + b, sep) == [a] + Split(b, sep)
    decreases |a|
  {
    var s := a + [sep] + b;
    if a == [] {
      assert s[1..] == b;
    } else {
      assert s[1..] == a[1..] + [sep] + b;
      SplitAtFirst(a[1..], b, sep);
      assert [a[0]] + a[1..] == a;
    }
  }

  /** Splitting what was joined gives the pieces back, when no piece holds the separator. */
  lemma {:induction false} SplitJoin(parts: seq<string>, sep: char)
    requires |parts| >= 1
    requires forall i :: 0 <= i < |parts| ==> sep !in parts[i]
    ensures Split(Join(parts, sep), sep) == parts
    decreases |parts|
  {
    if |parts| == 1 {
      SplitWithout(parts[0], sep);
    } else {
      SplitJoin(parts[1..], sep);
      SplitAtFirst(parts[0], Join(parts[1..], sep), sep);
      assert [parts[0]] + parts[1..] == parts;
    }
  }

  lemma Join3(a: string, b: string, c: string, sep: char)
    ensures Join([a, b, c], sep) == a + [sep] + b + [sep] + c
  {
    assert [a, b, c][1..] == [b, c];
    assert [b, c][1..] == [c];
    assert Join([b, c], sep) == b + [sep] + c;
    assert a + [sep] + (b + [sep] + c) == a + [sep] + b + [sep] + c;
  }

  lemma Join5(a: string, b: string, c: string, d: string, e: string, sep: char)
    ensures Join([a, b, c, d, e], sep) == a + [sep] + b + [sep] + c + [sep] + d + [sep] + e
  {
    assert [a, b, c, d, e][1..] == [b, c, d, e];
    assert [b, c, d, e][1..] == [c, d, e];
    Join3(c, d, e, sep);
  }

  // ---------- Readers ----------

  /** Reads a date written as `year/month/day hour:minute:second`. */
  function ParseDate(s: string): Option<Stamp> {
    var halves := Split(s, ' ');
    if |halves| != 2 then None
    else
      var ymd := Split(halves[0], '/');
      var hms := Split(halves[1], ':');
      if |ymd| != 3 || |hms| != 3 then None
      else
        var year :- Parse(ymd[0]);
        var month :- Parse(ymd[1]);
        var day :- Parse(ymd[2]);
        var hour :- Parse(hms[0]);
        var minute :- Parse(hms[1]);
        var second :- Parse(hms[2]);
        Some(Stamp(year, month, day, hour, minute, second))
  }

  /** Reads a sample line: a date, three integers, each followed by a comma, and a line feed. */
  function ParseLine(s: string): Option<Record> {
    var fields := Split(s, ',');
    if |fields| != 5 || fields[4] != "\n" then None
    else
      var at :- ParseDate(fields[0]);
      var x :- Parse(fields[1]);
      var y :- Parse(fields[2]);
      var z :- Parse(fields[3]);
      Some(Record(at, x, y, z))
  }

  lemma DateFields(t: Stamp)
    ensures DateText(t) ==
      Join([Join([Text(t.year), Text(t.month), Text(t.day)], '/'),
            Join([Text(t.hour), Text(t.minute), Text(t.second)], ':')], ' ')
  {
    Join3(Text(t.year), Text(t.month), Text(t.day), '/');
    Join3(Text(t.hour), Text(t.minute), Text(t.second), ':');
    var ymd := Join([Text(t.year), Text(t.month), Text(t.day)], '/');
    var hms := Join([Text(t.hour), Text(t.minute), Text(t.second)], ':');
    assert [ymd, hms][1..] == [hms];
  }

  lemma LineFields(r: Record)
    ensures Line(r) == Join([DateText(r.at), Text(r.x), Text(r.y), Text(r.z), "\n"], ',')
  {
    Join5(DateText(r.at), Text(r.x), Text(r.y), Text(r.z), "\n", ',');
  }

  /** The date text reads back as the stamp it was written from. */
  lemma DateRoundTrip(t: Stamp)
    ensures ParseDate(DateText(t)) == Some(t)
  {
    var ymdParts := [Text(t.year), Text(t.month), Text(t.day)];
    var hmsParts := [Text(t.hour), Text(t.minute), Text(t.second)];
    TextAvoids(t.year, '/'); TextAvoids(t.month, '/'); TextAvoids(t.day, '/');
    TextAvoids(t.hour, ':'); TextAvoids(t.minute, ':'); TextAvoids(t.second, ':');
    TextAvoids(t.year, ' '); TextAvoids(t.month, ' '); TextAvoids(t.day, ' ');
    TextAvoids(t.hour, ' '); TextAvoids(t.minute, ' '); TextAvoids(t.second, ' ');
    Join3(Text(t.year), Text(t.month), Text(t.day), '/');
    Join3(Text(t.hour), Text(t.minute), Text(t.second), ':');
    var ymd := Join(ymdParts, '/');
    var hms := Join(hmsParts, ':');
    DateFields(t);
    SplitJoin([ymd, hms], ' ');
    SplitJoin(ymdParts, '/');
    SplitJoin(hmsParts, ':');
    ParseText(t.year); ParseText(t.month); ParseText(t.day);
    ParseText(t.hour); ParseText(t.minute); ParseText(t.second);
  }

  /** Every logged line reads back as the record it was written from. */
  lemma LineRoundTrip(r: Record)
    ensures ParseLine(Line(r)) == Some(r)
  {
    var parts := [DateText(r.at), Text(r.x), Text(r.y), Text(r.z), "\n"];
    TextAvoids(r.at.year, ','); TextAvoids(r.at.month, ','); TextAvoids(r.at.day, ',');
    TextAvoids(r.at.hour, ','); TextAvoids(r.at.minute, ','); TextAvoids(r.at.second, ',');
    TextAvoids(r.x, ','); TextAvoids(r.y, ','); TextAvoids(r.z, ',');
    LineFields(r);
    SplitJoin(parts, ',');
    DateRoundTrip(r.at);
    ParseText(r.x); ParseText(r.y); ParseText(r.z);
  }

  /** The header is not a sample line: its first field is not a date. */
  lemma HeaderIsNotRecord()
    ensures ParseLine(Header) == None
  {
    var parts := ["Date", "X", "Y", "Z", "\r\n"];
    Join5("Date", "X", "Y", "Z", "\r\n", ',');
    assert Join(parts, ',') == Header;
    SplitJoin(parts, ',');
    SplitWithout("Date", ' ');
  }

  /** Two different dates that the unpadded file-name format maps to the same name. */
  lemma FileNameCollides()
    ensures FileName(2025, 1, 11) == FileName(2025, 11, 1)
  {
    assert Text(1) == "1";
    assert Text(11) == Digits(1) + [DigitChar(1)] == "11";
  }

  // ---------- Fixed-size C buffers ----------

  /** Size of each `char` buffer the firmware formats into (date, line, header, file name). */
  const CBufferSize: nat := 20

  /** A buffer large enough for any line of plausible values (42 characters and the terminator). */
  const LineBufferSize: nat := 43

  /** Whether `sprintf` of `s` stays inside a buffer of `size` bytes, terminating zero included. */
  predicate Holds(size: nat, s: string) {
    |s| + 1 <= size
  }

  /** Times a synchronised clock can produce. */
  predicate PlausibleTime(t: Stamp) {
    && 1000 <= t.year <= 9999 && 1 <= t.month <= 12 && 1 <= t.day <= 31
    && 0 <= t.hour <= 23 && 0 <= t.minute <= 59 && 0 <= t.second <= 60
  }

  /** Values a synchronised clock and a 16-bit accelerometer can produce. */
  predicate Plausible(r: Record) {
    && PlausibleTime(r.at)
    && -32768 <= r.x <= 32767 && -32768 <= r.y <= 32767 && -32768 <= r.z <= 32767
  }

  lemma DateWidth(t: Stamp)
    requires PlausibleTime(t)
    ensures 14 <= |DateText(t)| <= 19
  {
    assert Pow10(3) == 1000;
    DigitsAtLeast(t.year, 4);
    TextAtMost(t.year, 4);
    TextAtMost(t.month, 2); TextAtMost(t.day, 2);
    TextAtMost(t.hour, 2); TextAtMost(t.minute, 2); TextAtMost(t.second, 2);
  }

  /** As written, the sample line never fits the 20-byte buffer once the year has four digits. */
  lemma LineOverflowsBuffer(r: Record)
    requires 1000 <= r.at.year
    ensures |Line(r)| >= 22
    ensures !Holds(CBufferSize, Line(r))
  {
    assert Pow10(3) == 1000;
    DigitsAtLeast(r.at.year, 4);
  }

  /** The shortest line of the year 2025 already needs 23 bytes. */
  lemma LineOverflowExample()
    ensures Line(Record(Stamp(2025, 1, 1, 0, 0, 0), 0, 0, 0)) == "2025/1/1 0:0:0,0,0,0,\n"
    ensures !Holds(CBufferSize, Line(Record(Stamp(2025, 1, 1, 0, 0, 0), 0, 0, 0)))
  {
    assert Text(0) == "0" && Text(1) == "1";
    assert Text(2025) == Digits(202) + [DigitChar(5)];
    assert Digits(202) == Digits(20) + [DigitChar(2)];
    assert Digits(20) == Digits(2) + [DigitChar(0)];
    assert Text(2025) == "2025";
  }

  /** With a buffer of `LineBufferSize` bytes every plausible line fits. */
  lemma LineFitsBuffer(r: Record)
    requires Plausible(r)
    ensures Holds(LineBufferSize, Line(r))
  {
    DateWidth(r.at);
    TextAtMost(r.x, 5); TextAtMost(r.y, 5); TextAtMost(r.z, 5);
  }

  /** The date text alone fits its 20-byte buffer for every plausible time. */
  lemma DateFitsBuffer(t: Stamp)
    requires PlausibleTime(t)
    ensures Holds(CBufferSize, DateText(t))
  {
    DateWidth(t);
  }

  /** The file name and the header fit their 20-byte buffers. */
  lemma NameAndHeaderFitBuffer(year: int, month: int, day: int)
    requires 1000 <= year <= 9999 && 1 <= month <= 12 && 1 <= day <= 31
    ensures Holds(CBufferSize, FileName(year, month, day))
    ensures Holds(CBufferSize, "Date,X,Y,Z,")
  {
    TextAtMost(year, 4); TextAtMost(month, 2); TextAtMost(day, 2);
  }
}
