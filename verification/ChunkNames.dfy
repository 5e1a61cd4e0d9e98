/** Chunk file names: how the recorder prints them and how their readers parse them back.

    A published chunk is named `YYYYMMDD-HHMMSS.<duration>.data`, the duration in
    microseconds, padded to nine digits but longer when it has to be. */
module ChunkNames {

  datatype Civil = Civil(year: nat, mon: nat, mday: nat, hour: nat, min: nat, sec: nat)

  /** The fields a calendar conversion can produce, for a year of four digits. */
  predicate InRange(c: Civil) {
    && 1000 <= c.year <= 9999 && 1 <= c.mon <= 12 && 1 <= c.mday <= 31
    && c.hour <= 23 && c.min <= 59 && c.sec <= 60
  }

  predicate SameHour(a: Civil, b: Civil) {
    a.year == b.year && a.mon == b.mon && a.mday == b.mday && a.hour == b.hour
  }

  // ---------- printing

  predicate IsDigit(c: char) { '0' <= c <= '9' }

  function DigitChar(d: nat): (c: char)
    requires d < 10
    ensures IsDigit(c)
  {
    '0' + d as char
  }

  function Decimal(n: nat): string {
    if n < 10 then [DigitChar(n)] else Decimal(n / 10) + [DigitChar(n % 10)]
  }

  function Zeros(n: nat): string {
    if n == 0 then "" else Zeros(n - 1) + "0"
  }

  /** printf's `%0<width>d` of a natural number: never truncates. */
  function Padded(n: nat, width: nat): string {
    var s := Decimal(n);
    Zeros(if |s| < width then width - |s| else 0) + s
  }

  /** The staging name of a chunk. */
  function Stem(c: Civil): string {
    Padded(c.year, 4) + Padded(c.mon, 2) + Padded(c.mday, 2) + "-"
    + Padded(c.hour, 2) + Padded(c.min, 2) + Padded(c.sec, 2)
  }

  /** The directory of an hour, relative to the metadata root. */
  function HourDir(c: Civil): string {
    Padded(c.year, 4) + "/" + Padded(c.mon, 2) + "/" + Padded(c.mday, 2) + "/" + Padded(c.hour, 2) + "/"
  }

  /** What publication appends to the staging name. */
  function Suffix(usecs: nat): string {
    "." + Padded(usecs, 9) + ".data"
  }

  function PublishedName(c: Civil, usecs: nat): string {
    Stem(c) + Suffix(usecs)
  }

  // ---------- parsing

  function DigitPrefix(s: string): string {
    if s == "" || !IsDigit(s[0]) then "" else [s[0]] + DigitPrefix(s[1..])
  }

  predicate AllDigits(s: string) { forall c <- s :: IsDigit(c) }

  function DigitValue(c: char): nat {
    if IsDigit(c) then (c - '0') as nat else 0
  }

  function Value(s: string): nat {
    if s == "" then 0 else Value(s[..|s| - 1]) * 10 + DigitValue(s[|s| - 1])
  }

  /** atoi and atol on text that starts with neither white space nor a sign. */
  function Atol(s: string): nat {
    Value(DigitPrefix(s))
  }

  /** What follows the last '/' of a path; None when there is none. */
  datatype BaseName = NoSlash | BaseName(name: string)

  function LastComponent(path: string): BaseName {
    if path == "" then NoSlash
    else match LastComponent(path[1..])
      case BaseName(n) => BaseName(n)
      case NoSlash => if path[0] == '/' then BaseName(path[1..]) else NoSlash
  }

  const INDEX_TIME := 9
  const INDEX_DURATION := 16

  /** `file_name_to_epoch` up to the calendar conversion: the date fields it hands to mktime. */
  function DateFields(name: string): Civil
    requires INDEX_TIME <= |name|
  {
    var d := Atol(name);
    var t := Atol(name[INDEX_TIME..]);
    Civil(d / 10000, (d % 10000) / 100, d % 100, t / 10000, (t % 10000) / 100, t % 100)
  }

  /** `get_file_duration`. */
  function FileDuration(path: string): int {
    match LastComponent(path)
    case NoSlash => -1
    case BaseName(n) => if |n| < INDEX_DURATION then 0 else Atol(n[INDEX_DURATION..])
  }

  // ---------- digits

  function Pow10(n: nat): nat { if n == 0 then 1 else 10 * Pow10(n - 1) }

  lemma {:induction false} DecimalValue(n: nat)
    ensures AllDigits(Decimal(n)) && Value(Decimal(n)) == n && |Decimal(n)| >= 1
  {
    if n >= 10 {
      DecimalValue(n / 10);
      assert Decimal(n)[..|Decimal(n)| - 1] == Decimal(n / 10);
    }
  }

  lemma {:induction false} DecimalLength(n: nat, k: nat)
    requires 1 <= k && n < Pow10(k)
    ensures |Decimal(n)| <= k
  {
    if n >= 10 {
      DecimalLength(n / 10, k - 1);
    }
  }

  lemma ValueSnoc(s: string, c: char)
    ensures Value(s + [c]) == Value(s) * 10 + DigitValue(c)
  {
    assert (s + [c])[..|s|] == s;
  }

  lemma {:induction false} ZerosValue(n: nat)
    ensures AllDigits(Zeros(n)) && Value(Zeros(n)) == 0 && |Zeros(n)| == n
  {
    if n > 0 {
      ZerosValue(n - 1);
      ValueSnoc(Zeros(n - 1), '0');
    }
  }

  /** Leading zeros do not change a value. */
  lemma {:induction false} ZerosPrefix(n: nat, s: string)
    ensures Value(Zeros(n) + s) == Value(s)
  {
    if s == "" {
      ZerosValue(n);
      assert Zeros(n) + s == Zeros(n);
    } else {
      var init, c := s[..|s| - 1], s[|s| - 1];
      ZerosPrefix(n, init);
      assert Zeros(n) + s == (Zeros(n) + init) + [c];
      ValueSnoc(Zeros(n) + init, c);
    }
  }

  /** A padded number keeps its value, and has the asked width whenever it fits. */
  lemma PaddedValue(n: nat, width: nat)
    requires 1 <= width
    ensures AllDigits(Padded(n, width)) && Value(Padded(n, width)) == n && |Padded(n, width)| >= width
    ensures n < Pow10(width) ==> |Padded(n, width)| == width
  {
    var s := Decimal(n);
    DecimalValue(n);
    var z := if |s| < width then width - |s| else 0;
    ZerosValue(z);
    ZerosPrefix(z, s);
    if n < Pow10(width) { DecimalLength(n, width); }
  }

  lemma {:induction false} DigitPrefixOf(d: string, rest: string)
    requires AllDigits(d) && (rest == "" || !IsDigit(rest[0]))
    ensures DigitPrefix(d + rest) == d
  {
    if d == "" {
      assert d + rest == rest;
    } else {
      assert (d + rest)[1..] == d[1..] + rest;
      DigitPrefixOf(d[1..], rest);
    }
  }

  /** A run of digits followed by anything else reads as its value, however long it is. */
  lemma AtolOf(d: string, rest: string)
    requires AllDigits(d) && (rest == "" || !IsDigit(rest[0]))
    ensures Atol(d + rest) == Value(d)
  {
    DigitPrefixOf(d, rest);
  }

  lemma TwoDigitValue(p: string)
    requires |p| == 2
    ensures p == [p[0]] + [p[1]] && Value(p) == DigitValue(p[0]) * 10 + DigitValue(p[1])
  {
    assert p == [p[0]] + [p[1]] && [p[0]] == [] + [p[0]];
    ValueSnoc([], p[0]);
    ValueSnoc([p[0]], p[1]);
  }

  /** Two more digits behind a number. */
  lemma TwoDigits(s: string, n: nat)
    requires AllDigits(s) && n < 100
    ensures AllDigits(s + Padded(n, 2)) && |s + Padded(n, 2)| == |s| + 2
    ensures Value(s + Padded(n, 2)) == Value(s) * 100 + n
  {
    hide Value, Padded, DigitValue, Pow10;
    var p := Padded(n, 2);
    Powers();
    PaddedValue(n, 2);
    TwoDigitValue(p);
    ValueSnoc(s, p[0]);
    ValueSnoc(s + [p[0]], p[1]);
    assert s + p == (s + [p[0]]) + [p[1]];
  }

  lemma Powers()
    ensures Pow10(2) == 100 && Pow10(4) == 10000
  {
    assert Pow10(1) == 10;
    assert Pow10(3) == 1000;
  }

  /** Three printed fields in a row read as one number that splits back into the fields. */
  lemma ThreeFields(a: nat, w: nat, b: nat, c: nat)
    requires 1 <= w && a < Pow10(w) && b < 100 && c < 100
    ensures var s := Padded(a, w) + Padded(b, 2) + Padded(c, 2);
      AllDigits(s) && |s| == w + 4 && Value(s) == a * 10000 + b * 100 + c
  {
    PaddedValue(a, w);
    TwoDigits(Padded(a, w), b);
    TwoDigits(Padded(a, w) + Padded(b, 2), c);
  }

  lemma StemShape(c: Civil)
    requires InRange(c)
    ensures |Stem(c)| == 15 && Stem(c)[8] == '-'
    ensures AllDigits(Stem(c)[..8]) && Value(Stem(c)[..8]) == c.year * 10000 + c.mon * 100 + c.mday
    ensures AllDigits(Stem(c)[9..]) && Value(Stem(c)[9..]) == c.hour * 10000 + c.min * 100 + c.sec
  {
    hide Value, AllDigits, Padded, Pow10;
    Powers();
    ThreeFields(c.year, 4, c.mon, c.mday);
    ThreeFields(c.hour, 2, c.min, c.sec);
    Halves(Padded(c.year, 4) + Padded(c.mon, 2) + Padded(c.mday, 2),
           Padded(c.hour, 2) + Padded(c.min, 2) + Padded(c.sec, 2));
    assert Stem(c) == (Padded(c.year, 4) + Padded(c.mon, 2) + Padded(c.mday, 2)) + "-"
      + (Padded(c.hour, 2) + Padded(c.min, 2) + Padded(c.sec, 2));
  }

  lemma Halves(d: string, t: string)
    requires |d| == 8 && |t| == 6
    ensures var s := d + "-" + t; |s| == 15 && s[8] == '-' && s[..8] == d && s[9..] == t
  {}

  lemma {:induction false} LastComponentOf(dir: string, name: string)
    requires '/' !in name
    ensures LastComponent(dir + "/" + name) == BaseName(name)
  {
    if dir == "" {
      NoSlashInside(name);
      assert dir + "/" + name == "/" + name;
      assert ("/" + name)[1..] == name;
    } else {
      assert (dir + "/" + name)[1..] == dir[1..] + "/" + name;
      LastComponentOf(dir[1..], name);
    }
  }

  lemma {:induction false} NoSlashInside(s: string)
    requires '/' !in s
    ensures LastComponent(s) == NoSlash
  {
    if s != "" { NoSlashInside(s[1..]); }
  }

  lemma NameSlices(stem: string, dur: string)
    requires |stem| == 15 && stem[8] == '-'
    ensures var name := stem + ("." + dur + ".data");
      && name == stem[..8] + name[8..] && name[8..][0] == '-'
      && name[INDEX_TIME..] == stem[9..] + ("." + dur + ".data")
      && name[INDEX_DURATION..] == dur + ".data"
  {}

  /** The two halves of a staging name and the duration, parsed out of the whole name. */
  lemma ParsedParts(stem: string, dur: string)
    requires |stem| == 15 && stem[8] == '-' && AllDigits(stem[..8]) && AllDigits(stem[9..]) && AllDigits(dur)
    ensures var name := stem + ("." + dur + ".data");
      && Atol(name) == Value(stem[..8])
      && Atol(name[INDEX_TIME..]) == Value(stem[9..])
      && Atol(name[INDEX_DURATION..]) == Value(dur)
  {
    var name := stem + ("." + dur + ".data");
    NameSlices(stem, dur);
    AtolOf(stem[..8], name[8..]);
    AtolOf(stem[9..], "." + dur + ".data");
    AtolOf(dur, ".data");
  }

  lemma NameHasNoSlash(stem: string, dur: string)
    requires |stem| == 15 && stem[8] == '-' && AllDigits(stem[..8]) && AllDigits(stem[9..]) && AllDigits(dur)
    ensures '/' !in stem + ("." + dur + ".data")
  {
    assert stem == stem[..8] + "-" + stem[9..];
  }

  lemma ParsedName(c: Civil, usecs: nat)
    requires InRange(c)
    ensures var n := PublishedName(c, usecs);
      && |n| >= INDEX_DURATION && '/' !in n
      && Atol(n) == c.year * 10000 + c.mon * 100 + c.mday
      && Atol(n[INDEX_TIME..]) == c.hour * 10000 + c.min * 100 + c.sec
      && Atol(n[INDEX_DURATION..]) == usecs
  {
    StemShape(c);
    PaddedValue(usecs, 9);
    ParsedParts(Stem(c), Padded(usecs, 9));
    NameHasNoSlash(Stem(c), Padded(usecs, 9));
  }

  /** Parsing the name a chunk is published under recovers every date field and the whole
      duration, also when the duration needs more than nine digits. */
  lemma NameRoundTrip(dir: string, c: Civil, usecs: nat)
    requires InRange(c)
    ensures var path := dir + "/" + PublishedName(c, usecs);
      && LastComponent(path) == BaseName(PublishedName(c, usecs))
      && |PublishedName(c, usecs)| >= INDEX_TIME
      && DateFields(PublishedName(c, usecs)) == c
      && FileDuration(path) == usecs
  {
    var name := PublishedName(c, usecs);
    ParsedName(c, usecs);
    LastComponentOf(dir, name);
    DateFieldsOf(name, c);
    assert FileDuration(dir + "/" + name) == Atol(name[INDEX_DURATION..]);
  }

  lemma SplitNumber(n: nat, a: nat, b: nat, c: nat)
    requires n == a * 10000 + b * 100 + c && b < 100 && c < 100
    ensures n / 10000 == a && (n % 10000) / 100 == b && n % 100 == c
  {}

  lemma DateFieldsOf(name: string, c: Civil)
    requires |name| >= INDEX_TIME && InRange(c)
    requires Atol(name) == c.year * 10000 + c.mon * 100 + c.mday
    requires Atol(name[INDEX_TIME..]) == c.hour * 10000 + c.min * 100 + c.sec
    ensures DateFields(name) == c
  {
    SplitNumber(Atol(name), c.year, c.mon, c.mday);
    SplitNumber(Atol(name[INDEX_TIME..]), c.hour, c.min, c.sec);
  }

  lemma {:induction false} ValueBound(s: string)
    requires AllDigits(s)
    ensures Value(s) < Pow10(|s|)
  {
    if s != "" {
      ValueBound(s[..|s| - 1]);
      assert s[|s| - 1] in s;
    }
  }

  lemma DashAt(year: string, day: string, rest: string)
    requires AllDigits(year) && AllDigits(day) && |year| >= 4 && |day| == 4
    ensures (year + day + "-" + rest)[8] == '-' <==> |year| == 4
  {
    var s := year + day + "-" + rest;
    if |year| > 4 { assert s[8] == (year + day)[8] && (year + day)[8] in year + day; }
  }

  lemma PaddedWidth(n: nat, width: nat)
    requires 1 <= width
    ensures |Padded(n, width)| == width <==> n < Pow10(width)
  {
    PaddedValue(n, width);
    ValueBound(Padded(n, width));
  }

  /** The time of day starts where the parser looks for it, behind the dash, if and only if the
      year has no more than four digits. */
  lemma TimeInPlace(c: Civil, usecs: nat)
    requires InRange(c.(year := 1970))
    ensures |PublishedName(c, usecs)| >= INDEX_TIME
    ensures PublishedName(c, usecs)[INDEX_TIME - 1] == '-' <==> c.year < 10000
  {
    Powers();
    PaddedValue(c.year, 4);
    PaddedWidth(c.year, 4);
    PaddedValue(c.mon, 2);
    PaddedValue(c.mday, 2);
    var mon, mday, hour, min, sec := Padded(c.mon, 2), Padded(c.mday, 2), Padded(c.hour, 2), Padded(c.min, 2),
      Padded(c.sec, 2);
    NameParts(Padded(c.year, 4), mon, mday, hour, min, sec, Suffix(usecs));
    DashAt(Padded(c.year, 4), mon + mday, hour + min + sec + Suffix(usecs));
  }

  lemma NameParts(y: string, mon: string, day: string, h: string, min: string, sec: string, suffix: string)
    ensures (y + mon + day + "-" + h + min + sec) + suffix == y + (mon + day) + "-" + (h + min + sec + suffix)
  {}

  lemma HourDirShape(c: Civil)
    requires InRange(c)
    ensures var d := HourDir(c);
      && |d| == 14 && d[4] == d[7] == d[10] == d[13] == '/'
      && AllDigits(d[..4]) && AllDigits(d[5..7]) && AllDigits(d[8..10]) && AllDigits(d[11..13])
      && Value(d[..4]) == c.year && Value(d[5..7]) == c.mon && Value(d[8..10]) == c.mday && Value(d[11..13]) == c.hour
  {
    hide Value, AllDigits, Padded, Pow10;
    Powers();
    PaddedValue(c.year, 4);
    PaddedValue(c.mon, 2);
    PaddedValue(c.mday, 2);
    PaddedValue(c.hour, 2);
    Slices(Padded(c.year, 4), Padded(c.mon, 2), Padded(c.mday, 2), Padded(c.hour, 2));
  }

  lemma Slices(y: string, m: string, d: string, h: string)
    requires |y| == 4 && |m| == |d| == |h| == 2
    ensures var s := y + "/" + m + "/" + d + "/" + h + "/";
      && |s| == 14 && s[..4] == y && s[5..7] == m && s[8..10] == d && s[11..13] == h
      && s[4] == s[7] == s[10] == s[13] == '/'
  {}

  /** A published name, character by character: `YYYYMMDD-HHMMSS.UUUUUUUUU.data`. */
  lemma NameShape(c: Civil, usecs: nat)
    requires InRange(c) && usecs < 1_000_000_000
    ensures var n := PublishedName(c, usecs);
      && |n| == 30 && n[8] == '-' && n[15] == '.' && n[25..] == ".data"
      && AllDigits(n[..8]) && AllDigits(n[9..15]) && AllDigits(n[16..25])
      && Value(n[..4]) == c.year && Value(n[4..6]) == c.mon && Value(n[6..8]) == c.mday
      && Value(n[9..11]) == c.hour && Value(n[11..13]) == c.min && Value(n[13..15]) == c.sec
      && Value(n[16..25]) == usecs
  {
    Powers();
    assert Pow10(9) == 1_000_000_000 by { assert Pow10(6) == 1_000_000; }
    hide Value, Padded, Pow10;
    PaddedValue(c.year, 4);
    PaddedValue(c.mon, 2);
    PaddedValue(c.mday, 2);
    PaddedValue(c.hour, 2);
    PaddedValue(c.min, 2);
    PaddedValue(c.sec, 2);
    PaddedValue(usecs, 9);
    NamePieces(Padded(c.year, 4), Padded(c.mon, 2), Padded(c.mday, 2), Padded(c.hour, 2), Padded(c.min, 2),
      Padded(c.sec, 2), Padded(usecs, 9));
    assert PublishedName(c, usecs) == (Padded(c.year, 4) + Padded(c.mon, 2) + Padded(c.mday, 2) + "-"
      + Padded(c.hour, 2) + Padded(c.min, 2) + Padded(c.sec, 2)) + ("." + Padded(usecs, 9) + ".data");
  }

  lemma NamePieces(y: string, mon: string, day: string, h: string, min: string, sec: string, u: string)
    requires |y| == 4 && |mon| == |day| == |h| == |min| == |sec| == 2 && |u| == 9
    ensures var n := (y + mon + day + "-" + h + min + sec) + ("." + u + ".data");
      && |n| == 30 && n[8] == '-' && n[15] == '.' && n[25..] == ".data"
      && n[..8] == y + mon + day && n[9..15] == h + min + sec && n[16..25] == u
      && n[..4] == y && n[4..6] == mon && n[6..8] == day && n[9..11] == h && n[11..13] == min && n[13..15] == sec
  {}

  /** Different hours have different directories. */
  lemma HourDirInjective(a: Civil, b: Civil)
    requires InRange(a) && InRange(b) && HourDir(a) == HourDir(b)
    ensures SameHour(a, b)
  {
    HourDirShape(a);
    HourDirShape(b);
  }

  // ---------- order

  predicate Before(a: Civil, b: Civil) {
    || a.year < b.year
    || (a.year == b.year && (a.mon < b.mon
    || (a.mon == b.mon && (a.mday < b.mday
    || (a.mday == b.mday && (a.hour < b.hour
    || (a.hour == b.hour && (a.min < b.min
    || (a.min == b.min && a.sec < b.sec)))))))))
  }

  /** The two integers parsed from a name, compared first by date and then by time,
      order names chronologically. */
  lemma NameOrder(a: Civil, b: Civil, ua: nat, ub: nat)
    requires InRange(a) && InRange(b)
    ensures var na, nb := PublishedName(a, ua), PublishedName(b, ub);
      && |na| >= INDEX_TIME && |nb| >= INDEX_TIME
      && (Before(a, b) <==>
          Atol(na) < Atol(nb) || (Atol(na) == Atol(nb) && Atol(na[INDEX_TIME..]) < Atol(nb[INDEX_TIME..])))
  {
    ParsedName(a, ua);
    ParsedName(b, ub);
  }

  // ---------- taking paths apart

  /** The name a path ends in. */
  function BaseOf(path: string): string {
    match LastComponent("/" + path)
    case BaseName(n) => n
    case NoSlash => path
  }

  /** A directory as the recorder writes it: nothing, or ending in a slash; never a dot. */
  predicate DirOk(dir: string) {
    (dir == "" || dir[|dir| - 1] == '/') && '.' !in dir
  }

  lemma BaseUnder(dir: string, name: string)
    requires (dir == "" || dir[|dir| - 1] == '/') && '/' !in name
    ensures BaseOf(dir + name) == name
  {
    if dir == "" {
      LastComponentOf("", name);
      assert "/" + (dir + name) == "" + "/" + name;
    } else {
      LastComponentOf("/" + dir[..|dir| - 1], name);
      assert dir == dir[..|dir| - 1] + "/";
      assert "/" + (dir + name) == ("/" + dir[..|dir| - 1]) + "/" + name;
    }
  }

  function UpToDot(s: string): string {
    if s == "" || s[0] == '.' then "" else [s[0]] + UpToDot(s[1..])
  }

  lemma {:induction false} UpToDotOf(a: string, rest: string)
    requires '.' !in a && rest != "" && rest[0] == '.'
    ensures UpToDot(a + rest) == a
  {
    if a == "" {
      assert a + rest == rest;
    } else {
      assert (a + rest)[1..] == a[1..] + rest;
      UpToDotOf(a[1..], rest);
    }
  }

  /** The staging name inside a published path. */
  function PathStem(path: string): string { BaseOf(UpToDot(path)) }

  predicate Plain(name: string) { '/' !in name && '.' !in name }

  lemma PathStemOf(dir: string, stem: string, usecs: nat)
    requires DirOk(dir) && Plain(stem)
    ensures PathStem(dir + stem + Suffix(usecs)) == stem
  {
    UpToDotOf(dir + stem, Suffix(usecs));
    BaseUnder(dir, stem);
  }

  lemma StemPlain(c: Civil)
    ensures Plain(Stem(c)) && DirOk(HourDir(c))
  {
    PaddedValue(c.year, 4);
    PaddedValue(c.mon, 2);
    PaddedValue(c.mday, 2);
    PaddedValue(c.hour, 2);
    PaddedValue(c.min, 2);
    PaddedValue(c.sec, 2);
    PlainParts(Padded(c.year, 4), Padded(c.mon, 2), Padded(c.mday, 2), Padded(c.hour, 2), Padded(c.min, 2),
      Padded(c.sec, 2));
  }

  lemma PlainParts(y: string, mon: string, day: string, h: string, min: string, sec: string)
    requires AllDigits(y) && AllDigits(mon) && AllDigits(day) && AllDigits(h) && AllDigits(min) && AllDigits(sec)
    ensures Plain(y + mon + day + "-" + h + min + sec)
    ensures DirOk(y + "/" + mon + "/" + day + "/" + h + "/")
  {}
}
