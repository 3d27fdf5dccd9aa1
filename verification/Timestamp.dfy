/** The fixed-width timestamp of getCurrentTimeInfo: "%04d%02d%02d_%02d%02d%02d" in a buffer of 16. */
module Timestamp {
  import opened LogText

  datatype Time = Time(year: nat, month: nat, day: nat, hour: nat, minute: nat, second: nat)

  /** The ranges localtime_s gives, but for the year. */
  predicate Valid(t: Time) {
    1 <= t.month <= 12 && 1 <= t.day <= 31 && t.hour <= 23 && t.minute <= 59 && t.second <= 60
  }

  function Digit(d: nat): char
    requires d < 10
  {
    '0' + d as char
  }

  /** "%0wd" of a natural number: at least w digits, more if it needs them. */
  function Pad(w: nat, n: nat): string
    decreases w + n
  {
    if w == 0 && n == 0 then "" else Pad(if w == 0 then 0 else w - 1, n / 10) + [Digit(n % 10)]
  }

  function Power10(w: nat): nat { if w == 0 then 1 else 10 * Power10(w - 1) }

  /** The text before it is bounded. */
  function FullText(t: Time): string {
    Pad(4, t.year) + Pad(2, t.month) + Pad(2, t.day) + "_" + Pad(2, t.hour) + Pad(2, t.minute) + Pad(2, t.second)
  }

  function TimeText(t: Time): string { Bounded(DAY_INFO_BUFFER_LENGTH, FullText(t)) }

  // ---- Reading it back ----

  function DigitValue(c: char): nat { if '0' <= c <= '9' then (c - '0') as nat else 0 }

  function Value(s: string): nat {
    if s == "" then 0 else 10 * Value(s[..|s| - 1]) + DigitValue(s[|s| - 1])
  }

  function ParseTime(s: string): Time
    requires |s| == 15
  {
    Time(Value(s[0..4]), Value(s[4..6]), Value(s[6..8]), Value(s[9..11]), Value(s[11..13]), Value(s[13..15]))
  }

  lemma {:induction false} PadLength(w: nat, n: nat)
    ensures n < Power10(w) ==> |Pad(w, n)| == w
    ensures n >= Power10(w) ==> |Pad(w, n)| > w
    decreases w + n
  {
    if w > 0 {
      PadLength(w - 1, n / 10);
    } else if n > 0 {
      PadLength(0, n / 10);
    }
  }

  lemma {:induction false} ValueOfPad(w: nat, n: nat)
    ensures Value(Pad(w, n)) == n
    decreases w + n
  {
    if w > 0 || n > 0 {
      var w' := if w == 0 then 0 else w - 1;
      ValueOfPad(w', n / 10);
      assert Pad(w, n)[..|Pad(w, n)| - 1] == Pad(w', n / 10);
      DigitRoundTrip(n % 10);
    }
  }

  lemma DigitRoundTrip(d: nat)
    requires d < 10
    ensures DigitValue(Digit(d)) == d
  {
  }

  lemma {:induction false} Digits(w: nat, n: nat)
    ensures forall i :: 0 <= i < |Pad(w, n)| ==> '0' <= Pad(w, n)[i] <= '9'
    decreases w + n
  {
    if w > 0 || n > 0 {
      Digits(if w == 0 then 0 else w - 1, n / 10);
    }
  }

  lemma {:induction false} NoZeroInFront(n: nat)
    requires n > 0
    ensures Pad(0, n) != "" && Pad(0, n)[0] != '0'
  {
    if n >= 10 {
      NoZeroInFront(n / 10);
    } else {
      assert Pad(0, n) == [Digit(n)];
    }
  }

  /** With no width to fill there is no zero in front. */
  lemma ShortestDigits(n: nat)
    ensures Pad(1, n) != "" && (Pad(1, n)[0] == '0' ==> n == 0 && Pad(1, n) == "0")
    ensures forall i :: 0 <= i < |Pad(1, n)| ==> '0' <= Pad(1, n)[i] <= '9'
  {
    Digits(1, n);
    if n >= 10 {
      NoZeroInFront(n / 10);
    } else {
      assert Pad(1, n) == [Digit(n)];
    }
  }

  lemma {:induction false} ValueBound(s: string)
    ensures Value(s) < Power10(|s|)
  {
    if s != "" {
      ValueBound(s[..|s| - 1]);
    }
  }

  /** All fields but the year have two digits. */
  lemma FieldLengths(t: Time)
    requires Valid(t)
    ensures |Pad(2, t.month)| == |Pad(2, t.day)| == |Pad(2, t.hour)| == |Pad(2, t.minute)| == |Pad(2, t.second)| == 2
    ensures t.year <= 9999 <==> |Pad(4, t.year)| == 4
    ensures |Pad(4, t.year)| >= 4
  {
    assert Power10(2) == 100;
    assert Power10(4) == 10 * Power10(3) == 10000;
    PadLength(2, t.month);
    PadLength(2, t.day);
    PadLength(2, t.hour);
    PadLength(2, t.minute);
    PadLength(2, t.second);
    PadLength(4, t.year);
  }

  lemma TextLength(t: Time)
    requires Valid(t)
    ensures |TimeText(t)| == 15
    ensures t.year <= 9999 ==> TimeText(t) == FullText(t)
  {
    FieldLengths(t);
  }

  /** The text parses back to the time exactly when the year has at most four digits. */
  lemma RoundTrip(t: Time)
    requires Valid(t)
    ensures |TimeText(t)| == 15
    ensures ParseTime(TimeText(t)) == t <==> t.year <= 9999
  {
    TextLength(t);
    var s := TimeText(t);
    if t.year <= 9999 {
      Slices(t);
      ValueOfPad(4, t.year);
      ValueOfPad(2, t.month);
      ValueOfPad(2, t.day);
      ValueOfPad(2, t.hour);
      ValueOfPad(2, t.minute);
      ValueOfPad(2, t.second);
    } else {
      ValueBound(s[0..4]);
      assert Power10(4) == 10 * Power10(3) == 10000;
    }
  }

  lemma Slices(t: Time)
    requires Valid(t) && t.year <= 9999
    ensures
      var s := FullText(t);
      && |s| == 15
      && s[0..4] == Pad(4, t.year) && s[4..6] == Pad(2, t.month) && s[6..8] == Pad(2, t.day)
      && s[9..11] == Pad(2, t.hour) && s[11..13] == Pad(2, t.minute) && s[13..15] == Pad(2, t.second)
  {
    FieldLengths(t);
    hide Pad;
    CutDate(Pad(4, t.year), Pad(2, t.month), Pad(2, t.day), "_" + Pad(2, t.hour) + Pad(2, t.minute) + Pad(2, t.second));
    CutClock(Pad(4, t.year) + Pad(2, t.month) + Pad(2, t.day), Pad(2, t.hour), Pad(2, t.minute), Pad(2, t.second));
    assert FullText(t) == Pad(4, t.year) + Pad(2, t.month) + Pad(2, t.day)
      + ("_" + Pad(2, t.hour) + Pad(2, t.minute) + Pad(2, t.second));
  }

  lemma CutDate(y: string, m: string, d: string, rest: string)
    requires |y| == 4 && |m| == |d| == 2
    ensures var s := y + m + d + rest; s[0..4] == y && s[4..6] == m && s[6..8] == d
  {
  }

  lemma CutClock(date: string, h: string, m: string, s: string)
    requires |date| == 8 && |h| == |m| == |s| == 2
    ensures var all := date + "_" + h + m + s; |all| == 15 && all[9..11] == h && all[11..13] == m && all[13..15] == s
  {
  }

  /** The text in numbers: the digits of the fields, and an underscore between date and time. */
  lemma TextChars(t: Time, k: nat)
    requires Valid(t) && t.year <= 9999 && k < 15
    ensures |TimeText(t)| == 15
    ensures
      var digit := match k
        case 0 => t.year / 1000
        case 1 => t.year / 100 % 10
        case 2 => t.year / 10 % 10
        case 3 => t.year % 10
        case 4 => t.month / 10
        case 5 => t.month % 10
        case 6 => t.day / 10
        case 7 => t.day % 10
        case 8 => 0
        case 9 => t.hour / 10
        case 10 => t.hour % 10
        case 11 => t.minute / 10
        case 12 => t.minute % 10
        case 13 => t.second / 10
        case _ => t.second % 10;
      digit < 10 && TimeText(t)[k] == if k == 8 then '_' else "0123456789"[digit]
  {
    TextLength(t);
    Slices(t);
    PadTwo(t.month);
    PadTwo(t.day);
    PadTwo(t.hour);
    PadTwo(t.minute);
    PadTwo(t.second);
    PadFour(t.year);
    FieldLengths(t);
    var date := Pad(4, t.year) + Pad(2, t.month) + Pad(2, t.day);
    hide Pad, TimeText;
    var s := FullText(t);
    assert s[8] == (date + "_" + Pad(2, t.hour) + Pad(2, t.minute) + Pad(2, t.second))[8];
    hide FullText;
    assert s[0..4][0] == s[0] && s[0..4][1] == s[1] && s[0..4][2] == s[2] && s[0..4][3] == s[3];
    assert s[4..6][0] == s[4] && s[4..6][1] == s[5] && s[6..8][0] == s[6] && s[6..8][1] == s[7];
    assert s[9..11][0] == s[9] && s[9..11][1] == s[10] && s[11..13][0] == s[11] && s[11..13][1] == s[12];
    assert s[13..15][0] == s[13] && s[13..15][1] == s[14];
  }

  lemma PadTwo(n: nat)
    requires n < 100
    ensures Pad(2, n) == ["0123456789"[n / 10], "0123456789"[n % 10]]
  {
    DigitChar(n % 10);
    DigitChar(n / 10);
    assert Pad(0, 0) == "" && Pad(1, n / 10) == [Digit(n / 10)];
  }

  lemma PadFour(n: nat)
    requires n <= 9999
    ensures n / 1000 < 10
    ensures Pad(4, n) ==
      ["0123456789"[n / 1000], "0123456789"[n / 100 % 10], "0123456789"[n / 10 % 10], "0123456789"[n % 10]]
  {
    PadTwo(n / 100);
    DigitChar(n % 10);
    DigitChar(n / 10 % 10);
    assert n / 10 / 10 == n / 100 && n / 100 / 10 == n / 1000;
    assert Pad(4, n) == Pad(3, n / 10) + [Digit(n % 10)];
    assert Pad(3, n / 10) == Pad(2, n / 100) + [Digit(n / 10 % 10)];
  }

  lemma DigitChar(d: nat)
    requires d < 10
    ensures Digit(d) == "0123456789"[d]
  {
  }

  // ---- Order ----

  /** Order of texts of equal length: the first difference decides. */
  predicate TextLess(a: string, b: string)
    requires |a| == |b|
  {
    a != "" && (a[0] < b[0] || (a[0] == b[0] && TextLess(a[1..], b[1..])))
  }

  /** Order of times: the first different field decides. */
  predicate TimeLess(t: Time, u: Time) {
    || t.year < u.year
    || (t.year == u.year && (t.month < u.month
    || (t.month == u.month && (t.day < u.day
    || (t.day == u.day && (t.hour < u.hour
    || (t.hour == u.hour && (t.minute < u.minute
    || (t.minute == u.minute && t.second < u.second)))))))))
  }

  lemma {:induction false} TextLessConcat(a: string, b: string, c: string, d: string)
    requires |a| == |b| && |c| == |d|
    ensures TextLess(a + c, b + d) <==> TextLess(a, b) || (a == b && TextLess(c, d))
  {
    if a == "" {
      assert a + c == c && b + d == d;
    } else {
      assert (a + c)[1..] == a[1..] + c && (b + d)[1..] == b[1..] + d;
      TextLessConcat(a[1..], b[1..], c, d);
      assert a == [a[0]] + a[1..] && b == [b[0]] + b[1..];
    }
  }

  /** Numbers of equal width compare as their texts. */
  lemma {:induction false} PadOrder(w: nat, m: nat, n: nat)
    requires m < Power10(w) && n < Power10(w)
    ensures |Pad(w, m)| == |Pad(w, n)| == w
    ensures TextLess(Pad(w, m), Pad(w, n)) <==> m < n
    ensures Pad(w, m) == Pad(w, n) <==> m == n
    decreases w
  {
    PadLength(w, m);
    PadLength(w, n);
    if w > 0 {
      PadOrder(w - 1, m / 10, n / 10);
      var x, y := [Digit(m % 10)], [Digit(n % 10)];
      assert x[1..] == "" && y[1..] == "";
      TextLessConcat(Pad(w - 1, m / 10), Pad(w - 1, n / 10), x, y);
      ValueOfPad(w, m);
      ValueOfPad(w, n);
    }
  }

  /** One more field in front. */
  lemma FieldFirst(w: nat, m: nat, n: nat, c: string, d: string)
    requires m < Power10(w) && n < Power10(w) && |c| == |d|
    ensures |Pad(w, m) + c| == |Pad(w, n) + d|
    ensures TextLess(Pad(w, m) + c, Pad(w, n) + d) <==> m < n || (m == n && TextLess(c, d))
  {
    PadOrder(w, m, n);
    TextLessConcat(Pad(w, m), Pad(w, n), c, d);
  }

  /** The fields of the date, and of the time of day, as one text each. */
  function DateText(t: Time): string { Pad(4, t.year) + (Pad(2, t.month) + Pad(2, t.day)) }
  function ClockText(t: Time): string { Pad(2, t.hour) + (Pad(2, t.minute) + Pad(2, t.second)) }

  /** Two two-digit fields in a row compare as a pair. */
  lemma PairOrder(m: nat, n: nat, x: nat, y: nat)
    requires m < 100 && n < 100 && x < 100 && y < 100
    ensures |Pad(2, m) + Pad(2, x)| == |Pad(2, n) + Pad(2, y)|
    ensures TextLess(Pad(2, m) + Pad(2, x), Pad(2, n) + Pad(2, y)) <==> m < n || (m == n && x < y)
    ensures Pad(2, m) + Pad(2, x) == Pad(2, n) + Pad(2, y) <==> m == n && x == y
  {
    assert Power10(2) == 100;
    PadOrder(2, x, y);
    FieldFirst(2, m, n, Pad(2, x), Pad(2, y));
    PadOrder(2, m, n);
    ConcatEqual(Pad(2, m), Pad(2, n), Pad(2, x), Pad(2, y));
  }

  lemma ConcatEqual(a: string, b: string, c: string, d: string)
    requires |a| == |b|
    ensures a + c == b + d <==> a == b && c == d
  {
    if a + c == b + d {
      assert a == (a + c)[..|a|] && c == (a + c)[|a|..];
      assert b == (b + d)[..|b|] && d == (b + d)[|b|..];
    }
  }

  lemma SameFirst(c: string, d: string)
    requires |c| == |d|
    ensures |"_" + c| == |"_" + d| && (TextLess("_" + c, "_" + d) <==> TextLess(c, d))
  {
    assert ("_" + c)[1..] == c && ("_" + d)[1..] == d;
  }

  lemma DateOrder(t: Time, u: Time)
    requires Valid(t) && Valid(u) && t.year <= 9999 && u.year <= 9999
    ensures |DateText(t)| == |DateText(u)|
    ensures TextLess(DateText(t), DateText(u)) <==>
      t.year < u.year || (t.year == u.year && (t.month < u.month || (t.month == u.month && t.day < u.day)))
    ensures DateText(t) == DateText(u) <==> t.year == u.year && t.month == u.month && t.day == u.day
  {
    assert Power10(4) == 10 * Power10(3) == 10000;
    hide Pad, TextLess, Power10;
    PairOrder(t.month, u.month, t.day, u.day);
    var md, md' := Pad(2, t.month) + Pad(2, t.day), Pad(2, u.month) + Pad(2, u.day);
    FieldFirst(4, t.year, u.year, md, md');
    PadOrder(4, t.year, u.year);
    ConcatEqual(Pad(4, t.year), Pad(4, u.year), md, md');
  }

  lemma ClockOrder(t: Time, u: Time)
    requires Valid(t) && Valid(u)
    ensures |ClockText(t)| == |ClockText(u)|
    ensures TextLess(ClockText(t), ClockText(u)) <==>
      t.hour < u.hour || (t.hour == u.hour && (t.minute < u.minute || (t.minute == u.minute && t.second < u.second)))
  {
    assert Power10(2) == 100;
    hide Pad, TextLess, Power10;
    PairOrder(t.minute, u.minute, t.second, u.second);
    FieldFirst(2, t.hour, u.hour, Pad(2, t.minute) + Pad(2, t.second), Pad(2, u.minute) + Pad(2, u.second));
  }

  lemma DateAndClock(t: Time)
    ensures FullText(t) == DateText(t) + ("_" + ClockText(t))
  {
    hide Pad;
  }

  /** The order of the texts is the order of the times. */
  lemma OrderPreserved(t: Time, u: Time)
    requires Valid(t) && Valid(u) && t.year <= 9999 && u.year <= 9999
    ensures |TimeText(t)| == |TimeText(u)|
    ensures TextLess(TimeText(t), TimeText(u)) <==> TimeLess(t, u)
  {
    hide Pad, TextLess, Power10, TimeText, FullText, DateText, ClockText;
    TextLength(t);
    TextLength(u);
    DateAndClock(t);
    DateAndClock(u);
    DateOrder(t, u);
    ClockOrder(t, u);
    SameFirst(ClockText(t), ClockText(u));
    TextLessConcat(DateText(t), DateText(u), "_" + ClockText(t), "_" + ClockText(u));
  }
}
