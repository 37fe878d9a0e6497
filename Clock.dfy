/** The session clock shown in both classrooms: `formatTime` renders a number of
    elapsed seconds as `H:MM:SS` (from one hour on) or `M:SS`. The two components
    carry identical copies of it; one function models both. */
module Clock {
  import opened Wrappers

  // ---------------------------------------------------------------------------
  // Decimal digits: Number.prototype.toString() on a non-negative integer
  // ---------------------------------------------------------------------------

  predicate IsDigit(c: char) {
    '0' <= c <= '9'
  }

  predicate AllDigits(s: string) {
    forall i :: 0 <= i < |s| ==> IsDigit(s[i])
  }

  function DigitChar(d: nat): (c: char)
    requires d < 10
    ensures IsDigit(c) && DigitValue(c) == d
  {
    ('0' as int + d) as char
  }

  function DigitValue(c: char): (d: nat)
    requires IsDigit(c)
    ensures d < 10
  {
    c as int - '0' as int
  }

  /** The decimal rendering of `n`, most significant digit first. */
  function Decimal(n: nat): (s: string)
    ensures 1 <= |s| && AllDigits(s)
    ensures |s| == 1 <==> n < 10
    ensures |s| > 1 ==> s[0] != '0'
  {
    if n < 10 then [DigitChar(n)] else Decimal(n / 10) + [DigitChar(n % 10)]
  }

  /** Reads a string of digits as a decimal number (the empty string reads as 0). */
  function ParseDecimal(s: string): nat
    requires AllDigits(s)
  {
    if s == [] then 0 else ParseDecimal(s[..|s| - 1]) * 10 + DigitValue(s[|s| - 1])
  }

  /** Reading back the rendering of `n` gives `n`. */
  lemma {:induction false} DecimalRoundTrip(n: nat)
    ensures ParseDecimal(Decimal(n)) == n
  {
    var s := Decimal(n);
    if n >= 10 {
      assert s[..|s| - 1] == Decimal(n / 10);
      DecimalRoundTrip(n / 10);
    }
  }

  // ---------------------------------------------------------------------------
  // Zero padding: String.prototype.padStart(2, '0')
  // ---------------------------------------------------------------------------

  /** `s.padStart(width, fill)` for a one-character `fill`. */
  function PadStart(s: string, width: nat, fill: char): string {
    if |s| >= width then s else seq(width - |s|, _ => fill) + s
  }

  /** `n.toString().padStart(2, '0')`. */
  function TwoDigits(n: nat): string {
    PadStart(Decimal(n), 2, '0')
  }

  /** Below one hundred the padded field is exactly two digits and reads back as `n`. */
  lemma TwoDigitsField(n: nat)
    requires n < 100
    ensures |TwoDigits(n)| == 2 && AllDigits(TwoDigits(n))
    ensures ParseDecimal(TwoDigits(n)) == n
  {
    var d := Decimal(n);
    if n < 10 {
      var t := TwoDigits(n);
      assert t == ['0'] + d;
      assert t[..1] == ['0'];
      assert ParseDecimal(['0']) == 0 by {
        assert ['0'][..0] == [];
      }
    } else {
      assert |Decimal(n / 10)| == 1;
      DecimalRoundTrip(n);
    }
  }

  // ---------------------------------------------------------------------------
  // The clock itself
  // ---------------------------------------------------------------------------

  datatype Hms = Hms(hours: nat, minutes: nat, secs: nat)

  /** The hours, minutes and seconds `formatTime` computes with floor division and `%`. */
  function Decompose(seconds: nat): (t: Hms)
    ensures t.hours * 3600 + t.minutes * 60 + t.secs == seconds
    ensures t.minutes < 60 && t.secs < 60
    ensures t.hours > 0 <==> seconds >= 3600
  {
    var h, r := seconds / 3600, seconds % 3600;
    assert seconds == h * 3600 + r && r < 3600;
    var m, sec := r / 60, r % 60;
    assert r == m * 60 + sec && m < 60;
    assert sec == seconds % 60 by { DivModSixty(h, r, m, sec, seconds); }
    Hms(h, m, sec)
  }

  /** `seconds % 60` is the remainder of `seconds % 3600` by 60. */
  lemma DivModSixty(h: nat, r: nat, m: nat, sec: nat, seconds: nat)
    requires seconds == h * 3600 + r && r == m * 60 + sec && sec < 60
    ensures sec == seconds % 60
  {
    assert seconds == (h * 60 + m) * 60 + sec;
  }

  /** The string `formatTime` builds from the hours, minutes and seconds: `H:MM:SS`
      when the hour count is positive, `M:SS` otherwise. */
  function Render(t: Hms): string {
    if t.hours > 0 then
      Decimal(t.hours) + ":" + TwoDigits(t.minutes) + ":" + TwoDigits(t.secs)
    else
      Decimal(t.minutes) + ":" + TwoDigits(t.secs)
  }

  /** `formatTime(seconds)`. */
  function FormatTime(seconds: nat): string {
    Render(Decompose(seconds))
  }

  // ---------------------------------------------------------------------------
  // Reading a clock string back: split on ':' (as `String.prototype.split`)
  // ---------------------------------------------------------------------------

  /** `t.split(':')`: the maximal colon-free pieces of `t`, in order. */
  function Split(t: string): (fields: seq<string>)
    ensures |fields| >= 1
  {
    if t == [] then [[]]
    else
      var rest := Split(t[1..]);
      if t[0] == ':' then [[]] + rest else [[t[0]] + rest[0]] + rest[1..]
  }

  lemma {:induction false} SplitNoColon(a: string)
    requires ':' !in a
    ensures Split(a) == [a]
  {
    if a != [] {
      SplitNoColon(a[1..]);
      assert [a[0]] + a[1..] == a;
    }
  }

  lemma {:induction false} SplitAtColon(a: string, b: string)
    requires ':' !in a
    ensures Split(a + ":" + b) == [a] + Split(b)
  {
    if a == [] {
      assert a + ":" + b == [':'] + b;
      assert (a + ":" + b)[1..] == b;
    } else {
      assert (a + ":" + b)[1..] == a[1..] + ":" + b;
      SplitAtColon(a[1..], b);
      assert [a[0]] + a[1..] == a;
    }
  }

  lemma DigitsHaveNoColon(s: string)
    requires AllDigits(s)
    ensures ':' !in s
  {
  }

  /** The value a list of clock fields denotes: `H:MM:SS` or `M:SS` with decimal
      fields. */
  function ClockValue(f: seq<string>): Option<nat> {
    if |f| == 3 && AllDigits(f[0]) && AllDigits(f[1]) && AllDigits(f[2]) then
      Some(ParseDecimal(f[0]) * 3600 + ParseDecimal(f[1]) * 60 + ParseDecimal(f[2]))
    else if |f| == 2 && AllDigits(f[0]) && AllDigits(f[1]) then
      Some(ParseDecimal(f[0]) * 60 + ParseDecimal(f[1]))
    else
      None
  }

  /** The value a clock string denotes. */
  function ParseClock(t: string): Option<nat> {
    ClockValue(Split(t))
  }

  /** Three colon-free pieces joined by colons split back into those pieces. */
  lemma SplitThree(h: string, m: string, s: string)
    requires ':' !in h && ':' !in m && ':' !in s
    ensures Split(h + ":" + m + ":" + s) == [h, m, s]
  {
    SplitNoColon(s);
    SplitAtColon(m, s);
    assert h + ":" + m + ":" + s == h + ":" + (m + ":" + s);
    SplitAtColon(h, m + ":" + s);
  }

  /** Two colon-free pieces joined by a colon split back into those pieces. */
  lemma SplitTwo(m: string, s: string)
    requires ':' !in m && ':' !in s
    ensures Split(m + ":" + s) == [m, s]
  {
    SplitNoColon(s);
    SplitAtColon(m, s);
  }

  /** The fields of a rendered clock: the long form splits into three, the short
      form into two. */
  lemma RenderFields(t: Hms)
    requires t.minutes < 60 && t.secs < 60
    ensures t.hours > 0 ==>
      Split(Render(t)) == [Decimal(t.hours), TwoDigits(t.minutes), TwoDigits(t.secs)]
    ensures t.hours == 0 ==> Split(Render(t)) == [Decimal(t.minutes), TwoDigits(t.secs)]
  {
    var h, mm, m, s := Decimal(t.hours), Decimal(t.minutes), TwoDigits(t.minutes), TwoDigits(t.secs);
    TwoDigitsField(t.minutes);
    TwoDigitsField(t.secs);
    DigitsHaveNoColon(h);
    DigitsHaveNoColon(mm);
    DigitsHaveNoColon(m);
    DigitsHaveNoColon(s);
    if t.hours > 0 {
      SplitThree(h, m, s);
    } else {
      SplitTwo(mm, s);
    }
  }

  /** The shape of a rendered clock: three fields exactly for the long form, and
      every field after the first is two digits. */
  lemma RenderShape(t: Hms)
    requires t.minutes < 60 && t.secs < 60
    ensures var f := Split(Render(t));
      && (|f| == 3 <==> t.hours > 0)
      && (|f| == 2 <==> t.hours == 0)
      && (forall i :: 1 <= i < |f| ==> |f[i]| == 2 && AllDigits(f[i]))
  {
    var f := Split(Render(t));
    var m, s := TwoDigits(t.minutes), TwoDigits(t.secs);
    TwoDigitsField(t.minutes);
    TwoDigitsField(t.secs);
    RenderFields(t);
    if t.hours > 0 {
      assert f == [Decimal(t.hours), m, s];
      assert f[1] == m && f[2] == s && |f| == 3;
    } else {
      assert f == [Decimal(t.minutes), s];
      assert f[1] == s && |f| == 2;
    }
  }

  /** The fields of `formatTime(seconds)`: three exactly when `seconds >= 3600`, two
      otherwise; the hour (long form) or minute (short form) field is the unpadded
      decimal, every later field is exactly two digits. */
  lemma FormatTimeFields(seconds: nat)
    ensures var f := Split(FormatTime(seconds)); var t := Decompose(seconds);
      && (|f| == 3 <==> seconds >= 3600)
      && (|f| == 2 <==> seconds < 3600)
      && (seconds >= 3600 ==> f == [Decimal(t.hours), TwoDigits(t.minutes), TwoDigits(t.secs)])
      && (seconds < 3600 ==> f == [Decimal(t.minutes), TwoDigits(t.secs)])
      && (forall i :: 1 <= i < |f| ==> |f[i]| == 2 && AllDigits(f[i]))
  {
    var t := Decompose(seconds);
    assert FormatTime(seconds) == Render(t);
    RenderFields(t);
    RenderShape(t);
  }

  /** Three digit fields denote their weighted sum. */
  lemma ValueOfThree(a: string, b: string, c: string)
    requires AllDigits(a) && AllDigits(b) && AllDigits(c)
    ensures ClockValue([a, b, c]) == Some(ParseDecimal(a) * 3600 + ParseDecimal(b) * 60 + ParseDecimal(c))
  {
    var f := [a, b, c];
    assert |f| == 3 && f[0] == a && f[1] == b && f[2] == c;
  }

  /** Two digit fields denote their weighted sum. */
  lemma ValueOfTwo(a: string, b: string)
    requires AllDigits(a) && AllDigits(b)
    ensures ClockValue([a, b]) == Some(ParseDecimal(a) * 60 + ParseDecimal(b))
  {
    var f := [a, b];
    assert |f| == 2 && f[0] == a && f[1] == b;
  }

  /** The long form's fields denote `hours:minutes:secs`. */
  lemma LongValue(hours: nat, minutes: nat, secs: nat)
    requires minutes < 100 && secs < 100
    ensures ClockValue([Decimal(hours), TwoDigits(minutes), TwoDigits(secs)])
      == Some(hours * 3600 + minutes * 60 + secs)
  {
    TwoDigitsField(minutes);
    TwoDigitsField(secs);
    DecimalRoundTrip(hours);
    ValueOfThree(Decimal(hours), TwoDigits(minutes), TwoDigits(secs));
  }

  /** The short form's fields denote `minutes:secs`. */
  lemma ShortValue(minutes: nat, secs: nat)
    requires secs < 100
    ensures ClockValue([Decimal(minutes), TwoDigits(secs)]) == Some(minutes * 60 + secs)
  {
    TwoDigitsField(secs);
    DecimalRoundTrip(minutes);
    ValueOfTwo(Decimal(minutes), TwoDigits(secs));
  }

  /** Reading a rendered clock back gives the seconds it stands for. */
  lemma RenderRoundTrip(t: Hms)
    requires t.minutes < 60 && t.secs < 60
    ensures ParseClock(Render(t)) == Some(t.hours * 3600 + t.minutes * 60 + t.secs)
  {
    var f := Split(Render(t));
    RenderFields(t);
    if t.hours > 0 {
      var g := [Decimal(t.hours), TwoDigits(t.minutes), TwoDigits(t.secs)];
      LongValue(t.hours, t.minutes, t.secs);
      assert f == g;
      assert ClockValue(f) == Some(t.hours * 3600 + t.minutes * 60 + t.secs);
    } else {
      var g := [Decimal(t.minutes), TwoDigits(t.secs)];
      ShortValue(t.minutes, t.secs);
      assert f == g;
      assert ClockValue(f) == Some(t.minutes * 60 + t.secs);
    }
  }

  /** Reading the fields of `formatTime(seconds)` back as decimals and recombining
      them gives `seconds`. */
  lemma FormatTimeRoundTrip(seconds: nat)
    ensures ParseClock(FormatTime(seconds)) == Some(seconds)
  {
    RenderRoundTrip(Decompose(seconds));
  }

  /** Distinct session times are displayed differently. */
  lemma FormatTimeInjective(a: nat, b: nat)
    requires FormatTime(a) == FormatTime(b)
    ensures a == b
  {
    FormatTimeRoundTrip(a);
    FormatTimeRoundTrip(b);
  }
}
