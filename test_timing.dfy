/// The two text formatters of src/test_timing.rs: a `u32` printed with
/// thousands separators, and a duration printed as minutes, seconds and
/// milliseconds.
module TestTiming {

  /// The character of a decimal digit.
  function DigitChar(d: nat): (c: char)
    requires d < 10
    ensures '0' <= c <= '9' && c as int - '0' as int == d
  {
    ['0', '1', '2', '3', '4', '5', '6', '7', '8', '9'][d]
  }

  predicate IsDigit(c: char) {
    '0' <= c <= '9'
  }

  predicate AllDigits(s: string) {
    forall i | 0 <= i < |s| :: IsDigit(s[i])
  }

  /// `to_string` of an unsigned number: its decimal digits, most significant
  /// first, without leading zeros.
  function DecimalString(n: nat): (s: string)
    ensures 0 < |s| && AllDigits(s)
    ensures |s| > 1 ==> s[0] != '0'
  {
    if n < 10 then [DigitChar(n)] else DecimalString(n / 10) + [DigitChar(n % 10)]
  }

  /// The number a string of decimal digits denotes.
  function DecimalValue(s: string): nat
    requires AllDigits(s)
  {
    if s == [] then 0
    else DecimalValue(s[..|s| - 1]) * 10 + (s[|s| - 1] as int - '0' as int)
  }

  /// Reading the printed digits back gives the number.
  lemma {:induction false} DecimalRoundTrip(n: nat)
    ensures DecimalValue(DecimalString(n)) == n
  {
    var s := DecimalString(n);
    if n >= 10 {
      DecimalRoundTrip(n / 10);
      assert s[..|s| - 1] == DecimalString(n / 10);
    }
  }

  /// `rchunks(3)`, reversed and joined with ",": the last three characters
  /// form the last group, and the rest is grouped the same way.
  function Group(s: string): string {
    if |s| <= 3 then s else Group(s[..|s| - 3]) + "," + s[|s| - 3..]
  }

  /// `u32_insert_commas`.
  function InsertCommas(num: nat): string
    requires num < 0x1_0000_0000
  {
    Group(DecimalString(num))
  }

  /// The characters of `t` other than commas.
  function StripCommas(t: string): string {
    if t == [] then []
    else StripCommas(t[..|t| - 1]) + (if t[|t| - 1] == ',' then [] else [t[|t| - 1]])
  }

  lemma StripAppend(a: string, b: string)
    ensures StripCommas(a + b) == StripCommas(a) + StripCommas(b)
    decreases |b|
  {
    if b != [] {
      var ab, init, last := a + b, b[..|b| - 1], b[|b| - 1];
      assert ab[..|ab| - 1] == a + init;
      assert ab[|ab| - 1] == last;
      StripAppend(a, init);
      var l := if last == ',' then [] else [last];
      calc {
        StripCommas(ab);
        StripCommas(a + init) + l;
        StripCommas(a) + StripCommas(init) + l;
        StripCommas(a) + (StripCommas(init) + l);
        StripCommas(a) + StripCommas(b);
      }
    } else {
      assert a + b == a;
    }
  }

  lemma {:induction false} StripDigits(s: string)
    requires AllDigits(s)
    ensures StripCommas(s) == s
  {
    if s != [] {
      StripDigits(s[..|s| - 1]);
    }
  }

  /// Grouping a string of digits puts a comma exactly at the positions
  /// whose distance from the end is a multiple of four, so every group has
  /// three digits except the first, which has one to three; removing the
  /// commas gives the digits back.
  lemma GroupShape(s: string)
    requires 0 < |s| && AllDigits(s)
    ensures var r := Group(s);
      |r| == |s| + (|s| - 1) / 3 &&
      (forall i | 0 <= i < |r| :: r[i] == ',' <==> (|r| - i) % 4 == 0) &&
      StripCommas(r) == s
  {
    GroupLength(s);
    GroupCommas(s);
    GroupStrip(s);
  }

  lemma {:induction false} GroupLength(s: string)
    requires 0 < |s|
    ensures |Group(s)| == |s| + (|s| - 1) / 3
  {
    if |s| > 3 {
      GroupLength(s[..|s| - 3]);
    }
  }

  lemma {:induction false} GroupCommas(s: string)
    requires 0 < |s| && AllDigits(s)
    ensures forall i | 0 <= i < |Group(s)| :: Group(s)[i] == ',' <==> (|Group(s)| - i) % 4 == 0
  {
    if |s| > 3 {
      var head, tail := s[..|s| - 3], s[|s| - 3..];
      assert AllDigits(head) && AllDigits(tail);
      GroupCommas(head);
      CommaStep(Group(head), tail);
    }
  }

  lemma {:induction false} GroupStrip(s: string)
    requires AllDigits(s)
    ensures StripCommas(Group(s)) == s
  {
    if |s| <= 3 {
      StripDigits(s);
    } else {
      var head, tail := s[..|s| - 3], s[|s| - 3..];
      assert AllDigits(head) && AllDigits(tail);
      GroupStrip(head);
      StripStep(Group(head), tail);
      assert head + tail == s;
    }
  }

  lemma CommaStep(g: string, tail: string)
    requires |tail| == 3 && AllDigits(tail)
    requires forall i | 0 <= i < |g| :: g[i] == ',' <==> (|g| - i) % 4 == 0
    ensures var r := g + [','] + tail;
      forall i | 0 <= i < |r| :: r[i] == ',' <==> (|r| - i) % 4 == 0
  {
    var r := g + [','] + tail;
    forall i | 0 <= i < |r|
      ensures r[i] == ',' <==> (|r| - i) % 4 == 0
    {
      if i < |g| {
        assert r[i] == g[i];
        assert |r| - i == (|g| - i) + 4;
      } else if i > |g| {
        assert r[i] == tail[i - |g| - 1];
      }
    }
  }

  lemma StripStep(g: string, tail: string)
    requires AllDigits(tail)
    ensures StripCommas(g + [','] + tail) == StripCommas(g) + tail
  {
    StripAppend(g + [','], tail);
    StripAppend(g, [',']);
    StripDigits(tail);
    assert [','][..0] == [];
  }

  /// The number with separators groups the digits of `num` in threes from
  /// the right, and removing the separators gives its decimal string.
  lemma InsertCommasShape(num: nat)
    requires num < 0x1_0000_0000
    ensures var r := InsertCommas(num);
      StripCommas(r) == DecimalString(num) &&
      forall i | 0 <= i < |r| :: r[i] == ',' <==> (|r| - i) % 4 == 0
  {
    GroupShape(DecimalString(num));
  }

  /// `{:0w}`: the decimal string of `v`, padded on the left with zeros to
  /// at least `w` characters.
  function Padded(v: nat, w: nat): (s: string)
    ensures AllDigits(s)
  {
    var d := DecimalString(v);
    if |d| < w then Zeros(w - |d|) + d else d
  }

  /// `k` zero characters.
  function Zeros(k: nat): (z: string)
    ensures |z| == k && AllDigits(z)
  {
    if k == 0 then [] else ['0'] + Zeros(k - 1)
  }

  lemma {:induction false} LeadingZeros(k: nat, d: string)
    requires AllDigits(d)
    ensures AllDigits(Zeros(k) + d)
    ensures DecimalValue(Zeros(k) + d) == DecimalValue(d)
  {
    if k > 0 {
      var rest := Zeros(k - 1) + d;
      assert Zeros(k) + d == ['0'] + rest;
      LeadingZeros(k - 1, d);
      LeadingZero(rest);
    } else {
      assert Zeros(k) + d == d;
    }
  }

  lemma {:induction false} LeadingZero(d: string)
    requires AllDigits(d)
    ensures DecimalValue(['0'] + d) == DecimalValue(d)
  {
    if d != [] {
      assert (['0'] + d)[..|d|] == ['0'] + d[..|d| - 1];
      assert (['0'] + d)[|d|] == d[|d| - 1];
      LeadingZero(d[..|d| - 1]);
    }
  }

  /// The digits of a number below 10^w fit in w characters.
  lemma {:induction false} DigitsFit(v: nat, w: nat)
    requires 1 <= w
    requires v < Pow10(w)
    ensures |DecimalString(v)| <= w
  {
    if v >= 10 {
      DigitsFit(v / 10, w - 1);
    }
  }

  function Pow10(w: nat): nat {
    if w == 0 then 1 else 10 * Pow10(w - 1)
  }

  /// A value padded to the width it fits in reads back as itself.
  lemma PaddedValue(v: nat, w: nat)
    requires 1 <= w && v < Pow10(w)
    ensures |Padded(v, w)| == w && DecimalValue(Padded(v, w)) == v
  {
    DigitsFit(v, w);
    LeadingZeros(w - |DecimalString(v)|, DecimalString(v));
    DecimalRoundTrip(v);
  }

  /// The minutes, seconds and milliseconds `format_duration` prints.
  function DurationFields(totalMillis: nat): (f: (nat, nat, nat))
    ensures f.1 < 60 && f.2 < 1000
    ensures f.0 * 60000 + f.1 * 1000 + f.2 == totalMillis
  {
    (totalMillis / 60000, (totalMillis % 60000) / 1000, totalMillis % 1000)
  }

  /// `format_duration`: `MM:SS.mmm`.
  function FormatDuration(totalMillis: nat): string {
    var f := DurationFields(totalMillis);
    Padded(f.0, 2) + ":" + Padded(f.1, 2) + "." + Padded(f.2, 3)
  }

  /// Below 100 minutes the text is exactly nine characters, with the
  /// separators at positions 2 and 5, and its three fields read back as
  /// the minutes, seconds and milliseconds of the duration.
  lemma FormatDurationShape(totalMillis: nat)
    requires totalMillis < 100 * 60000
    ensures var r := FormatDuration(totalMillis);
      |r| == 9 && r[2] == ':' && r[5] == '.' &&
      AllDigits(r[..2]) && AllDigits(r[3..5]) && AllDigits(r[6..]) &&
      DecimalValue(r[..2]) * 60000 + DecimalValue(r[3..5]) * 1000 + DecimalValue(r[6..]) == totalMillis
  {
    var f := DurationFields(totalMillis);
    PaddedValue(f.0, 2);
    PaddedValue(f.1, 2);
    PaddedValue(f.2, 3);
    var r := FormatDuration(totalMillis);
    assert r[..2] == Padded(f.0, 2);
    assert r[3..5] == Padded(f.1, 2);
    assert r[6..] == Padded(f.2, 3);
  }
}
