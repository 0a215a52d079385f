/// The coloured-text markup of src/ui/colored_text.rs.  `text_with_colors`
/// walks the characters of a string; `{RRGGBB}` sets the colour of the next
/// piece of text, `{}` returns to the default colour, and any other
/// `{...}` stays in the text.  The user-interface calls it makes are
/// modelled as the list of segments it emits.
module ColoredText {
  import opened Tools

  const MARKER_START: char := '{'
  const MARKER_END: char := '}'

  /// A colour as its red, green and blue bytes (0..255).
  datatype Rgb = Rgb(r: int, g: int, b: int)

  /// What the loop emits: `text`/`text_colored`, `same_line_with_spacing`
  /// and `new_line`.
  datatype Segment = Text(color: Option<Rgb>, text: string) | SameLine | NewLine

  /// The loop's local variables, and the segments emitted so far.
  datatype Tokenizer = Tokenizer(
    tempNewColor: string,
    currText: string,
    iterColor: bool,
    textColor: Option<Rgb>,
    out: seq<Segment>)

  const Start := Tokenizer("", "", false, None, [])

  predicate IsHexDigit(c: char) {
    '0' <= c <= '9' || 'a' <= c <= 'f' || 'A' <= c <= 'F'
  }

  function HexDigitValue(c: char): (v: nat)
    requires IsHexDigit(c)
    ensures v < 16
  {
    if '0' <= c <= '9' then c as int - '0' as int
    else if 'a' <= c <= 'f' then c as int - 'a' as int + 10
    else c as int - 'A' as int + 10
  }

  predicate AllHex(s: string) {
    forall i | 0 <= i < |s| :: IsHexDigit(s[i])
  }

  function HexValue(s: string): (v: nat)
    requires AllHex(s)
    ensures v < Pow16(|s|)
  {
    if s == [] then 0 else HexValue(s[..|s| - 1]) * 16 + HexDigitValue(s[|s| - 1])
  }

  function Pow16(n: nat): nat {
    if n == 0 then 1 else 16 * Pow16(n - 1)
  }

  /// The bounds of five and six hexadecimal digits.
  lemma Pow16FiveSix()
    ensures Pow16(5) == 0x10_0000 && Pow16(6) == 0x100_0000
  {
    assert Pow16(1) == 16;
    assert Pow16(3) == 0x1000;
  }

  /// `u32::from_str_radix(s, 16)` for a six-character `s`: hexadecimal
  /// digits, optionally after one leading `+`.  Six characters never
  /// overflow a `u32`.
  function ParseColor(s: string): (r: Option<nat>)
    requires |s| == 6
    ensures r.Some? ==> r.value < 0x100_0000
  {
    Pow16FiveSix();
    if AllHex(s) then Some(HexValue(s))
    else if s[0] == '+' && AllHex(s[1..]) then Some(HexValue(s[1..]))
    else None
  }

  /// The colour channels of a parsed marker.
  function RgbOf(c: nat): (rgb: Rgb)
    requires c < 0x100_0000
    ensures 0 <= rgb.r < 256 && 0 <= rgb.g < 256 && 0 <= rgb.b < 256
    ensures rgb.r * 0x1_0000 + rgb.g * 0x100 + rgb.b == c
  {
    Rgb((c / 0x1_0000) % 0x100, (c / 0x100) % 0x100, c % 0x100)
  }

  /// Emit the pending text with the pending colour, which is used up.
  function Flush(t: Tokenizer): Tokenizer {
    t.(out := t.out + [Text(t.textColor, t.currText), SameLine], textColor := None, currText := "")
  }

  /// One turn of the loop.
  function StepChar(t: Tokenizer, c: char): Tokenizer {
    if c == MARKER_START then
      var t' := if t.currText != "" then Flush(t) else t;
      t'.(iterColor := true, tempNewColor := "")
    else if c == MARKER_END && t.iterColor then
      var content := t.tempNewColor;
      var parsed := if |content| == 6 then ParseColor(content) else None;
      if parsed.Some? then
        t.(textColor := Some(RgbOf(parsed.value)), iterColor := false)
      else if content == "" then
        t.(textColor := None, iterColor := false)
      else
        t.(currText := t.currText + [MARKER_START] + content + [MARKER_END], iterColor := false)
    else if t.iterColor then
      t.(tempNewColor := t.tempNewColor + [c])
    else
      t.(currText := t.currText + [c])
  }

  /// The loop over the characters of `s`.
  function Feed(t: Tokenizer, s: string): Tokenizer {
    if s == [] then t else StepChar(Feed(t, s[..|s| - 1]), s[|s| - 1])
  }

  /// After the loop: the pending text, or a new line when there is none.
  function Finish(t: Tokenizer): seq<Segment> {
    if t.currText != "" then t.out + [Text(t.textColor, t.currText)] else t.out + [NewLine]
  }

  /// The segments `text_with_colors` emits for `text`.
  function Segments(text: string): seq<Segment> {
    Finish(Feed(Start, text))
  }

  /// `text_with_colors`: the character loop itself.
  method TextWithColors(text: string) returns (out: seq<Segment>)
    ensures out == Segments(text)
  {
    var tempNewColor: string := "";
    var currText: string := "";
    var iterColor := false;
    var textColor: Option<Rgb> := None;
    out := [];
    for i := 0 to |text|
      invariant Feed(Start, text[..i]) == Tokenizer(tempNewColor, currText, iterColor, textColor, out)
    {
      assert text[..i + 1][..i] == text[..i];
      var character := text[i];
      if character == MARKER_START {
        if currText != "" {
          out := out + [Text(textColor, currText), SameLine];
          textColor := None;
          currText := "";
        }
        iterColor := true;
        tempNewColor := "";
      } else if character == MARKER_END && iterColor {
        var parsed := if |tempNewColor| == 6 then ParseColor(tempNewColor) else None;
        if parsed.Some? {
          textColor := Some(RgbOf(parsed.value));
        } else if tempNewColor == "" {
          textColor := None;
        } else {
          currText := currText + [MARKER_START] + tempNewColor + [MARKER_END];
        }
        iterColor := false;
      } else if iterColor {
        tempNewColor := tempNewColor + [character];
      } else {
        currText := currText + [character];
      }
    }
    assert text[..|text|] == text;
    if currText != "" {
      out := out + [Text(textColor, currText)];
    } else {
      out := out + [NewLine];
    }
  }

  lemma {:induction false} FeedAppend(t: Tokenizer, a: string, b: string)
    ensures Feed(t, a + b) == Feed(Feed(t, a), b)
  {
    if b == [] {
      assert a + b == a;
    } else {
      assert (a + b)[..|a + b| - 1] == a + b[..|b| - 1];
      FeedAppend(t, a, b[..|b| - 1]);
    }
  }

  /// Text without braces outside a marker is appended to the pending text.
  predicate Plain(s: string) {
    forall i | 0 <= i < |s| :: s[i] != MARKER_START && s[i] != MARKER_END
  }

  lemma {:induction false} FeedPlain(t: Tokenizer, s: string)
    requires Plain(s) && !t.iterColor
    ensures Feed(t, s) == t.(currText := t.currText + s)
  {
    if s != [] {
      FeedPlain(t, s[..|s| - 1]);
      assert t.currText + s[..|s| - 1] + [s[|s| - 1]] == t.currText + s;
    } else {
      assert t.currText + s == t.currText;
    }
  }

  /// Inside a marker, characters other than braces collect as its content.
  lemma {:induction false} FeedMarker(t: Tokenizer, s: string)
    requires Plain(s) && t.iterColor
    ensures Feed(t, s) == t.(tempNewColor := t.tempNewColor + s)
  {
    if s != [] {
      FeedMarker(t, s[..|s| - 1]);
      assert t.tempNewColor + s[..|s| - 1] + [s[|s| - 1]] == t.tempNewColor + s;
    } else {
      assert t.tempNewColor + s == t.tempNewColor;
    }
  }

  /// A whole marker `{content}` read at a point where no text is pending.
  lemma ReadMarker(t: Tokenizer, content: string)
    requires Plain(content) && t.currText == ""
    ensures Feed(t, [MARKER_START] + content + [MARKER_END]) ==
      StepChar(t.(iterColor := true, tempNewColor := content), MARKER_END)
  {
    var atStart := t.(iterColor := true, tempNewColor := "");
    FeedOne(t, MARKER_START);
    assert Feed(t, [MARKER_START]) == atStart;
    FeedAppend(t, [MARKER_START], content);
    FeedMarker(atStart, content);
    assert "" + content == content;
    var inside := t.(iterColor := true, tempNewColor := content);
    assert Feed(t, [MARKER_START] + content) == inside;
    FeedAppend(t, [MARKER_START] + content, [MARKER_END]);
    FeedOne(inside, MARKER_END);
  }

  /// Feeding one character is one step.
  lemma FeedOne(t: Tokenizer, c: char)
    ensures Feed(t, [c]) == StepChar(t, c)
  {
    assert [c][..0] == [];
  }

  /// A colour marker read where no text is pending sets the colour.
  lemma ColorMarkerEffect(t: Tokenizer, hex: string)
    requires |hex| == 6 && AllHex(hex) && t.currText == ""
    ensures Feed(t, [MARKER_START] + hex + [MARKER_END]) ==
      t.(textColor := Some(RgbOf(HexValue(hex))), iterColor := false, tempNewColor := hex)
  {
    assert Plain(hex) by {
      forall i | 0 <= i < |hex| ensures hex[i] != MARKER_START && hex[i] != MARKER_END {
        assert IsHexDigit(hex[i]);
      }
    }
    ReadMarker(t, hex);
    assert ParseColor(hex) == Some(HexValue(hex));
  }

  /// `{}` read where no text is pending returns to the default colour.
  lemma ResetMarkerEffect(t: Tokenizer)
    requires t.currText == ""
    ensures Feed(t, [MARKER_START, MARKER_END]) == t.(textColor := None, iterColor := false, tempNewColor := "")
  {
    ReadMarker(t, "");
    assert [MARKER_START] + "" + [MARKER_END] == [MARKER_START, MARKER_END];
  }

  /// Any other marker (not empty, and not six digits that parse as a
  /// colour) read where no text is pending becomes pending text.
  lemma LiteralMarkerEffect(t: Tokenizer, other: string)
    requires Plain(other) && other != "" && (|other| == 6 ==> ParseColor(other).None?) && t.currText == ""
    ensures Feed(t, [MARKER_START] + other + [MARKER_END]) ==
      t.(currText := [MARKER_START] + other + [MARKER_END], iterColor := false, tempNewColor := other)
  {
    ReadMarker(t, other);
    LiteralClose(t.(iterColor := true, tempNewColor := other));
  }

  /// `}` closing a marker that is neither empty nor a colour appends the
  /// marker, braces included, to the pending text.
  lemma LiteralClose(u: Tokenizer)
    requires u.iterColor && u.tempNewColor != ""
    requires |u.tempNewColor| == 6 ==> ParseColor(u.tempNewColor).None?
    ensures StepChar(u, MARKER_END) ==
      u.(currText := u.currText + [MARKER_START] + u.tempNewColor + [MARKER_END], iterColor := false)
  {
  }

  /// An empty text emits only a new line.
  lemma EmptyText()
    ensures Segments("") == [NewLine]
  {
  }

  /// Text without markers is emitted as one segment in the default colour.
  lemma PlainText(s: string)
    requires Plain(s) && s != ""
    ensures Segments(s) == [Text(None, s)]
  {
    FeedPlain(Start, s);
    assert Feed(Start, s).currText == s;
  }

  /// `{RRGGBB}` colours the text after it with the marker's channels.
  lemma ColorMarker(hex: string, s: string)
    requires |hex| == 6 && AllHex(hex)
    requires Plain(s) && s != ""
    ensures Segments([MARKER_START] + hex + [MARKER_END] + s) == [Text(Some(RgbOf(HexValue(hex))), s)]
  {
    var marker := [MARKER_START] + hex + [MARKER_END];
    ColorMarkerEffect(Start, hex);
    var t1 := Feed(Start, marker);
    FeedAppend(Start, marker, s);
    FeedPlain(t1, s);
    assert Feed(Start, marker + s).currText == s;
  }

  /// The colour is used up by the segment it colours: after `{RRGGBB}a`,
  /// a marker that is not a colour flushes `a` in the colour and then
  /// stays in the following text, which has the default colour.
  lemma ColorUsedOnce(hex: string, a: string, other: string, b: string)
    requires |hex| == 6 && AllHex(hex)
    requires Plain(a) && a != "" && Plain(other) && other != "" && Plain(b)
    requires |other| != 6
    ensures Segments(([MARKER_START] + hex + [MARKER_END]) + a + ([MARKER_START] + other + [MARKER_END]) + b)
      == [Text(Some(RgbOf(HexValue(hex))), a), SameLine,
          Text(None, [MARKER_START] + other + [MARKER_END] + b)]
  {
    var m1 := [MARKER_START] + hex + [MARKER_END];
    var m2 := [MARKER_START] + other + [MARKER_END];
    var color := Some(RgbOf(HexValue(hex)));
    ColorThenText(hex, a);
    var t2 := Feed(Start, m1 + a);
    LiteralAfterText(t2, other);
    var t4 := Feed(t2, m2);
    FeedPlain(t4, b);
    FeedAppend(Start, m1 + a, m2);
    FeedAppend(Start, m1 + a + m2, b);
    assert Feed(t4, b).currText == m2 + b;
  }

  lemma ColorThenText(hex: string, a: string)
    requires |hex| == 6 && AllHex(hex) && Plain(a)
    ensures Feed(Start, [MARKER_START] + hex + [MARKER_END] + a) ==
      Tokenizer(hex, a, false, Some(RgbOf(HexValue(hex))), [])
  {
    var m1 := [MARKER_START] + hex + [MARKER_END];
    ColorMarkerEffect(Start, hex);
    FeedPlain(Feed(Start, m1), a);
    FeedAppend(Start, m1, a);
  }

  lemma LiteralAfterText(t: Tokenizer, other: string)
    requires Plain(other) && other != "" && |other| != 6 && t.currText != ""
    ensures Feed(t, [MARKER_START] + other + [MARKER_END]) ==
      Tokenizer(other, [MARKER_START] + other + [MARKER_END], false, None,
                t.out + [Text(t.textColor, t.currText), SameLine])
  {
    MarkerAfterText(t, other);
    LiteralMarkerEffect(Flush(t), other);
  }

  lemma FeedChain(p1: string, p2: string, p3: string, p4: string)
    ensures Feed(Start, p1 + p2 + p3 + p4) == Feed(Feed(Feed(Feed(Start, p1), p2), p3), p4)
  {
    FeedAppend(Start, p1, p2);
    FeedAppend(Start, p1 + p2, p3);
    FeedAppend(Start, p1 + p2 + p3, p4);
  }

  /// Reading a marker when text is pending first flushes that text.
  lemma MarkerAfterText(t: Tokenizer, content: string)
    requires Plain(content) && t.currText != ""
    ensures Feed(t, [MARKER_START] + content + [MARKER_END]) ==
      Feed(Flush(t), [MARKER_START] + content + [MARKER_END])
  {
    var afterStart := StepChar(t, MARKER_START);
    assert afterStart == StepChar(Flush(t), MARKER_START);
    FeedAppend(t, [MARKER_START], content);
    FeedAppend(Flush(t), [MARKER_START], content);
    FeedAppend(t, [MARKER_START] + content, [MARKER_END]);
    FeedAppend(Flush(t), [MARKER_START] + content, [MARKER_END]);
  }

  /// `{}` after a colour marker returns to the default colour.
  lemma ResetMarker(hex: string, s: string)
    requires |hex| == 6 && AllHex(hex)
    requires Plain(s) && s != ""
    ensures Segments([MARKER_START] + hex + [MARKER_END] + [MARKER_START, MARKER_END] + s) == [Text(None, s)]
  {
    var m1 := [MARKER_START] + hex + [MARKER_END];
    var m2 := [MARKER_START, MARKER_END];
    ColorMarkerEffect(Start, hex);
    var t1 := Feed(Start, m1);
    ResetMarkerEffect(t1);
    var t2 := Feed(t1, m2);
    FeedPlain(t2, s);
    FeedAppend(Start, m1, m2);
    FeedAppend(Start, m1 + m2, s);
    assert Feed(Start, m1 + m2 + s).currText == s;
  }

  /// A marker that is not closed swallows the rest of the input: the text
  /// before it is emitted, then a new line.
  lemma UnclosedMarker(a: string, rest: string)
    requires Plain(a) && a != "" && Plain(rest)
    ensures Segments(a + [MARKER_START] + rest) == [Text(None, a), SameLine, NewLine]
  {
    PlainThenMarker(a);
    var t2 := Feed(Start, a + [MARKER_START]);
    FeedAppend(Start, a + [MARKER_START], rest);
    FeedMarker(t2, rest);
  }

  /// Plain text then `{`: the text is emitted and a marker is open.
  lemma PlainThenMarker(a: string)
    requires Plain(a) && a != ""
    ensures Feed(Start, a + [MARKER_START]) == Tokenizer("", "", true, None, [Text(None, a), SameLine])
  {
    FeedPlain(Start, a);
    assert Feed(Start, a) == Tokenizer("", a, false, None, []);
    FeedAppend(Start, a, [MARKER_START]);
  }
}
