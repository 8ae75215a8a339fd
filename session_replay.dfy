/** The debug renderer helpers of Session Replay: the `#RRGGBBAA` colour
    parser and the default-then-override builders of a frame's style and
    content. Colour channels are kept as integers 0..255; the division by
    255 into a floating-point component is not modelled. */
module SessionReplay {
  import opened Wrappers

  /** Why `UIColor(hexString:)` stops the program (its three preconditions). */
  datatype HexColorError = WrongLength | MissingHashPrefix | NotHexadecimal

  datatype Color = Color(red: int, green: int, blue: int, alpha: int)

  predicate ValidColor(c: Color) {
    0 <= c.red < 256 && 0 <= c.green < 256 && 0 <= c.blue < 256 && 0 <= c.alpha < 256
  }

  /** `UIColor.clear`. */
  const Clear := Color(0, 0, 0, 0)

  /** The value of one digit in base 16, either case, as Swift reads it. */
  function HexDigit(c: char): (r: Option<nat>)
    ensures r.Some? ==> r.value < 16
    ensures r.Some? <==> ('0' <= c <= '9' || 'a' <= c <= 'f' || 'A' <= c <= 'F')
    ensures '0' <= c <= '9' ==> r == Some(c as nat - '0' as nat)
    ensures 'a' <= c <= 'f' ==> r == Some(c as nat - 'a' as nat + 10)
    ensures 'A' <= c <= 'F' ==> r == Some(c as nat - 'A' as nat + 10)
  {
    if '0' <= c <= '9' then Some(c as nat - '0' as nat)
    else if 'a' <= c <= 'f' then Some(c as nat - 'a' as nat + 10)
    else if 'A' <= c <= 'F' then Some(c as nat - 'A' as nat + 10)
    else None
  }

  function Pow16(n: nat): (r: nat)
    ensures r >= 1
  {
    if n == 0 then 1 else 16 * Pow16(n - 1)
  }

  /** The value of a run of hexadecimal digits, most significant first;
      `None` when a character is not a digit. */
  function Digits(s: seq<char>): (r: Option<nat>)
    ensures r.Some? ==> r.value < Pow16(|s|)
  {
    if s == [] then Some(0)
    else
      var prefix := Digits(s[..|s| - 1]);
      var last := HexDigit(s[|s| - 1]);
      if prefix.None? || last.None? then None
      else Some(prefix.value * 16 + last.value)
  }

  /** A run has a value exactly when every character is a digit. */
  lemma {:induction false} DigitsDefinedIffHex(s: seq<char>)
    ensures Digits(s).Some? <==> forall i :: 0 <= i < |s| ==> HexDigit(s[i]).Some?
  {
    if s != [] {
      var prefix := s[..|s| - 1];
      DigitsDefinedIffHex(prefix);
      assert forall i :: 0 <= i < |prefix| ==> prefix[i] == s[i];
    }
  }

  /** `UInt64(_:radix: 16)` on a string short enough never to overflow:
      an optional `+`, or a `-` that only `0` can follow, then at least one
      digit. */
  function ParseHex(s: seq<char>): (r: Option<nat>)
    ensures s == [] ==> r.None?
    ensures (s != [] && s[0] != '+' && s[0] != '-') ==> r == Digits(s)
    ensures (s != [] && s[0] == '+') ==> r == if |s| == 1 then None else Digits(s[1..])
    ensures (s != [] && s[0] == '-') ==> r == if |s| > 1 && Digits(s[1..]) == Some(0) then Some(0) else None
  {
    if s == [] then None
    else if s[0] == '+' then
      if |s| == 1 then None else Digits(s[1..])
    else if s[0] == '-' then
      if |s| > 1 && Digits(s[1..]) == Some(0) then Some(0) else None
    else Digits(s)
  }

  /** The four bytes of the value, highest first: `(v >> 24) & 0xFF` and so on. */
  function Channels(v: nat): (c: Color)
    ensures ValidColor(c)
  {
    Color((v / 0x100_0000) % 0x100, (v / 0x1_0000) % 0x100, (v / 0x100) % 0x100, v % 0x100)
  }

  /** `UIColor(hexString:)`. */
  function ColorFromHex(s: seq<char>): (r: Result<Color, HexColorError>)
    ensures r == Failure(WrongLength) <==> |s| != 9
    ensures r == Failure(MissingHashPrefix) <==> |s| == 9 && s[0] != '#'
    ensures r == Failure(NotHexadecimal) <==> |s| == 9 && s[0] == '#' && ParseHex(s[1..]).None?
    ensures r.Success? ==> |s| == 9 && s[0] == '#' && ParseHex(s[1..]).Some?
                           && r.value == Channels(ParseHex(s[1..]).value) && ValidColor(r.value)
  {
    if |s| != 9 then Failure(WrongLength)
    else if s[0] != '#' then Failure(MissingHashPrefix)
    else match ParseHex(s[1..])
      case None => Failure(NotHexadecimal)
      case Some(v) => Success(Channels(v))
  }

  // ---- The round trip: a colour written as `#RRGGBBAA` reads back as itself.

  function HexChar(d: nat): (c: char)
    requires d < 16
    ensures HexDigit(c) == Some(d)
  {
    if d < 10 then ('0' as int + d) as char else ('a' as int + d - 10) as char
  }

  /** `n` written with `width` lower-case hexadecimal digits. */
  function ToHex(n: nat, width: nat): (s: seq<char>)
    ensures |s| == width
  {
    if width == 0 then [] else ToHex(n / 16, width - 1) + [HexChar(n % 16)]
  }

  /** The colour in the form the parser reads. */
  function Format(c: Color): (s: seq<char>)
    requires ValidColor(c)
    ensures |s| == 9 && s[0] == '#' && s[1..] == HexBody(c)
  {
    "#" + HexBody(c)
  }

  /** The eight digits of `Format`. */
  function HexBody(c: Color): (s: seq<char>)
    requires ValidColor(c)
    ensures |s| == 8
  {
    ToHex(c.red, 2) + ToHex(c.green, 2) + ToHex(c.blue, 2) + ToHex(c.alpha, 2)
  }

  lemma {:induction false} DigitsOfToHex(n: nat, width: nat)
    requires n < Pow16(width)
    ensures Digits(ToHex(n, width)) == Some(n)
  {
    if width > 0 {
      DigitsOfToHex(n / 16, width - 1);
      var s := ToHex(n, width);
      assert s[..|s| - 1] == ToHex(n / 16, width - 1);
    }
  }

  lemma {:induction false} DigitsOfConcat(x: seq<char>, y: seq<char>)
    requires Digits(x).Some? && Digits(y).Some?
    ensures Digits(x + y) == Some(Digits(x).value * Pow16(|y|) + Digits(y).value)
    decreases |y|
  {
    if y == [] {
      assert x + y == x;
    } else {
      var y' := y[..|y| - 1];
      assert (x + y)[..|x + y| - 1] == x + y';
      assert (x + y)[|x + y| - 1] == y[|y| - 1];
      assert Digits(y').Some?;
      DigitsOfConcat(x, y');
      ShiftDigit(Digits(x).value, Pow16(|y'|), Digits(y').value, HexDigit(y[|y| - 1]).value);
    }
  }

  /** The arithmetic step of `DigitsOfConcat`: one more digit on the right. */
  lemma ShiftDigit(x: nat, p: nat, y: nat, d: nat)
    ensures (x * p + y) * 16 + d == x * (16 * p) + (y * 16 + d)
  {
  }

  lemma Bytes(x: nat, b: nat)
    requires b < 0x100
    ensures (x * 0x100 + b) / 0x100 == x && (x * 0x100 + b) % 0x100 == b
  {
  }

  lemma ByteShifts(v: nat)
    ensures v / 0x1_0000 == v / 0x100 / 0x100
    ensures v / 0x100_0000 == v / 0x100 / 0x100 / 0x100
  {
    var q1 := v / 0x100;
    var q2 := q1 / 0x100;
    var q3 := q2 / 0x100;
    assert v == q2 * 0x1_0000 + (q1 % 0x100) * 0x100 + v % 0x100;
    assert v == q3 * 0x100_0000 + (q2 % 0x100) * 0x1_0000 + (q1 % 0x100) * 0x100 + v % 0x100;
  }

  /** The bytes of a value built from four bytes are those bytes. */
  lemma ChannelsOfBytes(c: Color)
    requires ValidColor(c)
    ensures Channels(((c.red * 0x100 + c.green) * 0x100 + c.blue) * 0x100 + c.alpha) == c
  {
    var v := ((c.red * 0x100 + c.green) * 0x100 + c.blue) * 0x100 + c.alpha;
    Bytes((c.red * 0x100 + c.green) * 0x100 + c.blue, c.alpha);
    Bytes(c.red * 0x100 + c.green, c.blue);
    Bytes(c.red, c.green);
    ByteShifts(v);
  }

  /** Two more digits on the right shift the value by a byte. */
  lemma AppendByte(x: seq<char>, v: nat, n: nat)
    requires Digits(x) == Some(v) && n < 0x100
    ensures Digits(x + ToHex(n, 2)) == Some(v * 0x100 + n)
  {
    assert Pow16(2) == 0x100;
    DigitsOfToHex(n, 2);
    DigitsOfConcat(x, ToHex(n, 2));
  }

  /** The first six digits of a colour read back as red, green and blue. */
  lemma DigitsOfRGB(c: Color)
    requires ValidColor(c)
    ensures Digits(ToHex(c.red, 2) + ToHex(c.green, 2) + ToHex(c.blue, 2)) == Some((c.red * 0x100 + c.green) * 0x100 + c.blue)
  {
    var r, g := ToHex(c.red, 2), ToHex(c.green, 2);
    assert Pow16(2) == 0x100;
    DigitsOfToHex(c.red, 2);
    AppendByte(r, c.red, c.green);
    AppendByte(r + g, c.red * 0x100 + c.green, c.blue);
  }

  /** The eight digits of a colour read back as its four bytes, highest first. */
  lemma DigitsOfFormat(c: Color)
    requires ValidColor(c)
    ensures Digits(HexBody(c)) == Some(((c.red * 0x100 + c.green) * 0x100 + c.blue) * 0x100 + c.alpha)
  {
    DigitsOfRGB(c);
    var rgb := ToHex(c.red, 2) + ToHex(c.green, 2) + ToHex(c.blue, 2);
    AppendByte(rgb, (c.red * 0x100 + c.green) * 0x100 + c.blue, c.alpha);
    assert HexBody(c) == rgb + ToHex(c.alpha, 2);
  }

  /** Any valid colour, written as `#RRGGBBAA`, parses back to itself. */
  lemma FormatRoundTrip(c: Color)
    requires ValidColor(c)
    ensures ColorFromHex(Format(c)) == Success(c)
  {
    var digits := Format(c)[1..];
    DigitsOfFormat(c);
    assert digits == HexBody(c) && digits[0] == ToHex(c.red, 2)[0];
    assert HexDigit(digits[0]).Some?;
    assert ParseHex(digits) == Digits(digits);
    ChannelsOfBytes(c);
  }

  lemma SevenDigitOne()
    ensures Digits("0000001") == Some(1)
  {
    assert "0000001" == ToHex(1, 7);
    assert Pow16(7) == 16 * Pow16(6);
    DigitsOfToHex(1, 7);
  }

  lemma SevenDigitZero()
    ensures Digits("0000000") == Some(0)
  {
    assert "0000000" == ToHex(0, 7);
    DigitsOfToHex(0, 7);
  }

  /** `UInt64(_:radix:)` takes a sign, so a `+` may stand in for the
      highest digit. */
  lemma PlusSignedColor()
    ensures ColorFromHex("#+0000001") == Success(Color(0, 0, 0, 1))
  {
    var rest := "#+0000001"[1..];
    assert rest == "+0000001" && rest[1..] == "0000001";
    SevenDigitOne();
  }

  /** A `-` is taken too, as long as only zeros follow: `#-0000000` is
      `UIColor.clear`... */
  lemma MinusSignedZero()
    ensures ColorFromHex("#-0000000") == Success(Clear)
  {
    var rest := "#-0000000"[1..];
    assert rest == "-0000000" && rest[1..] == "0000000";
    SevenDigitZero();
  }

  /** ... and `#-0000001` is rejected. */
  lemma MinusSignedOne()
    ensures ColorFromHex("#-0000001") == Failure(NotHexadecimal)
  {
    var rest := "#-0000001"[1..];
    assert rest == "-0000001" && rest[1..] == "0000001";
    SevenDigitOne();
  }

  // ---- Frame style.

  /** `SRShapeBorder`. */
  datatype ShapeBorder = ShapeBorder(color: string, width: int)

  /** `SRShapeStyle`. */
  datatype ShapeStyle = ShapeStyle(backgroundColor: Option<string>, cornerRadius: Option<real>, opacity: Option<real>)

  /** `BlueprintFrameStyle`. */
  datatype FrameStyle = FrameStyle(lineWidth: real, lineColor: Color, fillColor: Color, cornerRadius: real, opacity: real)

  const DefaultStyle := FrameStyle(0.0, Clear, Clear, 0.0, 1.0)

  /** `frameStyle(border:style:)`: the defaults, then the border, then the
      fields of the style that are present; a malformed colour stops it. */
  method BuildFrameStyle(border: Option<ShapeBorder>, style: Option<ShapeStyle>) returns (r: Result<FrameStyle, HexColorError>)
    ensures (border.Some? && ColorFromHex(border.value.color).Failure?) ==> r == Failure(ColorFromHex(border.value.color).error)
    ensures (border.None? || ColorFromHex(border.value.color).Success?)
            && style.Some? && style.value.backgroundColor.Some?
            && ColorFromHex(style.value.backgroundColor.value).Failure? ==>
      r == Failure(ColorFromHex(style.value.backgroundColor.value).error)
    ensures r.Failure? <==>
      (border.Some? && ColorFromHex(border.value.color).Failure?) ||
      (style.Some? && style.value.backgroundColor.Some? && ColorFromHex(style.value.backgroundColor.value).Failure?)
    ensures r.Success? ==>
      && r.value.lineWidth == (if border.Some? then border.value.width as real else DefaultStyle.lineWidth)
      && r.value.lineColor == (if border.Some? then ColorFromHex(border.value.color).value else DefaultStyle.lineColor)
      && r.value.fillColor == (if style.Some? && style.value.backgroundColor.Some?
                               then ColorFromHex(style.value.backgroundColor.value).value else DefaultStyle.fillColor)
      && r.value.cornerRadius == (if style.Some? && style.value.cornerRadius.Some?
                                  then style.value.cornerRadius.value else DefaultStyle.cornerRadius)
      && r.value.opacity == (if style.Some? && style.value.opacity.Some? then style.value.opacity.value else DefaultStyle.opacity)
    ensures r.Success? ==> ValidColor(r.value.lineColor) && ValidColor(r.value.fillColor)
  {
    var fs := DefaultStyle;
    if border.Some? {
      fs := fs.(lineWidth := border.value.width as real);
      var color := ColorFromHex(border.value.color);
      if color.Failure? {
        return Failure(color.error);
      }
      fs := fs.(lineColor := color.value);
    }
    if style.Some? {
      if style.value.backgroundColor.Some? {
        var color := ColorFromHex(style.value.backgroundColor.value);
        if color.Failure? {
          return Failure(color.error);
        }
        fs := fs.(fillColor := color.value);
      }
      fs := fs.(cornerRadius := style.value.cornerRadius.GetOr(fs.cornerRadius));
      fs := fs.(opacity := style.value.opacity.GetOr(fs.opacity));
    }
    return Success(fs);
  }

  // ---- Frame content.

  /** `SRTextStyle`. */
  datatype TextStyle = TextStyle(color: string, size: int)

  datatype Horizontal = Left | HCenter | Right
  datatype Vertical = Top | VCenter | Bottom

  /** `SRTextPosition`, down to the alignment the renderer reads. */
  datatype TextAlignment = TextAlignment(horizontal: Option<Horizontal>, vertical: Option<Vertical>)
  datatype TextPosition = TextPosition(alignment: Option<TextAlignment>)

  /** The renderer's alignment along either axis. */
  datatype FrameAlignment = Leading | Center | Trailing

  /** `BlueprintFrameContent`; an absent alignment is the renderer's own default. */
  datatype FrameContent = FrameContent(
    text: string, textColor: Color, fontSize: real,
    horizontalAlignment: Option<FrameAlignment>, verticalAlignment: Option<FrameAlignment>)

  function HorizontalAlignment(h: Horizontal): (a: FrameAlignment)
    ensures a == Leading <==> h == Left
    ensures a == Center <==> h == HCenter
    ensures a == Trailing <==> h == Right
  {
    match h
    case Left => Leading
    case HCenter => Center
    case Right => Trailing
  }

  function VerticalAlignment(v: Vertical): (a: FrameAlignment)
    ensures a == Leading <==> v == Top
    ensures a == Center <==> v == VCenter
    ensures a == Trailing <==> v == Bottom
  {
    match v
    case Top => Leading
    case VCenter => Center
    case Bottom => Trailing
  }

  const DefaultFontSize: real := 8.0

  /** `frameContent(text:textStyle:textPosition:)`: clear text in an 8-point
      font unless a text style says otherwise, and each alignment present in
      the position mapped; a malformed colour stops it. */
  method BuildFrameContent(text: string, textStyle: Option<TextStyle>, textPosition: Option<TextPosition>)
    returns (r: Result<FrameContent, HexColorError>)
    ensures r.Failure? <==> textStyle.Some? && ColorFromHex(textStyle.value.color).Failure?
    ensures r.Failure? ==> r.error == ColorFromHex(textStyle.value.color).error
    ensures r.Success? ==>
      && r.value.text == text
      && r.value.textColor == (if textStyle.Some? then ColorFromHex(textStyle.value.color).value else Clear)
      && r.value.fontSize == (if textStyle.Some? then textStyle.value.size as real else DefaultFontSize)
      && (r.value.horizontalAlignment.Some? <==>
            textPosition.Some? && textPosition.value.alignment.Some? && textPosition.value.alignment.value.horizontal.Some?)
      && (r.value.horizontalAlignment.Some? ==>
            r.value.horizontalAlignment.value == HorizontalAlignment(textPosition.value.alignment.value.horizontal.value))
      && (r.value.verticalAlignment.Some? <==>
            textPosition.Some? && textPosition.value.alignment.Some? && textPosition.value.alignment.value.vertical.Some?)
      && (r.value.verticalAlignment.Some? ==>
            r.value.verticalAlignment.value == VerticalAlignment(textPosition.value.alignment.value.vertical.value))
  {
    var fc := FrameContent(text, Clear, DefaultFontSize, None, None);
    if textStyle.Some? {
      var color := ColorFromHex(textStyle.value.color);
      if color.Failure? {
        return Failure(color.error);
      }
      fc := fc.(textColor := color.value);
      fc := fc.(fontSize := textStyle.value.size as real);
    }
    if textPosition.Some? {
      var alignment := textPosition.value.alignment;
      if alignment.Some? && alignment.value.horizontal.Some? {
        fc := fc.(horizontalAlignment := Some(HorizontalAlignment(alignment.value.horizontal.value)));
      }
      if alignment.Some? && alignment.value.vertical.Some? {
        fc := fc.(verticalAlignment := Some(VerticalAlignment(alignment.value.vertical.value)));
      }
    }
    return Success(fc);
  }
}
