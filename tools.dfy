/**
 * The utilization bar of `src/tools.rs` (`process_str`) and the terminal text it
 * is made of.  Escape sequences are abstract pieces; `Paint` gives them their
 * meaning: the colour in which each visible character appears on the terminal.
 * Colour parsing (`color_to_rgb8`) and byte formatting (`byte_str`) belong to
 * libraries and enter the model as a resolver parameter and as token pieces.
 */
module Tools {
  import opened Wrappers

  type Byte = x: int | 0 <= x < 256

  /** A foreground colour: a 24-bit colour, or one of the terminal's own named colours. */
  datatype Color = Rgb(r: Byte, g: Byte, b: Byte) | AnsiRed | AnsiGreen

  /** An IEEE double as this model sees it: a real number, or NaN. Rounding is not modelled. */
  datatype Float = Num(v: real) | NaN

  /** A piece of terminal text. */
  datatype Piece =
    | Str(s: string)          // literal characters
    | Bytes(n: nat)           // `n.byte_str()`: n bytes in binary units, one decimal
    | Percent(ratio: Float)   // `{:.1}` of ratio * 100
    | Fg(color: Color)        // start a foreground colour
    | FgReset                 // `color::Fg(color::Reset)`: back to the default foreground
    | StyleReset              // `style::Reset`: back to the default style

  type StyledText = seq<Piece>

  /** `n.byte_str()`, as a token: the formatter is a library's. */
  function ByteStr(n: nat): StyledText
  {
    [Bytes(n)]
  }

  /** A visible character and the foreground colour in force for it (`None`: the terminal default). */
  datatype Glyph = Glyph(ch: char, pen: Option<Color>)

  /** Text made only of literal characters and escapes, so that its appearance is known. */
  predicate Displayable(s: StyledText)
  {
    forall i :: 0 <= i < |s| ==> !s[i].Bytes? && !s[i].Percent?
  }

  function Spread(t: string, pen: Option<Color>): seq<Glyph>
  {
    seq(|t|, i requires 0 <= i < |t| => Glyph(t[i], pen))
  }

  /** What a terminal shows for `s` when `pen` is the colour in force before it. */
  function Paint(s: StyledText, pen: Option<Color>): seq<Glyph>
    requires Displayable(s)
    decreases |s|
  {
    if s == [] then []
    else if s[0].Str? then Spread(s[0].s, pen) + Paint(s[1..], pen)
    else if s[0].Fg? then Paint(s[1..], Some(s[0].color))
    else Paint(s[1..], None)
  }

  /** `n` copies of glyph `c` in colour `pen`. */
  function Glyphs(c: char, pen: Option<Color>, n: nat): seq<Glyph>
  {
    seq(n, _ => Glyph(c, pen))
  }

  /** `std::iter::repeat(c).take(n).collect::<String>()`. */
  function Repeat(c: char, n: nat): (r: string)
    ensures |r| == n
    ensures forall i :: 0 <= i < n ==> r[i] == c
  {
    if n == 0 then [] else [c] + Repeat(c, n - 1)
  }

  /** `a as f64 / b as f64` for byte counts: 0/0 is NaN, and a positive count over 0 never arises here. */
  function Ratio(a: nat, b: nat): (r: Float)
    requires b == 0 ==> a == 0
    ensures r.NaN? <==> b == 0
    ensures a <= b && r.Num? ==> 0.0 <= r.v <= 1.0
  {
    if b == 0 then NaN else Num(a as real / b as real)
  }

  /** `1.0 - f`. */
  function OneMinus(f: Float): Float
  {
    match f
    case NaN => NaN
    case Num(v) => Num(1.0 - v)
  }

  /** `n as f64 * f`. */
  function Scale(n: nat, f: Float): Float
  {
    match f
    case NaN => NaN
    case Num(v) => Num(n as real * v)
  }

  /**
   * `f as usize`: truncation toward zero, with NaN and negative values saturating
   * to 0.  (Saturation at `usize::MAX` is not modelled: any value that large
   * already exceeds the bar's interior, which is the only comparison made.)
   */
  function ToUsize(f: Float): nat
  {
    match f
    case NaN => 0
    case Num(v) => if v <= 0.0 then 0 else v.Floor
  }

  /** `f > t` on doubles: never true for NaN. */
  predicate Exceeds(f: Float, t: real)
  {
    f.Num? && f.v > t
  }

  /** `color_to_rgb8`: a colour name or hex literal to its channels, or `None` when it does not parse. */
  type ColorResolver = string -> Option<(Byte, Byte, Byte)>

  function ToColor(rgb: (Byte, Byte, Byte)): Color
  {
    Rgb(rgb.0, rgb.1, rgb.2)
  }

  /** Why `process_str` panics: a colour that does not parse, `width - 2` or `total - used` below zero. */
  datatype BarFault = UnsupportedColor(name: string) | WidthUnderflow | FreeUnderflow

  /** The number of coloured cells: `(total as f64 * per) as usize`. */
  function UsedCells(total: nat, per: Float): nat
  {
    ToUsize(Scale(total, per))
  }

  /** The colour of the used cells: the warning colour only when `per > threshold`. */
  function ThresholdColor(per: Float, threshold: real, normal: Color, warning: Color): Color
  {
    if Exceeds(per, threshold) then warning else normal
  }

  /** `"[{color}{used '='}{reset}{free '='}]"`. */
  function Bar(color: Color, used: nat, free: nat): StyledText
  {
    [Str("["), Fg(color), Str(Repeat('=', used)), StyleReset, Str(Repeat('=', free)), Str("]")]
  }

  /**
   * `process_str(width, per, normal_color, warning_color, threshold)`: the bar, or
   * the panic it raises.  The normal colour is parsed first, then the warning
   * colour; then the interior `width - 2` and the free part `total - used` are
   * taken, each of which panics below zero.
   */
  function ProcessStr(width: nat, per: Float, normalColor: string, warningColor: string,
                      threshold: real, resolve: ColorResolver): (r: Result<StyledText, BarFault>)
    ensures r.Ok? <==> resolve(normalColor).Some? && resolve(warningColor).Some?
                       && width >= 2 && UsedCells(width - 2, per) <= width - 2
    ensures resolve(normalColor).None? ==> r == Err(UnsupportedColor(normalColor))
    ensures resolve(normalColor).Some? && resolve(warningColor).None? ==> r == Err(UnsupportedColor(warningColor))
    ensures resolve(normalColor).Some? && resolve(warningColor).Some? && width < 2 ==> r == Err(WidthUnderflow)
    ensures && resolve(normalColor).Some? && resolve(warningColor).Some?
            && width >= 2 && UsedCells(width - 2, per) > width - 2
            ==> r == Err(FreeUnderflow)
    ensures r.Ok? ==> Displayable(r.value)
  {
    match resolve(normalColor)
    case None => Err(UnsupportedColor(normalColor))
    case Some(n) =>
      match resolve(warningColor)
      case None => Err(UnsupportedColor(warningColor))
      case Some(w) =>
        var color := ThresholdColor(per, threshold, ToColor(n), ToColor(w));
        if width < 2 then Err(WidthUnderflow)
        else
          var total := width - 2;
          var used := UsedCells(total, per);
          if used > total then Err(FreeUnderflow)
          else Ok(Bar(color, used, total - used))
  }

  /** `process_str` with the width, colours and threshold fixed: a fraction's bar, or the panic. */
  type BarDrawer = Float -> Result<StyledText, BarFault>

  /**
   * How the bar looks: '[' in the colour already in force, `used` cells '=' in the
   * colour the threshold rule picks, the remaining `width - 2 - used` cells '='
   * uncoloured (they follow the reset), then ']'; `width` visible characters in all.
   */
  lemma {:induction false} BarGlyphs(width: nat, per: Float, normalColor: string, warningColor: string,
                                     threshold: real, resolve: ColorResolver, pen: Option<Color>)
    requires ProcessStr(width, per, normalColor, warningColor, threshold, resolve).Ok?
    ensures var bar := ProcessStr(width, per, normalColor, warningColor, threshold, resolve).value;
            var used := UsedCells(width - 2, per);
            var color := if Exceeds(per, threshold) then ToColor(resolve(warningColor).value)
                         else ToColor(resolve(normalColor).value);
            Paint(bar, pen) == [Glyph('[', pen)] + Glyphs('=', Some(color), used)
                               + Glyphs('=', None, width - 2 - used) + [Glyph(']', None)]
    ensures |Paint(ProcessStr(width, per, normalColor, warningColor, threshold, resolve).value, pen)| == width
  {
    var total := width - 2;
    var used := UsedCells(total, per);
    var color := if Exceeds(per, threshold) then ToColor(resolve(warningColor).value)
                 else ToColor(resolve(normalColor).value);
    assert ProcessStr(width, per, normalColor, warningColor, threshold, resolve).value == Bar(color, used, total - used);
    PaintBar(color, used, total - used, pen);
  }

  /** The glyphs of `Bar(color, used, free)` after text in colour `pen`. */
  lemma PaintBar(color: Color, used: nat, free: nat, pen: Option<Color>)
    ensures Displayable(Bar(color, used, free))
    ensures Paint(Bar(color, used, free), pen)
         == [Glyph('[', pen)] + Glyphs('=', Some(color), used) + Glyphs('=', None, free) + [Glyph(']', None)]
  {
    var bar := Bar(color, used, free);
    var t3 := [StyleReset, Str(Repeat('=', free)), Str("]")];
    PaintAfterReset(color, free);
    var t2 := [Str(Repeat('=', used))] + t3;
    assert Paint(t2, Some(color)) == Glyphs('=', Some(color), used) + Paint(t3, Some(color)) by {
      assert t2[1..] == t3;
    }
    var t1 := [Fg(color)] + t2;
    assert Paint(t1, pen) == Paint(t2, Some(color)) by {
      assert t1[1..] == t2;
    }
    assert bar == [Str("[")] + t1;
    assert Paint(bar, pen) == [Glyph('[', pen)] + Paint(t1, pen) by {
      assert bar[1..] == t1;
    }
  }

  /** After the reset the free cells and the closing bracket appear uncoloured. */
  lemma PaintAfterReset(color: Color, free: nat)
    ensures Paint([StyleReset, Str(Repeat('=', free)), Str("]")], Some(color))
         == Glyphs('=', None, free) + [Glyph(']', None)]
  {
    var tail := [Str("]")];
    assert Paint(tail, None) == [Glyph(']', None)] by {
      assert tail[1..] == [];
    }
    var t4 := [Str(Repeat('=', free))] + tail;
    assert Paint(t4, None) == Glyphs('=', None, free) + [Glyph(']', None)] by {
      assert t4[1..] == tail;
    }
    var t3 := [StyleReset] + t4;
    assert Paint(t3, Some(color)) == Paint(t4, None) by {
      assert t3[1..] == t4;
    }
    assert t3 == [StyleReset, Str(Repeat('=', free)), Str("]")];
  }

  /**
   * For `0 <= per <= 1` the used part is the floor of `total * per` and fits the
   * interior, so the free part `total - used` cannot underflow.
   */
  lemma UsedIsFloor(total: nat, v: real)
    requires 0.0 <= v <= 1.0
    ensures UsedCells(total, Num(v)) == ((total as real) * v).Floor
    ensures UsedCells(total, Num(v)) <= total
  {
    assert (total as real) * v <= (total as real) * 1.0;
  }

  /** `per == 0` leaves the whole interior free; `per == 1` fills it. */
  lemma UsedAtExtremes(total: nat)
    ensures UsedCells(total, Num(0.0)) == 0
    ensures UsedCells(total, Num(1.0)) == total
  {
  }

  /** A NaN fraction (0/0) draws an empty, normally coloured bar. */
  lemma NaNDrawsEmptyBar(total: nat, threshold: real)
    ensures UsedCells(total, NaN) == 0
    ensures !Exceeds(NaN, threshold)
  {
  }

  /**
   * With colours that parse and room for the brackets, a fraction in [0, 1] (or
   * NaN) always yields a bar.
   */
  lemma ProcessStrSucceeds(width: nat, per: Float, normalColor: string, warningColor: string,
                           threshold: real, resolve: ColorResolver)
    requires resolve(normalColor).Some? && resolve(warningColor).Some? && width >= 2
    requires per.Num? ==> 0.0 <= per.v <= 1.0
    ensures ProcessStr(width, per, normalColor, warningColor, threshold, resolve).Ok?
  {
    if per.Num? {
      UsedIsFloor(width - 2, per.v);
    }
  }

  /**
   * The threshold comparison is strict: a fraction equal to the threshold gets no
   * glyph in the warning colour, only glyphs in the normal colour or uncoloured.
   */
  lemma ThresholdIsStrict(width: nat, threshold: real, normalColor: string, warningColor: string,
                          resolve: ColorResolver, g: Glyph)
    requires ProcessStr(width, Num(threshold), normalColor, warningColor, threshold, resolve).Ok?
    requires g in Paint(ProcessStr(width, Num(threshold), normalColor, warningColor, threshold, resolve).value, None)
    ensures g.pen.None? || g.pen == Some(ToColor(resolve(normalColor).value))
  {
    BarGlyphs(width, Num(threshold), normalColor, warningColor, threshold, resolve, None);
  }
}
