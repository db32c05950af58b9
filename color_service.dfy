/** The colour of a matched note from its match degree: a ramp from red (degree 0)
    through dark yellow (0.5) to dark green (1), after clamping the degree into [0, 1].
    Arithmetic is on exact reals; rounding to the nearest integer is floor(x + 1/2). */
module ColorService {
  import opened Text

  datatype Rgb = Rgb(r: int, g: int, b: int)

  const Red := Rgb(255, 0, 0)
  const DarkYellow := Rgb(215, 215, 0)
  const DarkGreen := Rgb(0, 179, 0)

  predicate IsChannel(x: int) {
    0 <= x <= 255
  }

  predicate IsColor(c: Rgb) {
    IsChannel(c.r) && IsChannel(c.g) && IsChannel(c.b)
  }

  predicate Between(x: int, a: int, b: int) {
    (a <= x <= b) || (b <= x <= a)
  }

  /** Rounding to the nearest integer, halves rounded up. */
  function Round(x: real): (n: int)
    ensures n as real - 0.5 <= x < n as real + 0.5
  {
    (x + 0.5).Floor
  }

  /** One channel at `delta` of the way back from `toC` to `fromC`. */
  function MixChannel(fromC: int, toC: int, delta: real): (n: int)
    ensures delta == 0.0 ==> n == toC
    ensures delta == 1.0 ==> n == fromC
    ensures 0.0 <= delta <= 1.0 ==> Between(n, fromC, toC)
  {
    var x := toC as real + (fromC - toC) as real * delta;
    assert 0.0 <= delta <= 1.0 ==> Between(Round(x), fromC, toC) by {
      if 0.0 <= delta <= 1.0 {
        ScaledStaysBetween(fromC, toC, delta);
      }
    }
    Round(x)
  }

  /** Going `delta` of the way from `toC` back to `fromC` stays between them. */
  lemma ScaledStaysBetween(fromC: int, toC: int, delta: real)
    requires 0.0 <= delta <= 1.0
    ensures var x := toC as real + (fromC - toC) as real * delta;
            (fromC >= toC ==> toC as real <= x <= fromC as real) &&
            (fromC < toC ==> fromC as real <= x <= toC as real)
  {
    if fromC >= toC {
      assert 0.0 <= (fromC - toC) as real * delta <= (fromC - toC) as real * 1.0;
    } else {
      assert (toC - fromC) as real * 1.0 >= (toC - fromC) as real * delta >= 0.0;
    }
  }

  /** The channels of `interpolateBetweenColors(fromColor, toColor, percent)`: `toColor`
      at 0 %, `fromColor` at 100 %, and in between each channel lies between the two
      endpoint channels. */
  function Interpolate(fromColor: Rgb, toColor: Rgb, percent: real): (c: Rgb)
    ensures percent == 0.0 ==> c == toColor
    ensures percent == 100.0 ==> c == fromColor
    ensures 0.0 <= percent <= 100.0 ==>
              Between(c.r, fromColor.r, toColor.r) &&
              Between(c.g, fromColor.g, toColor.g) &&
              Between(c.b, fromColor.b, toColor.b)
    ensures 0.0 <= percent <= 100.0 && IsColor(fromColor) && IsColor(toColor) ==> IsColor(c)
  {
    var delta := percent / 100.0;
    Rgb(MixChannel(fromColor.r, toColor.r, delta),
        MixChannel(fromColor.g, toColor.g, delta),
        MixChannel(fromColor.b, toColor.b, delta))
  }

  /** The CSS text `rgb(r, g, b)`, with ", " between the channels. */
  function RgbText(c: Rgb): string {
    "rgb(" + IntText(c.r) + ", " + IntText(c.g) + ", " + IntText(c.b) + ")"
  }

  /** `interpolateBetweenColors`: the text of the interpolated colour, `toColor` at 0 %
      and `fromColor` at 100 %. */
  function InterpolateBetweenColors(fromColor: Rgb, toColor: Rgb, percent: real): (t: string)
    ensures percent == 0.0 ==> t == RgbText(toColor)
    ensures percent == 100.0 ==> t == RgbText(fromColor)
  {
    RgbText(Interpolate(fromColor, toColor, percent))
  }

  /** The degree limited to the interval [0, 1]. */
  function Clamp(degree: real): (d: real)
    ensures 0.0 <= d <= 1.0
    ensures 0.0 <= degree <= 1.0 ==> d == degree
    ensures degree < 0.0 ==> d == 0.0
    ensures degree > 1.0 ==> d == 1.0
  {
    if degree > 1.0 then 1.0 else if degree < 0.0 then 0.0 else degree
  }

  /** The channels of the ramp before clamping: dark yellow to dark green above 0.5,
      red to dark yellow at or below it. */
  function RampChannels(degree: real): Rgb {
    if degree > 0.5 then Interpolate(DarkGreen, DarkYellow, 200.0 * (degree - 0.5))
    else Interpolate(DarkYellow, Red, 200.0 * degree)
  }

  /** The channels of `getGradientColor(degree)`: the ramp at the clamped degree. Blue
      is always 0; up to 0.5 the colour goes from red towards dark yellow (red channel
      215..255, green 0..215), above 0.5 from dark yellow towards dark green (red
      0..215, green 179..215). */
  function GradientChannels(degree: real): (c: Rgb)
    ensures c == RampChannels(Clamp(degree))
    ensures IsColor(c) && c.b == 0
    ensures Clamp(degree) <= 0.5 ==> 215 <= c.r <= 255 && 0 <= c.g <= 215
    ensures Clamp(degree) > 0.5 ==> 0 <= c.r <= 215 && 179 <= c.g <= 215
  {
    var d := Clamp(degree);
    if d > 0.5 then
      assert 0.0 <= 200.0 * (d - 0.5) <= 100.0;
      Interpolate(DarkGreen, DarkYellow, 200.0 * (d - 0.5))
    else
      assert 0.0 <= 200.0 * d <= 100.0;
      Interpolate(DarkYellow, Red, 200.0 * d)
  }

  /** `getGradientColor` of the colour service: clamp, then interpolate along the half
      of the ramp the degree falls in; the text of `GradientChannels`. */
  function GetGradientColor(degree: real): (t: string)
    ensures t == RgbText(GradientChannels(degree))
  {
    var d := Clamp(degree);
    if d > 0.5 then InterpolateBetweenColors(DarkGreen, DarkYellow, 200.0 * (d - 0.5))
    else InterpolateBetweenColors(DarkYellow, Red, 200.0 * d)
  }

  /** Clamping first changes nothing: the colour of a degree is the colour of its
      clamped value. */
  lemma GradientOfClamped(degree: real)
    ensures GetGradientColor(degree) == GetGradientColor(Clamp(degree))
  {
  }

  /** The text always reads "rgb(r, g, 0)", with ", " between the channels. */
  lemma GradientTextForm(degree: real)
    ensures var c := GradientChannels(degree);
            GetGradientColor(degree) == "rgb(" + IntText(c.r) + ", " + IntText(c.g) + ", 0)"
  {
    AnchorTexts();
    var c := GradientChannels(degree);
    assert "rgb(" + IntText(c.r) + ", " + IntText(c.g) + ", " + "0" + ")" ==
           "rgb(" + IntText(c.r) + ", " + IntText(c.g) + (", " + "0" + ")");
  }

  /** The three anchor colours: red at 0, dark yellow at 0.5, dark green at 1. */
  lemma GradientEndpoints()
    ensures GradientChannels(0.0) == Red
    ensures GradientChannels(0.5) == DarkYellow
    ensures GradientChannels(1.0) == DarkGreen
    ensures GetGradientColor(0.0) == "rgb(255, 0, 0)"
    ensures GetGradientColor(0.5) == "rgb(215, 215, 0)"
    ensures GetGradientColor(1.0) == "rgb(0, 179, 0)"
  {
    assert GradientChannels(0.0) == Red;
    assert GradientChannels(0.5) == DarkYellow;
    assert GradientChannels(1.0) == DarkGreen;
    AnchorTexts();
    assert RgbText(Red) == "rgb(255, 0, 0)";
    assert RgbText(DarkYellow) == "rgb(215, 215, 0)";
    assert RgbText(DarkGreen) == "rgb(0, 179, 0)";
  }

  /** The decimal texts of the anchor channels. */
  lemma AnchorTexts()
    ensures IntText(0) == "0" && IntText(179) == "179" && IntText(215) == "215" && IntText(255) == "255"
  {
    assert NatText(17) == "17" && NatText(21) == "21" && NatText(25) == "25";
  }
}
