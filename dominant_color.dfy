/** The ambient colour the player derives from a cover image: the mean
    colour of the image's non-dark pixels, converted to hue, saturation and
    lightness, with the lightness raised to at least 50%.  The pixel data is
    the RGBA byte array a canvas hands back (four bytes per pixel). */
module DominantColor {

  /** The published colour. `Hsl(h, s, l)` is the text "h s% l%";
      `NotANumber` is what is published when no pixel was bright enough:
      the averages are 0/0, and the text comes out as "0 NaN% NaN%". */
  datatype Color = Hsl(h: int, s: int, l: int) | NotANumber

  /** The colour shown before any cover has been analysed. */
  const InitialColor: Color := Hsl(280, 80, 60)

  /** Pixels whose r+g+b is at most this are skipped as near-black. */
  const DarkThreshold: int := 50

  /** Lightness is never published below this percentage. */
  const LightnessFloor: int := 50

  predicate IsPixelData(data: seq<int>) {
    |data| % 4 == 0 && forall k :: 0 <= k < |data| ==> 0 <= data[k] <= 255
  }

  predicate IsBright(data: seq<int>, i: nat)
    requires i + 3 <= |data|
  {
    data[i] + data[i + 1] + data[i + 2] > DarkThreshold
  }

  /** Channel totals and the number of pixels that were counted. */
  datatype PixelSums = PixelSums(r: int, g: int, b: int, count: int)

  /** What the averaging loop has accumulated after reading all of `data`:
      the red, green and blue totals of the bright pixels (alpha is never
      read) and how many there were. */
  function BrightSums(data: seq<int>): (sums: PixelSums)
    requires |data| % 4 == 0
    ensures 0 <= sums.count && 4 * sums.count <= |data|
  {
    if data == [] then PixelSums(0, 0, 0, 0)
    else
      var n := |data| - 4;
      var acc := BrightSums(data[..n]);
      if IsBright(data, n)
      then PixelSums(acc.r + data[n], acc.g + data[n + 1], acc.b + data[n + 2], acc.count + 1)
      else acc
  }

  /** The averaging loop: steps four bytes at a time over the pixel data and
      sums the colour channels of every pixel brighter than the threshold. */
  method SumBrightPixels(data: seq<int>) returns (sums: PixelSums)
    requires |data| % 4 == 0
    ensures sums == BrightSums(data)
  {
    var r, g, b, count := 0, 0, 0, 0;
    var i := 0;
    while i < |data|
      invariant 0 <= i <= |data| && i % 4 == 0
      invariant PixelSums(r, g, b, count) == BrightSums(data[..i])
    {
      assert data[..i + 4][..i] == data[..i];
      if data[i] + data[i + 1] + data[i + 2] > DarkThreshold {
        r := r + data[i];
        g := g + data[i + 1];
        b := b + data[i + 2];
        count := count + 1;
      }
      i := i + 4;
    }
    assert data[..i] == data;
    sums := PixelSums(r, g, b, count);
  }

  /** Every counted pixel contributes at most 255 to each channel, and at
      most one pixel in four bytes is counted. */
  lemma {:induction false} BrightSumsBounded(data: seq<int>)
    requires IsPixelData(data)
    ensures var s := BrightSums(data);
      0 <= s.count <= |data| / 4 &&
      0 <= s.r <= 255 * s.count && 0 <= s.g <= 255 * s.count && 0 <= s.b <= 255 * s.count
  {
    if data != [] {
      var n := |data| - 4;
      assert IsPixelData(data[..n]);
      BrightSumsBounded(data[..n]);
    }
  }

  /** No bright pixel at all exactly when the count stays 0. */
  lemma {:induction false} NoBrightPixel(data: seq<int>)
    requires |data| % 4 == 0
    ensures BrightSums(data).count == 0 <==>
      forall i :: 0 <= i < |data| / 4 ==> !IsBright(data, 4 * i)
  {
    if data != [] {
      var n := |data| - 4;
      var init := data[..n];
      NoBrightPixel(init);
      assert forall i :: 0 <= i < n / 4 ==> (IsBright(data, 4 * i) <==> IsBright(init, 4 * i));
      if BrightSums(data).count == 0 {
        assert !IsBright(data, n);
        forall i | 0 <= i < |data| / 4 ensures !IsBright(data, 4 * i) {
          if i < n / 4 {} else { assert 4 * i == n; }
        }
      } else {
        if IsBright(data, n) {
          assert n == 4 * (n / 4);
        }
      }
    }
  }

  /** `Math.floor(total / count)` for one channel: an integer between 0 and
      255 whenever at least one pixel was counted. */
  function ChannelMean(total: int, count: int): (m: int)
    requires 0 < count && 0 <= total <= 255 * count
    ensures 0 <= m <= 255
    ensures m * count <= total < (m + 1) * count
  {
    var m := total / count;
    assert m * count <= total;
    assert m > 255 ==> m * count >= 256 * count;
    m
  }

  function Max3(a: real, b: real, c: real): real {
    if a >= b && a >= c then a else if b >= c then b else c
  }

  function Min3(a: real, b: real, c: real): real {
    if a <= b && a <= c then a else if b <= c then b else c
  }

  /** `Math.round`: halves go up. */
  function Round(x: real): (r: int)
    ensures x - 0.5 < r as real <= x + 0.5
  {
    (x + 0.5).Floor
  }

  lemma RoundWithin(x: real, lo: int, hi: int)
    requires lo as real <= x <= hi as real
    ensures lo <= Round(x) <= hi
  {
  }

  lemma QuotientWithin(x: real, y: real)
    requires 0.0 < y && -y <= x <= y
    ensures -1.0 <= x / y <= 1.0
  {
    var q := x / y;
    assert q * y == x;
    assert q > 1.0 ==> q * y > 1.0 * y;
    assert q < -1.0 ==> q * y < -1.0 * y;
  }

  lemma QuotientNonNegative(x: real, y: real)
    requires 0.0 < y && 0.0 <= x
    ensures 0.0 <= x / y
  {
    var q := x / y;
    assert q * y == x;
    assert q < 0.0 ==> q * y < 0.0;
  }

  /** The hue as a fraction of a full turn, for a colour that is not grey. */
  function HueFraction(r: real, g: real, b: real): (h: real)
    requires 0.0 <= r <= 1.0 && 0.0 <= g <= 1.0 && 0.0 <= b <= 1.0
    requires Max3(r, g, b) != Min3(r, g, b)
    ensures 0.0 <= h <= 1.0
  {
    var mx, mn := Max3(r, g, b), Min3(r, g, b);
    var d := mx - mn;
    if mx == r then
      QuotientWithin(g - b, d);
      ((g - b) / d + (if g < b then 6.0 else 0.0)) / 6.0
    else if mx == g then
      QuotientWithin(b - r, d);
      ((b - r) / d + 2.0) / 6.0
    else
      QuotientWithin(r - g, d);
      ((r - g) / d + 4.0) / 6.0
  }

  /** The saturation as a fraction, for a colour that is not grey. */
  function SaturationFraction(mx: real, mn: real): (s: real)
    requires 0.0 <= mn < mx <= 1.0
    ensures 0.0 <= s <= 1.0
  {
    var d := mx - mn;
    var l := (mx + mn) / 2.0;
    if l > 0.5 then
      QuotientWithin(d, 2.0 - mx - mn);
      QuotientNonNegative(d, 2.0 - mx - mn);
      d / (2.0 - mx - mn)
    else
      QuotientWithin(d, mx + mn);
      QuotientNonNegative(d, mx + mn);
      d / (mx + mn)
  }

  /** The colour space conversion: hue in degrees and saturation and
      lightness in percent, each rounded. Grey has hue and saturation 0. */
  function RgbToHsl(r: int, g: int, b: int): (c: Color)
    requires 0 <= r <= 255 && 0 <= g <= 255 && 0 <= b <= 255
    ensures c.Hsl?
    ensures 0 <= c.h <= 360 && 0 <= c.s <= 100 && 0 <= c.l <= 100
    ensures r == g == b ==> c.h == 0 && c.s == 0
  {
    var R, G, B := r as real / 255.0, g as real / 255.0, b as real / 255.0;
    var mx, mn := Max3(R, G, B), Min3(R, G, B);
    var l := (mx + mn) / 2.0;
    RoundWithin(l * 100.0, 0, 100);
    if mx == mn then
      Hsl(0, 0, Round(l * 100.0))
    else
      var h := HueFraction(R, G, B);
      var s := SaturationFraction(mx, mn);
      RoundWithin(h * 360.0, 0, 360);
      RoundWithin(s * 100.0, 0, 100);
      Hsl(Round(h * 360.0), Round(s * 100.0), Round(l * 100.0))
  }

  /** The colour published for an image: the converted mean of the bright
      pixels with its lightness raised to the floor, or `NotANumber` when
      no pixel was counted (the source divides by that zero count). */
  function ColorOf(data: seq<int>): (c: Color)
    requires IsPixelData(data)
    ensures c.NotANumber? <==> BrightSums(data).count == 0
    ensures c.Hsl? ==> 0 <= c.h <= 360 && 0 <= c.s <= 100 && LightnessFloor <= c.l <= 100
  {
    var sums := BrightSums(data);
    BrightSumsBounded(data);
    if sums.count == 0 then NotANumber
    else
      var hsl := RgbToHsl(ChannelMean(sums.r, sums.count),
                          ChannelMean(sums.g, sums.count),
                          ChannelMean(sums.b, sums.count));
      Hsl(hsl.h, hsl.s, if hsl.l > LightnessFloor then hsl.l else LightnessFloor)
  }

  /** The published colour is the conversion of the three channel means,
      with hue and saturation as converted and the lightness raised to the
      floor: max(l, 50). */
  lemma ColorOfValue(data: seq<int>)
    requires IsPixelData(data) && BrightSums(data).count > 0
    ensures var s := BrightSums(data);
      0 <= s.r <= 255 * s.count && 0 <= s.g <= 255 * s.count && 0 <= s.b <= 255 * s.count &&
      var c := RgbToHsl(ChannelMean(s.r, s.count), ChannelMean(s.g, s.count), ChannelMean(s.b, s.count));
      ColorOf(data).Hsl? && ColorOf(data).h == c.h && ColorOf(data).s == c.s &&
      (c.l >= LightnessFloor ==> ColorOf(data).l == c.l) &&
      (c.l < LightnessFloor ==> ColorOf(data).l == LightnessFloor)
  {
    BrightSumsBounded(data);
  }

  /** A grey image (every pixel has equal channels) gets hue and
      saturation 0. */
  lemma {:induction false} GreyImage(data: seq<int>)
    requires IsPixelData(data)
    requires forall i :: 0 <= i < |data| / 4 ==> data[4 * i] == data[4 * i + 1] == data[4 * i + 2]
    requires BrightSums(data).count > 0
    ensures ColorOf(data).h == 0 && ColorOf(data).s == 0
  {
    GreySums(data);
  }

  lemma {:induction false} GreySums(data: seq<int>)
    requires |data| % 4 == 0
    requires forall i :: 0 <= i < |data| / 4 ==> data[4 * i] == data[4 * i + 1] == data[4 * i + 2]
    ensures BrightSums(data).r == BrightSums(data).g == BrightSums(data).b
  {
    if data != [] {
      var n := |data| - 4;
      var init := data[..n];
      forall i | 0 <= i < |init| / 4 ensures init[4 * i] == init[4 * i + 1] == init[4 * i + 2] {
        assert data[4 * i] == data[4 * i + 1] == data[4 * i + 2];
      }
      GreySums(init);
      assert n == 4 * (n / 4);
      assert data[n] == data[n + 1] == data[n + 2];
    }
  }
}
