/**
 * The rainbow animation of hardware/led.py: the colour wheel and the fill of
 * the 8-pixel NeoPixel buffer, one frame per step of the animation.
 */
module Led {

  /** An RGB triple as the NeoPixel buffer stores it. */
  datatype Color = Color(r: int, g: int, b: int)

  const Black: Color := Color(0, 0, 0)

  /** Length of the LED strip. */
  const NumPixels: nat := 8

  /** Frames in one pass of the animation (`range(255)`). */
  const FramesPerPass: nat := 255

  /**
   * `wheel(pos)`: red rises against green on 0..84, blue against red on
   * 85..169, green against blue on 170..255; outside 0..255 the pixel is off.
   */
  function Wheel(pos: int): (c: Color)
    ensures pos < 0 || pos > 255 ==> c == Black
    ensures 0 <= pos <= 255 ==> 0 <= c.r <= 255 && 0 <= c.g <= 255 && 0 <= c.b <= 255
    ensures 0 <= pos <= 255 ==> c.r + c.g + c.b == 255
    ensures 0 <= pos < 85 ==> c.b == 0
    ensures 85 <= pos < 170 ==> c.g == 0
    ensures 170 <= pos <= 255 ==> c.r == 0
  {
    if pos < 0 || pos > 255 then Black
    else if pos < 85 then Color(pos * 3, 255 - pos * 3, 0)
    else if pos < 170 then
      var p := pos - 85;
      Color(255 - p * 3, 0, p * 3)
    else
      var p := pos - 170;
      Color(0, p * 3, 255 - p * 3)
  }

  /** An in-range position is never black. */
  lemma WheelNotBlack(pos: int)
    requires 0 <= pos <= 255
    ensures Wheel(pos) != Black
  {
  }

  /** Pure green, red and blue at the segment starts; the wheel closes at 255. */
  lemma WheelAnchors()
    ensures Wheel(0) == Color(0, 255, 0)
    ensures Wheel(85) == Color(255, 0, 0)
    ensures Wheel(170) == Color(0, 0, 255)
    ensures Wheel(255) == Color(0, 255, 0) == Wheel(0)
  {
  }

  /** Reads a wheel colour back to its position in 0..254. */
  function WheelPosition(c: Color): int
  {
    if c.b == 0 then c.r / 3
    else if c.g == 0 then 85 + c.b / 3
    else 170 + c.g / 3
  }

  /** Apart from 255, which repeats 0, every position has its own colour. */
  lemma WheelRoundTrip(pos: int)
    requires 0 <= pos < 255
    ensures WheelPosition(Wheel(pos)) == pos
  {
  }

  lemma WheelInjective(p: int, q: int)
    requires 0 <= p < 255 && 0 <= q < 255
    requires Wheel(p) == Wheel(q)
    ensures p == q
  {
    WheelRoundTrip(p);
    WheelRoundTrip(q);
  }

  function Pow2(k: nat): (p: nat)
    ensures p >= 1
  {
    if k == 0 then 1 else 2 * Pow2(k - 1)
  }

  /** Python's `&` on non-negative integers, bit by bit from the least significant. */
  function BitAnd(x: nat, y: nat): (r: nat)
    ensures r <= x && r <= y
    decreases x
  {
    if x == 0 || y == 0 then 0
    else 2 * BitAnd(x / 2, y / 2) + (if x % 2 == 1 && y % 2 == 1 then 1 else 0)
  }

  lemma MulAtLeast(d: int, n: int)
    requires d > 0 && n >= 1
    ensures d * n >= d
  {
    assert d * n == d + d * (n - 1);
  }

  /** Euclidean division is unique: a quotient and an in-range remainder fix `x % d`. */
  lemma ModByQuotient(x: int, d: int, q: int, r: int)
    requires d > 0 && 0 <= r < d && x == d * q + r
    ensures x % d == r
  {
    var q', r' := x / d, x % d;
    assert d * (q' - q) == r - r' by {
      assert d * q' + r' == d * q + r;
      assert d * (q' - q) == d * q' - d * q;
    }
    if q' - q >= 1 {
      MulAtLeast(d, q' - q);
    } else if q - q' >= 1 {
      MulAtLeast(d, q - q');
    }
  }

  /** The low bit and the rest: `x mod 2m` from `(x / 2) mod m`. */
  lemma ModDouble(x: nat, m: nat)
    requires m > 0
    ensures x % (2 * m) == 2 * ((x / 2) % m) + x % 2
  {
    var a, c := (x / 2) / m, (x / 2) % m;
    assert x / 2 == m * a + c;
    assert x == (2 * m) * a + (2 * c + x % 2);
    ModByQuotient(x, 2 * m, a, 2 * c + x % 2);
  }

  /** Masking with k one-bits keeps the value modulo 2^k. */
  lemma {:induction false} BitAndLowBits(x: nat, k: nat)
    ensures BitAnd(x, Pow2(k) - 1) == x % Pow2(k)
    decreases k
  {
    if k == 0 {
      assert Pow2(k) - 1 == 0;
    } else if x == 0 {
      ModByQuotient(0, Pow2(k), 0, 0);
    } else {
      var m := Pow2(k - 1);
      var y := Pow2(k) - 1;
      assert y == 2 * m - 1 && y / 2 == m - 1 && y % 2 == 1;
      calc {
        BitAnd(x, y);
        2 * BitAnd(x / 2, m - 1) + x % 2;
        { BitAndLowBits(x / 2, k - 1); }
        2 * ((x / 2) % m) + x % 2;
        { ModDouble(x, m); }
        x % (2 * m);
      }
    }
  }

  /** `x & 255` is the low byte of `x`. */
  lemma MaskLowByte(x: nat)
    ensures BitAnd(x, 255) == x % 256
    ensures 0 <= BitAnd(x, 255) <= 255
  {
    assert Pow2(8) == 256;
    BitAndLowBits(x, 8);
  }

  /** Wheel position of pixel `i` in frame `j`, before masking. */
  function PixelIndex(i: nat, j: nat): (p: nat)
    ensures p == 32 * i + j
  {
    i * 256 / NumPixels + j
  }

  /** The colour pixel `i` shows in frame `j`. */
  function PixelColor(i: nat, j: nat): (c: Color)
    ensures c == Wheel(PixelIndex(i, j) % 256)
  {
    MaskLowByte(PixelIndex(i, j));
    Wheel(BitAnd(PixelIndex(i, j), 255))
  }

  /** Every pixel of every frame is lit with a colour of all-255 brightness. */
  lemma PixelColorLit(i: nat, j: nat)
    ensures PixelColor(i, j) != Black
    ensures PixelColor(i, j).r + PixelColor(i, j).g + PixelColor(i, j).b == 255
  {
    MaskLowByte(PixelIndex(i, j));
  }

  /** Pixels are spread a 32-step offset apart around the wheel (modulo a byte). */
  lemma PixelSpacing(i: nat, j: nat)
    ensures PixelIndex(i, j) == 32 * i + j
    ensures PixelColor(i, j) == Wheel((32 * i + j) % 256)
  {
    MaskLowByte(PixelIndex(i, j));
  }

  /** The whole strip in frame `j`. */
  function FrameColors(j: nat): (f: seq<Color>)
    ensures |f| == NumPixels
    ensures forall i :: 0 <= i < NumPixels ==> f[i] == PixelColor(i, j) && f[i] != Black
  {
    seq(NumPixels, i requires 0 <= i => PixelColor(i, j))
  }

  /** The inner loop of the animation: colour every pixel of the strip for frame `j`. */
  method FillFrame(pixels: array<Color>, j: nat)
    requires pixels.Length == NumPixels
    modifies pixels
    ensures forall i :: 0 <= i < NumPixels ==> pixels[i] == Wheel(BitAnd(PixelIndex(i, j), 255))
    ensures pixels[..] == FrameColors(j)
  {
    for i := 0 to NumPixels
      invariant forall k :: 0 <= k < i ==> pixels[k] == Wheel(BitAnd(PixelIndex(k, j), 255))
    {
      var pixelIndex := (i * 256 / NumPixels) + j;
      pixels[i] := Wheel(BitAnd(pixelIndex, 255));
    }
  }

  /**
   * One pass of the animation: fill the buffer for frames 0..254 and show
   * each; `shown` records what each `show()` sends to the strip.
   */
  method RainbowPass(pixels: array<Color>) returns (shown: seq<seq<Color>>)
    requires pixels.Length == NumPixels
    modifies pixels
    ensures |shown| == FramesPerPass
    ensures forall j :: 0 <= j < FramesPerPass ==> shown[j] == FrameColors(j)
    ensures pixels[..] == FrameColors(FramesPerPass - 1)
  {
    shown := [];
    for j := 0 to FramesPerPass
      invariant |shown| == j
      invariant forall k :: 0 <= k < j ==> shown[k] == FrameColors(k)
      invariant j > 0 ==> pixels[..] == FrameColors(j - 1)
    {
      FillFrame(pixels, j);
      shown := shown + [pixels[..]];
    }
  }
}
