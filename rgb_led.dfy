/** The single WS2812-style RGB LED driver as implemented: an `initialized`
    flag set by a successful init, a colour setter that the flag gates (the
    transmission itself is a placeholder, so accepted colours are recorded in
    a ghost log), and an HSV front end over an integer six-region conversion. */
module RgbLed {
  import opened Esp
  import BoardPins

  datatype Rgb = Rgb(red: Uint8, green: Uint8, blue: Uint8)

  /** `rgb_led_config_t`. */
  datatype LedConfig = LedConfig(gpioPin: int, ledCount: int, rmtChannel: int)

  /** `rgb_led_get_default_config`: the board's LED pin, one LED, RMT channel 0. */
  function DefaultConfig(): (c: LedConfig)
    ensures BoardPins.GpioDescription(c.gpioPin) == "RGB LED"
    ensures c.ledCount == 1 && c.rmtChannel == 0
  {
    LedConfig(BoardPins.RgbLedPin, BoardPins.RgbLedCount, BoardPins.RgbLedRmtChannel)
  }

  // The byte-sized locals of `hsv_to_rgb`. Each C expression is evaluated in
  // `int` and stored into a `uint8_t`; the `% 256` is that store.

  function Region(h: Uint16): Uint8 { (h / 43) % 256 }

  function Remainder(h: Uint16): Uint8
  {
    assert Region(h) * 43 <= h;
    ((h - Region(h) * 43) * 6) % 256
  }

  function BlendP(s: Uint8, v: Uint8): Uint8 { ((v * (255 - s)) / 256) % 256 }

  function BlendQ(s: Uint8, v: Uint8, rem: Uint8): Uint8
  {
    ((v * (255 - (s * rem) / 256)) / 256) % 256
  }

  function BlendT(s: Uint8, v: Uint8, rem: Uint8): Uint8
  {
    ((v * (255 - (s * (255 - rem)) / 256)) / 256) % 256
  }

  /** v scaled by a factor below one byte stays below v. */
  lemma ScaledAtMost(v: Uint8, k: int)
    requires 0 <= k <= 255
    ensures 0 <= (v * k) / 256 <= v
  {
    assert 0 <= v * k <= v * 255;
    assert v * 255 < (v + 1) * 256;
  }

  /** The p blend never truncates and never exceeds v. */
  lemma BlendPBounded(s: Uint8, v: Uint8)
    ensures BlendP(s, v) == (v * (255 - s)) / 256
    ensures BlendP(s, v) <= v
  {
    ScaledAtMost(v, 255 - s);
  }

  /** The q blend never truncates and never exceeds v. */
  lemma BlendQBounded(s: Uint8, v: Uint8, rem: Uint8)
    ensures BlendQ(s, v, rem) == (v * (255 - (s * rem) / 256)) / 256
    ensures BlendQ(s, v, rem) <= v
  {
    var k := (s * rem) / 256;
    ScaledAtMost(s, rem);
    ScaledAtMost(v, 255 - k);
  }

  /** The t blend never truncates and never exceeds v. */
  lemma BlendTBounded(s: Uint8, v: Uint8, rem: Uint8)
    ensures BlendT(s, v, rem) == (v * (255 - (s * (255 - rem)) / 256)) / 256
    ensures BlendT(s, v, rem) <= v
  {
    var k := (s * (255 - rem)) / 256;
    ScaledAtMost(s, 255 - rem);
    ScaledAtMost(v, 255 - k);
  }

  /** The three blends never truncate and never exceed v, for every hue. */
  lemma BlendsBounded(s: Uint8, v: Uint8, rem: Uint8)
    ensures BlendP(s, v) <= v && BlendQ(s, v, rem) <= v && BlendT(s, v, rem) <= v
  {
    BlendPBounded(s, v);
    BlendQBounded(s, v, rem);
    BlendTBounded(s, v, rem);
  }

  /** For the hues the driver passes (at most 360) region and remainder do not
      truncate either: region is at most 8 and remainder at most 252. */
  lemma {:induction false} HueLocalsInRange(h: Uint16)
    requires h <= 360
    ensures Region(h) == h / 43 <= 8
    ensures Remainder(h) == (h - (h / 43) * 43) * 6 <= 252
  {
    assert h / 43 <= 8;
    var k := h - (h / 43) * 43;
    assert 0 <= k < 43;
    assert k * 6 <= 252;
  }

  /** `hsv_to_rgb`: grey when s is 0; otherwise v lands in one channel and the
      other two come from the blends, so v is the largest channel. */
  function HsvToRgb(h: Uint16, s: Uint8, v: Uint8): (c: Rgb)
    ensures s == 0 ==> c == Rgb(v, v, v)
    ensures c.red <= v && c.green <= v && c.blue <= v
    ensures c.red == v || c.green == v || c.blue == v
  {
    if s == 0 then Rgb(v, v, v)
    else
      var region, rem := Region(h), Remainder(h);
      var p, q, t := BlendP(s, v), BlendQ(s, v, rem), BlendT(s, v, rem);
      BlendsBounded(s, v, rem);
      if region == 0 then Rgb(v, t, p)
      else if region == 1 then Rgb(q, v, p)
      else if region == 2 then Rgb(p, v, t)
      else if region == 3 then Rgb(p, q, v)
      else if region == 4 then Rgb(t, p, v)
      else Rgb(v, p, q)
  }

  /** Every hue from 215 to 360 falls into region 5 or above and takes the
      default branch: red is v, green the p blend, blue the q blend. */
  lemma HighHueDefaultBranch(h: Uint16, s: Uint8, v: Uint8)
    requires 215 <= h <= 360 && s != 0
    ensures HsvToRgb(h, s, v) == Rgb(v, BlendP(s, v), BlendQ(s, v, Remainder(h)))
  {
    HueLocalsInRange(h);
  }

  /** At full saturation and value, hue 0 is red. */
  lemma HueZeroIsRed()
    ensures HsvToRgb(0, 255, 255) == Rgb(255, 0, 0)
  {
    assert Region(0) == 0 && Remainder(0) == 0;
    assert BlendP(255, 255) == 0;
    assert BlendT(255, 255, 0) == 0;
  }

  /** As written, the conversion treats hue on a 0..255 scale while the driver
      passes degrees 0..360: at full saturation and value hue 360 is not the
      red of hue 0. */
  lemma DegreesMisread()
    ensures HsvToRgb(360, 255, 255) == Rgb(255, 0, 159)
  {
    assert Region(360) == 8;
    assert Remainder(360) == 96;
    assert HsvToRgb(360, 255, 255) == Rgb(255, BlendP(255, 255), BlendQ(255, 255, 96));
    assert BlendP(255, 255) == 0;
    assert (255 * 96) / 256 == 95;
    assert (255 * 160) / 256 == 159;
    assert BlendQ(255, 255, 96) == 159;
  }

  /** As written, hue 120 degrees at full saturation and value is not pure green. */
  lemma Hue120NotGreen()
    ensures HsvToRgb(120, 255, 255) == Rgb(0, 255, 204)
  {
    assert Region(120) == 2 && Remainder(120) == 204;
    assert BlendP(255, 255) == 0;
    assert BlendT(255, 255, 204) == 204;
  }

  /** The conversion with hue read in degrees: sextants of 60 degrees, the
      remainder rescaled to 0..255, and 360 wrapped to 0. */
  function HsvDegreesToRgb(h: Uint16, s: Uint8, v: Uint8): (c: Rgb)
    requires h <= 360
    ensures s == 0 ==> c == Rgb(v, v, v)
    ensures c.red <= v && c.green <= v && c.blue <= v
    ensures c.red == v || c.green == v || c.blue == v
  {
    if s == 0 then Rgb(v, v, v)
    else
      var hh := h % 360;
      var region := hh / 60;
      var rem := ((hh % 60) * 255) / 60;
      var p, q, t := BlendP(s, v), BlendQ(s, v, rem), BlendT(s, v, rem);
      BlendsBounded(s, v, rem);
      if region == 0 then Rgb(v, t, p)
      else if region == 1 then Rgb(q, v, p)
      else if region == 2 then Rgb(p, v, t)
      else if region == 3 then Rgb(p, q, v)
      else if region == 4 then Rgb(t, p, v)
      else Rgb(v, p, q)
  }

  /** With hue in degrees, 360 is the same colour as 0, and at full
      saturation and value the hues 0, 120 and 240 are pure red, green, blue. */
  lemma DegreesWrapAndPrimaries(s: Uint8, v: Uint8)
    ensures HsvDegreesToRgb(360, s, v) == HsvDegreesToRgb(0, s, v)
    ensures HsvDegreesToRgb(0, 255, 255) == Rgb(255, 0, 0)
    ensures HsvDegreesToRgb(120, 255, 255) == Rgb(0, 255, 0)
    ensures HsvDegreesToRgb(240, 255, 255) == Rgb(0, 0, 255)
  {
    assert 360 % 360 == 0 % 360 == 0;
    assert 120 % 360 / 60 == 2 && 240 % 360 / 60 == 4;
    assert BlendP(255, 255) == 0;
    assert BlendT(255, 255, 0) == 0;
  }

  /** `(x * 255) / 100` stored into a `uint8_t`, as `rgb_led_set_hsv` rescales
      a clamped percentage: the floor of the exact rescaling, 0 only for 0 and
      255 only for 100. */
  function PercentToByte(pct: Uint8): (b: Uint8)
    ensures pct <= 100 ==> b * 100 <= pct * 255 < (b + 1) * 100
    ensures pct <= 100 ==> (b == 0 <==> pct == 0)
    ensures pct <= 100 ==> (b == 255 <==> pct == 100)
  {
    assert pct <= 100 ==> pct * 255 <= 25500;
    assert pct < 100 ==> pct * 255 <= 99 * 255;
    ((pct * 255) / 100) % 256
  }

  /** The colour `rgb_led_set_hsv` asks for: each input clamped, saturation and
      value rescaled, then converted. */
  function HsvRequestColor(hue: Uint16, saturation: Uint8, value: Uint8): (c: Rgb)
    ensures c.red <= PercentToByte(if value > 100 then 100 else value)
    ensures c.green <= PercentToByte(if value > 100 then 100 else value)
    ensures c.blue <= PercentToByte(if value > 100 then 100 else value)
    ensures saturation == 0 ==> c.red == c.green == c.blue
    ensures value == 0 ==> c == Rgb(0, 0, 0)
  {
    var h := if hue > 360 then 360 else hue;
    var s := if saturation > 100 then 100 else saturation;
    var v := if value > 100 then 100 else value;
    HsvToRgb(h, PercentToByte(s), PercentToByte(v))
  }

  /** Out-of-range inputs behave exactly like the bound they are clamped to:
      hue 361 like 360, saturation or value 150 like 100. */
  lemma ClampedInputs(hue: Uint16, saturation: Uint8, value: Uint8)
    ensures hue >= 360 ==> HsvRequestColor(hue, saturation, value) == HsvRequestColor(360, saturation, value)
    ensures saturation >= 100 ==> HsvRequestColor(hue, saturation, value) == HsvRequestColor(hue, 100, value)
    ensures value >= 100 ==> HsvRequestColor(hue, saturation, value) == HsvRequestColor(hue, saturation, 100)
  {
  }

  class RgbLedDriver {
    /** `rgb_led_initialized` */
    var initialized: bool
    /** `led_count` */
    var ledCount: int
    /** The colours `rgb_led_set_color` accepted, oldest first. */
    ghost var shown: seq<Rgb>

    constructor ()
      ensures !initialized && ledCount == 1 && shown == []
    {
      initialized := false;
      ledCount := 1;
      shown := [];
    }

    /** `rgb_led_init`: a failing `gpio_config` is returned with nothing
        changed; otherwise the LED count is recorded and the flag set. */
    method Init(config: LedConfig, gpioResult: EspErr) returns (r: EspErr)
      modifies this
      ensures gpioResult != EspOk ==>
        r == gpioResult && initialized == old(initialized) && ledCount == old(ledCount)
      ensures gpioResult == EspOk ==> r == EspOk && initialized && ledCount == config.ledCount
      ensures shown == old(shown)
    {
      if gpioResult != EspOk {
        return gpioResult;
      }
      ledCount := config.ledCount;
      initialized := true;
      r := EspOk;
    }

    /** `rgb_led_set_color`: refused until initialised. */
    method SetColor(red: Uint8, green: Uint8, blue: Uint8) returns (r: EspErr)
      modifies this`shown
      ensures r == EspOk <==> initialized
      ensures r != EspOk ==> r == EspErrInvalidState
      ensures shown == if initialized then old(shown) + [Rgb(red, green, blue)] else old(shown)
    {
      if !initialized {
        return EspErrInvalidState;
      }
      shown := shown + [Rgb(red, green, blue)];
      r := EspOk;
    }

    /** `rgb_led_set_hsv`: clamps and rescales its parameters in place, then
        hands the converted colour to the colour setter. */
    method SetHsv(hue: Uint16, saturation: Uint8, value: Uint8) returns (r: EspErr)
      modifies this`shown
      ensures r == EspOk <==> initialized
      ensures r != EspOk ==> r == EspErrInvalidState
      ensures shown == if initialized then old(shown) + [HsvRequestColor(hue, saturation, value)] else old(shown)
    {
      var h, s, v := hue, saturation, value;
      if h > 360 { h := 360; }
      if s > 100 { s := 100; }
      if v > 100 { v := 100; }
      s := ((s as int * 255) / 100) % 256;
      v := ((v as int * 255) / 100) % 256;
      var c := HsvToRgb(h, s, v);
      r := SetColor(c.red, c.green, c.blue);
    }

    /** `rgb_led_off`: the colour setter with black. */
    method Off() returns (r: EspErr)
      modifies this`shown
      ensures r == EspOk <==> initialized
      ensures r != EspOk ==> r == EspErrInvalidState
      ensures shown == if initialized then old(shown) + [Rgb(0, 0, 0)] else old(shown)
    {
      r := SetColor(0, 0, 0);
    }
  }
}
