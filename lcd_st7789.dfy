/** The ST7789 panel driver as the repository implements it: one driver whose
    `initialized` flag gates every command and drawing call, an initialisation
    that claims the SPI bus, pulses reset and sends three commands, and a
    backlight set through an 8-bit PWM channel. Hardware effects are recorded
    in a ghost trace of bus events; SDK results are parameters. */
module LcdSt7789 {
  import opened Esp
  import BoardPins

  const LcdWidth := 172
  const LcdHeight := 320

  /** ST7789 command bytes sent by the initialisation. */
  const CmdSoftwareReset: Uint8 := 0x01
  const CmdSleepOut: Uint8 := 0x11
  const CmdDisplayOn: Uint8 := 0x29

  /** `lcd_config_t`. */
  datatype LcdConfig = LcdConfig(
    pinMosi: int, pinSclk: int, pinCs: int, pinDc: int, pinRst: int, pinBl: int,
    spiHost: BoardPins.SpiHost)

  /** The hardware effects the driver causes, in the order it causes them. */
  datatype BusEvent =
    | GpioConfigOutput(pins: set<int>)
    | SpiBusInit(host: BoardPins.SpiHost, mosi: int, sclk: int, maxTransferBytes: int)
    | SpiAddDevice(host: BoardPins.SpiHost, cs: int, clockHz: int)
    | GpioSetLevel(pin: int, level: int)
    | DelayMs(ms: int)
    | SpiTransmit(device: nat, bytes: seq<Uint8>)
    | LedcTimerConfig(freqHz: int, dutyBits: int)
    | LedcChannelConfig(gpio: int, duty: int)

  /** `lcd_get_default_config`: every field holds the board pin whose
      description names that LCD function. */
  function DefaultConfig(): (c: LcdConfig)
    ensures BoardPins.GpioDescription(c.pinMosi) == "LCD/SD MOSI"
    ensures BoardPins.GpioDescription(c.pinSclk) == "LCD/SD SCLK"
    ensures BoardPins.GpioDescription(c.pinCs) == "LCD CS"
    ensures BoardPins.GpioDescription(c.pinDc) == "LCD DC"
    ensures BoardPins.GpioDescription(c.pinRst) == "LCD RST"
    ensures BoardPins.GpioDescription(c.pinBl) == "LCD Backlight"
    ensures c.spiHost == BoardPins.LcdSpiHost
  {
    LcdConfig(BoardPins.LcdPinMosi, BoardPins.LcdPinSclk, BoardPins.LcdPinCs,
              BoardPins.LcdPinDc, BoardPins.LcdPinRst, BoardPins.LcdPinBl, BoardPins.LcdSpiHost)
  }

  /** The two events of one command: DC low on the board's DC pin, then one byte. */
  function CommandEvents(device: nat, cmd: Uint8): seq<BusEvent>
  {
    [GpioSetLevel(BoardPins.LcdPinDc, 0), SpiTransmit(device, [cmd])]
  }

  /** The effects of an `lcd_init` that gets past bus and device setup. */
  function InitSequence(config: LcdConfig, device: nat): seq<BusEvent>
  {
    [GpioConfigOutput({config.pinDc, config.pinRst}),
     SpiBusInit(config.spiHost, config.pinMosi, config.pinSclk, LcdWidth * LcdHeight * 2),
     SpiAddDevice(config.spiHost, config.pinCs, BoardPins.LcdSpiFreqHz),
     GpioSetLevel(config.pinRst, 0), DelayMs(100), GpioSetLevel(config.pinRst, 1), DelayMs(100)]
    + CommandEvents(device, CmdSoftwareReset) + [DelayMs(150)]
    + CommandEvents(device, CmdSleepOut) + [DelayMs(120)]
    + CommandEvents(device, CmdDisplayOn)
  }

  /** The bytes of every SPI transaction in a trace, in order. */
  function Transmitted(trace: seq<BusEvent>): seq<Uint8>
  {
    if trace == [] then []
    else (if trace[0].SpiTransmit? then trace[0].bytes else []) + Transmitted(trace[1..])
  }

  lemma {:induction false} TransmittedAppend(a: seq<BusEvent>, b: seq<BusEvent>)
    ensures Transmitted(a + b) == Transmitted(a) + Transmitted(b)
  {
    if a == [] {
      assert a + b == b;
    } else {
      assert (a + b)[1..] == a[1..] + b;
      TransmittedAppend(a[1..], b);
    }
  }

  /** A successful initialisation sends exactly software reset, sleep out and
      display on, in that order, and nothing else on the bus. */
  lemma InitCommandsInOrder(config: LcdConfig, device: nat)
    ensures Transmitted(InitSequence(config, device)) == [CmdSoftwareReset, CmdSleepOut, CmdDisplayOn]
  {
    var setup := [GpioConfigOutput({config.pinDc, config.pinRst}),
     SpiBusInit(config.spiHost, config.pinMosi, config.pinSclk, LcdWidth * LcdHeight * 2),
     SpiAddDevice(config.spiHost, config.pinCs, BoardPins.LcdSpiFreqHz),
     GpioSetLevel(config.pinRst, 0), DelayMs(100), GpioSetLevel(config.pinRst, 1), DelayMs(100)];
    var c1 := CommandEvents(device, CmdSoftwareReset);
    var c2 := CommandEvents(device, CmdSleepOut);
    var c3 := CommandEvents(device, CmdDisplayOn);
    TransmittedAppend(setup, c1);
    TransmittedAppend(setup + c1, [DelayMs(150)]);
    TransmittedAppend(setup + c1 + [DelayMs(150)], c2);
    TransmittedAppend(setup + c1 + [DelayMs(150)] + c2, [DelayMs(120)]);
    TransmittedAppend(setup + c1 + [DelayMs(150)] + c2 + [DelayMs(120)], c3);
    assert Transmitted(setup[6..]) == [];
    assert Transmitted(setup[5..]) == [];
    assert Transmitted(setup[4..]) == [];
    assert Transmitted(setup[3..]) == [];
    assert Transmitted(setup[2..]) == [];
    assert Transmitted(setup[1..]) == [];
    assert Transmitted(setup) == [];
    assert Transmitted(c1[1..]) == [CmdSoftwareReset];
    assert Transmitted(c2[1..]) == [CmdSleepOut];
    assert Transmitted(c3[1..]) == [CmdDisplayOn];
  }

  /** In a successful initialisation the reset line is driven low and then
      high, each held 100 ms, before the first command byte; and every command
      byte is sent right after DC is driven low. */
  lemma InitResetPulseFirst(config: LcdConfig, device: nat)
    ensures var t := InitSequence(config, device);
      |t| == 15 &&
      t[3] == GpioSetLevel(config.pinRst, 0) && t[4] == DelayMs(100) &&
      t[5] == GpioSetLevel(config.pinRst, 1) && t[6] == DelayMs(100) &&
      (forall i :: 0 <= i < 7 ==> !t[i].SpiTransmit?) &&
      (forall i :: 0 <= i < |t| && t[i].SpiTransmit? ==> 0 < i && t[i - 1] == GpioSetLevel(BoardPins.LcdPinDc, 0))
  {
  }

  /** The backlight duty `lcd_set_backlight` programs for a brightness in percent. */
  function BacklightDuty(brightness: Uint8): (duty: int)
    ensures 0 <= duty <= 255
    ensures duty == 255 <==> brightness >= 100
    ensures brightness == 0 <==> duty == 0
    ensures var l := if brightness > 100 then 100 else brightness as int;
      duty * 100 <= l * 255 < (duty + 1) * 100
  {
    var level := if brightness > 100 then 100 else brightness;
    assert level < 100 ==> level * 255 <= 99 * 255;
    (level * 255) / 100
  }

  /** More brightness never gives less duty. */
  lemma BacklightMonotone(a: Uint8, b: Uint8)
    requires a <= b
    ensures BacklightDuty(a) <= BacklightDuty(b)
  {
    var la := if a > 100 then 100 else a;
    var lb := if b > 100 then 100 else b;
    assert la * 255 <= lb * 255;
  }

  class Lcd {
    /** `lcd_initialized` */
    var initialized: bool
    /** `lcd_spi`: None stands for NULL */
    var spi: Option<nat>
    ghost var trace: seq<BusEvent>

    ghost predicate Valid()
      reads this
    {
      initialized ==> spi.Some?
    }

    constructor ()
      ensures Valid() && !initialized && spi == None && trace == []
    {
      initialized := false;
      spi := None;
      trace := [];
    }

    /** `lcd_send_cmd`: refused without bus traffic until initialised;
        otherwise DC low, one byte, and the transaction's own result. */
    method SendCmd(cmd: Uint8, busResult: EspErr) returns (r: EspErr)
      requires Valid()
      modifies this`trace
      ensures !initialized ==> r == EspErrInvalidState && trace == old(trace)
      ensures initialized ==> r == busResult && trace == old(trace) + CommandEvents(spi.value, cmd)
    {
      if !initialized {
        return EspErrInvalidState;
      }
      trace := trace + CommandEvents(spi.value, cmd);
      r := busResult;
    }

    /** `lcd_init`. An `EspErrInvalidState` from bus setup (bus already set up)
        is tolerated; any other bus error and any device error are returned with
        the flag and handle untouched. The three command results are ignored. */
    method Init(config: LcdConfig, busInitResult: EspErr, addDeviceResult: EspErr, device: nat,
                resetResult: EspErr, sleepOutResult: EspErr, displayOnResult: EspErr)
      returns (r: EspErr)
      requires Valid()
      modifies this
      ensures Valid()
      ensures busInitResult != EspOk && busInitResult != EspErrInvalidState ==>
        r == busInitResult && initialized == old(initialized) && spi == old(spi) &&
        trace == old(trace) + InitSequence(config, device)[..2]
      ensures (busInitResult == EspOk || busInitResult == EspErrInvalidState) && addDeviceResult != EspOk ==>
        r == addDeviceResult && initialized == old(initialized) && spi == old(spi) &&
        trace == old(trace) + InitSequence(config, device)[..3]
      ensures (busInitResult == EspOk || busInitResult == EspErrInvalidState) && addDeviceResult == EspOk ==>
        r == EspOk && initialized && spi == Some(device) &&
        trace == old(trace) + InitSequence(config, device)
    {
      ghost var t0 := trace;
      ghost var full := InitSequence(config, device);
      trace := trace + [GpioConfigOutput({config.pinDc, config.pinRst})];
      trace := trace + [SpiBusInit(config.spiHost, config.pinMosi, config.pinSclk, LcdWidth * LcdHeight * 2)];
      if busInitResult != EspOk && busInitResult != EspErrInvalidState {
        assert trace == t0 + full[..2];
        return busInitResult;
      }
      trace := trace + [SpiAddDevice(config.spiHost, config.pinCs, BoardPins.LcdSpiFreqHz)];
      if addDeviceResult != EspOk {
        assert trace == t0 + full[..3];
        return addDeviceResult;
      }
      spi := Some(device);
      trace := trace + [GpioSetLevel(config.pinRst, 0), DelayMs(100)];
      trace := trace + [GpioSetLevel(config.pinRst, 1), DelayMs(100)];
      initialized := true;
      var ignored := SendCmd(CmdSoftwareReset, resetResult);
      trace := trace + [DelayMs(150)];
      ignored := SendCmd(CmdSleepOut, sleepOutResult);
      trace := trace + [DelayMs(120)];
      ignored := SendCmd(CmdDisplayOn, displayOnResult);
      r := EspOk;
    }

    /** `lcd_set_backlight`: clamps to 100 %, configures an 8-bit 5 kHz PWM
        timer and the backlight channel, and succeeds whether or not the panel
        is initialised. */
    method SetBacklight(brightness: Uint8) returns (r: EspErr)
      modifies this`trace
      ensures r == EspOk
      ensures trace == old(trace) + [LedcTimerConfig(5000, 8), LedcChannelConfig(BoardPins.LcdPinBl, BacklightDuty(brightness))]
    {
      var level: int := brightness;
      if level > 100 {
        level := 100;
      }
      trace := trace + [LedcTimerConfig(5000, 8)];
      trace := trace + [LedcChannelConfig(BoardPins.LcdPinBl, (level * 255) / 100)];
      r := EspOk;
    }

    /** `lcd_fill_screen`: a placeholder that only checks the flag. */
    function FillScreen(color: Uint16): (r: EspErr)
      reads this
      ensures r == EspOk <==> initialized
      ensures r != EspOk ==> r == EspErrInvalidState
    {
      if !initialized then EspErrInvalidState else EspOk
    }

    /** `lcd_draw_pixel`: the flag first, then the panel bounds. */
    function DrawPixel(x: Uint16, y: Uint16, color: Uint16): (r: EspErr)
      reads this
      ensures !initialized ==> r == EspErrInvalidState
      ensures initialized ==> (r == EspOk <==> x < LcdWidth && y < LcdHeight)
      ensures initialized && r != EspOk ==> r == EspErrInvalidArg
    {
      if !initialized then EspErrInvalidState
      else if x >= LcdWidth || y >= LcdHeight then EspErrInvalidArg
      else EspOk
    }

    /** `lcd_draw_rectangle`: the flag first, then the far edges, summed in
        `int` so that no 16-bit wrap-around lets a rectangle through. */
    function DrawRectangle(x: Uint16, y: Uint16, width: Uint16, height: Uint16, color: Uint16): (r: EspErr)
      reads this
      ensures !initialized ==> r == EspErrInvalidState
      ensures initialized ==> (r == EspOk <==> x + width <= LcdWidth && y + height <= LcdHeight)
      ensures initialized && r != EspOk ==> r == EspErrInvalidArg
    {
      if !initialized then EspErrInvalidState
      else if x + width > LcdWidth || y + height > LcdHeight then EspErrInvalidArg
      else EspOk
    }
  }

  /** A rectangle reaching exactly the right and bottom edges is accepted, one
      pixel more is refused, and a 16-bit overflow of `x + width` is refused;
      a pixel is accepted exactly when the 1x1 rectangle at it is. */
  lemma RectangleEdges(lcd: Lcd, color: Uint16)
    requires lcd.initialized
    ensures lcd.DrawRectangle(0, 0, LcdWidth, LcdHeight, color) == EspOk
    ensures lcd.DrawRectangle(1, 0, LcdWidth, LcdHeight, color) == EspErrInvalidArg
    ensures lcd.DrawRectangle(0, 1, LcdWidth, LcdHeight, color) == EspErrInvalidArg
    ensures lcd.DrawRectangle(0xFFFF, 0, 1, 1, color) == EspErrInvalidArg
    ensures forall x: Uint16, y: Uint16 :: lcd.DrawPixel(x, y, color) == lcd.DrawRectangle(x, y, 1, 1, color)
  {
  }

  /** The panel size of the driver header is the board's, and the default
      configuration uses only pins the board reserves. */
  lemma DefaultConfigReserved()
    ensures LcdWidth == BoardPins.LcdWidth && LcdHeight == BoardPins.LcdHeight
    ensures var c := DefaultConfig();
      !BoardPins.IsGpioAvailable(c.pinMosi) && !BoardPins.IsGpioAvailable(c.pinSclk) &&
      !BoardPins.IsGpioAvailable(c.pinCs) && !BoardPins.IsGpioAvailable(c.pinDc) &&
      !BoardPins.IsGpioAvailable(c.pinRst) && !BoardPins.IsGpioAvailable(c.pinBl)
  {
  }
}
