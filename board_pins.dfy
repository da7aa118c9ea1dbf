/** The pin map of the Waveshare ESP32-C6-LCD-1.47 board and the two lookup
    helpers that classify a GPIO number as reserved by the board or free. */
module BoardPins {
  datatype SpiHost = Spi1Host | Spi2Host

  // LCD (ST7789) on SPI
  const LcdSpiHost := Spi2Host
  const LcdSpiFreqHz := 40 * 1000 * 1000
  const LcdPinMosi := 6
  const LcdPinSclk := 7
  const LcdPinCs := 14
  const LcdPinDc := 15
  const LcdPinRst := 21
  const LcdPinBl := 22
  const LcdWidth := 172
  const LcdHeight := 320

  // RGB LED
  const RgbLedPin := 8
  const RgbLedCount := 1
  const RgbLedRmtChannel := 0

  // TF card, sharing the LCD's SPI bus
  const SdSpiHost := Spi2Host
  const SdPinMiso := 5
  const SdPinMosi := 6
  const SdPinSclk := 7
  const SdPinCs := 4

  const ButtonBootPin := 0

  /** The USER_GPIO_* pins offered to applications. */
  const UserGpios: seq<int> := [1, 2, 3, 9, 10, 11, 18, 19, 20, 23]

  const I2cSdaPin := 18
  const I2cSclPin := 19
  const Uart1TxPin := 16
  const Uart1RxPin := 17

  /** The case labels of both switches, in the order they are written. */
  const BoardPinList: seq<int> :=
    [LcdPinMosi, LcdPinSclk, LcdPinCs, LcdPinDc, LcdPinRst, LcdPinBl,
     RgbLedPin, SdPinMiso, SdPinCs, ButtonBootPin]

  /** `is_gpio_available`: false for the pins a board peripheral uses. */
  predicate IsGpioAvailable(gpio: int): (r: bool)
    ensures r <==> gpio !in {0, 4, 5, 6, 7, 8, 14, 15, 21, 22}
    ensures r <==> gpio !in BoardPinList
  {
    !(gpio == LcdPinMosi || gpio == LcdPinSclk || gpio == LcdPinCs || gpio == LcdPinDc ||
      gpio == LcdPinRst || gpio == LcdPinBl || gpio == RgbLedPin || gpio == SdPinMiso ||
      gpio == SdPinCs || gpio == ButtonBootPin)
  }

  /** `get_gpio_description`: the board function of a pin, "Available" for a free one. */
  function GpioDescription(gpio: int): (d: string)
    ensures d == "Available" <==> IsGpioAvailable(gpio)
  {
    if gpio == LcdPinMosi then "LCD/SD MOSI"
    else if gpio == LcdPinSclk then "LCD/SD SCLK"
    else if gpio == LcdPinCs then "LCD CS"
    else if gpio == LcdPinDc then "LCD DC"
    else if gpio == LcdPinRst then "LCD RST"
    else if gpio == LcdPinBl then "LCD Backlight"
    else if gpio == RgbLedPin then "RGB LED"
    else if gpio == SdPinMiso then "SD MISO"
    else if gpio == SdPinCs then "SD CS"
    else if gpio == ButtonBootPin then "BOOT Button"
    else "Available"
  }

  /** Every pin offered to applications, the recommended I2C pins and the
      recommended UART1 pins are reported free. */
  lemma UserPinsAvailable()
    ensures forall i :: 0 <= i < |UserGpios| ==> IsGpioAvailable(UserGpios[i])
    ensures IsGpioAvailable(I2cSdaPin) && IsGpioAvailable(I2cSclPin)
    ensures IsGpioAvailable(Uart1TxPin) && IsGpioAvailable(Uart1RxPin)
  {
  }

  /** The ten case labels are pairwise distinct (so each switch is well formed),
      and the SD card's MOSI/SCLK are the LCD's, which is why those two pins
      are described as shared. */
  lemma BoardPinsDistinct()
    ensures forall i, j :: 0 <= i < j < |BoardPinList| ==> BoardPinList[i] != BoardPinList[j]
    ensures SdPinMosi == LcdPinMosi && SdPinSclk == LcdPinSclk && SdSpiHost == LcdSpiHost
    ensures GpioDescription(SdPinMosi) == "LCD/SD MOSI" && GpioDescription(SdPinSclk) == "LCD/SD SCLK"
  {
  }
}
