# ESP32-C6-LCD-1.47 board support, modelled in Dafny

This project models the board-support code of the Waveshare ESP32-C6-LCD-1.47 template as the
repository actually implements it. Much of that code is still a placeholder:

- **RGB565 packing** (`lcd_rgb_to_565`) and the named LCD colours (`rgb565.dfy`, module `Rgb565`),
  on `bv8`/`bv16` exactly as the C bit expression.
- **ST7789 driver** (`lcd_st7789.dfy`, module `LcdSt7789`). Class `Lcd` holds `initialized` and the
  SPI device handle, plus a ghost trace of bus events (GPIO levels, delays, SPI transactions, PWM
  configuration). The `initialized` flag gates every command and drawing call. Pixels and rectangles
  are bounds-checked against the 172x320 panel. Initialisation tolerates a bus that is already set up,
  pulses reset, then sends commands 0x01, 0x11 and 0x29. The backlight is clamped and converted to an
  8-bit duty.
- **RGB LED driver** (`rgb_led.dfy`, module `RgbLed`). It has the integer six-region `hsv_to_rgb`
  with every `uint8_t` store written out as `% 256`. The HSV front end clamps and rescales its inputs.
  Class `RgbLedDriver` gates the colour setter on its `initialized` flag.
- **Board pin table** (`board_pins.dfy`, module `BoardPins`): the pin constants, `is_gpio_available`
  and `get_gpio_description`.
- **WiFi station state machine** (`wifi_hal.dfy`, module `WifiHal`). The pure step `Handle` specifies
  `event_handler`. Class `Wifi` holds the status, the retry counter (bounded by 5), the IP string and
  the callback.
- **NTP sync state machine** (`time_hal.dfy`, module `TimeHal`): NotSynced -> Syncing -> Synced, with
  the time getters gated on Synced.
- `esp.dfy` (module `Esp`) holds the C integer widths and the `esp_err_t` codes. `ESP_OK` is 0,
  `ESP_ERR_INVALID_ARG` is 0x102 and `ESP_ERR_INVALID_STATE` is 0x103, as ESP-IDF defines them.
  `esp_err.h` is not part of this model.

SDK and hardware results become method parameters. These include the results of
`spi_bus_initialize`, `spi_bus_add_device`, an SPI transaction, `gpio_config`,
`esp_wifi_disconnect` and `esp_wifi_sta_get_ap_info`, and the clock reading. A C pointer that may be
NULL is an `Option` when the model uses what it points to, and a `bool` presence flag when only its
NULL-ness is read (the buffers of the time getters). Each event-handler invocation is one atomic state transition. Callback calls are
recorded as `Notify` effects, and only when a callback is registered.

The driver header declares safe-area, character, string, scaled and wrapped-text and `printf` drawing
calls (lcd_st7789.h:85-234), and rgb_led.c defines WS2812 pulse timings (rgb_led.c:17-21). The code
implements neither: the drawing calls it defines only check the flag and the bounds, and LED
transmission only logs. The model follows the code.

## Model

| member | source | states |
|---|---|---|
| `Rgb565.RgbTo565` | components/lcd_st7789/include/lcd_st7789.h:266-268 | bits 15-11 of the packed word are `r>>3`, bits 10-5 are `g>>2` and bits 4-0 are `b>>3`, so the top 5/6/5 bits of each channel round-trip exactly |
| `Rgb565.FieldsDisjoint` | components/lcd_st7789/include/lcd_st7789.h:267 | the three shifted fields are disjoint, so the OR equals their sum, i.e. `(r>>3)*2048 + (g>>2)*32 + (b>>3)` |
| `Rgb565.LowBitsIgnored` | components/lcd_st7789/include/lcd_st7789.h:267 | inputs that differ only in the low 3 bits of red or blue, or the low 2 bits of green, pack to the same word |
| `Rgb565.Monotone` | components/lcd_st7789/include/lcd_st7789.h:267 | packing is monotone in each channel when the other two are fixed |
| `Rgb565.NamedColours` | components/lcd_st7789/include/lcd_st7789.h:39-46 | black, white, red, green, blue, yellow, magenta and cyan are the packings of their full-intensity triples |
| `BoardPins.IsGpioAvailable` | main/board_pins.h:115-132 | false exactly for pins 0, 4, 5, 6, 7, 8, 14, 15, 21 and 22 (the board's ten peripheral pins), true for every other number |
| `BoardPins.GpioDescription` | main/board_pins.h:139-153 | the description is "Available" exactly when `is_gpio_available` says the pin is free |
| `BoardPins.UserPinsAvailable` | main/board_pins.h:73-96 | every USER_GPIO pin, the recommended I2C pins 18/19 and the UART1 pins 16/17 are reported free |
| `BoardPins.BoardPinsDistinct` | main/board_pins.h:28-56 | the ten switch labels are pairwise distinct; the SD card's MOSI/SCLK and host are the LCD's, hence the "LCD/SD" descriptions |
| `LcdSt7789.DefaultConfig` | components/lcd_st7789/lcd_st7789.c:40-51 | each field of the default configuration holds the board pin whose description names that LCD function, and the host is the LCD's SPI host |
| `LcdSt7789.DefaultConfigReserved` | components/lcd_st7789/include/lcd_st7789.h:35-36 | the header's panel size matches the board's, and every default LCD pin is one the board reserves |
| `LcdSt7789.Lcd.constructor` | components/lcd_st7789/lcd_st7789.c:17-18 | the driver starts uninitialised, with a NULL device and no bus traffic |
| `LcdSt7789.Lcd.SendCmd` | components/lcd_st7789/lcd_st7789.c:23-36 | uninitialised: `ESP_ERR_INVALID_STATE` and no bus event; initialised: DC pin 15 (the board constant, not the configured pin) driven low, one byte sent, and the transaction's own result returned |
| `LcdSt7789.Lcd.Init` | components/lcd_st7789/lcd_st7789.c:53-117 | a bus error other than `ESP_ERR_INVALID_STATE`, or any add-device error, is returned with flag and handle untouched; otherwise the reset pulse and the three commands follow, the flag and handle are set, and `ESP_OK` is returned whatever the command results |
| `LcdSt7789.InitCommandsInOrder` | components/lcd_st7789/lcd_st7789.c:107-113 | a successful initialisation transmits exactly 0x01, 0x11, 0x29, in that order, and no other byte |
| `LcdSt7789.TransmittedAppend` | components/lcd_st7789/lcd_st7789.c:23-36 | the bytes sent by two consecutive stretches of bus activity are those of the first followed by those of the second |
| `LcdSt7789.InitResetPulseFirst` | components/lcd_st7789/lcd_st7789.c:98-113 | reset is driven low for 100 ms and then high for 100 ms before any byte is sent, and every byte is sent just after DC goes low |
| `LcdSt7789.BacklightDuty` | components/lcd_st7789/lcd_st7789.c:119-136 | the duty lies in 0..255 (fits the 8-bit timer), is 255 exactly when the brightness is at least 100, and is 0 exactly for brightness 0; it is the floor of min(b,100)*255/100 |
| `LcdSt7789.BacklightMonotone` | components/lcd_st7789/lcd_st7789.c:120-136 | more brightness never gives less duty |
| `LcdSt7789.Lcd.SetBacklight` | components/lcd_st7789/lcd_st7789.c:119-144 | configures an 8-bit 5 kHz timer and the backlight channel with the clamped duty, and returns `ESP_OK` whether or not the panel is initialised |
| `LcdSt7789.Lcd.FillScreen` | components/lcd_st7789/lcd_st7789.c:146-160 | succeeds exactly when initialised, otherwise `ESP_ERR_INVALID_STATE`; it reads state only and causes no bus event |
| `LcdSt7789.Lcd.DrawPixel` | components/lcd_st7789/lcd_st7789.c:162-174 | uninitialised: `ESP_ERR_INVALID_STATE`; initialised: succeeds exactly when x < 172 and y < 320, otherwise `ESP_ERR_INVALID_ARG` |
| `LcdSt7789.Lcd.DrawRectangle` | components/lcd_st7789/lcd_st7789.c:176-189 | uninitialised: `ESP_ERR_INVALID_STATE`; initialised: succeeds exactly when x+width <= 172 and y+height <= 320, summed without 16-bit wrap, otherwise `ESP_ERR_INVALID_ARG` |
| `LcdSt7789.RectangleEdges` | components/lcd_st7789/lcd_st7789.c:181-183 | a rectangle reaching exactly the right and bottom edges is accepted, one pixel more is refused, 0xFFFF+1 is refused, and a pixel is accepted exactly when its 1x1 rectangle is |
| `RgbLed.DefaultConfig` | components/rgb_led/rgb_led.c:67-74 | the default LED pin is the board's "RGB LED" pin, with one LED on RMT channel 0 |
| `RgbLed.ScaledAtMost` | components/rgb_led/rgb_led.c:41-43 | a byte scaled by at most 255/256 stays within the byte |
| `RgbLed.BlendPBounded` | components/rgb_led/rgb_led.c:41 | the p blend never truncates in its `uint8_t` store and is at most v |
| `RgbLed.BlendQBounded` | components/rgb_led/rgb_led.c:42 | the q blend never truncates in its `uint8_t` store and is at most v, whatever the remainder |
| `RgbLed.BlendTBounded` | components/rgb_led/rgb_led.c:43 | the t blend never truncates in its `uint8_t` store and is at most v, whatever the remainder |
| `RgbLed.BlendsBounded` | components/rgb_led/rgb_led.c:41-43 | p, q and t are each at most v, for every hue |
| `RgbLed.HueLocalsInRange` | components/rgb_led/rgb_led.c:38-39 | for hue <= 360, region is at most 8 and remainder at most 252, so neither store truncates |
| `RgbLed.HsvToRgb` | components/rgb_led/rgb_led.c:30-65 | saturation 0 gives r = g = b = v; otherwise every channel is at most v and one channel equals v |
| `RgbLed.HighHueDefaultBranch` | components/rgb_led/rgb_led.c:61-63 | every hue in 215..360 takes the default branch: r = v, g = p, b = q |
| `RgbLed.HueZeroIsRed` | components/rgb_led/rgb_led.c:46-48 | at full saturation and value, hue 0 is pure red (255,0,0) |
| `RgbLed.DegreesMisread` | components/rgb_led/rgb_led.c:38-64 | as written, hue 360 at full saturation and value is (255,0,159), not the red of hue 0 |
| `RgbLed.Hue120NotGreen` | components/rgb_led/rgb_led.c:38-54 | as written, hue 120 at full saturation and value is (0,255,204), not pure green |
| `RgbLed.HsvDegreesToRgb` | components/rgb_led/rgb_led.c:30-65 | the degree-reading conversion keeps the as-written guarantees: grey at saturation 0, every channel at most v, one channel equal to v |
| `RgbLed.DegreesWrapAndPrimaries` | components/rgb_led/include/rgb_led.h:45-53 | reading hue in degrees, 360 equals 0, and 0, 120 and 240 give pure red, green and blue |
| `RgbLed.PercentToByte` | components/rgb_led/rgb_led.c:130-132 | for a clamped percentage the result is the floor of pct*255/100, 0 exactly for 0 and 255 exactly for 100 |
| `RgbLed.HsvRequestColor` | components/rgb_led/rgb_led.c:123-134 | none of the three requested channels exceeds the rescaled value; saturation 0 gives grey and value 0 gives black |
| `RgbLed.ClampedInputs` | components/rgb_led/rgb_led.c:126-128 | hue above 360 behaves exactly like 360, and saturation or value above 100 exactly like 100 |
| `RgbLed.RgbLedDriver.constructor` | components/rgb_led/rgb_led.c:24-25 | the driver starts uninitialised with an LED count of 1 |
| `RgbLed.RgbLedDriver.Init` | components/rgb_led/rgb_led.c:76-105 | a failing `gpio_config` is returned with nothing changed; otherwise the LED count is recorded, the flag set and `ESP_OK` returned |
| `RgbLed.RgbLedDriver.SetColor` | components/rgb_led/rgb_led.c:107-121 | succeeds exactly when initialised and then accepts the colour; otherwise `ESP_ERR_INVALID_STATE` and nothing is accepted |
| `RgbLed.RgbLedDriver.SetHsv` | components/rgb_led/rgb_led.c:123-137 | gated like the colour setter; when initialised it accepts the clamped, rescaled and converted colour |
| `RgbLed.RgbLedDriver.Off` | components/rgb_led/rgb_led.c:139-141 | the colour setter with black |
| `WifiHal.Truncate` | components/wifi_hal/src/wifi_hal.c:110-113 | a copy bounded by its buffer is the prefix of the source of length min(length, bound): the whole source when it fits, exactly the first 31 or 63 characters otherwise |
| `WifiHal.Decimal` | components/wifi_hal/src/wifi_hal.c:54 | a byte prints as 1 to 3 characters, all decimal digits, with no leading zero |
| `WifiHal.DecimalRoundTrip` | components/wifi_hal/src/wifi_hal.c:54 | reading the printed digits back gives the byte |
| `WifiHal.FormatIp` | components/wifi_hal/src/wifi_hal.c:54 | the dotted address is 7 to 15 characters, so it fits the 16-byte buffer and is never empty |
| `WifiHal.Handle` | components/wifi_hal/src/wifi_hal.c:29-63 | other events change nothing; for handled events the result is Connected exactly on GOT_IP and Failed exactly on a disconnection with the counter already at 5; only GOT_IP replaces the IP or lowers the counter |
| `WifiHal.HandleKeepsInv` | components/wifi_hal/src/wifi_hal.c:29-63 | every event keeps retry within 0..5, the IP within 15 characters, and an address recorded whenever the status is Connected |
| `WifiHal.GotIpStoresAddress` | components/wifi_hal/src/wifi_hal.c:52-61 | GOT_IP resets retry to 0, sets Connected and stores the whole dotted address |
| `WifiHal.DisconnectRun` | components/wifi_hal/src/wifi_hal.c:38-51 | after k disconnections in a row the counter is min(retry+k, 5), still Connecting while within the bound and Failed once past it |
| `WifiHal.SixthDisconnectFails` | components/wifi_hal/src/wifi_hal.c:38-51 | from a reset counter, five disconnections are retried and the sixth sets Failed with the counter at 5 |
| `WifiHal.Wifi.constructor` | components/wifi_hal/src/wifi_hal.c:24-27 | starts Disconnected, with retry 0, an empty IP and no callback |
| `WifiHal.Wifi.EventHandler` | components/wifi_hal/src/wifi_hal.c:29-63 | STA_START: Connecting and notify with NULL; DISCONNECTED: retry or fail bit and Failed, then notify; GOT_IP: as above, connected bit and notify with the IP; the invariant is kept |
| `WifiHal.Wifi.Connect` | components/wifi_hal/src/wifi_hal.c:97-123 | a NULL SSID returns `ESP_ERR_INVALID_ARG` and changes nothing; otherwise the callback is stored, retry reset, and SSID/password copied truncated to 31/63 characters |
| `WifiHal.Wifi.Disconnect` | components/wifi_hal/src/wifi_hal.c:125-139 | on success Disconnected, IP cleared and callback notified; on failure the error with status and IP unchanged |
| `WifiHal.Wifi.GetIpAddress` | components/wifi_hal/src/wifi_hal.c:146-158 | NULL buffer: `ESP_ERR_INVALID_ARG`; not Connected or empty IP: `ESP_ERR_INVALID_STATE` and the buffer untouched; otherwise the buffer holds the IP |
| `WifiHal.Wifi.GetStatus` | components/wifi_hal/src/wifi_hal.c:141-144 | the current status itself; while the invariant holds, a Connected report means the IP accessor succeeds with the stored address |
| `WifiHal.Wifi.GetRssi` | components/wifi_hal/src/wifi_hal.c:160-173 | 0 unless Connected and the AP query succeeds, then the AP's RSSI |
| `TimeHal.ServerNames` | components/time_hal/src/time_hal.c:62-66 | the registrations of the first n servers give index i the i-th table entry |
| `TimeHal.AllServersInOrder` | components/time_hal/src/time_hal.c:20-24 | servers 0, 1 and 2 are pool.ntp.org, time.nist.gov and time.google.com |
| `TimeHal.Transition` | components/time_hal/src/time_hal.c:26-90 | stop, and only stop, gives NotSynced; the notification, and only it, gives Synced |
| `TimeHal.SyncedOnlyAfterSyncing` | components/time_hal/src/time_hal.c:26-90 | in every run where the notification comes only while SNTP runs, Synced is reached only after some earlier point of the run was Syncing |
| `TimeHal.TimeSync.constructor` | components/time_hal/src/time_hal.c:16-17 | the initial status is NotSynced, with no callback, SNTP not running and an empty history |
| `TimeHal.TimeSync.Init` | components/time_hal/src/time_hal.c:36-46 | the timezone is set to UTC0 and `ESP_OK` returned |
| `TimeHal.TimeSync.StartSync` | components/time_hal/src/time_hal.c:48-76 | Syncing with the callback stored and notified before SNTP is configured; the servers are registered in table order, then SNTP is started (the invariant tying the status to a possible run is kept); `ESP_OK` |
| `TimeHal.TimeSync.OnTimeSynced` | components/time_hal/src/time_hal.c:26-34 | callable only while SNTP runs, so the status was Syncing or Synced; it becomes Synced and a registered callback is told |
| `TimeHal.TimeSync.StopSync` | components/time_hal/src/time_hal.c:78-90 | SNTP is stopped (so no notification can follow), the status becomes NotSynced, a registered callback is told, and `ESP_OK` is always returned |
| `TimeHal.TimeSync.GetSyncStatus` | components/time_hal/src/time_hal.c:92-95 | the current status itself, Synced exactly when the timestamp getter passes the clock through |
| `TimeHal.TimeSync.GetTimeString` | components/time_hal/src/time_hal.c:97-115 | NULL buffer or format: `ESP_ERR_INVALID_ARG` first; otherwise succeeds exactly when Synced, else `ESP_ERR_INVALID_STATE` |
| `TimeHal.TimeSync.GetTimeStruct` | components/time_hal/src/time_hal.c:117-132 | NULL argument: `ESP_ERR_INVALID_ARG` first; otherwise succeeds exactly when Synced, else `ESP_ERR_INVALID_STATE` |
| `TimeHal.TimeSync.GetTimestamp` | components/time_hal/src/time_hal.c:134-143 | 0 unless Synced, then the clock reading |
| `TimeHal.TimeSync.SetTimezone` | components/time_hal/src/time_hal.c:145-157 | NULL: `ESP_ERR_INVALID_ARG` and nothing set; otherwise TZ is installed and `ESP_OK` returned |
| `TimeHal.SyncLifecycle` | components/time_hal/src/time_hal.c:48-138 | start, notification and stop keep the invariant (the status is that of a possible run, SNTP running exactly while not NotSynced) and end NotSynced with SNTP halted; on the way the getters refuse before Synced and answer after it |

## Left out

- Unimplemented LCD drawing calls: the safe-area variants, characters, strings, scaled, wrapped and
  `printf` text, and `lcd_text_bounds_t`. They are only declared, so there is no font, word-wrap,
  address window or pixel stream to model. `lcd_fill_screen` is modelled as the flag check it is.
- WS2812 pulse encoding: the timing constants are unused and transmission is a placeholder. Tick
  conversion, wire order and an encoder state machine are not modelled. Colours the LED setter
  accepts are recorded in a ghost log instead.
- Vendor wrappers (`display_hal.c`, `led_hal.c`, `lvgl_driver.c`, `ui_manager.c`) and the demo and
  entry task loops (`main.c`, `board_demo.c`): these are configuration calls and FreeRTOS loops.
- Hardware and OS effects: SPI, GPIO levels, delays, LEDC, `esp_wifi_*`, SNTP, event-group bits,
  `setenv`/`tzset`. They appear only as ghost trace events. Their results are parameters where the
  code looks at them, and are left out where the code ignores them (`gpio_config` in `lcd_init`, the
  LEDC calls).
- Concurrency: SDK callbacks and event tasks are taken as atomic single steps.
- `wifi_hal_init`: SDK setup under `ESP_ERROR_CHECK`, with no state of its own.
- WifiHal.Wifi.Connect: `ESP_ERROR_CHECK` aborts the program when `esp_wifi_set_config` or
  `esp_wifi_start` fail; the model takes both to succeed.
- WifiHal.Wifi.GetIpAddress: the caller's buffer size is not modelled; `strcpy` assumes at least 16 bytes.
- TimeHal.TimeSync.GetTimeString: `time`, `localtime_r` and `strftime` are not modelled, so only the
  result code is stated, not the formatted text.
- TimeHal.TimeSync.GetTimeStruct: the broken-down time written by `localtime_r` is not modelled, only the result code.
- Rgb565.FieldsDisjoint: the sum is stated in 16-bit arithmetic rather than over unbounded integers;
  no carry can occur, so the two are the same value.
- RgbLed.RgbLedDriver.SetHsv: keeps the hue conversion as written, so that it models `rgb_led_set_hsv`
  as it behaves; the corrected conversion of the finding below stands beside it.
- The `uint8_t` and `uint16_t` parameter types are ranges of integers. The packer works on `bv8` and
  `bv16` because the C source computes on bits.

## Findings

| source | as written | input that shows it | evidently intended | confidence | as-written member | corrected member |
|---|---|---|---|---|---|---|
| components/rgb_led/rgb_led.c:38-39 | `hsv_to_rgb` divides hue into regions of 43, a 0..255 hue scale, while `rgb_led_set_hsv` passes hue in degrees 0..360 (rgb_led.h:48) | hue 360, saturation 100, value 100 gives (255,0,159) rather than the red of hue 0; hue 120 gives (0,255,204) rather than green | regions of 60 degrees, the remainder rescaled to 0..255, and 360 wrapped to 0 | medium, not executed | `RgbLed.DegreesMisread` | `RgbLed.DegreesWrapAndPrimaries` |
