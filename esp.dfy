/** Shared vocabulary of the ESP-IDF interface the drivers are written against:
    the C integer widths they use and the `esp_err_t` codes they return. */
module Esp {
  /** `uint8_t`, `uint16_t` and `int8_t` as ranges of mathematical integers. */
  type Uint8 = x: int | 0 <= x < 0x100
  type Uint16 = x: int | 0 <= x < 0x1_0000
  type Int8 = x: int | -0x80 <= x < 0x80

  /** `esp_err_t` is a plain C `int`; the SDK may return codes other than the named ones. */
  type EspErr = int

  const EspOk: EspErr := 0
  const EspErrInvalidArg: EspErr := 0x102
  const EspErrInvalidState: EspErr := 0x103

  /** A C pointer that may be NULL, or a value that may be absent. */
  datatype Option<T> = None | Some(value: T)
}
