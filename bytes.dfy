/** Machine integer types shared by the server and the browser code. */
module Bytes {

  /** One byte, as stored in a `Uint8Array` or written by `DataView.setUint8`. */
  newtype uint8 = x: int | 0 <= x < 0x100

  /** One sample, as stored in an `Int16Array`. */
  newtype int16 = x: int | -0x8000 <= x < 0x8000
}
