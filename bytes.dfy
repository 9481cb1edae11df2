/** Raw bytes, as read from files and pipes. */
module Bytes {
  newtype byte = b: int | 0 <= b < 256
}
