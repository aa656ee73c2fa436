/** Fixed-width unsigned integers of the C sources, as bounded subsets of int. */
module Ints {
  const TWO_TO_THE_8: int := 0x100
  const TWO_TO_THE_32: int := 0x1_0000_0000

  /** uint8_t: a GPIO level as the driver returns it and as it is written. */
  type u8 = x: int | 0 <= x < TWO_TO_THE_8

  /** uint32_t: millisecond ticks and durations. */
  type u32 = x: int | 0 <= x < TWO_TO_THE_32
}
