/** What the drivers ask of an Adafruit_ADS1115 device, as an oracle: the
    library is not part of this model, so each call becomes a total function
    of the device address (and channel). */
module Ads1115 {
  import opened CTypes

  datatype Bus = Bus(
    /** `Adafruit_ADS1115::begin(addr)`: whether the device answers. */
    responds: Uint8 -> bool,
    /** `readADC_SingleEnded(channel)` on the device at the address. */
    singleEnded: (Uint8, Int8) -> Int16,
    /** `readADC_Differential_0_1()` on the device at the address. */
    differential01: Uint8 -> Int16,
    /** `readADC_Differential_2_3()` on the device at the address. */
    differential23: Uint8 -> Int16)
}
