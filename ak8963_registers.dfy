/**
 * The AK8963 magnetometer's register map, bit positions, field widths and
 * codes, with the facts about them that the driver relies on.
 */
module AK8963Registers {
  import opened Bytes
  import opened Bitfield

  // Registers.
  const WIA: Byte := 0x00     // device ID
  const INFO: Byte := 0x01    // information
  const ST1: Byte := 0x02     // status 1: data ready, data overrun
  const HXL: Byte := 0x03     // measurement data, X low byte
  const HXH: Byte := 0x04
  const HYL: Byte := 0x05
  const HYH: Byte := 0x06
  const HZL: Byte := 0x07
  const HZH: Byte := 0x08
  const ST2: Byte := 0x09     // status 2: sensor overflow, output bit mirror
  const CNTL1: Byte := 0x0A   // control 1: operation mode [3:0], output bit [4]
  const CNTL2: Byte := 0x0B   // control 2: soft reset
  const ASTC: Byte := 0x0C    // self-test control
  const I2CDIS: Byte := 0x0F  // I2C disable
  const ASAX: Byte := 0x10    // fuse-ROM sensitivity adjustment, X
  const ASAY: Byte := 0x11
  const ASAZ: Byte := 0x12

  // Bit positions.
  const DOR: Byte := 1        // ST1: data overrun
  const DRDY: Byte := 0       // ST1: data ready
  const BITM: Byte := 4       // ST2: output bit mirror
  const HOFL: Byte := 3       // ST2: magnetic sensor overflow
  const BIT: Byte := 4        // CNTL1: output bit, 0 = 14 bit, 1 = 16 bit
  const MODE: Byte := 3       // CNTL1: highest bit of the operation mode field
  const SRST: Byte := 0       // CNTL2: soft reset
  const SELF: Byte := 6       // ASTC: self test

  // Field widths.
  const MODE_LENGTH: Byte := 4

  // Bus addresses selected by the CAD1/CAD0 pins, and the device ID.
  const ADDRESS_CAD00: Byte := 0x0C
  const ADDRESS_CAD01: Byte := 0x0D
  const ADDRESS_CAD10: Byte := 0x0E
  const ADDRESS_CAD11: Byte := 0x0F
  const ID: Byte := 0x48
  const DISABLE_I2C: Byte := 0x1B

  // Operation modes a caller may select.
  const SINGLE_MEASUREMENT: Byte := 0x1
  const CONTINUOUS_MEASUREMENT_8HZ: Byte := 0x2
  const CONTINUOUS_MEASUREMENT_SLOW: Byte := 0x2
  const CONTINUOUS_MEASUREMENT_100HZ: Byte := 0x6
  const CONTINUOUS_MEASUREMENT_FAST: Byte := 0x6
  const EXTERNAL_TRIGGER_MEASUREMENT: Byte := 0x4

  // Operation modes the driver uses internally.
  const POWER_DOWN: Byte := 0x0
  const SELF_TEST: Byte := 0x8
  const FUSE_ROM_ACCESS: Byte := 0xF

  // Output resolutions.
  const BITS_14: Byte := 0
  const BITS_16: Byte := 1

  // Initial values of the driver's private fields.
  const INITIAL_SENSITIVITY_UT: real := 0.6
  const INITIAL_SENS_ADJ: real := 0.0

  /** Every operation mode code, public and private. */
  const ModeCodes: seq<Byte> := [SINGLE_MEASUREMENT, CONTINUOUS_MEASUREMENT_8HZ,
    CONTINUOUS_MEASUREMENT_100HZ, EXTERNAL_TRIGGER_MEASUREMENT, POWER_DOWN, SELF_TEST, FUSE_ROM_ACCESS]

  /** The operation mode is CNTL1's low nibble: shift 0, mask 0x0F. */
  lemma ModeFieldIsLowNibble()
    ensures ValidField(MODE, MODE_LENGTH)
    ensures FieldShift(MODE, MODE_LENGTH) == 0
    ensures FieldMask(MODE, MODE_LENGTH) == 0x0F
  {
  }

  /**
   * Every mode code fits the 4-bit field, so writing it loses nothing: the
   * code survives truncation to the field's width and to the low nibble.
   */
  lemma ModeCodesFitField()
    ensures forall k :: 0 <= k < |ModeCodes| ==> ModeCodes[k] & LowOnes(MODE_LENGTH) == ModeCodes[k]
    ensures forall k :: 0 <= k < |ModeCodes| ==> ModeCodes[k] & 0x0F == ModeCodes[k]
  {
  }

  /**
   * The resolution bit lies outside the mode field, so clearing or
   * rewriting the mode field keeps it.
   */
  lemma ResolutionBitOutsideModeField(cntl1: Byte)
    ensures BIT < 8 && !BitAt(FieldMask(MODE, MODE_LENGTH), BIT)
    ensures BitAt(cntl1 & !FieldMask(MODE, MODE_LENGTH), BIT) == BitAt(cntl1, BIT)
  {
    ModeFieldIsLowNibble();
  }

  /** An 8-byte burst from ST1 covers ST1, HXL..HZH and ST2 in that order. */
  lemma StatusBurstLayout()
    ensures [ST1 + 0, ST1 + 1, ST1 + 2, ST1 + 3, ST1 + 4, ST1 + 5, ST1 + 6, ST1 + 7]
         == [ST1, HXL, HXH, HYL, HYH, HZL, HZH, ST2]
  {
  }
}
