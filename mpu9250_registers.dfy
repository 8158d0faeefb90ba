/**
 * The MPU9250 accelerometer/gyroscope registers the driver touches, its
 * initial-configuration bytes, the range codes and the driver's defaults.
 */
module MPU9250Registers {
  import opened Bytes

  // Bus addresses: both enumerators carry the same value.
  const A_68: Byte := 0x68
  const A_69: Byte := 0x68

  // Registers.
  const GYRO_CONFIG: Byte := 0x1B
  const ACCEL_CONFIG: Byte := 0x1C
  const ACCEL_CONFIG2: Byte := 0x1D
  const INT_PIN_CFG: Byte := 0x37
  const ACCEL_XOUT_H: Byte := 0x3B
  const ACCEL_XOUT_L: Byte := 0x3C
  const ACCEL_YOUT_H: Byte := 0x3D
  const ACCEL_YOUT_L: Byte := 0x3E
  const ACCEL_ZOUT_H: Byte := 0x3F
  const ACCEL_ZOUT_L: Byte := 0x40
  const GYRO_XOUT_H: Byte := 0x43
  const GYRO_XOUT_L: Byte := 0x44
  const GYRO_YOUT_H: Byte := 0x45
  const GYRO_YOUT_L: Byte := 0x46
  const GYRO_ZOUT_H: Byte := 0x47
  const GYRO_ZOUT_L: Byte := 0x48
  const PWR_MGMT_1: Byte := 0x6B
  const WHO_A_MI: Byte := 0x75

  // Initial-configuration bytes.
  const GYRO_FCHOICE_B: Byte := 0x03   // GYRO_CONFIG: filters bypassed
  const ACCEL_FCHOICE_B: Byte := 0x04  // ACCEL_CONFIG2: filters bypassed
  const CLKSEL: Byte := 0x01           // PWR_MGMT_1: automatic clock selection
  const H_RESET: Byte := 0x80          // PWR_MGMT_1: reset every register
  const BYPASS_EN: Byte := 0x02        // INT_PIN_CFG: magnetometer reachable on the host bus

  // Gyroscope full-scale codes (degrees per second).
  const GYRO_RANGE_250DPS: Byte := 0
  const GYRO_RANGE_500DPS: Byte := 1
  const GYRO_RANGE_1000DPS: Byte := 2
  const GYRO_RANGE_2000DPS: Byte := 3

  // Accelerometer full-scale codes (g).
  const ACCEL_RANGE_2G: Byte := 0
  const ACCEL_RANGE_4G: Byte := 1
  const ACCEL_RANGE_8G: Byte := 2
  const ACCEL_RANGE_16G: Byte := 3

  /** The counts of a full-scale reading: `base`. */
  const BASE: real := 32768.0

  // Defaults of the driver's fields.
  const DEFAULT_GRANGE: Byte := GYRO_RANGE_250DPS
  const DEFAULT_ARANGE: Byte := ACCEL_RANGE_2G
  const INITIAL_DEVICE: Byte := 0

  /** The range code sits in bits 4:3 of GYRO_CONFIG and ACCEL_CONFIG. */
  function RangeField(config: Byte): (code: Byte)
    ensures code < 4
  {
    (config >> 3) & 3
  }

  /** Each sample is a high/low register pair, the three axes one after another. */
  lemma SampleLayout()
    ensures [ACCEL_XOUT_H + 1, ACCEL_XOUT_H + 2, ACCEL_XOUT_H + 3, ACCEL_XOUT_H + 4, ACCEL_XOUT_H + 5]
         == [ACCEL_XOUT_L, ACCEL_YOUT_H, ACCEL_YOUT_L, ACCEL_ZOUT_H, ACCEL_ZOUT_L]
    ensures [GYRO_XOUT_H + 1, GYRO_XOUT_H + 2, GYRO_XOUT_H + 3, GYRO_XOUT_H + 4, GYRO_XOUT_H + 5]
         == [GYRO_XOUT_L, GYRO_YOUT_H, GYRO_YOUT_L, GYRO_ZOUT_H, GYRO_ZOUT_L]
  {
  }

  /** The filter-bypass bytes leave the range field clear, so a range written after them is the whole field. */
  lemma FilterBytesLeaveRangeClear(code: Byte)
    requires code < 4
    ensures RangeField(GYRO_FCHOICE_B) == 0 && RangeField(ACCEL_FCHOICE_B) == 0
    ensures RangeField(GYRO_FCHOICE_B | (code << 3)) == code
  {
  }
}
