# MPU9250 / AK8963 IMU drivers on Linux I2C — a Dafny model

This project models the core of a small C++ library that reads a nine-axis
inertial measurement unit. The unit is an MPU9250 accelerometer and gyroscope
with an AK8963 magnetometer behind it, reached over the Linux I2C bus. The model
covers:

- **The register bitfield layer** (`Bitfield`): the shift and mask arithmetic of
  `_readBits`, `_writeBits` and `_writeBit`, done in 8 bits as the C code does it.
- **The register maps** of both chips (`AK8963Registers`, `MPU9250Registers`):
  register addresses, bit positions, mode and range codes, configuration bytes
  and field defaults, with the layout facts the drivers rely on.
- **The register bus** a driver is attached to (`RegisterBus`, the `ICom`
  interface). It is an abstract register file `(device, register) -> byte`.
  A scripted oracle decides whether each transfer succeeds. Every transfer and
  every call of the attached delay routine is appended to a trace.
- **The AK8963 driver** (`AK8963Driver`):
  - read-modify-write of bits and fields;
  - the operation mode and the power-down-first rule;
  - the resolution bit and its cached sensitivity;
  - the 8-byte status/data burst and the overflow flag;
  - the fuse-ROM sensitivity adjustment, in exact reals;
  - initialisation.
- **The MPU9250 driver** (`MPU9250Driver`):
  - the seven-step initialisation that stops at the first failing step;
  - the range setters, which OR a code into bits 4:3, and their cached range and resolution;
  - the resolution table;
  - reset;
  - the big-endian sample reads.
- **The Linux I2C transport** (`I2CTransport`):
  - the descriptor and the cached slave;
  - the write frame;
  - the address-only write that primes a read;
  - the bounded read loop that places bytes contiguously.

  The kernel calls are answered by a scripted kernel that records every call.
- **The raw-IMU aggregator** (`ImuAggregator`): three optional attachments, and
  the 9-slot vector assembled from one read of each.
- **The deadline arithmetic** of the time helpers (`TimeUtils`):
  - the drift-free advance in `sleep_until`;
  - the `timespec` built by `sleep_lapse`;
  - the conversion to microseconds.

**How operations are specified.** Each bus-level operation is a function from
the bus state before the call to the state after it, together with the values
it returns. The driver classes hold the C++ objects' fields. Their methods are
proved to change the attached bus and their own fields exactly as those
functions say. The properties of the functions are proved as lemmas.

## Model

| member | source | states |
|---|---|---|
| Bytes.Word | IMU/MPU9250.cpp:143-145 | `(hi << 8) \| lo` in 16 bits is `hi * 256 + lo` |
| Bytes.Signed16 | IMU/MPU9250.cpp:143 | the `int16_t` conversion agrees with its argument modulo 2^16 and is negative exactly when the argument is at least 0x8000 |
| Bytes.Int16Of | IMU/MPU9250.cpp:143-145 | a sample decoded from a high and a low byte is `hi * 256 + lo` modulo 2^16, and is negative exactly when the high byte's top bit is set |
| Bytes.DecodeEncode | IMU/MPU9250.cpp:143-145 | decoding the two bytes of any `int16_t` gives it back |
| Bytes.EncodeDecode | IMU/AK8963.cpp:229-231 | re-encoding a decoded byte pair gives the same two bytes: the decoding loses nothing |
| Bitfield.FieldShift | IMU/AK8963.cpp:298 | `shift = firstBit - length + 1` is the field's lowest bit: `shift + length == firstBit + 1` |
| Bitfield.LowOnes | IMU/AK8963.cpp:300 | `(1 << length) - 1` has exactly bits `0 .. length-1` set |
| Bitfield.FieldMask | IMU/AK8963.cpp:300 | the mask has exactly the bits `shift .. firstBit` set |
| Bitfield.ReadBitsValue | IMU/AK8963.cpp:294-307 | the extracted field is below `2^length` and its bit `i` is the register's bit `shift + i` |
| Bitfield.WriteBitsValue | IMU/AK8963.cpp:308-321 | the written byte agrees with the old one outside the mask, and reading the field back gives `bits` truncated to `length` bits |
| Bitfield.WriteBitValue | IMU/AK8963.cpp:284-288 | bit `position` becomes `bit` and the other seven bits are unchanged |
| Bitfield.WriteBitsKeepsOtherBits | IMU/AK8963.cpp:312-317 | every bit outside the field keeps its value through a field write |
| AK8963Registers.ModeFieldIsLowNibble | IMUalternative/AK8963.hpp:405-415 | `Bit::MODE = 3` with `Length::MODE = 4` is a valid field with shift 0 and mask 0x0F |
| AK8963Registers.ModeCodesFitField | IMUalternative/AK8963.hpp:192-200 | every mode code, public and private, fits the 4-bit mode field and equals its own low nibble; `SetModeThenGetMode` uses this to read back the exact code |
| AK8963Registers.ResolutionBitOutsideModeField | IMUalternative/AK8963.hpp:404-405 | the output-resolution bit (CNTL1 bit 4) lies outside the mode mask, so clearing the mode field keeps it; `SetModeKeepsOthers` uses this |
| AK8963Registers.StatusBurstLayout | IMUalternative/AK8963.hpp:377-384 | eight registers from ST1 are ST1, HXL..HZH, ST2 in that order; `MagReadRegisters` uses this |
| MPU9250Registers.RangeField | IMU/MPU9250.cpp:102 | the range code read from bits 4:3 of a configuration byte is below 4 |
| MPU9250Registers.SampleLayout | IMUCalibration/MPU9250.hpp:421-434 | the six registers from ACCEL_XOUT_H and from GYRO_XOUT_H are the high/low pairs of X, Y, Z in order; `GyroSampleRegisters` and `AccelSampleRegisters` use this |
| MPU9250Registers.FilterBytesLeaveRangeClear | IMUCalibration/MPU9250.hpp:364-375 | the filter-bypass bytes have a clear range field, so ORing a code into GYRO_FCHOICE_B gives exactly that code |
| RegisterBus.ReadTxn | IMU/AK8963.cpp:323-327 | a read changes no register and consumes one outcome. It succeeds exactly when the oracle passes it, and then returns the `n` consecutive registers. It is appended to the trace |
| RegisterBus.WriteTxn | IMU/AK8963.cpp:329-333 | a write of any length succeeds exactly when the oracle passes it. On failure, and for an empty payload, it changes no register. It consumes one outcome and appends exactly its own event to the trace |
| RegisterBus.WriteOne | IMU/AK8963.cpp:329-333 | for the one-byte writes the drivers make: on success the write sets its register and no other |
| RegisterBus.Com.ReadCom | IMU/AK8963.cpp:326 | the bus object's read is `ReadTxn` on its state |
| RegisterBus.Com.WriteCom | IMU/AK8963.cpp:332 | the bus object's write is `WriteTxn` on its state |
| RegisterBus.Com.Delay | IMU/AK8963.cpp:91 | a call of the delay routine only appends a delay event |
| AK8963Driver.ReadBitTxn | IMU/AK8963.cpp:272-280 | `_readBit` changes no register, succeeds exactly when its read does, and yields the bit only when the read succeeded. On failure it yields false, the value every caller presets (IMU/AK8963.cpp:75, 81, 120), since `_readBit` itself then leaves `*bit` alone |
| AK8963Driver.WriteBitTxn | IMU/AK8963.cpp:281-292 | `_writeBit` succeeds exactly when its read and write both pass. A failed read issues no write. A failure changes no register. On success the bit holds the value written. Every other bit is kept |
| AK8963Driver.ReadBitsTxn | IMU/AK8963.cpp:294-307 | `_readBits` changes no register and yields the field on success. On failure it yields 0, the value every caller presets (IMU/AK8963.cpp:96), since `_readBits` itself then leaves `*bits` alone |
| AK8963Driver.WriteBitsTxn | IMU/AK8963.cpp:308-321 | `_writeBits` succeeds exactly when its read and write both pass. A failed read issues no write. It writes the old byte with the field replaced, so the field reads back as `bits` truncated |
| AK8963Driver.WriteBitKeepsOthers | IMU/AK8963.cpp:281-292 | `_writeBit` changes no register but its own |
| AK8963Driver.WriteBitsKeepsOthers | IMU/AK8963.cpp:308-321 | `_writeBits` changes no register but its own |
| AK8963Driver.WriteThenReadBits | IMU/AK8963.cpp:294-321 | reading a field right after a successful write of it gives the written value modulo `2^length` |
| AK8963Driver.WriteThenReadBit | IMU/AK8963.cpp:272-292 | reading a bit right after a successful write of it gives the written bit |
| AK8963Driver.ModeWriteValue | IMU/AK8963.cpp:101-103 | a mode write leaves CNTL1's upper nibble and puts the code's low nibble in the mode field |
| AK8963Driver.ModeWriteKeeps | IMU/AK8963.cpp:101-103 | a mode write keeps every other register and CNTL1's upper nibble (the resolution bit); on success the mode field is the code |
| AK8963Driver.ModeWriteAllPass | IMU/AK8963.cpp:92 | a mode write whose two transfers pass succeeds and traces its read and its write of the new byte |
| AK8963Driver.SetModeTxn | IMU/AK8963.cpp:89-93 | `setMode` keeps CNTL1's upper nibble. When its four transfers pass, the mode field is the requested code and the trace is read, power-down write, 100 us delay, read, mode write |
| AK8963Driver.SetModeKeepsOthers | IMU/AK8963.cpp:89-93 | `setMode` changes no register but CNTL1, and keeps CNTL1's resolution bit |
| AK8963Driver.SetModeAllPass | IMU/AK8963.cpp:89-93 | with four passing transfers, the power-down comes first, then the delay, then the mode write, which succeeds |
| AK8963Driver.SetModeIgnoresPowerDownFailure | IMU/AK8963.cpp:89-93 | a failed power-down does not stop `setMode`: the delay and the mode write still happen |
| AK8963Driver.GetModeTxn | IMU/AK8963.cpp:95-99 | `getMode` changes no register and yields the mode field, or POWER_DOWN (0) when the read fails |
| AK8963Driver.SetModeThenGetMode | IMU/AK8963.cpp:89-99 | after a fully successful `setMode`, `getMode` returns the requested code's low nibble, which for every mode code is the code itself |
| AK8963Driver.SensitivityFor | IMU/AK8963.cpp:110-117 | the sensitivity `resolution` caches: 0.6 for 14 bit, 0.15 for 16 bit, otherwise the cached value; its agreement with the register is stated by `ResolutionReadBack`, and its independence from the write by `ResolutionCacheNotTiedToWrite` |
| AK8963Driver.ResolutionOf | IMU/AK8963.cpp:119-123 | the code is BITS_14 or BITS_16 and inverts the bit `resolution` writes: it is 16 bit exactly when the bit is set |
| AK8963Driver.ResolutionReadBack | IMU/AK8963.cpp:110-123 | after a successful `resolution`, `getResolution` reads back the requested resolution, and its sensitivity is the cached one |
| AK8963Driver.ResolutionCacheNotTiedToWrite | IMU/AK8963.cpp:110-117 | when the write of the 16-bit resolution fails on a 14-bit register, the register still reads back as 14 bit, and the sensitivity cached for 16 bit differs from the one that read-back calls for, whatever was cached before |
| AK8963Driver.ReadyTestAsParsed | IMU/AK8963.cpp:227 | the data-ready test as C parses it; `ReadyTestIsDataReadyBit` and `ReadyTestFailsElsewhere` state what it means |
| AK8963Driver.ReadyTestIsDataReadyBit | IMU/AK8963.cpp:227 | the ready test, parsed as `st1 & ((1 << DRDY) == 1)`, is the DRDY bit because DRDY is bit 0 |
| AK8963Driver.ReadyTestFailsElsewhere | IMU/AK8963.cpp:227 | the same expression at any other bit position is always false, even when that bit is set |
| AK8963Driver.DecodeMagFrame | IMU/AK8963.cpp:224-239 | a frame is "not ready" exactly when DRDY is clear, "overflowed" exactly when DRDY and HOFL are set, and a sample exactly when DRDY is set and HOFL clear |
| AK8963Driver.DecodeEncodeMagFrame | IMU/AK8963.cpp:229-231 | a ready frame without overflow, sent low byte first, decodes to the sample it encodes |
| AK8963Driver.EncodeDecodeMagFrame | IMU/AK8963.cpp:229-231 | a decoded sample determines the frame's data bytes |
| AK8963Driver.MagReadTxn | IMU/AK8963.cpp:224-239 | `readRawMag` makes one 8-byte read from ST1, changes no register, and fails exactly when that read fails; otherwise it decodes the burst |
| AK8963Driver.MagReadRegisters | IMU/AK8963.cpp:224-239 | in register terms, `readRawMag` fails when its read fails. Otherwise it reports "not ready" when ST1's DRDY is clear and "overflowed" when ST2's HOFL is set. Otherwise each axis is the signed value of its HxH/HxL registers |
| AK8963Driver.DataReadyTxn | IMU/AK8963.cpp:249-257 | `isDataMagReady` holds exactly when the ST1 read succeeds and DRDY is set |
| AK8963Driver.DeviceIdTxn | IMU/AK8963.cpp:57-61 | `getDeviceId` returns WIA when the read succeeds and 0 otherwise |
| AK8963Driver.CheckConnectionMeans | IMU/AK8963.cpp:63-65 | `checkConnection` holds exactly when WIA was read and equals 0x48 |
| AK8963Driver.SensitivityAdjustment | IMU/AK8963.cpp:266-268 | `(asa - 128) / 256 + 1` lies in [0.5, 1.49609375] |
| AK8963Driver.AdjustmentInverse | IMU/AK8963.cpp:266-268 | the fuse-ROM byte is recovered from its adjustment factor |
| AK8963Driver.SensAdjTxn | IMU/AK8963.cpp:259-270 | the three factors are always in range. When the first five transfers pass, they are the adjustments of ASAX, ASAY and ASAZ |
| AK8963Driver.SensAdjKeeps | IMU/AK8963.cpp:259-270 | the fuse-ROM sequence changes no register but CNTL1, and keeps CNTL1's upper nibble |
| AK8963Driver.FuseReadPasses | IMU/AK8963.cpp:259-265 | with five passing transfers, the fuse-ROM read is reached with ASAX..ASAZ unchanged, and it succeeds |
| AK8963Driver.InitializeTxn | IMU/AK8963.cpp:50-55 | `initialize` returns the soft reset's result only; after a successful reset SRST is set |
| AK8963Driver.AK8963.constructor | IMUalternative/AK8963.hpp:362-369 | no bus; sensitivity 0.6; no overflow; adjustments 0 |
| AK8963Driver.AK8963.AttachInterface | IMU/AK8963.cpp:42-44 | stores the bus |
| AK8963Driver.AK8963.ReadBytes | IMU/AK8963.cpp:323-327 | fails without a bus; otherwise it is the bus read |
| AK8963Driver.AK8963.WriteBytes | IMU/AK8963.cpp:329-333 | fails without a bus; otherwise it is the bus write |
| AK8963Driver.AK8963.ReadBit | IMU/AK8963.cpp:272-280 | is `ReadBitTxn` on the attached bus |
| AK8963Driver.AK8963.WriteBit | IMU/AK8963.cpp:281-292 | is `WriteBitTxn` on the attached bus |
| AK8963Driver.AK8963.ReadBits | IMU/AK8963.cpp:294-307 | is `ReadBitsTxn` on the attached bus |
| AK8963Driver.AK8963.WriteBits | IMU/AK8963.cpp:308-321 | is `WriteBitsTxn` on the attached bus |
| AK8963Driver.AK8963.GetDeviceId | IMU/AK8963.cpp:57-61 | is `DeviceIdTxn`; 0 without a bus |
| AK8963Driver.AK8963.CheckConnection | IMU/AK8963.cpp:63-65 | true exactly when the ID read is 0x48 |
| AK8963Driver.AK8963.GetDataReady | IMU/AK8963.cpp:73-77 | the ST1 DRDY bit as `_readBit` yields it |
| AK8963Driver.AK8963.GetDataOverrun | IMU/AK8963.cpp:79-83 | the ST1 DOR bit as `_readBit` yields it |
| AK8963Driver.AK8963.GetOverflow | IMU/AK8963.cpp:85-87 | returns the overflow flag |
| AK8963Driver.AK8963.PowerDown | IMU/AK8963.cpp:101-103 | writes POWER_DOWN into the mode field |
| AK8963Driver.AK8963.StartMeasurement | IMU/AK8963.cpp:105-108 | writes SINGLE_MEASUREMENT into the mode field |
| AK8963Driver.AK8963.SetMode | IMU/AK8963.cpp:89-93 | is `SetModeTxn` on the attached bus |
| AK8963Driver.AK8963.GetMode | IMU/AK8963.cpp:95-99 | is `GetModeTxn`; POWER_DOWN without a bus |
| AK8963Driver.AK8963.Resolution | IMU/AK8963.cpp:110-117 | writes the resolution bit, and caches 0.6 for 14 bit or 0.15 for 16 bit whatever the write's outcome |
| AK8963Driver.AK8963.GetResolution | IMU/AK8963.cpp:119-123 | BITS_16 when the bit reads as set, BITS_14 otherwise |
| AK8963Driver.AK8963.SoftReset | IMU/AK8963.cpp:125-127 | sets CNTL2's SRST bit by `_writeBit` and returns its result |
| AK8963Driver.AK8963.ReadRawMag | IMU/AK8963.cpp:224-239 | it returns true exactly for a sample. A sample is stored in `mag` and clears the overflow flag. An overflow sets the flag. Otherwise `mag` is untouched, and the flag is kept on a failed read or when data is not ready |
| AK8963Driver.AK8963.GetDataMagRaw | IMU/AK8963.cpp:245-247 | is `readRawMag` into the three slots |
| AK8963Driver.AK8963.IsDataMagReady | IMU/AK8963.cpp:249-257 | is `DataReadyTxn`; false without a bus |
| AK8963Driver.AK8963.InitializeSensitivityAdjustment | IMU/AK8963.cpp:259-270 | stores the three factors of `SensAdjTxn`, each in [0.5, 1.49609375] |
| AK8963Driver.AK8963.Initialize | IMU/AK8963.cpp:50-55 | is `InitializeTxn`: soft reset, then the fuse-ROM sequence; false without a bus |
| MPU9250Driver.GyroResolution | IMU/MPU9250.cpp:199-222 | positive for the four gyroscope codes, 0 for any other |
| MPU9250Driver.AccelResolution | IMU/MPU9250.cpp:224-248 | positive for the four accelerometer codes, 0 for any other |
| MPU9250Driver.GyroFullScale | IMU/MPU9250.cpp:199-222 | the full scale in degrees per second is positive exactly for the four gyroscope codes |
| MPU9250Driver.AccelFullScale | IMU/MPU9250.cpp:224-248 | the full scale in g is positive exactly for the four accelerometer codes |
| MPU9250Driver.ResolutionTable | IMU/MPU9250.cpp:199-248 | the table starts at 250/32768 dps and 2/32768 g, and each next code doubles the resolution |
| MPU9250Driver.FullScaleReading | IMU/MPU9250.cpp:199-248 | 32768 counts are the full scale of the range |
| MPU9250Driver.RangeByte | IMU/MPU9250.cpp:102 | the byte `data \| range << 3` a setter writes back; what it keeps is stated by `RangeByteKeepsBits`, `RangeSetterCannotLower` and `RangeFromClearField` |
| MPU9250Driver.RangeByteKeepsBits | IMU/MPU9250.cpp:102 | `data \| range << 3` never clears a bit. It keeps bits 2:0, and for a valid code keeps bits 7:5 and ORs the code into the range field |
| MPU9250Driver.RangeSetterCannotLower | IMU/MPU9250.cpp:99-103 | once the range field is 3, every setter call leaves it 3 |
| MPU9250Driver.RangeFromClearField | IMU/MPU9250.cpp:99-103 | from a clear range field, the new field is exactly the code |
| MPU9250Driver.RangeTxn | IMU/MPU9250.cpp:99-110 | a range setter succeeds exactly when its read and write pass. A failure changes no register. A failed read issues no write. On success the register holds the old value ORed with the code |
| MPU9250Driver.RangeTxnKeepsOthers | IMU/MPU9250.cpp:99-110 | a range setter changes no register but its own |
| MPU9250Driver.GyroRangeStep | IMU/MPU9250.cpp:99-110 | `_grange` and `_gRes` change to the code and its resolution exactly when both transfers succeed, and are kept otherwise |
| MPU9250Driver.AccelRangeStep | IMU/MPU9250.cpp:116-127 | `_arange` and `_aRes` change to the code and its resolution exactly when both transfers succeed, and are kept otherwise |
| MPU9250Driver.CachedRangeCanDisagree | IMU/MPU9250.cpp:99-110 | after 2000 dps, setting 250 dps succeeds and caches 250 dps while the register keeps 2000 dps |
| MPU9250Driver.WriteRegTxn | IMU/MPU9250.cpp:58-62 | one configuration write and then the delay, which runs whatever the outcome; on success the register holds the byte; a failure changes nothing |
| MPU9250Driver.WriteRegKeepsOthers | IMU/MPU9250.cpp:262-264 | a one-byte register write changes no register but its own |
| MPU9250Driver.ResetTxn | IMU/MPU9250.cpp:133-138 | `reset` writes H_RESET to PWR_MGMT_1, then delays 100 us, and returns the write's result |
| MPU9250Driver.StepTxn | IMU/MPU9250.cpp:52-92 | one step of `initialize`: a failed step keeps the cached ranges, and a register write never changes them |
| MPU9250Driver.RunSteps | IMU/MPU9250.cpp:52-92 | running the steps in order, stopping after the first failure: only a non-empty run can fail; `RunStepsStopsAtFirstFailure` and `RunStepsOkMeansAllRan` state the stopping rule |
| MPU9250Driver.InitPlan | IMU/MPU9250.cpp:52-92 | the seven steps of `initialize`; `InitializeRunsPlan` ties `initialize` to them |
| MPU9250Driver.DefaultConfigTxn | IMU/MPU9250.cpp:58-76 | the clock, filter and bypass writes succeed exactly when their four transfers pass |
| MPU9250Driver.InitializeTxn | IMU/MPU9250.cpp:52-92 | `initialize` never changes the cached range codes |
| MPU9250Driver.RunStepsExtendsTrace | IMU/MPU9250.cpp:52-92 | running initialisation steps only appends to the trace |
| MPU9250Driver.RunStepsStopsAtFirstFailure | IMU/MPU9250.cpp:52-92 | when step `k` is the first to fail, the run's result is that step's result, and no later step reaches the bus |
| MPU9250Driver.RunStepsOkMeansAllRan | IMU/MPU9250.cpp:52-92 | a successful run succeeded at every step, so its last step ran after all the others |
| MPU9250Driver.InitializeRunsPlan | IMU/MPU9250.cpp:52-92 | `initialize` is the run of its seven steps in order: reset, clock, two filter bytes, bypass, gyroscope range, accelerometer range |
| MPU9250Driver.DefaultConfigAllPass | IMU/MPU9250.cpp:58-76 | with four passing writes, PWR_MGMT_1, ACCEL_CONFIG2, GYRO_CONFIG and INT_PIN_CFG hold their bytes and ACCEL_CONFIG is untouched |
| MPU9250Driver.RangeStepsAllPass | IMU/MPU9250.cpp:78-87 | with four passing transfers, both setters succeed and cache both ranges. Each ORs its code into its own register, and no other register changes |
| MPU9250Driver.InitializeAllPass | IMU/MPU9250.cpp:52-92 | when every transfer passes, `initialize` returns true and leaves the configuration bytes in place. GYRO_CONFIG holds the filter byte with the cached range and ACCEL_CONFIG has the range ORed in. The resolutions are cached |
| MPU9250Driver.DecodeTriple | IMU/MPU9250.cpp:140-149 | each axis is negative exactly when its high (first) byte has the top bit set |
| MPU9250Driver.DecodeEncodeTriple | IMU/MPU9250.cpp:143-145 | decoding the six bytes of a sample gives the sample back |
| MPU9250Driver.EncodeDecodeTriple | IMU/MPU9250.cpp:143-145 | re-encoding a decoded burst gives the same six bytes |
| MPU9250Driver.TripleTxn | IMU/MPU9250.cpp:140-149 | a sample read is one 6-byte read that changes no register. It succeeds exactly when the read does, and then it is the decoding of the burst |
| MPU9250Driver.GyroSampleRegisters | IMU/MPU9250.cpp:140-148 | a passing gyroscope read gives each axis as the signed value of its GYRO_*OUT_H/GYRO_*OUT_L registers |
| MPU9250Driver.AccelSampleRegisters | IMU/MPU9250.cpp:170-178 | a passing accelerometer read gives each axis as the signed value of its ACCEL_*OUT_H/ACCEL_*OUT_L registers |
| MPU9250Driver.WhoAmITxn | IMU/MPU9250.cpp:94-97 | `getWhoAmI` returns WHO_AM_I on a successful read, and otherwise the previously stored `_device` |
| MPU9250Driver.MPU9250.constructor | IMUCalibration/MPU9250.hpp:353-360 | 250 dps and 2 g with their resolutions, `_device` 0, no bus |
| MPU9250Driver.MPU9250.AttachInterface | IMU/MPU9250.cpp:44-46 | stores the bus |
| MPU9250Driver.MPU9250.ReadBytes | IMU/MPU9250.cpp:270-274 | fails without a bus; otherwise it is the bus read |
| MPU9250Driver.MPU9250.WriteBytes | IMU/MPU9250.cpp:276-280 | fails without a bus; otherwise it is the bus write |
| MPU9250Driver.MPU9250.WriteByte | IMU/MPU9250.cpp:262-264 | a one-byte `_writeBytes` |
| MPU9250Driver.MPU9250.GetBaseGyroRange | IMU/MPU9250.cpp:199-222 | returns the code's resolution, and overwrites `_gRes` only for a code in the table |
| MPU9250Driver.MPU9250.GetBaseAccelRange | IMU/MPU9250.cpp:224-248 | returns the code's resolution, and overwrites `_aRes` only for a code in the table |
| MPU9250Driver.MPU9250.SetGyroRange | IMU/MPU9250.cpp:99-110 | is `GyroRangeStep` on the attached bus and the cached fields |
| MPU9250Driver.MPU9250.SetAccelRange | IMU/MPU9250.cpp:116-127 | is `AccelRangeStep` on the attached bus and the cached fields |
| MPU9250Driver.MPU9250.GetGyroRange | IMU/MPU9250.cpp:112-114 | returns the cached gyroscope range |
| MPU9250Driver.MPU9250.GetAccelRange | IMU/MPU9250.cpp:129-131 | returns the cached accelerometer range |
| MPU9250Driver.MPU9250.Reset | IMU/MPU9250.cpp:133-138 | is `ResetTxn` on the attached bus |
| MPU9250Driver.MPU9250.Initialize | IMU/MPU9250.cpp:52-92 | is `InitializeTxn` on the attached bus and the cached fields; false without a bus |
| MPU9250Driver.MPU9250.WriteDefaultConfig | IMU/MPU9250.cpp:58-76 | is `DefaultConfigTxn` on the attached bus |
| MPU9250Driver.MPU9250.GetWhoAmI | IMU/MPU9250.cpp:94-97 | is `WhoAmITxn`, and stores the result in `_device` |
| MPU9250Driver.MPU9250.ReadRawTriple | IMU/MPU9250.cpp:140-149 | on success the decoded sample goes to the three slots; on failure they are untouched |
| MPU9250Driver.MPU9250.ReadRawGyro | IMU/MPU9250.cpp:140-153 | reads the sample from GYRO_XOUT_H |
| MPU9250Driver.MPU9250.ReadRawAccel | IMU/MPU9250.cpp:170-183 | reads the sample from ACCEL_XOUT_H |
| MPU9250Driver.MPU9250.GetDataGyroRaw | IMU/MPU9250.cpp:250-252 | is `readRawGyro` into the three slots |
| MPU9250Driver.MPU9250.GetDataAccRaw | IMU/MPU9250.cpp:254-256 | is `readRawAccel` into the three slots |
| MPU9250Driver.MPU9250.IsDataGyroReady | IMU/MPU9250.cpp:258 | always true |
| MPU9250Driver.MPU9250.IsDataAccReady | IMU/MPU9250.cpp:259 | always true |
| I2CTransport.OpenTxn | IMU/I2C.cpp:45-57 | with a descriptor held, nothing happens. Otherwise one `open` is made, and a failed open leaves no descriptor. The cached slave is kept |
| I2CTransport.SelectTxn | IMU/I2C.cpp:74-88 | a cache hit makes no kernel call. The address is cached only on success, and a failure keeps the old one. On a miss with an open bus, exactly one `ioctl` is made |
| I2CTransport.SelectExtendsLog | IMU/I2C.cpp:74-88 | a selection only appends to the kernel log |
| I2CTransport.FirstSelectionMisses | IMU/I2C.cpp:28-32 | the constructor's cached 0xFF matches no 7-bit address, so the first selection opens the bus and issues the `ioctl` |
| I2CTransport.SelectAfterCloseSkipsOpen | IMU/I2C.cpp:62-68 | after `i2c_close` caches slave 0, selecting address 0 is a cache hit with no descriptor |
| I2CTransport.WriteComTxn | IMU/I2C.cpp:94-145 | after a successful selection, `writeCOM` makes one `write` of `[reg] + payload`. An empty payload succeeds only when 1 byte was written; otherwise it succeeds when the count reaches `size`. A failed selection writes nothing |
| I2CTransport.SizeCheckNeverFires | IMU/I2C.cpp:105-108 | every `uint8_t` size is at most 511, so the length check is unreachable and the frame always fits the transmit buffer; `I2C.WriteCom` relies on this in place of the check |
| I2CTransport.ShortWriteReported | IMU/I2C.cpp:136-141 | a write that sends all but the last byte of the frame is reported as a success |
| I2CTransport.SysOpen | IMU/I2C.cpp:49 | `::open`: the next scripted descriptor (DEFAULT_FD once the script is exhausted), logged |
| I2CTransport.SysIoctl | IMU/I2C.cpp:81 | `ioctl(I2C_SLAVE)`: the next scripted result (0 once exhausted), logged |
| I2CTransport.SysWrite | IMU/I2C.cpp:116-131 | `::write`: the next scripted count (the whole frame once exhausted), logged with the bytes |
| I2CTransport.ReadCount | IMU/I2C.cpp:161-165 | what `::read` returns: on an error nothing is stored, and otherwise the count is the number of bytes stored and is at most the request |
| I2CTransport.ReadLoop | IMU/I2C.cpp:160-174 | the read loop: each turn asks for the missing bytes, stops on an error or once all arrived, and sleeps before the next try. Its properties are `ReadLoopGotBound`, `ReadLoopBounded`, `ReadLoopStopsOnError` and `ChunkedReadDelivers` |
| I2CTransport.ReadLoopFrom | IMU/I2C.cpp:160-174 | the same loop resumed after some turns; `I2C.ReadChunks` is proved against it, and it equals `ReadLoop` from the start |
| I2CTransport.ReadLoopGotBound | IMU/I2C.cpp:160-174 | the read loop never places more bytes than were asked for |
| I2CTransport.ReadLoopBounded | IMU/I2C.cpp:160-174 | the read loop makes at most five `read` calls |
| I2CTransport.ReadLoopStopsOnError | IMU/I2C.cpp:161-165 | a failed `read` ends the loop at once, with nothing placed |
| I2CTransport.ChunkedReadDelivers | IMU/I2C.cpp:160-174 | however the device splits its bytes over at most five reads, they are all placed contiguously and in order |
| I2CTransport.ReadComTxn | IMU/I2C.cpp:151-180 | if the addressing write fails, `readCOM` returns false with no `read`. It returns true exactly when that write succeeded and all `size` bytes arrived. With `size == 0` it makes no read |
| I2CTransport.ReadPrimedTxn | IMU/I2C.cpp:157-179 | after the addressing write, the result is true exactly when all `size` bytes arrived; the descriptor and the cached slave are kept |
| I2CTransport.I2C.constructor | IMU/I2C.cpp:28-32 | no descriptor, cached slave 0xFF |
| I2CTransport.I2C.Open | IMU/I2C.cpp:45-57 | is `OpenTxn` on the transport's state |
| I2CTransport.I2C.Close | IMU/I2C.cpp:62-68 | with a descriptor, closes it and caches descriptor 0 and slave 0; otherwise nothing happens |
| I2CTransport.I2C.SelectSlave | IMU/I2C.cpp:74-88 | is `SelectTxn` on the transport's state |
| I2CTransport.I2C.WriteCom | IMU/I2C.cpp:94-145 | is `WriteComTxn` with the first `size` bytes of `data` |
| I2CTransport.I2C.Frame | IMU/I2C.cpp:125-129 | the transmit buffer holds the register byte followed by the first `size` payload bytes |
| I2CTransport.I2C.ReadCom | IMU/I2C.cpp:151-180 | is `ReadComTxn`. The bytes that arrived fill `data` from index 0, and the rest of `data` is untouched |
| I2CTransport.I2C.ReadPrimed | IMU/I2C.cpp:157-179 | is `ReadPrimedTxn`. The bytes that arrived fill `data` from index 0, and the rest is untouched |
| I2CTransport.I2C.ReadChunks | IMU/I2C.cpp:157-174 | the loop computes the read loop's result. Its bytes are `data[..total]`, and `data[total..]` is untouched |
| I2CTransport.I2C.ReadTurn | IMU/I2C.cpp:161-173 | one turn of the loop: a read of the missing bytes, then a stop on an error or when all bytes arrived, otherwise a sleep and the next try |
| I2CTransport.I2C.ReadInto | IMU/I2C.cpp:161 | `::read` stores its bytes at `data + total` and nothing elsewhere |
| ImuAggregator.ImuVectorSlots | IMUCalibration/ImuRaw.cpp:25-27 | slots 0-2 come from the accelerometer, 3-5 from the gyroscope and 6-8 from the magnetometer |
| ImuAggregator.StaleSlotsOnFailure | IMUCalibration/ImuRaw.cpp:22-28 | a sensor read that fails without storing leaves its slots holding the internal buffer's previous contents |
| ImuAggregator.ImuRaw.constructor | IMUalternative/ImuRaw.hpp:28-31 | no sensor is attached, and the three internal buffers hold arbitrary values, passed in as `junk`, because the header gives them no initialiser |
| ImuAggregator.ImuRaw.AttachInterface | IMUCalibration/ImuRaw.cpp:12-18 | stores all three sensors when none is null; otherwise it returns false and keeps the earlier attachments |
| ImuAggregator.ImuRaw.GetDataImuRaw | IMUCalibration/ImuRaw.cpp:20-29 | false, changing nothing, when a sensor is unattached. Otherwise true whatever the individual verdicts, each internal buffer updated by its sensor's reading, and `data` the three buffers in order |
| ImuAggregator.ImuRaw.CopyInto | IMUCalibration/ImuRaw.cpp:25-27 | one copy loop: three slots from `at` take the buffer, and every other slot is untouched |
| ImuAggregator.ImuRaw.GetDataAccRaw | IMUCalibration/ImuRaw.cpp:31-34 | false when unattached; otherwise the accelerometer's own verdict and values |
| ImuAggregator.ImuRaw.GetDataGyroRaw | IMUCalibration/ImuRaw.cpp:36-39 | false when unattached; otherwise the gyroscope's own verdict and values |
| ImuAggregator.ImuRaw.GetDataMagRaw | IMUCalibration/ImuRaw.cpp:41-44 | false when unattached; otherwise the magnetometer's own verdict and values |
| ImuAggregator.ImuRaw.IsDataReady | IMUCalibration/ImuRaw.cpp:46-48 | true exactly when some attached sensor is ready. The sensors are asked in the order accelerometer, gyroscope, magnetometer, stopping at the first that is ready |
| ImuAggregator.ImuRaw.IsDataAccReady | IMUCalibration/ImuRaw.cpp:50-53 | false when unattached; otherwise the accelerometer's answer |
| ImuAggregator.ImuRaw.IsDataGyroReady | IMUCalibration/ImuRaw.cpp:55-58 | false when unattached; otherwise the gyroscope's answer |
| ImuAggregator.ImuRaw.IsDataMagReady | IMUCalibration/ImuRaw.cpp:60-63 | false when unattached; otherwise the magnetometer's answer |
| TimeUtils.CDiv | IMUalternative/includes/timeUtils.h:12 | C's `/` truncates toward zero |
| TimeUtils.CRem | IMUalternative/includes/timeUtils.h:29 | C's `%` takes the sign of the dividend, and `a == (a / b) * b + a % b` |
| TimeUtils.ToMicroseconds | IMUalternative/includes/timeUtils.h:11-13 | for a normalised `timespec` the microseconds lie within its second; `ToMicrosecondsIsFloor` states the exact value |
| TimeUtils.ToMicrosecondsIsFloor | IMUalternative/includes/timeUtils.h:11-13 | for a normalised `timespec`, `toMicroseconds` is the instant in whole microseconds, rounded down |
| TimeUtils.Advance | IMUalternative/includes/timeUtils.h:16-21 | the deadline moves by exactly `delay * 1000` ns and carries at most one second |
| TimeUtils.AdvanceNormalised | IMUalternative/includes/timeUtils.h:17-21 | from a normalised deadline with `0 <= delay < 1e6`, the result is normalised and `delay` microseconds later |
| TimeUtils.AdvanceTimesDriftFree | IMUalternative/includes/timeUtils.h:15-23 | after `k` calls with the same delay the deadline is exactly `k * delay` microseconds after the start, and normalised |
| TimeUtils.Lapse | IMUalternative/includes/timeUtils.h:28-29 | the nanoseconds are the remainder of the delay in microseconds, times 1000 |
| TimeUtils.LapseRoundTrip | IMUalternative/includes/timeUtils.h:25-31 | the lapse converts back to the delay for every delay. It is normalised exactly when the delay is non-negative or a whole number of seconds |
| TimeUtils.SleepUntil | IMUalternative/includes/timeUtils.h:15-23 | the caller's `timespec` is updated in place to `Advance` of its old value |

## Left out

- **The interfaces.** The `ICom`, `IAcc`, `IGyro` and `IMag` interfaces are modelled as classes rather than as abstract interfaces:
  - `RegisterBus.Com` is the bus a driver sees.
  - `ImuAggregator.Sensor` is a scripted sensor behind the aggregator's capabilities.
  - The concrete drivers are therefore not plugged into the aggregator; each side is proved on its own.
- **The two bus layers are separate.** The drivers are proved against the abstract register bus, not against the `I2C` class. The I2C transport is proved on its own, against a scripted kernel.
- **Failed transfers.** A failed bus write changes no register. A failed multi-byte bus read leaves junk chosen by the oracle in the caller's buffer; the sample reads discard it, but the fuse-ROM read in the AK8963 `initialize` (IMU/AK8963.cpp:265) does not check its result and turns those bytes into adjustment factors. A failed one-byte read stores nothing, so `getDeviceId` and `getWhoAmI` return the value their variable started with (0, or the cached `_device`) as `DeviceIdTxn` and `WhoAmITxn` state. What real hardware does on a failed transfer is not known to the driver.
- **Reset does not clear registers.** `H_RESET` and `SRST` are modelled as plain register writes; the chips' resetting of their other registers is not modelled.
- **Timing.** The delay routine attached with `attachDelay` is a recorded event, not a pause; `attachDelay` itself stores a function pointer and is not modelled. The AK8963 driver calls `_delay(100)` without checking it (IMU/AK8963.cpp:91, :261), and the pointer is null until `attachDelay` is called (IMUalternative/AK8963.hpp:432). The model assumes a delay routine is attached; calling `setMode` or `initialize` without one is not modelled. `delay()` in the time helpers is a bare `usleep`.
- **Float paths not modelled:** `readMag`, `readGyro`, `readAccel` and `to_ut`. The scale factors and the fuse-ROM adjustment are exact reals, not IEEE single floats.
- **`selfTest` is not modelled:** it is a busy-wait on `readMag` that need not terminate, followed by float threshold checks.
- **Other AK8963 members not modelled:**
  - `disableI2c`;
  - `information`;
  - the `areg` helper field.
- **MPU9250 `attachDelay`, `_readByte` and the `reg` helper field** are subsumed by the modelled calls.
- **The kernel.** `open`, `ioctl`, `write`, `read`, `usleep` and `close` are answered by per-call scripts.
  - An exhausted script answers with full success: `open` gives descriptor 3, `ioctl` gives 0, and `write` reports the whole count. An exhausted `read` script returns an error; the failure happens on the read itself.
  - The bus number is not turned into a device path.
  - `perror`/`printf` diagnostics are not modelled.
- **The `I2C` destructor** is `i2c_close`, and is not modelled separately.
- **`readCOM`'s loop** is split into the static methods `ReadChunks` and `ReadTurn`. The C `break` becomes a stop flag.
- **`ImuRaw`'s internal buffers** `accdata`, `gyrdata` and `magdata` start from arbitrary contents passed to the constructor. They are declared without initialisers (IMUalternative/ImuRaw.hpp:28), so a default-initialised `ImuRaw`, which is how every caller makes one, starts with indeterminate contents. The identifier fields of the `IImuRaw` interface are not modelled.
- **Sensor scripts.** An exhausted sensor script fails without storing anything, and says "not ready".
- **Clock calls:** `clock_nanosleep`, `clock_gettime` and `getCurrentMicroseconds`. The last applies the same formula as `toMicroseconds` to a clock reading.
- **TimeUtils.Advance: requires `delay * 1000` to fit a C `int`.** In the source that product is computed in `int`, so a larger delay overflows (undefined behaviour).
- **TimeUtils.ToMicroseconds: does not model 64-bit `long` overflow**, which needs a deadline beyond about 292 000 years.
- **MPU9250Driver.InitializeTxn: states only that the cached range codes are kept.** What it writes is stated by `InitializeAllPass`, and its stop-at-first-failure order by `InitializeRunsPlan` with `RunStepsStopsAtFirstFailure`.
- **MPU9250Driver.MPU9250.WriteDefaultConfig** is a method of the model only. It groups steps 2 to 5 of `initialize`, which the source writes inline.
