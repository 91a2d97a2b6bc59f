# MPU-6050 driver model

A Dafny model of the small AVR driver for the MPU-6050 accelerometer/gyroscope
(`avr/epiphany/hwlib/mpu6050.cpp`). The driver does three things, all by
calling a two-wire (I2C) bus library:

- **power-up configuration** (`mpu_init`): four bit-field writes that select
  the PLL clock with the X gyro as reference, the +/-250 deg/s gyro range, the
  +/-2 g accel range, and clear the sleep bit;
- **presence check** (`mpu_test_connection`): one read of the WHO_AM_I field,
  compared with binary `110100`;
- **raw 6-axis read** (`mpu_get_motion_six_dof`): 14 byte reads of
  consecutive registers from ACCEL_XOUT_H into a buffer, then six signed
  16-bit channels assembled big-endian from bytes 0-5 (accel) and 8-13 (gyro);
  bytes 6-7 (temperature) are read and dropped.

Files:

- `twi.dfy` (module `Twi`): the bus as a recording object. `Bus` appends one
  `Call` record per primitive to its `trace`, and answers reads from two fixed
  functions, `byteAt` and `bitsAt` (a snapshot of the device's registers).
  `LastBits`/`LastBit` read a trace as "the value last written to this field".
- `motion_sample.dfy` (module `MotionSample`): the pure sample decoder
  `Decode`, its big-endian encoder partner `Encode`, and the round trips.
- `mpu6050.dfy` (module `Mpu6050`): the header's register map and codes as
  constants without values, the four setters, `GetDeviceId`, `TestConnection`,
  `Init` and the imperative `GetMotionSixDof`, whose loop fills an
  `array<byte>` as the source's `for` loop does.

The expression `(((int16_t)buffer[k]) << 8) | buffer[k+1]` is computed in
AVR's 16-bit `int`: the compiler yields the bit pattern `hi * 256 + lo`, and
storing it into `int16_t` gives its two's-complement reading. The model defines
each channel as exactly that reading (`FromBytes`), and `ShiftOrMatchesFromBytes`
shows that the shift-and-or on 16-bit words, stored into `int16_t`, is that value.

## Model

| member | source | states |
|---|---|---|
| MotionSample.Word | avr/epiphany/hwlib/mpu6050.cpp:72-77 | the 16-bit word formed from a pair is below 2^16, with the earlier byte as its high byte and the later as its low byte |
| MotionSample.ShiftOrIsSum | avr/epiphany/hwlib/mpu6050.cpp:72 | on 16-bit words, shifting the high byte left by 8 and or-ing in the low byte equals `hi * 256 + lo` |
| MotionSample.Signed | avr/epiphany/hwlib/mpu6050.cpp:72-77 | storing a 16-bit word into `int16_t` yields the value whose 16-bit pattern is that word |
| MotionSample.FromBytes | avr/epiphany/hwlib/mpu6050.cpp:72-77 | a channel is the two's-complement reading of `hi * 256 + lo`; it is negative exactly when the high byte is 0x80 or more |
| MotionSample.Decode | avr/epiphany/hwlib/mpu6050.cpp:72-77 | each channel c of the sample has the 16-bit pattern of its pair: ax, ay, az from bytes (0,1), (2,3), (4,5); gx, gy, gz from (8,9), (10,11), (12,13), the earlier byte high |
| MotionSample.PairRoundTrip | avr/epiphany/hwlib/mpu6050.cpp:72-77 | every int16 value split into high and low byte is assembled back to itself |
| MotionSample.BytesRoundTrip | avr/epiphany/hwlib/mpu6050.cpp:72-77 | every byte pair, assembled and split again, is the same pair |
| MotionSample.DecodeEncode | avr/epiphany/hwlib/mpu6050.cpp:72-77 | encoding any six int16 values big-endian with any temperature bytes and decoding returns the six values |
| MotionSample.EncodeDecode | avr/epiphany/hwlib/mpu6050.cpp:68-77 | every 14-byte block is the encoding of its decoded sample with its own bytes 6 and 7 |
| MotionSample.TemperatureIgnored | avr/epiphany/hwlib/mpu6050.cpp:69-77 | two blocks that differ only at bytes 6 and 7 decode to the same sample |
| MotionSample.NegativePairs | avr/epiphany/hwlib/mpu6050.cpp:72-77 | 0xFF 0xFF decodes to -1, 0x80 0x00 to -32768, 0x7F 0xFF to 32767 |
| MotionSample.DecodeExample | avr/epiphany/hwlib/mpu6050.cpp:72-77 | the block 01 02 03 04 05 06 AA AA 07 08 09 0A 0B 0C decodes to 0x0102, 0x0304, 0x0506, 0x0708, 0x090A, 0x0B0C |
| MotionSample.ShiftOrMatchesFromBytes | avr/epiphany/hwlib/mpu6050.cpp:72-77 | for every byte pair, the high byte shifted left by 8 and or-ed with the low byte on 16-bit words, and stored into `int16_t` equals `FromBytes(hi, lo)` |
| Mpu6050.SetClockSource | avr/epiphany/hwlib/mpu6050.cpp:12-14 | appends one write of the given value to the clock-select field of PWR_MGMT_1 of the default device, and nothing else |
| Mpu6050.SetGyroFullScaleRange | avr/epiphany/hwlib/mpu6050.cpp:16-18 | appends one write of the given value to the FS_SEL field of GYRO_CONFIG, and nothing else |
| Mpu6050.SetAccelFullScaleRange | avr/epiphany/hwlib/mpu6050.cpp:20-22 | appends one write of the given value to the AFS_SEL field of ACCEL_CONFIG, and nothing else |
| Mpu6050.SetSleepEnabled | avr/epiphany/hwlib/mpu6050.cpp:24-26 | appends one write of the given flag to the sleep bit of PWR_MGMT_1, and nothing else |
| Mpu6050.WhoAmIRead | avr/epiphany/hwlib/mpu6050.cpp:28-31 | the identity read is a read, not a write, of the WHO_AM_I register of the default device |
| Mpu6050.GetDeviceId | avr/epiphany/hwlib/mpu6050.cpp:28-31 | returns what the device answers for the WHO_AM_I field, after exactly one bit-field read |
| Mpu6050.TestConnection | avr/epiphany/hwlib/mpu6050.cpp:51-53 | true if and only if the WHO_AM_I field reads 0x34 (binary 110100); the trace grows by that one read and no write |
| Mpu6050.TestConnectionTwice | avr/epiphany/hwlib/mpu6050.cpp:51-53 | two presence checks with no call in between add only two reads; their answers agree because the bus answers reads from a fixed snapshot |
| Mpu6050.InitWrites | avr/epiphany/hwlib/mpu6050.cpp:40-45 | power-up configuration is four calls, each a write to the default device |
| Mpu6050.Init | avr/epiphany/hwlib/mpu6050.cpp:40-45 | appends to the trace exactly the four writes: clock select := PLL/X gyro, FS_SEL := 250 deg/s, AFS_SEL := 2 g, sleep := false, in that order |
| Mpu6050.InitConfigures | avr/epiphany/hwlib/mpu6050.cpp:33-45 | whatever came before, after configuration the last values written are PLL/X gyro clock, 250 deg/s, 2 g and sleep off |
| Mpu6050.MotionReadsInOrder | avr/epiphany/hwlib/mpu6050.cpp:68-70 | the motion read makes exactly 14 byte reads of the default device, on consecutive registers from ACCEL_XOUT_H upwards, and no write |
| Mpu6050.GetMotionSixDof | avr/epiphany/hwlib/mpu6050.cpp:67-78 | fills the buffer with registers ACCEL_XOUT_H + 0 .. + 13 in that order, and returns the six channels of the decoded block |

## Left out

- The bus library (`twi.h`) is not part of this model. Its primitives are recorded as calls in a trace and reads are answered from a fixed snapshot (`byteAt`, `bitsAt`). Writes do not change register contents, so how a bit-field write masks the other bits of its register, or truncates a value wider than the field, is not modelled.
- The numeric values of the header's register addresses, bit positions, field widths, device address and clock/range codes are not part of this model: they are constants without values, and every property holds for any values. The only literal of the driver, the identity 0x34, is kept.
- InitConfigures: stated about the last value the trace writes to each field, not about the device's registers, and it assumes the three configuration registers are distinct (`ConfigRegistersDistinct`), which the header's values, not part of this model, would decide.
- Register addresses are unbounded naturals: `ACCEL_XOUT_H + i` is not truncated to the width of the bus library's register parameter, whose declaration is not part of this model.
- The `volatile` qualifier on the identity read and the `avr/io.h` include have no behaviour to model.
- Bus failures: the driver reports none, so the model has no error outcome.
- Conversion of raw counts to g or deg/s, calibration and filtering do not exist in the driver.
- Concurrency and bus-level atomicity of the 14 separate reads: the driver is single-threaded and blocking.
- The source's out-pointers become the six out-parameters of `GetMotionSixDof`; aliasing between those pointers is not modelled.
