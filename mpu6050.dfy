/** The MPU-6050 driver: power-up configuration, the presence check and the
    raw 6-axis read, each a sequence of calls on the two-wire bus.

    The register map and the enumeration codes come from the driver's header,
    which is not part of this model: they are declared here without values, so
    everything below holds whatever values the header gives them.
 */
module Mpu6050 {

  import opened Twi
  import opened MotionSample

  /** Bus address of the device. */
  const DefaultAddress: nat

  /** PWR_MGMT_1: clock-select field and sleep bit. */
  const RegPwrMgmt1: nat
  const Pwr1ClkSelBit: nat
  const Pwr1ClkSelLength: nat
  const Pwr1SleepBit: nat

  /** GYRO_CONFIG: full-scale-range field FS_SEL. */
  const RegGyroConfig: nat
  const GyroFsSelBit: nat
  const GyroFsSelLength: nat

  /** ACCEL_CONFIG: full-scale-range field AFS_SEL. */
  const RegAccelConfig: nat
  const AccelAfsSelBit: nat
  const AccelAfsSelLength: nat

  /** WHO_AM_I: the identity field. */
  const RegWhoAmI: nat
  const WhoAmIBit: nat
  const WhoAmILength: nat

  /** First register of the 14-register motion block (ACCEL_XOUT_H). */
  const RegAccelXoutH: nat

  /** Clock source "PLL with the X gyro as reference". */
  const ClockPllXGyro: byte
  /** Gyro range +/- 250 deg/s. */
  const GyroFs250: byte
  /** Accel range +/- 2 g. */
  const AccelFs2: byte

  /** What WHO_AM_I holds on an MPU-6050: binary 110100. */
  const DeviceId: byte := 0x34

  /** Set the clock-select field of PWR_MGMT_1. */
  method SetClockSource(bus: Bus, source: byte)
    modifies bus`trace
    ensures bus.trace == old(bus.trace) + [WriteBits(DefaultAddress, RegPwrMgmt1, Pwr1ClkSelBit, Pwr1ClkSelLength, source)]
  {
    bus.WriteBits(DefaultAddress, RegPwrMgmt1, Pwr1ClkSelBit, Pwr1ClkSelLength, source);
  }

  /** Set the FS_SEL field of GYRO_CONFIG. */
  method SetGyroFullScaleRange(bus: Bus, range: byte)
    modifies bus`trace
    ensures bus.trace == old(bus.trace) + [WriteBits(DefaultAddress, RegGyroConfig, GyroFsSelBit, GyroFsSelLength, range)]
  {
    bus.WriteBits(DefaultAddress, RegGyroConfig, GyroFsSelBit, GyroFsSelLength, range);
  }

  /** Set the AFS_SEL field of ACCEL_CONFIG. */
  method SetAccelFullScaleRange(bus: Bus, range: byte)
    modifies bus`trace
    ensures bus.trace == old(bus.trace) + [WriteBits(DefaultAddress, RegAccelConfig, AccelAfsSelBit, AccelAfsSelLength, range)]
  {
    bus.WriteBits(DefaultAddress, RegAccelConfig, AccelAfsSelBit, AccelAfsSelLength, range);
  }

  /** Set the sleep bit of PWR_MGMT_1. */
  method SetSleepEnabled(bus: Bus, enabled: bool)
    modifies bus`trace
    ensures bus.trace == old(bus.trace) + [WriteBit(DefaultAddress, RegPwrMgmt1, Pwr1SleepBit, enabled)]
  {
    bus.WriteBit(DefaultAddress, RegPwrMgmt1, Pwr1SleepBit, enabled);
  }

  /** The one bus call that reads the identity field. */
  function WhoAmIRead(): (c: Call)
    ensures !c.IsWrite() && c.dev == DefaultAddress && c.reg == RegWhoAmI
  {
    ReadBits(DefaultAddress, RegWhoAmI, WhoAmIBit, WhoAmILength)
  }

  /** Read the identity field. */
  method GetDeviceId(bus: Bus) returns (id: byte)
    modifies bus`trace
    ensures id == bus.bitsAt(DefaultAddress, RegWhoAmI, WhoAmIBit, WhoAmILength)
    ensures bus.trace == old(bus.trace) + [WhoAmIRead()]
  {
    id := bus.ReadBits(DefaultAddress, RegWhoAmI, WhoAmIBit, WhoAmILength);
  }

  /** Presence check: true exactly when the identity field reads 110100; the
      one read of that field is the only bus call it makes. */
  method TestConnection(bus: Bus) returns (ok: bool)
    modifies bus`trace
    ensures ok <==> bus.bitsAt(DefaultAddress, RegWhoAmI, WhoAmIBit, WhoAmILength) == DeviceId
    ensures bus.trace == old(bus.trace) + [WhoAmIRead()]
  {
    var id := GetDeviceId(bus);
    ok := id == DeviceId;
  }

  /** Two presence checks with nothing in between agree, and only read. */
  method TestConnectionTwice(bus: Bus) returns (first: bool, second: bool)
    modifies bus`trace
    ensures first == second
    ensures bus.trace == old(bus.trace) + [WhoAmIRead(), WhoAmIRead()]
  {
    first := TestConnection(bus);
    second := TestConnection(bus);
  }

  /** The calls power-up configuration makes, in order: clock source PLL/X gyro,
      gyro range 250 deg/s, accel range 2 g, sleep off. */
  function InitWrites(): (t: seq<Call>)
    ensures |t| == 4
    ensures forall k :: 0 <= k < |t| ==> t[k].IsWrite() && t[k].dev == DefaultAddress
  {
    [WriteBits(DefaultAddress, RegPwrMgmt1, Pwr1ClkSelBit, Pwr1ClkSelLength, ClockPllXGyro),
     WriteBits(DefaultAddress, RegGyroConfig, GyroFsSelBit, GyroFsSelLength, GyroFs250),
     WriteBits(DefaultAddress, RegAccelConfig, AccelAfsSelBit, AccelAfsSelLength, AccelFs2),
     WriteBit(DefaultAddress, RegPwrMgmt1, Pwr1SleepBit, false)]
  }

  /** Power-up configuration: appends exactly the four writes of InitWrites. */
  method Init(bus: Bus)
    modifies bus`trace
    ensures bus.trace == old(bus.trace) + InitWrites()
  {
    SetClockSource(bus, ClockPllXGyro);
    SetGyroFullScaleRange(bus, GyroFs250);
    SetAccelFullScaleRange(bus, AccelFs2);
    SetSleepEnabled(bus, false);
  }

  /** The three configuration registers are distinct registers. */
  predicate ConfigRegistersDistinct()
  {
    RegPwrMgmt1 != RegGyroConfig && RegPwrMgmt1 != RegAccelConfig && RegGyroConfig != RegAccelConfig
  }

  /** Whatever was written before, after power-up configuration the last values
      written are: clock source PLL/X gyro, gyro range 250 deg/s, accel range 2 g
      and sleep off, so the device is awake at its most sensitive settings. */
  lemma {:induction false} InitConfigures(before: seq<Call>)
    requires ConfigRegistersDistinct()
    ensures LastBits(before + InitWrites(), DefaultAddress, RegPwrMgmt1, Pwr1ClkSelBit, Pwr1ClkSelLength) == Some(ClockPllXGyro)
    ensures LastBits(before + InitWrites(), DefaultAddress, RegGyroConfig, GyroFsSelBit, GyroFsSelLength) == Some(GyroFs250)
    ensures LastBits(before + InitWrites(), DefaultAddress, RegAccelConfig, AccelAfsSelBit, AccelAfsSelLength) == Some(AccelFs2)
    ensures LastBit(before + InitWrites(), DefaultAddress, RegPwrMgmt1, Pwr1SleepBit) == Some(false)
  {
    var w := InitWrites();
    LastBitsAppend(before, w, DefaultAddress, RegPwrMgmt1, Pwr1ClkSelBit, Pwr1ClkSelLength);
    LastBitsAppend(before, w, DefaultAddress, RegGyroConfig, GyroFsSelBit, GyroFsSelLength);
    LastBitsAppend(before, w, DefaultAddress, RegAccelConfig, AccelAfsSelBit, AccelAfsSelLength);
    LastBitAppend(before, w, DefaultAddress, RegPwrMgmt1, Pwr1SleepBit);
    assert w[..4] == w;
    assert w[..3][..2] == w[..2] && w[..2][..1] == w[..1];
    assert LastBits(w[..1], DefaultAddress, RegPwrMgmt1, Pwr1ClkSelBit, Pwr1ClkSelLength) == Some(ClockPllXGyro);
    assert LastBits(w[..2], DefaultAddress, RegGyroConfig, GyroFsSelBit, GyroFsSelLength) == Some(GyroFs250);
    assert LastBits(w[..2], DefaultAddress, RegPwrMgmt1, Pwr1ClkSelBit, Pwr1ClkSelLength) == Some(ClockPllXGyro);
    assert LastBits(w[..3], DefaultAddress, RegPwrMgmt1, Pwr1ClkSelBit, Pwr1ClkSelLength) == Some(ClockPllXGyro);
    assert LastBits(w[..3], DefaultAddress, RegGyroConfig, GyroFsSelBit, GyroFsSelLength) == Some(GyroFs250);
  }

  /** The register block the device presents: ACCEL_XOUT_H and the 13 registers after it. */
  function MotionBlock(byteAt: (nat, nat) -> byte): seq<byte>
  {
    seq(BlockLength, k requires 0 <= k => byteAt(DefaultAddress, RegAccelXoutH + k))
  }

  /** The reads of the motion block: one byte read per register, in increasing register order. */
  function MotionReads(): seq<Call>
  {
    seq(BlockLength, k requires 0 <= k => ReadByte(DefaultAddress, RegAccelXoutH + k))
  }

  /** The motion read makes exactly 14 calls, none of them a write, all to the
      device, on consecutive registers from ACCEL_XOUT_H upwards. */
  lemma MotionReadsInOrder()
    ensures |MotionReads()| == BlockLength
    ensures forall k :: 0 <= k < BlockLength ==>
              MotionReads()[k].ReadByte? && MotionReads()[k].dev == DefaultAddress
    ensures MotionReads()[0].reg == RegAccelXoutH
    ensures forall k :: 0 < k < BlockLength ==> MotionReads()[k].reg == MotionReads()[k - 1].reg + 1
  {
  }

  /** Raw 6-axis read: fills a 14-byte buffer from consecutive registers, then
      assembles the six channels, discarding the temperature bytes. */
  method GetMotionSixDof(bus: Bus) returns (ax: int16, ay: int16, az: int16, gx: int16, gy: int16, gz: int16)
    modifies bus`trace
    ensures Motion(ax, ay, az, gx, gy, gz) == Decode(MotionBlock(bus.byteAt))
    ensures bus.trace == old(bus.trace) + MotionReads()
  {
    var buffer := new byte[BlockLength](_ => 0);
    var i := 0;
    while i < BlockLength
      invariant 0 <= i <= BlockLength
      invariant buffer[..i] == MotionBlock(bus.byteAt)[..i]
      invariant bus.trace == old(bus.trace) + MotionReads()[..i]
    {
      buffer[i] := bus.ReadByte(DefaultAddress, RegAccelXoutH + i);
      i := i + 1;
    }
    assert buffer[..] == MotionBlock(bus.byteAt);
    ax := FromBytes(buffer[0], buffer[1]);
    ay := FromBytes(buffer[2], buffer[3]);
    az := FromBytes(buffer[4], buffer[5]);
    gx := FromBytes(buffer[8], buffer[9]);
    gy := FromBytes(buffer[10], buffer[11]);
    gz := FromBytes(buffer[12], buffer[13]);
  }
}
