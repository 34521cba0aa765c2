/**
 * The LIS3DSH accelerometer driver (sensing/accel/lis3dsh.c), on its own SPI
 * peripheral. A register read sends the register address with the read bit set and
 * receives in the same transfer; a register write sends the address and then the
 * data. The control registers are changed by reading them, assigning bit-fields and
 * writing them back.
 *
 * As in the memory drivers, each operation is specified by a function on the io state
 * (`...Spec`) and implemented by a method that performs the same steps on the hardware
 * and states that its trace, io state and results are the function's.
 */
module Lis3dsh {
  import opened Platform
  import opened SpiCore
  import opened Frame
  import opened BitFields
  import opened Lis3dshRegs

  // Positions of the axis bytes in the six bytes read from OUT_X_L.
  const ACCEL_X_LSB: nat := 0
  const ACCEL_X_MSB: nat := 1
  const ACCEL_Y_LSB: nat := 2
  const ACCEL_Y_MSB: nat := 3
  const ACCEL_Z_LSB: nat := 4
  const ACCEL_Z_MSB: nat := 5
  const ACCEL_DATA_NUM_BYTES: nat := 6

  /** The content of WHO_AM_I on a LIS3DSH. */
  const LIS3DSH_DEVICE_ID: Byte := 0x3F

  /** How long the driver waits after starting a soft reset, in ms. */
  const LIS3DSH_RESET_TIME_MS: nat := 3000

  const LIS3DSH_ADDRESS_LEN: nat := 1
  const LIS3DSH_REGISTER_LEN: nat := 1

  /** Bit 7 of the address byte selects a read. */
  const LIS3DSH_READ_BITMASK: Byte := 0x80

  /** LIS3DSH_AccelOutputDataRate_t, without its count sentinel. */
  datatype OutputDataRate =
    | RateOff | Rate3_125Hz | Rate6_25Hz | Rate12_5Hz | Rate25Hz
    | Rate50Hz | Rate100Hz | Rate400Hz | Rate800Hz | Rate1600Hz

  /** The enumerator's value. */
  function OdrCode(odr: OutputDataRate): Byte
  {
    match odr
    case RateOff => 0
    case Rate3_125Hz => 1
    case Rate6_25Hz => 2
    case Rate12_5Hz => 3
    case Rate25Hz => 4
    case Rate50Hz => 5
    case Rate100Hz => 6
    case Rate400Hz => 7
    case Rate800Hz => 8
    case Rate1600Hz => 9
  }

  /** LIS3DSH_AntiAliasFilterBW_t, without its count sentinel. */
  datatype AntiAliasBandwidth = Bw800Hz | Bw200Hz | Bw400Hz | Bw50Hz

  /** The enumerator's value. */
  function BwCode(bw: AntiAliasBandwidth): Byte
  {
    match bw
    case Bw800Hz => 0
    case Bw200Hz => 1
    case Bw400Hz => 2
    case Bw50Hz => 3
  }

  /** An int16_t. */
  type Int16 = i: int | -0x8000 <= i < 0x8000

  /** The raw output of the three axes, in counts. */
  datatype Sample = Sample(x: Int16, y: Int16, z: Int16)

  /**
   * One axis: the two bytes combined low byte first, then converted to int16_t the
   * way GCC does, by keeping the low 16 bits as a two's-complement value.
   */
  function Axis(lsb: Byte, msb: Byte): (r: Int16)
    ensures r == msb as int * 0x100 + lsb as int || r == msb as int * 0x100 + lsb as int - 0x1_0000
    ensures r < 0 <==> msb >= 0x80
  {
    // `lsb | msb << 8`: the two operands share no bit, so the OR is their sum
    var u := msb as int * 0x100 + lsb as int;
    if u < 0x8000 then u else u - 0x1_0000
  }

  /** The three axes of a six-byte burst read from OUT_X_L. */
  function RawSample(data: seq<Byte>): Sample
    requires |data| == ACCEL_DATA_NUM_BYTES
  {
    Sample(Axis(data[ACCEL_X_LSB], data[ACCEL_X_MSB]),
           Axis(data[ACCEL_Y_LSB], data[ACCEL_Y_MSB]),
           Axis(data[ACCEL_Z_LSB], data[ACCEL_Z_MSB]))
  }

  // ---------------------------------------------------------------------------
  // What each operation does

  /** The byte accelRead sends: the register address with the read bit set. */
  function ReadCommand(reg: Byte): Byte
  {
    reg | LIS3DSH_READ_BITMASK
  }

  /** The frame of accelRead: the read command and the receive in one transfer. */
  function ReadPlan(reg: Byte, n: nat): seq<Xfer>
  {
    [Command(ReadCommand(reg), n)]
  }

  /** accelRead: the status and what the receive left in the caller's buffer. */
  function AccelReadSpec(env: Env, io: Io, reg: Byte, n: nat): Run<Transferred>
  {
    FrameSpec(env, io, Lis3dshAccel, ReadPlan(reg, n))
  }

  /** The frame of accelWrite: the register address, then the data, each checked. */
  function WritePlan(reg: Byte, data: seq<Byte>): seq<Xfer>
  {
    [Command(reg, 0), Xfer(data, 0, true)]
  }

  /** accelWrite. */
  function AccelWriteSpec(env: Env, io: Io, reg: Byte, data: seq<Byte>): Run<bool>
  {
    var f := FrameSpec(env, io, Lis3dshAccel, WritePlan(reg, data));
    Run(f.events, f.io, f.value.ok)
  }

  /** The four ways the driver edits a control register it has read. */
  datatype Edit =
    | RateAndBdu(odr: OutputDataRate)  // accelConfigure on CTRL_REG4
    | Bandwidth(bw: AntiAliasBandwidth) // accelConfigure on CTRL_REG5
    | Int1DataReady                    // LIS3DSH_EnableInterrupt on CTRL_REG3
    | StartReset                       // LIS3DSH_PerformSoftReset on CTRL_REG3

  /** The register byte after the edit's field assignments, in the order the source makes them. */
  function Edited(e: Edit, b: Byte): Byte
  {
    match e
    case RateAndBdu(odr) => Set(Set(b, ODR, OdrCode(odr)), BDU, 1)
    case Bandwidth(bw) => Set(b, BW, BwCode(bw))
    case Int1DataReady => Set(Set(Set(Set(b, IEL, 1), IEA, 1), DR_EN, 1), INT1_EN, 1)
    case StartReset => Set(b, STRT, 1)
  }

  lemma ReadPlanShape(reg: Byte, n: nat)
    ensures AllChecked(ReadPlan(reg, n)) && TotalRecv(ReadPlan(reg, n)) == n
  {
    assert ReadPlan(reg, n)[1..] == [];
  }

  /** Reading one register and, only if that succeeded, writing it back edited. */
  function UpdateSpec(env: Env, io: Io, reg: Byte, e: Edit): Run<bool>
  {
    var r := AccelReadSpec(env, io, reg, LIS3DSH_REGISTER_LEN);
    ReadPlanShape(reg, LIS3DSH_REGISTER_LEN);
    if !r.value.ok then Run(r.events, r.io, false)
    else
      var w := AccelWriteSpec(env, r.io, reg, [Edited(e, r.value.rx[0])]);
      Run(r.events + w.events, w.io, w.value)
  }

  /** accelConfigure: CTRL_REG4 gets the data rate and BDU, then CTRL_REG5 the bandwidth. */
  function ConfigureSpec(env: Env, io: Io, odr: OutputDataRate, bw: AntiAliasBandwidth): Run<bool>
  {
    var c4 := UpdateSpec(env, io, LIS3DSH_CTRL_REG4_REGISTER_ADDR, RateAndBdu(odr));
    if !c4.value then c4
    else
      var c5 := UpdateSpec(env, c4.io, LIS3DSH_CTRL_REG5_REGISTER_ADDR, Bandwidth(bw));
      Run(c4.events + c5.events, c5.io, c5.value)
  }

  /** LIS3DSH_EnableInterrupt. */
  function EnableInterruptSpec(env: Env, io: Io): Run<bool>
  {
    UpdateSpec(env, io, LIS3DSH_CTRL_REG3_REGISTER_ADDR, Int1DataReady)
  }

  /** LIS3DSH_PerformSoftReset: starting the reset is followed by the reset wait. */
  function SoftResetSpec(env: Env, io: Io): Run<bool>
  {
    var u := UpdateSpec(env, io, LIS3DSH_CTRL_REG3_REGISTER_ADDR, StartReset);
    if !u.value then u
    else Run(u.events + [Delay(LIS3DSH_RESET_TIME_MS)], u.io.(ticks := u.io.ticks + LIS3DSH_RESET_TIME_MS), true)
  }

  /** LIS3DSH_ReadAccelData: the status and the sample the driver computed from the burst read. */
  function ReadAccelDataSpec(env: Env, io: Io): Run<(bool, Sample)>
  {
    var r := AccelReadSpec(env, io, LIS3DSH_OUT_X_L_REGISTER_ADDR, ACCEL_DATA_NUM_BYTES);
    ReadPlanShape(LIS3DSH_OUT_X_L_REGISTER_ADDR, ACCEL_DATA_NUM_BYTES);
    Run(r.events, r.io, if r.value.ok then (true, RawSample(r.value.rx)) else (false, Sample(0, 0, 0)))
  }

  /** LIS3DSH_ReadID. */
  function ReadIdSpec(env: Env, io: Io): Run<Byte>
  {
    var r := AccelReadSpec(env, io, LIS3DSH_WHO_AM_I_REGISTER_ADDR, LIS3DSH_REGISTER_LEN);
    ReadPlanShape(LIS3DSH_WHO_AM_I_REGISTER_ADDR, LIS3DSH_REGISTER_LEN);
    Run(r.events, r.io, if r.value.ok && r.value.rx[0] == LIS3DSH_DEVICE_ID then r.value.rx[0] else 0)
  }

  /** The part of LIS3DSH_Init after a good WHO_AM_I: configure, and only if that succeeded enable the interrupt. */
  function BringUpSpec(env: Env, io: Io): Run<bool>
  {
    var c := ConfigureSpec(env, io, Rate800Hz, Bw200Hz);
    if !c.value then c
    else
      var e := EnableInterruptSpec(env, c.io);
      Run(c.events + e.events, e.io, e.value)
  }

  /**
   * The SPI part of LIS3DSH_Init, from the value `initialized` of the module flag:
   * the status and the new flag.
   */
  function InitSpec(env: Env, io: Io, initialized: bool): Run<(bool, bool)>
  {
    var id := ReadIdSpec(env, io);
    if id.value == 0 then Run(id.events, id.io, (false, initialized))
    else
      var b := BringUpSpec(env, id.io);
      Run(id.events + b.events, b.io, (b.value, true))
  }

  // ---------------------------------------------------------------------------
  // The driver

  /** accelChipSelectHigh. */
  method AccelChipSelectHigh(hw: Hardware)
    modifies hw
    ensures hw.trace == old(hw.trace) + [CsHigh(Lis3dshAccel)] && hw.IoState() == old(hw.IoState())
  {
    hw.ChipSelectHigh(Lis3dshAccel);
  }

  /** accelChipSelectLow. */
  method AccelChipSelectLow(hw: Hardware)
    modifies hw
    ensures hw.trace == old(hw.trace) + [CsLow(Lis3dshAccel)] && hw.IoState() == old(hw.IoState())
  {
    hw.ChipSelectLow(Lis3dshAccel);
  }

  /** accelRead. The received bytes are returned rather than written through a pointer. */
  method AccelRead(hw: Hardware, regToRead: Byte, lengthToReceive: nat) returns (status: bool, dataReceived: seq<Byte>)
    requires lengthToReceive < 0x100
    modifies hw
    ensures var r := AccelReadSpec(hw.env, old(hw.IoState()), regToRead, lengthToReceive);
      hw.trace == old(hw.trace) + r.events && hw.IoState() == r.io &&
      status == r.value.ok && dataReceived == r.value.rx
  {
    var readCommand := regToRead | LIS3DSH_READ_BITMASK;
    ghost var t := TransferSpec(hw.env, hw.IoState(), Lis3dshAccel, [readCommand], lengthToReceive);
    StepsSingle(hw.env, hw.IoState(), Lis3dshAccel, Command(readCommand, lengthToReceive));
    RegroupFrame(hw.trace, Lis3dshAccel, t.events);
    AccelChipSelectLow(hw);
    status, dataReceived := SpiTransfer(hw, Lis3dshAccel, [readCommand], lengthToReceive);
    AccelChipSelectHigh(hw);
  }

  /** accelWrite: the register address, then the data if the address went out. */
  method AccelWrite(hw: Hardware, regToWrite: Byte, dataToWrite: seq<Byte>) returns (status: bool)
    requires |dataToWrite| < 0x100
    modifies hw
    ensures var r := AccelWriteSpec(hw.env, old(hw.IoState()), regToWrite, dataToWrite);
      hw.trace == old(hw.trace) + r.events && hw.IoState() == r.io && status == r.value
  {
    ghost var env := hw.env;
    ghost var io0 := hw.IoState();
    ghost var t0 := hw.trace;
    ghost var s := Steps(env, io0, Lis3dshAccel, WritePlan(regToWrite, dataToWrite));
    var address := Command(regToWrite, 0);
    var data := Xfer(dataToWrite, 0, true);
    assert [] + [address] == [address] && [address] + [data] == WritePlan(regToWrite, dataToWrite);
    StepsExtend(t0 + [CsLow(Lis3dshAccel)], env, io0, Lis3dshAccel, [], address);
    StepsExtend(t0 + [CsLow(Lis3dshAccel)], env, io0, Lis3dshAccel, [address], data);
    AccelChipSelectLow(hw);
    assert hw.trace == t0 + [CsLow(Lis3dshAccel)] + [];
    var done, _ := SpiTransfer(hw, Lis3dshAccel, [regToWrite], 0);
    status := done;
    if status {
      var sent, _ := SpiTransfer(hw, Lis3dshAccel, dataToWrite, 0);
      status := sent;
    }
    AccelChipSelectHigh(hw);
    RegroupFrame(t0, Lis3dshAccel, s.events);
  }

  /**
   * The read-modify-write every control-register operation performs: read the
   * register, stop if that failed, assign the edit's fields and write the byte back.
   */
  method UpdateRegister(hw: Hardware, reg: Byte, e: Edit) returns (status: bool)
    modifies hw
    ensures var r := UpdateSpec(hw.env, old(hw.IoState()), reg, e);
      hw.trace == old(hw.trace) + r.events && hw.IoState() == r.io && status == r.value
  {
    ghost var t0 := hw.trace;
    ghost var r := AccelReadSpec(hw.env, hw.IoState(), reg, LIS3DSH_REGISTER_LEN);
    ReadPlanShape(reg, LIS3DSH_REGISTER_LEN);
    var buffer;
    status, buffer := AccelRead(hw, reg, LIS3DSH_REGISTER_LEN);
    if !status {
      return status;
    }
    ghost var w := AccelWriteSpec(hw.env, r.io, reg, [Edited(e, buffer[0])]);
    Regroup(t0, r.events, w.events);
    var data := buffer[0];
    match e {
      case RateAndBdu(odr) =>
        data := Set(data, ODR, OdrCode(odr));
        data := Set(data, BDU, 1);
      case Bandwidth(bw) =>
        data := Set(data, BW, BwCode(bw));
      case Int1DataReady =>
        data := Set(data, IEL, 1);
        data := Set(data, IEA, 1);
        data := Set(data, DR_EN, 1);
        data := Set(data, INT1_EN, 1);
      case StartReset =>
        data := Set(data, STRT, 1);
    }
    status := AccelWrite(hw, reg, [data]);
  }

  /** accelConfigure. */
  method Configure(hw: Hardware, outputDataRate: OutputDataRate, antiAliasFilterBW: AntiAliasBandwidth) returns (status: bool)
    modifies hw
    ensures var r := ConfigureSpec(hw.env, old(hw.IoState()), outputDataRate, antiAliasFilterBW);
      hw.trace == old(hw.trace) + r.events && hw.IoState() == r.io && status == r.value
  {
    ghost var t0 := hw.trace;
    ghost var c4 := UpdateSpec(hw.env, hw.IoState(), LIS3DSH_CTRL_REG4_REGISTER_ADDR, RateAndBdu(outputDataRate));
    status := UpdateRegister(hw, LIS3DSH_CTRL_REG4_REGISTER_ADDR, RateAndBdu(outputDataRate));
    if !status {
      return status;
    }
    ghost var c5 := UpdateSpec(hw.env, c4.io, LIS3DSH_CTRL_REG5_REGISTER_ADDR, Bandwidth(antiAliasFilterBW));
    Regroup(t0, c4.events, c5.events);
    status := UpdateRegister(hw, LIS3DSH_CTRL_REG5_REGISTER_ADDR, Bandwidth(antiAliasFilterBW));
  }

  /** LIS3DSH_EnableInterrupt. The interrupt controller call that follows a successful write is not modelled. */
  method EnableInterrupt(hw: Hardware) returns (status: bool)
    modifies hw
    ensures var r := EnableInterruptSpec(hw.env, old(hw.IoState()));
      hw.trace == old(hw.trace) + r.events && hw.IoState() == r.io && status == r.value
  {
    status := UpdateRegister(hw, LIS3DSH_CTRL_REG3_REGISTER_ADDR, Int1DataReady);
  }

  /** LIS3DSH_PerformSoftReset. */
  method PerformSoftReset(hw: Hardware) returns (status: bool)
    modifies hw
    ensures var r := SoftResetSpec(hw.env, old(hw.IoState()));
      hw.trace == old(hw.trace) + r.events && hw.IoState() == r.io && status == r.value
  {
    status := UpdateRegister(hw, LIS3DSH_CTRL_REG3_REGISTER_ADDR, StartReset);
    if status {
      hw.Sleep(LIS3DSH_RESET_TIME_MS);
    }
  }

  /** LIS3DSH_ReadAccelData. The sample is returned, in counts, rather than printed in milli-g. */
  method ReadAccelData(hw: Hardware) returns (status: bool, accelData: Sample)
    modifies hw
    ensures var r := ReadAccelDataSpec(hw.env, old(hw.IoState()));
      hw.trace == old(hw.trace) + r.events && hw.IoState() == r.io && (status, accelData) == r.value
  {
    ReadPlanShape(LIS3DSH_OUT_X_L_REGISTER_ADDR, ACCEL_DATA_NUM_BYTES);
    var data;
    status, data := AccelRead(hw, LIS3DSH_OUT_X_L_REGISTER_ADDR, ACCEL_DATA_NUM_BYTES);
    if status {
      accelData := Sample(Axis(data[ACCEL_X_LSB], data[ACCEL_X_MSB]),
                          Axis(data[ACCEL_Y_LSB], data[ACCEL_Y_MSB]),
                          Axis(data[ACCEL_Z_LSB], data[ACCEL_Z_MSB]));
    } else {
      // reset the accel data if no new data could be read
      accelData := Sample(0, 0, 0);
    }
  }

  /** LIS3DSH_ReadID. */
  method ReadId(hw: Hardware) returns (id: Byte)
    modifies hw
    ensures var r := ReadIdSpec(hw.env, old(hw.IoState()));
      hw.trace == old(hw.trace) + r.events && hw.IoState() == r.io && id == r.value
  {
    ReadPlanShape(LIS3DSH_WHO_AM_I_REGISTER_ADDR, LIS3DSH_REGISTER_LEN);
    var status, received := AccelRead(hw, LIS3DSH_WHO_AM_I_REGISTER_ADDR, LIS3DSH_REGISTER_LEN);
    id := 0;
    if status {
      if received[0] == LIS3DSH_DEVICE_ID {
        id := received[0];
      }
    }
  }

  /** The module state of the driver: the initialised flag. */
  class Accelerometer {
    var xModuleInitialized: bool

    constructor ()
      ensures !xModuleInitialized
    {
      xModuleInitialized := false;
    }

    /** LIS3DSH_IsModuleInitialized. */
    method IsModuleInitialized() returns (initialized: bool)
      ensures initialized == xModuleInitialized
    {
      initialized := xModuleInitialized;
    }

    /**
     * LIS3DSH_Init, after the pin and interrupt setup: check WHO_AM_I, configure the
     * data rate and bandwidth, then enable the data-ready interrupt.
     */
    method Init(hw: Hardware) returns (status: bool)
      modifies this, hw
      ensures var r := InitSpec(hw.env, old(hw.IoState()), old(xModuleInitialized));
        hw.trace == old(hw.trace) + r.events && hw.IoState() == r.io &&
        (status, xModuleInitialized) == r.value
    {
      ghost var t0 := hw.trace;
      ghost var id := ReadIdSpec(hw.env, hw.IoState());
      var found := ReadId(hw);
      status := found != 0;
      if status {
        ghost var b := BringUpSpec(hw.env, id.io);
        status := BringUp(hw);
        Regroup(t0, id.events, b.events);
        assert hw.trace == t0 + (id.events + b.events);
      }
    }

    /**
     * The part of LIS3DSH_Init after a good WHO_AM_I. The module flag is set once the
     * configuration has been attempted, whatever its outcome.
     */
    method BringUp(hw: Hardware) returns (status: bool)
      modifies this, hw
      ensures var r := BringUpSpec(hw.env, old(hw.IoState()));
        hw.trace == old(hw.trace) + r.events && hw.IoState() == r.io && status == r.value
      ensures xModuleInitialized
    {
      ghost var t0 := hw.trace;
      ghost var c := ConfigureSpec(hw.env, hw.IoState(), Rate800Hz, Bw200Hz);
      status := Configure(hw, Rate800Hz, Bw200Hz);
      xModuleInitialized := true;
      if status {
        ghost var e := EnableInterruptSpec(hw.env, c.io);
        status := EnableInterrupt(hw);
        Regroup(t0, c.events, e.events);
      }
    }
  }
}
