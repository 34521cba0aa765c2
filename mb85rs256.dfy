/**
 * The MB85RS256 FRAM driver (storage/fram/mb85rs256.c): 32 KiB of ferroelectric RAM
 * on the shared SPI peripheral, addressed with 16-bit addresses. Every command is one
 * chip-select frame of SPI_Transfer calls; a write is bracketed by WREN and WRDI.
 *
 * As in the flash driver, each operation is specified by a function on the io state
 * (`...Spec`) and implemented by a method that performs the same steps on the
 * hardware and states that its trace, io state and results are the function's.
 */
module Mb85 {
  import opened Platform
  import opened SpiCore
  import opened Frame

  const FRAM_OPCODE_WREN: Byte := 0x06   // set the write enable latch
  const FRAM_OPCODE_WRDI: Byte := 0x04   // reset the write enable latch
  const FRAM_OPCODE_RDSR: Byte := 0x05   // read status register
  const FRAM_OPCODE_WRSR: Byte := 0x01   // write status register
  const FRAM_OPCODE_READ: Byte := 0x03   // read memory
  const FRAM_OPCODE_WRITE: Byte := 0x02  // write memory
  const FRAM_OPCODE_RDID: Byte := 0x9F   // read device id
  const FRAM_OPCODE_SLEEP: Byte := 0xB9  // sleep mode

  const FRAM_ADDRESS_LENGTH_IN_BYTES: nat := 2
  const FRAM_OP_CODE_LENGTH_IN_BYTES: nat := 1

  /** The capacity of the part, 256 Kbit: the length limit of one read or write. */
  const FRAM_SIZE_IN_BYTES: nat := 0x8000

  /** A uint16_t parameter. */
  type U16 = n: nat | n < 0x1_0000

  /** readAddressToSend and writeAddressToSend: the address, most significant byte first. */
  function AddressBytes(address: bv16): (r: seq<Byte>)
    ensures |r| == FRAM_ADDRESS_LENGTH_IN_BYTES
    ensures ((r[0] as bv16) << 8) | (r[1] as bv16) == address
  {
    [((address >> 8) & 0xFF) as Byte, (address & 0xFF) as Byte]
  }

  /** The length check of MB85RS256_Read and MB85RS256_Write. */
  function Clamp(length: U16): (r: nat)
    ensures r <= FRAM_SIZE_IN_BYTES && r <= length
    ensures r < length ==> r == FRAM_SIZE_IN_BYTES
  {
    if length > FRAM_SIZE_IN_BYTES then FRAM_SIZE_IN_BYTES else length
  }

  /** The identification: the four received bytes, first one most significant. */
  function BigEndian4(b: seq<Byte>): bv32
    requires |b| == 4
  {
    ((b[0] as bv32) << 24) | ((b[1] as bv32) << 16) | ((b[2] as bv32) << 8) | (b[3] as bv32)
  }

  // ---------------------------------------------------------------------------
  // What each operation does

  /** framSendCommand: one opcode byte in a frame of its own. */
  function SendCommandSpec(env: Env, io: Io, command: Byte): Run<bool>
  {
    var f := FrameSpec(env, io, Mb85Fram, [Command(command, 0)]);
    Run(f.events, f.io, f.value.ok)
  }

  /** The frame of MB85RS256_Read: opcode, address, receive, each checked. */
  function ReadPlan(address: bv16, length: U16): seq<Xfer>
  {
    [Command(FRAM_OPCODE_READ, 0), Xfer(AddressBytes(address), 0, true), Xfer([], Clamp(length), true)]
  }

  /** MB85RS256_Read: the status and whatever the receive left in the caller's buffer. */
  function ReadSpec(env: Env, io: Io, address: bv16, length: U16): Run<Transferred>
  {
    FrameSpec(env, io, Mb85Fram, ReadPlan(address, length))
  }

  /** The frame of MB85RS256_Write: opcode, address, data, each checked. */
  function WritePlan(address: bv16, payload: seq<Byte>): seq<Xfer>
  {
    [Command(FRAM_OPCODE_WRITE, 0), Xfer(AddressBytes(address), 0, true), Xfer(payload, 0, true)]
  }

  /**
   * MB85RS256_Write: WREN; if it failed, stop with false. Otherwise the write frame,
   * then WRDI, whose status is the result.
   */
  function WriteSpec(env: Env, io: Io, address: bv16, data: seq<Byte>, length: U16): Run<bool>
    requires Clamp(length) <= |data|
  {
    var w := SendCommandSpec(env, io, FRAM_OPCODE_WREN);
    if !w.value then Run(w.events, w.io, false)
    else
      var f := FrameSpec(env, w.io, Mb85Fram, WritePlan(address, data[..Clamp(length)]));
      var d := SendCommandSpec(env, f.io, FRAM_OPCODE_WRDI);
      Run(w.events + f.events + d.events, d.io, d.value)
  }

  /**
   * MB85RS256_RDSR: the receive asks for POINTER_SIZE bytes; the register is the first
   * of them whenever the receive ran, and keeps its value otherwise.
   */
  function RdsrSpec(env: Env, io: Io, reg: Byte): Run<(bool, Byte)>
  {
    var f := FrameSpec(env, io, Mb85Fram, [Command(FRAM_OPCODE_RDSR, POINTER_SIZE)]);
    Run(f.events, f.io, (f.value.ok, if |f.value.rx| > 0 then f.value.rx[0] else reg))
  }

  /** MB85RS256_RDID: the identification is written only when the frame succeeded. */
  function RdidSpec(env: Env, io: Io, id: bv32): Run<(bool, bv32)>
  {
    var plan := [Command(FRAM_OPCODE_RDID, 4)];
    var f := FrameSpec(env, io, Mb85Fram, plan);
    assert AllChecked(plan);
    Run(f.events, f.io, (f.value.ok, if f.value.ok then BigEndian4(f.value.rx) else id))
  }

  // ---------------------------------------------------------------------------
  // The driver

  /** framChipSelectHigh. */
  method FramChipSelectHigh(hw: Hardware)
    modifies hw
    ensures hw.trace == old(hw.trace) + [CsHigh(Mb85Fram)] && hw.IoState() == old(hw.IoState())
  {
    hw.ChipSelectHigh(Mb85Fram);
  }

  /** framChipSelectLow. */
  method FramChipSelectLow(hw: Hardware)
    modifies hw
    ensures hw.trace == old(hw.trace) + [CsLow(Mb85Fram)] && hw.IoState() == old(hw.IoState())
  {
    hw.ChipSelectLow(Mb85Fram);
  }

  /** framReadRegister: the opcode and the receive in one transfer, in one frame. */
  method ReadRegister(hw: Hardware, command: Byte, lengthToReceive: U16) returns (status: bool, dataReceived: seq<Byte>)
    modifies hw
    ensures var r := FrameSpec(hw.env, old(hw.IoState()), Mb85Fram, [Command(command, lengthToReceive)]);
      hw.trace == old(hw.trace) + r.events && hw.IoState() == r.io &&
      status == r.value.ok && dataReceived == r.value.rx
  {
    ghost var t := TransferSpec(hw.env, hw.IoState(), Mb85Fram, [command], lengthToReceive);
    StepsSingle(hw.env, hw.IoState(), Mb85Fram, Command(command, lengthToReceive));
    RegroupFrame(hw.trace, Mb85Fram, t.events);
    FramChipSelectLow(hw);
    status, dataReceived := SpiTransfer(hw, Mb85Fram, [command], lengthToReceive);
    FramChipSelectHigh(hw);
  }

  /** framSendCommand. */
  method SendCommand(hw: Hardware, command: Byte) returns (status: bool)
    modifies hw
    ensures var r := SendCommandSpec(hw.env, old(hw.IoState()), command);
      hw.trace == old(hw.trace) + r.events && hw.IoState() == r.io && status == r.value
  {
    ghost var t := TransferSpec(hw.env, hw.IoState(), Mb85Fram, [command], 0);
    StepsSingle(hw.env, hw.IoState(), Mb85Fram, Command(command, 0));
    RegroupFrame(hw.trace, Mb85Fram, t.events);
    FramChipSelectLow(hw);
    var done, _ := SpiTransfer(hw, Mb85Fram, [command], 0);
    status := done;
    FramChipSelectHigh(hw);
  }

  /** An opcode transfer, then the address transfer if the opcode went out. */
  method OpcodeThenAddress(hw: Hardware, opcode: Byte, address: bv16) returns (status: bool)
    modifies hw
    ensures var r := Steps(hw.env, old(hw.IoState()), Mb85Fram, [Command(opcode, 0), Xfer(AddressBytes(address), 0, true)]);
      hw.trace == old(hw.trace) + r.events && hw.IoState() == r.io && status == r.value.ok && r.value.rx == []
  {
    ghost var env := hw.env;
    ghost var io0 := hw.IoState();
    ghost var pre := hw.trace;
    var cmd := Command(opcode, 0);
    var addr := Xfer(AddressBytes(address), 0, true);
    assert [] + [cmd] == [cmd] && pre + [] == pre;
    StepsExtend(pre, env, io0, Mb85Fram, [], cmd);
    StepsExtend(pre, env, io0, Mb85Fram, [cmd], addr);
    assert [cmd] + [addr] == [cmd, addr];
    var done, _ := SpiTransfer(hw, Mb85Fram, [opcode], 0);
    status := done;
    if status {
      var sent, _ := SpiTransfer(hw, Mb85Fram, AddressBytes(address), 0);
      status := sent;
    }
  }

  /** The transfers of MB85RS256_Read while chip select is low. */
  method ReadSteps(hw: Hardware, readAddress: bv16, lengthToReceive: U16) returns (status: bool, dataReceived: seq<Byte>)
    modifies hw
    ensures var r := Steps(hw.env, old(hw.IoState()), Mb85Fram, ReadPlan(readAddress, lengthToReceive));
      hw.trace == old(hw.trace) + r.events && hw.IoState() == r.io && status == r.value.ok && dataReceived == r.value.rx
  {
    ghost var plan := ReadPlan(readAddress, lengthToReceive);
    var length := lengthToReceive;
    if length > FRAM_SIZE_IN_BYTES {
      length := FRAM_SIZE_IN_BYTES;
    }
    var recv := Xfer([], length, true);
    ghost var head := [Command(FRAM_OPCODE_READ, 0), Xfer(AddressBytes(readAddress), 0, true)];
    assert plan == head + [recv];
    StepsExtend(hw.trace, hw.env, hw.IoState(), Mb85Fram, head, recv);
    dataReceived := [];
    status := OpcodeThenAddress(hw, FRAM_OPCODE_READ, readAddress);
    if status {
      var done, rx := SpiTransfer(hw, Mb85Fram, [], length);
      assert [] + rx == rx;
      status, dataReceived := done, rx;
    }
  }

  /** MB85RS256_Read. The received bytes are returned rather than written through a pointer. */
  method Read(hw: Hardware, readAddress: bv16, lengthToReceive: U16) returns (status: bool, dataReceived: seq<Byte>)
    modifies hw
    ensures var r := ReadSpec(hw.env, old(hw.IoState()), readAddress, lengthToReceive);
      hw.trace == old(hw.trace) + r.events && hw.IoState() == r.io && status == r.value.ok && dataReceived == r.value.rx
  {
    ghost var t0 := hw.trace;
    ghost var s := Steps(hw.env, hw.IoState(), Mb85Fram, ReadPlan(readAddress, lengthToReceive));
    FramChipSelectLow(hw);
    status, dataReceived := ReadSteps(hw, readAddress, lengthToReceive);
    FramChipSelectHigh(hw);
    RegroupFrame(t0, Mb85Fram, s.events);
  }

  /** The write frame of MB85RS256_Write: opcode, address, then the data if both went out. */
  method WriteFrame(hw: Hardware, writeAddress: bv16, payload: seq<Byte>) returns (status: bool)
    requires |payload| < 0x1_0000
    modifies hw
    ensures var r := FrameSpec(hw.env, old(hw.IoState()), Mb85Fram, WritePlan(writeAddress, payload));
      hw.trace == old(hw.trace) + r.events && hw.IoState() == r.io && status == r.value.ok
  {
    ghost var t0 := hw.trace;
    ghost var plan := WritePlan(writeAddress, payload);
    ghost var s := Steps(hw.env, hw.IoState(), Mb85Fram, plan);
    var data := Xfer(payload, 0, true);
    ghost var head := [Command(FRAM_OPCODE_WRITE, 0), Xfer(AddressBytes(writeAddress), 0, true)];
    assert plan == head + [data];
    StepsExtend(hw.trace + [CsLow(Mb85Fram)], hw.env, hw.IoState(), Mb85Fram, head, data);
    FramChipSelectLow(hw);
    status := OpcodeThenAddress(hw, FRAM_OPCODE_WRITE, writeAddress);
    if status {
      var done, _ := SpiTransfer(hw, Mb85Fram, payload, 0);
      status := done;
    }
    FramChipSelectHigh(hw);
    RegroupFrame(t0, Mb85Fram, s.events);
  }

  /** MB85RS256_Write. */
  method Write(hw: Hardware, writeAddress: bv16, dataToWrite: seq<Byte>, lengthToSend: U16) returns (status: bool)
    requires Clamp(lengthToSend) <= |dataToWrite|
    modifies hw
    ensures var r := WriteSpec(hw.env, old(hw.IoState()), writeAddress, dataToWrite, lengthToSend);
      hw.trace == old(hw.trace) + r.events && hw.IoState() == r.io && status == r.value
  {
    ghost var env := hw.env;
    ghost var t0 := hw.trace;
    ghost var w := SendCommandSpec(env, hw.IoState(), FRAM_OPCODE_WREN);
    var length := lengthToSend;
    if length > FRAM_SIZE_IN_BYTES {
      length := FRAM_SIZE_IN_BYTES;
    }
    status := Wren(hw);
    if !status {
      return status;
    }
    ghost var f := FrameSpec(env, w.io, Mb85Fram, WritePlan(writeAddress, dataToWrite[..length]));
    var _ := WriteFrame(hw, writeAddress, dataToWrite[..length]);
    ghost var d := SendCommandSpec(env, f.io, FRAM_OPCODE_WRDI);
    status := Wrdi(hw);
    assert hw.trace == t0 + w.events + f.events + d.events;
    Regroup(t0, w.events, f.events);
    Regroup(t0, w.events + f.events, d.events);
  }

  /** MB85RS256_RDSR. The register value is returned rather than written through a pointer. */
  method Rdsr(hw: Hardware, statusRegValue: Byte) returns (status: bool, newStatusRegValue: Byte)
    modifies hw
    ensures var r := RdsrSpec(hw.env, old(hw.IoState()), statusRegValue);
      hw.trace == old(hw.trace) + r.events && hw.IoState() == r.io && (status, newStatusRegValue) == r.value
  {
    var rx;
    status, rx := ReadRegister(hw, FRAM_OPCODE_RDSR, POINTER_SIZE);
    newStatusRegValue := if |rx| > 0 then rx[0] else statusRegValue;
  }

  /** MB85RS256_WREN. */
  method Wren(hw: Hardware) returns (status: bool)
    modifies hw
    ensures var r := SendCommandSpec(hw.env, old(hw.IoState()), FRAM_OPCODE_WREN);
      hw.trace == old(hw.trace) + r.events && hw.IoState() == r.io && status == r.value
  {
    status := SendCommand(hw, FRAM_OPCODE_WREN);
  }

  /** MB85RS256_WRDI. */
  method Wrdi(hw: Hardware) returns (status: bool)
    modifies hw
    ensures var r := SendCommandSpec(hw.env, old(hw.IoState()), FRAM_OPCODE_WRDI);
      hw.trace == old(hw.trace) + r.events && hw.IoState() == r.io && status == r.value
  {
    status := SendCommand(hw, FRAM_OPCODE_WRDI);
  }

  /** MB85RS256_RDID. The identification is returned rather than written through a pointer. */
  method Rdid(hw: Hardware, identification: bv32) returns (status: bool, newIdentification: bv32)
    modifies hw
    ensures var r := RdidSpec(hw.env, old(hw.IoState()), identification);
      hw.trace == old(hw.trace) + r.events && hw.IoState() == r.io && (status, newIdentification) == r.value
  {
    var dataBuffer;
    status, dataBuffer := ReadRegister(hw, FRAM_OPCODE_RDID, 4);
    newIdentification := identification;
    if status {
      var temp := dataBuffer[0] as bv32;
      temp := (temp << 8) | dataBuffer[1] as bv32;
      temp := (temp << 8) | dataBuffer[2] as bv32;
      ShiftInFour(dataBuffer);
      newIdentification := (temp << 8) | dataBuffer[3] as bv32;
    }
  }

  /** Shifting the bytes in one by one, as MB85RS256_RDID does, builds the big-endian word. */
  lemma ShiftInFour(b: seq<Byte>)
    requires |b| == 4
    ensures ((((((b[0] as bv32) << 8) | (b[1] as bv32)) << 8) | (b[2] as bv32)) << 8) | (b[3] as bv32) == BigEndian4(b)
  {
  }

  /** MB85RS256_Init: the pin configuration is not modelled; the chip select is driven high. */
  method Init(hw: Hardware) returns (ok: bool)
    modifies hw
    ensures hw.trace == old(hw.trace) + [CsHigh(Mb85Fram)] && hw.IoState() == old(hw.IoState()) && ok
  {
    FramChipSelectHigh(hw);
    ok := true;
  }
}
