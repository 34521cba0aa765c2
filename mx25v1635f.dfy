/**
 * The MX25V1635F flash driver (storage/flash/mx25v1635f.c). Every command is one or
 * more chip-select frames on the shared SPI peripheral; erase and program commands
 * first check the WIP bit, set the write enable latch in a frame of its own, send
 * the command and then poll the status register until WIP clears or a time bound
 * passes.
 *
 * Each public function is a method that follows the source step by step, specified
 * by a function of the oracle and the io state it starts from (`...Spec`).
 */
module Mx25 {
  import opened Platform
  import opened SpiCore
  import opened Frame
  import opened Mx25Defs

  // ---------------------------------------------------------------------------
  // Addresses

  /** The low byte of a 32-bit value (a uint32_t stored into a uint8_t). */
  function Lo(x: bv32): Byte
  {
    (x & 0xFF) as Byte
  }

  /** The address bytes flashSendAddr sends, most significant first: four in 4-byte mode, else three. */
  function AddrBytes(addr: bv32, fourByte: bool): seq<Byte>
  {
    if fourByte then [Lo(addr >> 24), Lo(addr >> 16), Lo(addr >> 8), Lo(addr)]
    else [Lo(addr >> 16), Lo(addr >> 8), Lo(addr)]
  }

  /** Big-endian decoding of three or four bytes: what the flash makes of the address bytes it is sent. */
  function BigEndian(bytes: seq<Byte>): bv32
    requires 3 <= |bytes| <= 4
  {
    if |bytes| == 3 then (bytes[0] as bv32 << 16) | (bytes[1] as bv32 << 8) | bytes[2] as bv32
    else (bytes[0] as bv32 << 24) | (bytes[1] as bv32 << 16) | (bytes[2] as bv32 << 8) | bytes[3] as bv32
  }

  // ---------------------------------------------------------------------------
  // Helper frames

  const DummyXfer := Xfer([DUMMY_BYTE], 0, true)

  /** The transfers flashInsertDummyCycle makes for `n` dummy cycles. */
  function Dummies(n: nat): (r: seq<Xfer>)
    ensures |r| == n && forall i :: 0 <= i < n ==> r[i] == DummyXfer
  {
    seq(n, _ => DummyXfer)
  }

  /** MX25_RDSR and MX25_RDSCUR: read a one-byte register; the caller's byte is kept on failure. */
  function RegisterReadSpec(env: Env, io: Io, cmd: Byte, reg: Byte): (r: Run<(FlashMsg, Byte)>)
    ensures io.ticks <= r.io.ticks
  {
    var f := FrameSpec(env, io, Mx25Flash, [Command(cmd, 1)]);
    assert AllChecked([Command(cmd, 1)]);
    Run(f.events, f.io, if f.value.ok then (Success, f.value.rx[0]) else (OperationFailed, reg))
  }

  function RdsrSpec(env: Env, io: Io, reg: Byte): (r: Run<(FlashMsg, Byte)>)
    ensures io.ticks <= r.io.ticks
  {
    RegisterReadSpec(env, io, FLASH_CMD_RDSR, reg)
  }

  function RdscurSpec(env: Env, io: Io, reg: Byte): (r: Run<(FlashMsg, Byte)>)
    ensures io.ticks <= r.io.ticks
  {
    RegisterReadSpec(env, io, FLASH_CMD_RDSCUR, reg)
  }

  /**
   * flashIsBusy: the WIP bit of the status register. The buffer is not initialised, so
   * when the read fails the bit is taken from whatever the buffer held.
   */
  function IsBusySpec(env: Env, io: Io): (r: Run<bool>)
    ensures io.ticks <= r.io.ticks
  {
    var s := RdsrSpec(env, io, env.stale(io.next));
    Run(s.events, s.io, s.value.1 & FLASH_WIP_MASK == FLASH_WIP_MASK)
  }

  /** flashIs4Byte: the 4BYTE bit of the security register, with the same uninitialised buffer. */
  function Is4ByteSpec(env: Env, io: Io): (r: Run<bool>)
    ensures io.ticks <= r.io.ticks
  {
    var s := RdscurSpec(env, io, env.stale(io.next));
    Run(s.events, s.io, s.value.1 & FLASH_4BYTE_MASK == FLASH_4BYTE_MASK)
  }

  /** The ticks left from tick `t` before more than `timeout` ticks have passed since `start`. */
  function Remaining(t: nat, start: nat, timeout: nat): nat
  {
    if t <= start + timeout then start + timeout - t else 0
  }

  /**
   * flashWaitTillReady from the head of its loop: read WIP; while it is set, delay one
   * tick and give up once more than `timeout` ticks have passed since `start`. The
   * read itself may block, so it can end past the bound.
   */
  function WaitPoll(env: Env, io: Io, start: nat, timeout: nat): Run<bool>
    requires start <= io.ticks <= start + timeout
    decreases Remaining(io.ticks, start, timeout), 1
  {
    var b := IsBusySpec(env, io);
    var rest := WaitAfterRead(env, b.io, b.value, start, timeout);
    Run(b.events + rest.events, rest.io, rest.value)
  }

  /** flashWaitTillReady once WIP has been read as `busy`. */
  function WaitAfterRead(env: Env, io: Io, busy: bool, start: nat, timeout: nat): Run<bool>
    requires start <= io.ticks
    decreases Remaining(io.ticks, start, timeout), 0
  {
    if !busy then Run([], io, true)
    else
      var slept := io.(ticks := io.ticks + 1);
      if slept.ticks - start > timeout then Run([Delay(1)], slept, false)
      else
        var p := WaitPoll(env, slept, start, timeout);
        Run([Delay(1)] + p.events, p.io, p.value)
  }

  function WaitTillReadySpec(env: Env, io: Io, timeout: nat): Run<bool>
  {
    WaitPoll(env, io, io.ticks, timeout)
  }

  // ---------------------------------------------------------------------------
  // Commands

  /** MX25_RDID: three bytes after 9Fh, assembled most significant first; the id is kept on failure. */
  function RdidSpec(env: Env, io: Io, id: bv32): Run<(FlashMsg, bv32)>
  {
    var f := FrameSpec(env, io, Mx25Flash, [Command(FLASH_CMD_RDID, 3)]);
    Run(f.events, f.io, if f.value.ok then (Success, BigEndian(f.value.rx)) else (OperationFailed, id))
  }

  /** The frame of MX25_RES: ABh, three dummy bytes, then a receive whose result is ignored. */
  function ResPlan(): seq<Xfer>
  {
    [Command(FLASH_CMD_RES, 0), DummyXfer, DummyXfer, DummyXfer, Xfer([], POINTER_SIZE, false)]
  }

  /** MX25_RES: the electronic id is the first received byte; it is kept when no receive ran. */
  function ResSpec(env: Env, io: Io, eid: Byte): Run<(FlashMsg, Byte)>
  {
    var f := FrameSpec(env, io, Mx25Flash, ResPlan());
    Run(f.events, f.io, (if f.value.ok then Success else OperationFailed,
                         if |f.value.rx| > 0 then f.value.rx[0] else eid))
  }

  /** The frame of MX25_REMS: 90h, two dummy bytes, then the ArrangeOpt byte and a 2-byte receive. */
  function RemsPlan(arrangeOpt: bool): seq<Xfer>
  {
    [Command(FLASH_CMD_REMS, 0), DummyXfer, DummyXfer, Xfer([if arrangeOpt then 1 else 0], 2, true)]
  }

  /** MX25_REMS: the two received bytes, first one high; the id is kept on failure. */
  function RemsSpec(env: Env, io: Io, id: bv16, fs: FlashStatus): Run<(FlashMsg, bv16)>
  {
    var plan := RemsPlan(fs.arrangeOpt);
    var f := FrameSpec(env, io, Mx25Flash, plan);
    RemsPlanReceivesTwo(fs.arrangeOpt);
    Run(f.events, f.io,
        if f.value.ok then (Success, (f.value.rx[0] as bv16 << 8) | f.value.rx[1] as bv16) else (OperationFailed, id))
  }

  lemma RemsPlanReceivesTwo(arrangeOpt: bool)
    ensures AllChecked(RemsPlan(arrangeOpt)) && TotalRecv(RemsPlan(arrangeOpt)) == 2
  {
    var plan := RemsPlan(arrangeOpt);
    assert plan[3..][1..] == [];
    assert TotalRecv(plan[3..]) == 2;
    assert plan[2..][1..] == plan[3..];
    assert TotalRecv(plan[2..]) == 2;
    assert plan[1..][1..] == plan[2..];
    assert TotalRecv(plan[1..]) == 2;
  }

  /** The frame of MX25_READ; the uint32 length is passed on as a uint16. */
  function ReadPlan(addr: bv32, fourByte: bool, byteLength: nat): seq<Xfer>
  {
    [Command(FLASH_CMD_READ, 0), Xfer(AddrBytes(addr, fourByte), 0, true), Xfer([], byteLength % 0x1_0000, false)]
  }

  /** MX25_READ: the result code and the bytes the receive delivered (none if it did not run). */
  function ReadSpec(env: Env, io: Io, addr: bv32, byteLength: nat): Run<(FlashMsg, seq<Byte>)>
  {
    if addr > FLASH_SIZE then Run([], io, (AddressInvalid, []))
    else
      var m := Is4ByteSpec(env, io);
      var f := FrameSpec(env, m.io, Mx25Flash, ReadPlan(addr, m.value, byteLength));
      Run(m.events + f.events, f.io, (if f.value.ok then Success else OperationFailed, f.value.rx))
  }

  /** MX25_WREN: 06h in a frame of its own. */
  function WrenSpec(env: Env, io: Io): (r: Run<FlashMsg>)
    ensures r.value == Success || r.value == OperationFailed
    ensures io.ticks <= r.io.ticks
  {
    var f := FrameSpec(env, io, Mx25Flash, [Command(FLASH_CMD_WREN, 0)]);
    Run(f.events, f.io, if f.value.ok then Success else OperationFailed)
  }

  /**
   * The second half MX25_CE, MX25_SE and MX25_PP share: set the write enable latch,
   * send the command frame, wait for WIP to clear. Each command reports a failed WREN
   * and a failed frame with a code of its own.
   */
  function CommandTail(env: Env, io: Io, plan: seq<Xfer>, timeout: nat, onWrenFail: FlashMsg, onFrameFail: FlashMsg)
    : Run<FlashMsg>
  {
    var w := WrenSpec(env, io);
    if w.value != Success then Run(w.events, w.io, onWrenFail)
    else
      var c := FrameSpec(env, w.io, Mx25Flash, plan);
      if !c.value.ok then Run(w.events + c.events, c.io, onFrameFail)
      else
        var p := WaitTillReadySpec(env, c.io, timeout);
        Run(w.events + c.events + p.events, p.io, if p.value then Success else TimeOut)
  }

  function CePlan(): seq<Xfer>
  {
    [Command(FLASH_CMD_CE, 0)]
  }

  /** MX25_CE: a failed WREN result is passed on as it is. */
  function CeSpec(env: Env, io: Io): Run<FlashMsg>
  {
    var b := IsBusySpec(env, io);
    if b.value then Run(b.events, b.io, IsBusy)
    else
      var t := CommandTail(env, b.io, CePlan(), CHIP_ERASE_CYCLE_TIME, OperationFailed, OperationFailed);
      Run(b.events + t.events, t.io, t.value)
  }

  function SePlan(addr: bv32, fourByte: bool): seq<Xfer>
  {
    [Command(FLASH_CMD_SE, 0), Xfer(AddrBytes(addr, fourByte), 0, true)]
  }

  /** MX25_SE: a failed WREN is reported as a time-out. */
  function SeSpec(env: Env, io: Io, addr: bv32): Run<FlashMsg>
  {
    if addr > FLASH_SIZE then Run([], io, AddressInvalid)
    else
      var b := IsBusySpec(env, io);
      if b.value then Run(b.events, b.io, IsBusy)
      else
        var m := Is4ByteSpec(env, b.io);
        var t := CommandTail(env, m.io, SePlan(addr, m.value), SECTOR_ERASE_CYCLE_TIME, TimeOut, OperationFailed);
        Run(b.events + m.events + t.events, t.io, t.value)
  }

  /** The first `byteLength` bytes of `data` as the uint16 length SPI_Transfer takes them. */
  function Payload(data: seq<Byte>, byteLength: nat): seq<Byte>
    requires byteLength % 0x1_0000 <= |data|
  {
    data[..byteLength % 0x1_0000]
  }

  /** The frame of MX25_PP: the address transfer's result is ignored. */
  function PpPlan(addr: bv32, fourByte: bool, payload: seq<Byte>): seq<Xfer>
  {
    [Command(FLASH_CMD_PP, 0), Xfer(AddrBytes(addr, fourByte), 0, false), Xfer(payload, 0, true)]
  }

  /** MX25_PP: a failed WREN and a failed frame are both reported as a time-out. */
  function PpSpec(env: Env, io: Io, addr: bv32, data: seq<Byte>, byteLength: nat): Run<FlashMsg>
    requires byteLength % 0x1_0000 <= |data|
  {
    if addr > FLASH_SIZE then Run([], io, AddressInvalid)
    else
      var b := IsBusySpec(env, io);
      if b.value then Run(b.events, b.io, IsBusy)
      else
        var m := Is4ByteSpec(env, b.io);
        var t := CommandTail(env, m.io, PpPlan(addr, m.value, Payload(data, byteLength)),
                             PAGE_PROGRAM_CYCLE_TIME, TimeOut, TimeOut);
        Run(b.events + m.events + t.events, t.io, t.value)
  }

  /** MX25_DP: B9h, then a delay of tDP whatever the transfer did. */
  function DpSpec(env: Env, io: Io): Run<FlashMsg>
  {
    var f := FrameSpec(env, io, Mx25Flash, [Command(FLASH_CMD_DP, 0)]);
    Run(f.events + [Delay(STANDBY_TO_DP_MODE_DELAY)], f.io.(ticks := f.io.ticks + STANDBY_TO_DP_MODE_DELAY),
        if f.value.ok then Success else OperationFailed)
  }

  /** MX25_WAKE: chip select held low for tCRDP, then tRDP before the next command. */
  function WakeSpec(io: Io): Run<()>
  {
    Run([CsLow(Mx25Flash), Delay(WAKE_UP_CS_PIN_LOW_TIME), CsHigh(Mx25Flash), Delay(DP_TO_STANDBY_MODE_DELAY)],
        io.(ticks := io.ticks + WAKE_UP_CS_PIN_LOW_TIME + DP_TO_STANDBY_MODE_DELAY), ())
  }

  // ---------------------------------------------------------------------------
  // The driver

  /** flashChipSelectLow. */
  method FlashChipSelectLow(hw: Hardware)
    modifies hw
    ensures hw.trace == old(hw.trace) + [CsLow(Mx25Flash)] && hw.IoState() == old(hw.IoState())
  {
    hw.ChipSelectLow(Mx25Flash);
  }

  /** flashChipSelectHigh. */
  method FlashChipSelectHigh(hw: Hardware)
    modifies hw
    ensures hw.trace == old(hw.trace) + [CsHigh(Mx25Flash)] && hw.IoState() == old(hw.IoState())
  {
    hw.ChipSelectHigh(Mx25Flash);
  }

  /** flashInsertDummyCycle: one 0xFF transfer per cycle, stopping at the first failure. */
  method InsertDummyCycle(hw: Hardware, dummyCycle: nat) returns (status: bool)
    requires dummyCycle < 0x100
    modifies hw
    ensures var r := Steps(hw.env, old(hw.IoState()), Mx25Flash, Dummies(dummyCycle));
      hw.trace == old(hw.trace) + r.events && hw.IoState() == r.io && status == r.value.ok
  {
    ghost var env := hw.env;
    ghost var io0 := hw.IoState();
    ghost var t0 := hw.trace;
    status := true;
    var i := 0;
    assert Dummies(0) == [] && t0 + [] == t0;
    while i < dummyCycle
      invariant 0 <= i <= dummyCycle
      invariant var r := Steps(env, io0, Mx25Flash, Dummies(i));
        hw.trace == t0 + r.events && hw.IoState() == r.io && status == r.value.ok
    {
      assert Dummies(i + 1) == Dummies(i) + [DummyXfer];
      StepsExtend(t0, env, io0, Mx25Flash, Dummies(i), DummyXfer);
      if status {
        var done, _ := SpiTransfer(hw, Mx25Flash, [DUMMY_BYTE], 0);
        status := done;
      } else {
        assert Dummies(dummyCycle) == Dummies(i) + Dummies(dummyCycle - i);
        StepsStopAtFailure(env, io0, Mx25Flash, Dummies(i), Dummies(dummyCycle - i));
        return;
      }
      i := i + 1;
    }
  }

  /** flashRead with a one-byte command (every caller passes commandLength 1). */
  method FlashRead(hw: Hardware, command: Byte, lengthToReceive: nat) returns (status: bool, dataReceived: seq<Byte>)
    requires lengthToReceive < 0x100
    modifies hw
    ensures var r := FrameSpec(hw.env, old(hw.IoState()), Mx25Flash, [Command(command, lengthToReceive)]);
      hw.trace == old(hw.trace) + r.events && hw.IoState() == r.io &&
      status == r.value.ok && dataReceived == r.value.rx
  {
    ghost var t := TransferSpec(hw.env, hw.IoState(), Mx25Flash, [command], lengthToReceive);
    StepsSingle(hw.env, hw.IoState(), Mx25Flash, Command(command, lengthToReceive));
    RegroupFrame(hw.trace, Mx25Flash, t.events);
    FlashChipSelectLow(hw);
    status, dataReceived := SpiTransfer(hw, Mx25Flash, [command], lengthToReceive);
    FlashChipSelectHigh(hw);
  }

  /** flashWrite with a one-byte command. */
  method FlashWrite(hw: Hardware, command: Byte) returns (status: bool)
    modifies hw
    ensures var r := FrameSpec(hw.env, old(hw.IoState()), Mx25Flash, [Command(command, 0)]);
      hw.trace == old(hw.trace) + r.events && hw.IoState() == r.io && status == r.value.ok
  {
    ghost var t := TransferSpec(hw.env, hw.IoState(), Mx25Flash, [command], 0);
    StepsSingle(hw.env, hw.IoState(), Mx25Flash, Command(command, 0));
    RegroupFrame(hw.trace, Mx25Flash, t.events);
    FlashChipSelectLow(hw);
    var done, _ := SpiTransfer(hw, Mx25Flash, [command], 0);
    status := done;
    FlashChipSelectHigh(hw);
  }

  /** flashSendAddr: the address bytes in one transfer; chip select is already low. */
  method SendAddr(hw: Hardware, flashAddress: bv32, addr4ByteMode: bool) returns (status: bool)
    modifies hw
    ensures var r := TransferSpec(hw.env, old(hw.IoState()), Mx25Flash, AddrBytes(flashAddress, addr4ByteMode), 0);
      hw.trace == old(hw.trace) + r.events && hw.IoState() == r.io && status == r.value.ok
  {
    var address: seq<Byte>;
    if addr4ByteMode {
      address := [Lo(flashAddress >> 24), Lo(flashAddress >> 16), Lo(flashAddress >> 8), Lo(flashAddress)];
    } else {
      address := [Lo(flashAddress >> 16), Lo(flashAddress >> 8), Lo(flashAddress)];
    }
    var done, _ := SpiTransfer(hw, Mx25Flash, address, 0);
    status := done;
  }

  /** MX25_RDSR. `statusReg` is the caller's byte before the call. */
  method Rdsr(hw: Hardware, statusReg: Byte) returns (msg: FlashMsg, newStatusReg: Byte)
    modifies hw
    ensures var r := RdsrSpec(hw.env, old(hw.IoState()), statusReg);
      hw.trace == old(hw.trace) + r.events && hw.IoState() == r.io && (msg, newStatusReg) == r.value
  {
    var status, dataBuffer := FlashRead(hw, FLASH_CMD_RDSR, 1);
    if status {
      return Success, dataBuffer[0];
    }
    return OperationFailed, statusReg;
  }

  /** MX25_RDSCUR. `securityReg` is the caller's byte before the call. */
  method Rdscur(hw: Hardware, securityReg: Byte) returns (msg: FlashMsg, newSecurityReg: Byte)
    modifies hw
    ensures var r := RdscurSpec(hw.env, old(hw.IoState()), securityReg);
      hw.trace == old(hw.trace) + r.events && hw.IoState() == r.io && (msg, newSecurityReg) == r.value
  {
    var status, dataBuffer := FlashRead(hw, FLASH_CMD_RDSCUR, 1);
    if status {
      return Success, dataBuffer[0];
    }
    return OperationFailed, securityReg;
  }

  /** flashIsBusy. */
  method IsBusyCheck(hw: Hardware) returns (busy: bool)
    modifies hw
    ensures var r := IsBusySpec(hw.env, old(hw.IoState()));
      hw.trace == old(hw.trace) + r.events && hw.IoState() == r.io && busy == r.value
    ensures old(hw.ticks) <= hw.ticks
  {
    var dataBuffer := hw.Uninitialised();
    var _, reg := Rdsr(hw, dataBuffer);
    busy := reg & FLASH_WIP_MASK == FLASH_WIP_MASK;
  }

  /** flashIs4Byte. */
  method Is4Byte(hw: Hardware) returns (fourByte: bool)
    modifies hw
    ensures var r := Is4ByteSpec(hw.env, old(hw.IoState()));
      hw.trace == old(hw.trace) + r.events && hw.IoState() == r.io && fourByte == r.value
  {
    var dataBuffer := hw.Uninitialised();
    var _, reg := Rdscur(hw, dataBuffer);
    fourByte := reg & FLASH_4BYTE_MASK == FLASH_4BYTE_MASK;
  }

  /** One poll of flashWaitTillReady: read WIP, then go on from what was read. */
  lemma PollUnfold(pre: seq<Event>, env: Env, io: Io, start: nat, timeout: nat)
    requires start <= io.ticks <= start + timeout
    ensures var b := IsBusySpec(env, io);
      var rest := WaitAfterRead(env, b.io, b.value, start, timeout);
      var w := WaitPoll(env, io, start, timeout);
      pre + b.events + rest.events == pre + w.events && rest.io == w.io && rest.value == w.value
  {
    var b := IsBusySpec(env, io);
    Regroup(pre, b.events, WaitAfterRead(env, b.io, b.value, start, timeout).events);
  }

  /** WIP still set and the time bound passed after the delay: flashWaitTillReady gives up. */
  lemma BusyGiveUp(env: Env, io: Io, start: nat, timeout: nat)
    requires start <= io.ticks && io.ticks + 1 - start > timeout
    ensures WaitAfterRead(env, io, true, start, timeout) == Run([Delay(1)], io.(ticks := io.ticks + 1), false)
  {
  }

  /** WIP still set and time left after the delay: flashWaitTillReady polls again. */
  lemma BusyPollAgain(pre: seq<Event>, env: Env, io: Io, start: nat, timeout: nat)
    requires start <= io.ticks && io.ticks + 1 - start <= timeout
    ensures var a := WaitAfterRead(env, io, true, start, timeout);
      var p := WaitPoll(env, io.(ticks := io.ticks + 1), start, timeout);
      pre + [Delay(1)] + p.events == pre + a.events && a.io == p.io && a.value == p.value
  {
    Regroup(pre, [Delay(1)], WaitPoll(env, io.(ticks := io.ticks + 1), start, timeout).events);
  }

  /**
   * One pass of flashWaitTillReady's loop body after WIP was read set: delay a tick,
   * then either give up or read WIP again.
   */
  method PollAgain(hw: Hardware, startTime: nat, timeoutTicks: nat) returns (giveUp: bool, busy: bool)
    requires startTime <= hw.ticks
    modifies hw
    ensures var a := WaitAfterRead(hw.env, old(hw.IoState()), true, startTime, timeoutTicks);
      giveUp ==> hw.trace == old(hw.trace) + a.events && hw.IoState() == a.io && !a.value
    ensures giveUp <==> old(hw.ticks) + 1 - startTime > timeoutTicks
    ensures !giveUp ==> old(hw.ticks) < hw.ticks
    ensures var a := WaitAfterRead(hw.env, old(hw.IoState()), true, startTime, timeoutTicks);
      !giveUp ==>
        var rest := WaitAfterRead(hw.env, hw.IoState(), busy, startTime, timeoutTicks);
        old(hw.trace) + a.events == hw.trace + rest.events && rest.io == a.io && rest.value == a.value
  {
    ghost var env := hw.env;
    ghost var before := hw.trace;
    ghost var io := hw.IoState();
    hw.Sleep(1);
    var now := hw.TickCount();
    if now - startTime > timeoutTicks {
      BusyGiveUp(env, io, startTime, timeoutTicks);
      return true, true;
    }
    BusyPollAgain(before, env, io, startTime, timeoutTicks);
    PollUnfold(hw.trace, env, hw.IoState(), startTime, timeoutTicks);
    giveUp := false;
    busy := IsBusyCheck(hw);
  }

  /** flashWaitTillReady (synchronous I/O; one tick is one millisecond). */
  method WaitTillReady(hw: Hardware, expectTimeMs: nat) returns (ready: bool)
    modifies hw
    ensures var r := WaitTillReadySpec(hw.env, old(hw.IoState()), expectTimeMs);
      hw.trace == old(hw.trace) + r.events && hw.IoState() == r.io && ready == r.value
  {
    ghost var env := hw.env;
    ghost var t0 := hw.trace;
    var startTime := hw.TickCount();
    var timeoutTicks := expectTimeMs;
    ghost var goal := WaitPoll(env, hw.IoState(), startTime, timeoutTicks);
    PollUnfold(t0, env, hw.IoState(), startTime, timeoutTicks);
    var busy := IsBusyCheck(hw);
    while busy
      invariant startTime <= hw.ticks && env == hw.env
      invariant var rest := WaitAfterRead(env, hw.IoState(), busy, startTime, timeoutTicks);
        hw.trace + rest.events == t0 + goal.events && rest.io == goal.io && rest.value == goal.value
      decreases Remaining(hw.ticks, startTime, timeoutTicks)
    {
      var giveUp;
      giveUp, busy := PollAgain(hw, startTime, timeoutTicks);
      if giveUp {
        return false;
      }
    }
    assert hw.trace + [] == hw.trace;
    return true;
  }

  /** RDID's assembly of its three bytes, one shift at a time, is their big-endian value. */
  lemma ShiftInThree(a: Byte, b: Byte, c: Byte)
    ensures BigEndian([a, b, c]) == (((a as bv32 << 8) | b as bv32) << 8) | c as bv32
  {
  }

  /** MX25_RDID. `identification` is the caller's value before the call. */
  method Rdid(hw: Hardware, identification: bv32) returns (msg: FlashMsg, newIdentification: bv32)
    modifies hw
    ensures var r := RdidSpec(hw.env, old(hw.IoState()), identification);
      hw.trace == old(hw.trace) + r.events && hw.IoState() == r.io && (msg, newIdentification) == r.value
  {
    var status, dataBuffer := FlashRead(hw, FLASH_CMD_RDID, 3);
    if status {
      var tempBuffer := dataBuffer[0] as bv32;
      tempBuffer := (tempBuffer << 8) | dataBuffer[1] as bv32;
      tempBuffer := (tempBuffer << 8) | dataBuffer[2] as bv32;
      ShiftInThree(dataBuffer[0], dataBuffer[1], dataBuffer[2]);
      assert dataBuffer == [dataBuffer[0], dataBuffer[1], dataBuffer[2]];
      return Success, tempBuffer;
    }
    return OperationFailed, identification;
  }

  /** Dummy cycles transmit only. */
  lemma {:induction false} DummiesReceiveNothing(env: Env, io: Io, n: nat)
    decreases n
    ensures Steps(env, io, Mx25Flash, Dummies(n)).value.rx == []
  {
    if n > 0 {
      assert Dummies(n) == Dummies(n - 1) + [DummyXfer];
      StepsSnoc(env, io, Mx25Flash, Dummies(n - 1), DummyXfer);
      DummiesReceiveNothing(env, io, n - 1);
    } else {
      assert Dummies(0) == [];
    }
  }

  /** The start of the MX25_RES and MX25_REMS frames: the command byte, then dummy cycles if it went out. */
  lemma CommandThenDummies(pre: seq<Event>, env: Env, io: Io, cmd: Byte, n: nat)
    ensures var t := TransferSpec(env, io, Mx25Flash, [cmd], 0);
      var d := Steps(env, t.io, Mx25Flash, Dummies(n));
      var s := Steps(env, io, Mx25Flash, [Command(cmd, 0)] + Dummies(n));
      s.value.rx == [] &&
      (t.value.ok ==> pre + t.events + d.events == pre + s.events && s.io == d.io && s.value.ok == d.value.ok) &&
      (!t.value.ok ==> s.events == t.events && s.io == t.io && !s.value.ok)
  {
    var t := TransferSpec(env, io, Mx25Flash, [cmd], 0);
    StepsSingle(env, io, Mx25Flash, Command(cmd, 0));
    StepsAppend(env, io, Mx25Flash, [Command(cmd, 0)], Dummies(n));
    DummiesReceiveNothing(env, t.io, n);
    Regroup(pre, t.events, Steps(env, t.io, Mx25Flash, Dummies(n)).events);
  }

  /** MX25_RES. `electronicIdentification` is the caller's byte before the call. */
  method Res(hw: Hardware, electronicIdentification: Byte) returns (msg: FlashMsg, newId: Byte)
    modifies hw
    ensures var r := ResSpec(hw.env, old(hw.IoState()), electronicIdentification);
      hw.trace == old(hw.trace) + r.events && hw.IoState() == r.io && (msg, newId) == r.value
  {
    ghost var env := hw.env;
    ghost var io0 := hw.IoState();
    ghost var t0 := hw.trace;
    var recv := Xfer([], POINTER_SIZE, false);
    ghost var head := [Command(FLASH_CMD_RES, 0)] + Dummies(3);
    assert ResPlan() == head + [recv];
    CommandThenDummies(t0 + [CsLow(Mx25Flash)], env, io0, FLASH_CMD_RES, 3);
    StepsExtend(t0 + [CsLow(Mx25Flash)], env, io0, Mx25Flash, head, recv);
    newId := electronicIdentification;
    FlashChipSelectLow(hw);
    var status, _ := SpiTransfer(hw, Mx25Flash, [FLASH_CMD_RES], 0);
    if status {
      status := InsertDummyCycle(hw, 3);
    }
    if status {
      var _, rx := SpiTransfer(hw, Mx25Flash, [], POINTER_SIZE);
      assert [] + rx == rx;
      if |rx| > 0 {
        newId := rx[0];
      }
    }
    ghost var s := Steps(env, io0, Mx25Flash, ResPlan());
    FlashChipSelectHigh(hw);
    RegroupFrame(t0, Mx25Flash, s.events);
    msg := if status then Success else OperationFailed;
  }

  /** MX25_REMS. `remsIdentification` is the caller's value before the call. */
  method Rems(hw: Hardware, remsIdentification: bv16, fs: FlashStatus) returns (msg: FlashMsg, newId: bv16)
    modifies hw
    ensures var r := RemsSpec(hw.env, old(hw.IoState()), remsIdentification, fs);
      hw.trace == old(hw.trace) + r.events && hw.IoState() == r.io && (msg, newId) == r.value
  {
    ghost var env := hw.env;
    ghost var io0 := hw.IoState();
    ghost var t0 := hw.trace;
    var arrange: Byte := if fs.arrangeOpt then 1 else 0;
    var last := Xfer([arrange], 2, true);
    ghost var head := [Command(FLASH_CMD_REMS, 0)] + Dummies(2);
    assert RemsPlan(fs.arrangeOpt) == head + [last];
    CommandThenDummies(t0 + [CsLow(Mx25Flash)], env, io0, FLASH_CMD_REMS, 2);
    StepsExtend(t0 + [CsLow(Mx25Flash)], env, io0, Mx25Flash, head, last);
    var dataBuffer: seq<Byte> := [];
    FlashChipSelectLow(hw);
    var status, _ := SpiTransfer(hw, Mx25Flash, [FLASH_CMD_REMS], 0);
    if status {
      status := InsertDummyCycle(hw, 2);
    }
    if status {
      status, dataBuffer := SpiTransfer(hw, Mx25Flash, [arrange], 2);
      assert [] + dataBuffer == dataBuffer;
    }
    ghost var s := Steps(env, io0, Mx25Flash, RemsPlan(fs.arrangeOpt));
    FlashChipSelectHigh(hw);
    RegroupFrame(t0, Mx25Flash, s.events);
    if status {
      return Success, (dataBuffer[0] as bv16 << 8) | dataBuffer[1] as bv16;
    }
    return OperationFailed, remsIdentification;
  }

  /** The command and address transfers of MX25_READ; the address goes out only after the command. */
  method ReadHeadSteps(hw: Hardware, flashAddress: bv32, addr4ByteMode: bool, byteLength: nat) returns (status: bool)
    modifies hw
    ensures var r := Steps(hw.env, old(hw.IoState()), Mx25Flash, ReadPlan(flashAddress, addr4ByteMode, byteLength)[..2]);
      hw.trace == old(hw.trace) + r.events && hw.IoState() == r.io && status == r.value.ok && r.value.rx == []
  {
    ghost var env := hw.env;
    ghost var io1 := hw.IoState();
    ghost var pre := hw.trace;
    var cmd := Command(FLASH_CMD_READ, 0);
    var addr := Xfer(AddrBytes(flashAddress, addr4ByteMode), 0, true);
    assert [] + [cmd] == [cmd] && pre + [] == pre;
    StepsExtend(pre, env, io1, Mx25Flash, [], cmd);
    StepsExtend(pre, env, io1, Mx25Flash, [cmd], addr);
    assert [cmd] + [addr] == [cmd, addr] == ReadPlan(flashAddress, addr4ByteMode, byteLength)[..2];
    var done, _ := SpiTransfer(hw, Mx25Flash, [FLASH_CMD_READ], 0);
    status := done;
    if status {
      status := SendAddr(hw, flashAddress, addr4ByteMode);
    }
  }

  /** The transfers of MX25_READ while chip select is low: the receive runs if command and address went out. */
  method ReadSteps(hw: Hardware, flashAddress: bv32, addr4ByteMode: bool, byteLength: nat)
    returns (status: bool, data: seq<Byte>)
    modifies hw
    ensures var r := Steps(hw.env, old(hw.IoState()), Mx25Flash, ReadPlan(flashAddress, addr4ByteMode, byteLength));
      hw.trace == old(hw.trace) + r.events && hw.IoState() == r.io && status == r.value.ok && data == r.value.rx
  {
    ghost var env := hw.env;
    ghost var io1 := hw.IoState();
    ghost var pre := hw.trace;
    ghost var plan := ReadPlan(flashAddress, addr4ByteMode, byteLength);
    var recv := Xfer([], byteLength % 0x1_0000, false);
    StepsExtend(pre, env, io1, Mx25Flash, plan[..2], recv);
    assert plan == plan[..2] + [recv];
    data := [];
    status := ReadHeadSteps(hw, flashAddress, addr4ByteMode, byteLength);
    if status {
      var _, rx := SpiTransfer(hw, Mx25Flash, [], byteLength % 0x1_0000);
      assert [] + rx == rx;
      data := rx;
    }
  }

  /** The chip-select frame of MX25_READ. */
  method ReadFrame(hw: Hardware, flashAddress: bv32, addr4ByteMode: bool, byteLength: nat)
    returns (status: bool, data: seq<Byte>)
    modifies hw
    ensures var r := FrameSpec(hw.env, old(hw.IoState()), Mx25Flash, ReadPlan(flashAddress, addr4ByteMode, byteLength));
      hw.trace == old(hw.trace) + r.events && hw.IoState() == r.io && status == r.value.ok && data == r.value.rx
  {
    ghost var t0 := hw.trace;
    ghost var s := Steps(hw.env, hw.IoState(), Mx25Flash, ReadPlan(flashAddress, addr4ByteMode, byteLength));
    FlashChipSelectLow(hw);
    status, data := ReadSteps(hw, flashAddress, addr4ByteMode, byteLength);
    FlashChipSelectHigh(hw);
    RegroupFrame(t0, Mx25Flash, s.events);
  }

  /** MX25_READ. The received bytes are returned rather than written through a pointer. */
  method Read(hw: Hardware, flashAddress: bv32, byteLength: nat) returns (msg: FlashMsg, data: seq<Byte>)
    modifies hw
    ensures var r := ReadSpec(hw.env, old(hw.IoState()), flashAddress, byteLength);
      hw.trace == old(hw.trace) + r.events && hw.IoState() == r.io && (msg, data) == r.value
  {
    if flashAddress > FLASH_SIZE {
      return AddressInvalid, [];
    }
    ghost var env := hw.env;
    ghost var t0 := hw.trace;
    ghost var m := Is4ByteSpec(env, hw.IoState());
    var addr4ByteMode := Is4Byte(hw);
    ghost var f := FrameSpec(env, hw.IoState(), Mx25Flash, ReadPlan(flashAddress, addr4ByteMode, byteLength));
    var status;
    status, data := ReadFrame(hw, flashAddress, addr4ByteMode, byteLength);
    Regroup(t0, m.events, f.events);
    msg := if status then Success else OperationFailed;
  }

  /** MX25_WREN. */
  method Wren(hw: Hardware) returns (msg: FlashMsg)
    modifies hw
    ensures var r := WrenSpec(hw.env, old(hw.IoState()));
      hw.trace == old(hw.trace) + r.events && hw.IoState() == r.io && msg == r.value
  {
    var status := FlashWrite(hw, FLASH_CMD_WREN);
    msg := if status then Success else OperationFailed;
  }

  /** MX25_CE. */
  method Ce(hw: Hardware) returns (msg: FlashMsg)
    modifies hw
    ensures var r := CeSpec(hw.env, old(hw.IoState()));
      hw.trace == old(hw.trace) + r.events && hw.IoState() == r.io && msg == r.value
  {
    ghost var env := hw.env;
    ghost var t0 := hw.trace;
    ghost var b := IsBusySpec(env, hw.IoState());
    var busy := IsBusyCheck(hw);
    if busy {
      return IsBusy;
    }
    ghost var w := WrenSpec(env, b.io);
    msg := Wren(hw);
    assert b.events + [] == b.events && t0 + b.events + [] == t0 + b.events;
    if msg != Success {
      TailGrouping(t0, b.events, [], w.events, [], []);
      return msg;
    }
    ghost var c := FrameSpec(env, w.io, Mx25Flash, CePlan());
    ghost var t := TransferSpec(env, w.io, Mx25Flash, [FLASH_CMD_CE], 0);
    StepsSingle(env, w.io, Mx25Flash, Command(FLASH_CMD_CE, 0));
    FlashChipSelectLow(hw);
    var status, _ := SpiTransfer(hw, Mx25Flash, [FLASH_CMD_CE], 0);
    FlashChipSelectHigh(hw);
    RegroupFrame(t0 + b.events + [] + w.events, Mx25Flash, t.events);
    if !status {
      TailGrouping(t0, b.events, [], w.events, c.events, []);
      return OperationFailed;
    }
    ghost var p := WaitTillReadySpec(env, c.io, CHIP_ERASE_CYCLE_TIME);
    var ready := WaitTillReady(hw, CHIP_ERASE_CYCLE_TIME);
    TailGrouping(t0, b.events, [], w.events, c.events, p.events);
    msg := if ready then Success else TimeOut;
  }

  /**
   * How the events of a write command group: `b` the busy check, `m` the mode check
   * (empty for MX25_CE), `w` WREN, `c` the command frame, `p` the wait, after `a`.
   */
  lemma TailGrouping(a: seq<Event>, b: seq<Event>, m: seq<Event>, w: seq<Event>, c: seq<Event>, p: seq<Event>)
    ensures a + b + m + w == a + (b + m + w)
    ensures a + b + m + w + c == a + (b + m + (w + c))
    ensures a + b + m + w + c + p == a + (b + m + (w + c + p))
  {
  }

  /** The chip-select frame of MX25_SE: command, then the address if the command went out. */
  method SeFrame(hw: Hardware, flashAddress: bv32, addr4ByteMode: bool) returns (status: bool)
    modifies hw
    ensures var r := FrameSpec(hw.env, old(hw.IoState()), Mx25Flash, SePlan(flashAddress, addr4ByteMode));
      hw.trace == old(hw.trace) + r.events && hw.IoState() == r.io && status == r.value.ok
  {
    ghost var env := hw.env;
    ghost var t0 := hw.trace;
    ghost var io2 := hw.IoState();
    ghost var pre := hw.trace + [CsLow(Mx25Flash)];
    var cmd := Command(FLASH_CMD_SE, 0);
    var addr := Xfer(AddrBytes(flashAddress, addr4ByteMode), 0, true);
    assert [] + [cmd] == [cmd] && pre + [] == pre;
    StepsExtend(pre, env, io2, Mx25Flash, [], cmd);
    StepsExtend(pre, env, io2, Mx25Flash, [cmd], addr);
    assert SePlan(flashAddress, addr4ByteMode) == [cmd] + [addr];
    FlashChipSelectLow(hw);
    var done, _ := SpiTransfer(hw, Mx25Flash, [FLASH_CMD_SE], 0);
    status := done;
    if status {
      status := SendAddr(hw, flashAddress, addr4ByteMode);
    }
    ghost var s := Steps(env, io2, Mx25Flash, SePlan(flashAddress, addr4ByteMode));
    FlashChipSelectHigh(hw);
    RegroupFrame(t0, Mx25Flash, s.events);
  }

  /** MX25_SE. */
  method Se(hw: Hardware, flashAddress: bv32) returns (msg: FlashMsg)
    modifies hw
    ensures var r := SeSpec(hw.env, old(hw.IoState()), flashAddress);
      hw.trace == old(hw.trace) + r.events && hw.IoState() == r.io && msg == r.value
  {
    if flashAddress > FLASH_SIZE {
      return AddressInvalid;
    }
    ghost var env := hw.env;
    ghost var t0 := hw.trace;
    ghost var b := IsBusySpec(env, hw.IoState());
    var busy := IsBusyCheck(hw);
    if busy {
      return IsBusy;
    }
    ghost var m := Is4ByteSpec(env, b.io);
    var addr4ByteMode := Is4Byte(hw);
    ghost var w := WrenSpec(env, m.io);
    var wren := Wren(hw);
    if wren != Success {
      TailGrouping(t0, b.events, m.events, w.events, [], []);
      return TimeOut;
    }
    ghost var c := FrameSpec(env, w.io, Mx25Flash, SePlan(flashAddress, addr4ByteMode));
    var status := SeFrame(hw, flashAddress, addr4ByteMode);
    if !status {
      TailGrouping(t0, b.events, m.events, w.events, c.events, []);
      return OperationFailed;
    }
    ghost var p := WaitTillReadySpec(env, c.io, SECTOR_ERASE_CYCLE_TIME);
    var ready := WaitTillReady(hw, SECTOR_ERASE_CYCLE_TIME);
    TailGrouping(t0, b.events, m.events, w.events, c.events, p.events);
    msg := if ready then Success else TimeOut;
  }

  /** The transfers of MX25_PP while chip select is low: the address transfer's result is not looked at. */
  method PpSteps(hw: Hardware, flashAddress: bv32, addr4ByteMode: bool, payload: seq<Byte>) returns (status: bool)
    requires |payload| < 0x1_0000
    modifies hw
    ensures var r := Steps(hw.env, old(hw.IoState()), Mx25Flash, PpPlan(flashAddress, addr4ByteMode, payload));
      hw.trace == old(hw.trace) + r.events && hw.IoState() == r.io && status == r.value.ok
  {
    ghost var env := hw.env;
    ghost var io2 := hw.IoState();
    ghost var pre := hw.trace;
    var cmd := Command(FLASH_CMD_PP, 0);
    var addr := Xfer(AddrBytes(flashAddress, addr4ByteMode), 0, false);
    var data := Xfer(payload, 0, true);
    assert [] + [cmd] == [cmd] && pre + [] == pre;
    StepsExtend(pre, env, io2, Mx25Flash, [], cmd);
    StepsExtend(pre, env, io2, Mx25Flash, [cmd], addr);
    StepsExtend(pre, env, io2, Mx25Flash, [cmd, addr], data);
    assert [cmd] + [addr] == [cmd, addr];
    assert PpPlan(flashAddress, addr4ByteMode, payload) == [cmd, addr] + [data];
    var done, _ := SpiTransfer(hw, Mx25Flash, [FLASH_CMD_PP], 0);
    status := done;
    if status {
      var _ := SendAddr(hw, flashAddress, addr4ByteMode);
    }
    if status {
      var done, _ := SpiTransfer(hw, Mx25Flash, payload, 0);
      status := done;
    }
  }

  /** The chip-select frame of MX25_PP. */
  method PpFrame(hw: Hardware, flashAddress: bv32, addr4ByteMode: bool, payload: seq<Byte>) returns (status: bool)
    requires |payload| < 0x1_0000
    modifies hw
    ensures var r := FrameSpec(hw.env, old(hw.IoState()), Mx25Flash, PpPlan(flashAddress, addr4ByteMode, payload));
      hw.trace == old(hw.trace) + r.events && hw.IoState() == r.io && status == r.value.ok
  {
    ghost var t0 := hw.trace;
    ghost var s := Steps(hw.env, hw.IoState(), Mx25Flash, PpPlan(flashAddress, addr4ByteMode, payload));
    FlashChipSelectLow(hw);
    status := PpSteps(hw, flashAddress, addr4ByteMode, payload);
    FlashChipSelectHigh(hw);
    RegroupFrame(t0, Mx25Flash, s.events);
  }

  /** MX25_PP. `sourceAddress` is the buffer the bytes are taken from. */
  method Pp(hw: Hardware, flashAddress: bv32, sourceAddress: seq<Byte>, byteLength: nat) returns (msg: FlashMsg)
    requires byteLength % 0x1_0000 <= |sourceAddress|
    modifies hw
    ensures var r := PpSpec(hw.env, old(hw.IoState()), flashAddress, sourceAddress, byteLength);
      hw.trace == old(hw.trace) + r.events && hw.IoState() == r.io && msg == r.value
  {
    if flashAddress > FLASH_SIZE {
      return AddressInvalid;
    }
    ghost var env := hw.env;
    ghost var t0 := hw.trace;
    ghost var b := IsBusySpec(env, hw.IoState());
    var busy := IsBusyCheck(hw);
    if busy {
      return IsBusy;
    }
    ghost var m := Is4ByteSpec(env, b.io);
    var addr4ByteMode := Is4Byte(hw);
    ghost var w := WrenSpec(env, m.io);
    var wren := Wren(hw);
    if wren != Success {
      TailGrouping(t0, b.events, m.events, w.events, [], []);
      return TimeOut;
    }
    // SPI_Transfer takes the uint32 length as a uint16
    var payload := sourceAddress[..byteLength % 0x1_0000];
    ghost var c := FrameSpec(env, w.io, Mx25Flash, PpPlan(flashAddress, addr4ByteMode, payload));
    var status := PpFrame(hw, flashAddress, addr4ByteMode, payload);
    if !status {
      TailGrouping(t0, b.events, m.events, w.events, c.events, []);
      return TimeOut;
    }
    ghost var p := WaitTillReadySpec(env, c.io, PAGE_PROGRAM_CYCLE_TIME);
    var ready := WaitTillReady(hw, PAGE_PROGRAM_CYCLE_TIME);
    TailGrouping(t0, b.events, m.events, w.events, c.events, p.events);
    msg := if ready then Success else TimeOut;
  }

  /** MX25_DP. */
  method Dp(hw: Hardware) returns (msg: FlashMsg)
    modifies hw
    ensures var r := DpSpec(hw.env, old(hw.IoState()));
      hw.trace == old(hw.trace) + r.events && hw.IoState() == r.io && msg == r.value
  {
    ghost var t0 := hw.trace;
    ghost var f := FrameSpec(hw.env, hw.IoState(), Mx25Flash, [Command(FLASH_CMD_DP, 0)]);
    var status := FlashWrite(hw, FLASH_CMD_DP);
    hw.Sleep(STANDBY_TO_DP_MODE_DELAY);
    Regroup(t0, f.events, [Delay(STANDBY_TO_DP_MODE_DELAY)]);
    msg := if status then Success else OperationFailed;
  }

  /** MX25_WAKE. */
  method Wake(hw: Hardware)
    modifies hw
    ensures var r := WakeSpec(old(hw.IoState()));
      hw.trace == old(hw.trace) + r.events && hw.IoState() == r.io
  {
    FlashChipSelectLow(hw);
    hw.Sleep(WAKE_UP_CS_PIN_LOW_TIME);
    FlashChipSelectHigh(hw);
    hw.Sleep(DP_TO_STANDBY_MODE_DELAY);
  }

  /** MX25_Init: the pin configuration is not modelled; the chip select is driven high. */
  method Init(hw: Hardware) returns (ok: bool)
    modifies hw
    ensures hw.trace == old(hw.trace) + [CsHigh(Mx25Flash)] && hw.IoState() == old(hw.IoState()) && ok
  {
    FlashChipSelectHigh(hw);
    ok := true;
  }
}
