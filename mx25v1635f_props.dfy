/**
 * What the MX25V1635F driver promises, stated over the specification functions of
 * module Mx25: the address encoding, the dummy cycles, the identification reads, the
 * address and busy gates, the write-enable guard of every erase and program, the WIP
 * poll and its time bound, the line discipline of every command and the uint16
 * truncation of transfer lengths.
 */
module Mx25Props {
  import opened Platform
  import opened SpiCore
  import opened Frame
  import opened Mx25Defs
  import opened Mx25

  // ---------------------------------------------------------------------------
  // Address encoding

  /**
   * flashSendAddr sends four bytes A31..A0 in 4-byte mode and otherwise the three
   * bytes A23..A0, dropping the top byte; the flash decodes them big-endian.
   */
  lemma AddressRoundTrip(addr: bv32)
    ensures |AddrBytes(addr, true)| == 4 && BigEndian(AddrBytes(addr, true)) == addr
    ensures |AddrBytes(addr, false)| == 3 && BigEndian(AddrBytes(addr, false)) == addr & 0xFF_FFFF
    ensures AddrBytes(addr, false) == AddrBytes(addr, true)[1..]
  {
    FourBytesRoundTrip(addr);
    ThreeBytesRoundTrip(addr);
  }

  lemma FourBytesRoundTrip(addr: bv32)
    ensures BigEndian(AddrBytes(addr, true)) == addr
  {
    LoWiden(addr >> 24);
    LoWiden(addr >> 16);
    LoWiden(addr >> 8);
    LoWiden(addr);
    ByteLanes(addr);
  }

  lemma ThreeBytesRoundTrip(addr: bv32)
    ensures BigEndian(AddrBytes(addr, false)) == addr & 0xFF_FFFF
  {
    LoWiden(addr >> 16);
    LoWiden(addr >> 8);
    LoWiden(addr);
    ByteLanes(addr);
  }

  /** Widening the low byte back to 32 bits keeps just the low eight bits. */
  lemma LoWiden(x: bv32)
    ensures Lo(x) as bv32 == x & 0xFF
  {
  }

  /** A 32-bit value is the union of its four byte lanes. */
  lemma ByteLanes(x: bv32)
    ensures (((x >> 24) & 0xFF) << 24) | (((x >> 16) & 0xFF) << 16) | (((x >> 8) & 0xFF) << 8) | (x & 0xFF) == x
    ensures (((x >> 16) & 0xFF) << 16) | (((x >> 8) & 0xFF) << 8) | (x & 0xFF) == x & 0xFF_FFFF
  {
  }

  /** Every address the range check lets through fits the three bytes of 3-byte mode. */
  lemma ValidAddressFitsThreeBytes(addr: bv32)
    requires addr <= FLASH_SIZE
    ensures BigEndian(AddrBytes(addr, false)) == addr
  {
    AddressRoundTrip(addr);
  }

  /** Distinct addresses the range check lets through are sent as distinct bytes in either mode. */
  lemma AddressEncodingInjective(a: bv32, b: bv32, fourByte: bool)
    requires a <= FLASH_SIZE && b <= FLASH_SIZE && a != b
    ensures AddrBytes(a, fourByte) != AddrBytes(b, fourByte)
  {
    AddressRoundTrip(a);
    AddressRoundTrip(b);
  }

  // ---------------------------------------------------------------------------
  // Dummy cycles

  /** flashInsertDummyCycle(0) does nothing and succeeds. */
  lemma NoDummyCycles(env: Env, io: Io)
    ensures Steps(env, io, Mx25Flash, Dummies(0)) == Run([], io, Transferred(true, []))
  {
    assert Dummies(0) == [];
  }

  lemma {:induction false} DummiesCalls(n: nat)
    decreases n
    ensures PlanCalls(Dummies(n)) == 2 * n && AllChecked(Dummies(n))
  {
    if n > 0 {
      assert Dummies(n)[1..] == Dummies(n - 1);
      DummiesCalls(n - 1);
    }
  }

  /** flashInsertDummyCycle(n) returns true exactly when all 2n mutex takes and transmits succeed. */
  lemma DummyCyclesOkIff(env: Env, io: Io, n: nat)
    ensures Steps(env, io, Mx25Flash, Dummies(n)).value.ok <==> Healthy(env, io.next, 2 * n)
  {
    DummiesCalls(n);
    if Steps(env, io, Mx25Flash, Dummies(n)).value.ok {
      StepsOkOnlyIfHealthy(env, io, Mx25Flash, Dummies(n));
    }
    if Healthy(env, io.next, 2 * n) {
      StepsHealthy(env, io, Mx25Flash, Dummies(n));
    }
  }

  /**
   * Every byte flashInsertDummyCycle(n) puts on the wire is FFh, one per cycle; all n
   * go out when it succeeds, fewer when a cycle fails before reaching the bus.
   */
  lemma {:induction false} DummyCyclesSend(env: Env, io: Io, n: nat)
    decreases n
    ensures var s := Steps(env, io, Mx25Flash, Dummies(n));
      var sent := Sent(s.events);
      |sent| <= n && (forall i :: 0 <= i < |sent| ==> sent[i] == DUMMY_BYTE) &&
      (s.value.ok ==> |sent| == n)
  {
    if n > 0 {
      var t := TransferSpec(env, io, Mx25Flash, [DUMMY_BYTE], 0);
      TransferSent(env, io, Mx25Flash, [DUMMY_BYTE], 0);
      assert Dummies(n)[0] == DummyXfer && Dummies(n)[1..] == Dummies(n - 1);
      if t.value.ok {
        var rest := Steps(env, t.io, Mx25Flash, Dummies(n - 1));
        DummyCyclesSend(env, t.io, n - 1);
        SentAppend(t.events, rest.events);
      }
    } else {
      NoDummyCycles(env, io);
    }
  }

  // ---------------------------------------------------------------------------
  // Identification

  /**
   * MX25_RDID succeeds exactly when the mutex, the transmit of 9Fh and the 3-byte
   * receive all succeed; it then yields b0<<16 | b1<<8 | b2 of the received bytes, and
   * otherwise leaves the caller's id as it was.
   */
  lemma RdidResult(env: Env, io: Io, id: bv32)
    ensures var r := RdidSpec(env, io, id);
      var rx := Fit(env.hal(io.next + 2).rx, 3);
      (r.value.0 == Success <==> Healthy(env, io.next, 3)) &&
      (r.value.0 == Success ==> r.value.1 == (rx[0] as bv32 << 16) | (rx[1] as bv32 << 8) | rx[2] as bv32) &&
      (r.value.0 != Success ==> r.value == (OperationFailed, id))
  {
    var plan := [Command(FLASH_CMD_RDID, 3)];
    assert plan[1..] == [] && PlanCalls(plan) == 3 && AllChecked(plan);
    FrameOkIff(env, io, Mx25Flash, plan);
    if Healthy(env, io.next, 3) {
      FrameHealthy(env, io, Mx25Flash, plan);
      HealthyRxCons(env, io.next, plan, io.next + 3);
      assert HealthyRx(env, io.next, plan) == Fit(env.hal(io.next + 2).rx, 3) + [];
    }
  }

  /** The datasheet's RDID answer C2h 23h 15h is read as FLASH_DEVICE_ID. */
  lemma RdidReadsDeviceId(env: Env, io: Io, id: bv32)
    requires Healthy(env, io.next, 3) && env.hal(io.next + 2).rx == [0xC2, 0x23, 0x15]
    ensures RdidSpec(env, io, id).value == (Success, FLASH_DEVICE_ID)
  {
    RdidResult(env, io, id);
  }

  /** MX25_RDID keeps the line discipline and sends its opcode whenever it gets the mutex. */
  lemma RdidOpcodes(env: Env, io: Io, id: bv32)
    ensures Disciplined(RdidSpec(env, io, id).events, Mx25Flash)
    ensures Opcodes(RdidSpec(env, io, id).events) == if env.hal(io.next).ok then [FLASH_CMD_RDID] else []
  {
    FrameDisciplined(env, io, Mx25Flash, [Command(FLASH_CMD_RDID, 3)]);
    FrameOpcodes(env, io, Mx25Flash, [Command(FLASH_CMD_RDID, 3)], false);
  }

  /**
   * MX25_REMS succeeds exactly when its nine decisions succeed: 90h, two dummy bytes,
   * then the ArrangeOpt byte and a 2-byte receive. It then yields b0<<8 | b1 and has
   * sent exactly those four bytes; otherwise it leaves the caller's id as it was.
   */
  lemma RemsResult(env: Env, io: Io, id: bv16, fs: FlashStatus)
    ensures var r := RemsSpec(env, io, id, fs);
      var rx := Fit(env.hal(io.next + 8).rx, 2);
      (r.value.0 == Success <==> Healthy(env, io.next, 9)) &&
      (r.value.0 == Success ==>
        r.value.1 == (rx[0] as bv16 << 8) | rx[1] as bv16 &&
        Sent(r.events) == [FLASH_CMD_REMS, DUMMY_BYTE, DUMMY_BYTE, if fs.arrangeOpt then 1 else 0]) &&
      (r.value.0 != Success ==> r.value == (OperationFailed, id))
  {
    var plan := RemsPlan(fs.arrangeOpt);
    RemsPlanFacts(env, io.next, fs.arrangeOpt);
    FrameOkIff(env, io, Mx25Flash, plan);
    if Healthy(env, io.next, 9) {
      FrameHealthy(env, io, Mx25Flash, plan);
    }
  }

  /** The calls, the bytes sent and the bytes received of the REMS plan. */
  lemma RemsPlanFacts(env: Env, from: nat, arrangeOpt: bool)
    ensures var plan := RemsPlan(arrangeOpt);
      AllChecked(plan) && PlanCalls(plan) == 9 &&
      SendsOf(plan) == [FLASH_CMD_REMS, DUMMY_BYTE, DUMMY_BYTE, if arrangeOpt then 1 else 0] &&
      HealthyRx(env, from, plan) == Fit(env.hal(from + 8).rx, 2)
  {
    var plan := RemsPlan(arrangeOpt);
    RemsPlanReceivesTwo(arrangeOpt);
    var p3, p2, p1 := plan[3..], plan[2..], plan[1..];
    assert p3[1..] == [] && p2[1..] == p3 && p1[1..] == p2;
    assert PlanCalls(p3) == 3 && PlanCalls(p2) == 5 && PlanCalls(p1) == 7;
    assert SendsOf(p3) == [if arrangeOpt then 1 else 0];
    assert SendsOf(p1) == [DUMMY_BYTE, DUMMY_BYTE, if arrangeOpt then 1 else 0];
    HealthyRxCons(env, from, plan, from + 2);
    HealthyRxCons(env, from + 2, p1, from + 4);
    HealthyRxCons(env, from + 4, p2, from + 6);
    HealthyRxCons(env, from + 6, p3, from + 9);
    assert HealthyRx(env, from + 6, p3) == Fit(env.hal(from + 8).rx, 2) + [];
  }

  /** With ArrangeOpt 0 the answer C2h 15h is REMS_ID_0; with ArrangeOpt 1 the answer 15h C2h is REMS_ID_1. */
  lemma RemsReadsIds(env: Env, io: Io, id: bv16, fs: FlashStatus)
    requires Healthy(env, io.next, 9)
    requires env.hal(io.next + 8).rx == if fs.arrangeOpt then [0x15, 0xC2] else [0xC2, 0x15]
    ensures RemsSpec(env, io, id, fs).value == (Success, if fs.arrangeOpt then REMS_ID_1 else REMS_ID_0)
  {
    RemsResult(env, io, id, fs);
  }

  /**
   * MX25_RES succeeds exactly when ABh and its three dummy bytes went out (eight
   * decisions); the receive that follows is not checked. The electronic id is the first
   * byte that receive left when its transfer got the mutex, and the caller's byte otherwise.
   */
  lemma ResResult(env: Env, io: Io, eid: Byte)
    ensures var r := ResSpec(env, io, eid);
      var k := io.next;
      (r.value.0 == Success <==> Healthy(env, k, 8)) &&
      r.value.1 == (if Healthy(env, k, 8) && env.hal(k + 8).ok then Fit(env.hal(k + 9).rx, POINTER_SIZE)[0] else eid)
  {
    ResFrameOutcome(env, io);
  }

  /**
   * The frame of MX25_RES succeeds exactly when the command and the dummy bytes went
   * out; the receive's own status is ignored.
   */
  lemma ResFrameOutcome(env: Env, io: Io)
    ensures var f := FrameSpec(env, io, Mx25Flash, ResPlan());
      var k := io.next;
      (f.value.ok <==> Healthy(env, k, 8)) &&
      (f.value.ok ==> f.value.rx == (if env.hal(k + 8).ok then Fit(env.hal(k + 9).rx, POINTER_SIZE) else [])) &&
      (!f.value.ok ==> f.value.rx == [])
  {
    var head := ResPlan()[..4];
    ResHeadCalls();
    ResFrameSplit(env, io);
    var p := Steps(env, io, Mx25Flash, head);
    if p.value.ok {
      StepsOkOnlyIfHealthy(env, io, Mx25Flash, head);
    }
    if Healthy(env, io.next, 8) {
      ResHeadHealthy(env, io);
      ResFrameReceive(env, io);
    }
  }

  /** Once the command and dummy transfers succeeded, the frame holds what the unchecked receive left. */
  lemma ResFrameReceive(env: Env, io: Io)
    requires var p := Steps(env, io, Mx25Flash, ResPlan()[..4]);
      p.value.ok && p.value.rx == [] && p.io.next == io.next + 8
    ensures FrameSpec(env, io, Mx25Flash, ResPlan()).value.rx ==
      if env.hal(io.next + 8).ok then Fit(env.hal(io.next + 9).rx, POINTER_SIZE) else []
  {
    var p := Steps(env, io, Mx25Flash, ResPlan()[..4]);
    var t := TransferSpec(env, p.io, Mx25Flash, [], POINTER_SIZE);
    ResFrameSplit(env, io);
    assert FrameSpec(env, io, Mx25Flash, ResPlan()).value.rx == [] + t.value.rx;
    ReceiveOnly(env, p.io, Mx25Flash, POINTER_SIZE);
  }

  /** With its eight decisions succeeding, the command and dummy transfers of MX25_RES succeed. */
  lemma ResHeadHealthy(env: Env, io: Io)
    requires Healthy(env, io.next, 8)
    ensures var p := Steps(env, io, Mx25Flash, ResPlan()[..4]);
      p.value.ok && p.value.rx == [] && p.io.next == io.next + 8
  {
    ResHeadCalls();
    StepsHealthy(env, io, Mx25Flash, ResPlan()[..4]);
  }

  /** A transfer that only receives delivers what its receive left, once it has the mutex. */
  lemma ReceiveOnly(env: Env, io: Io, dev: Device, n: nat)
    requires !dev.Unrecognized? && n > 0
    ensures TransferSpec(env, io, dev, [], n).value.rx ==
      if env.hal(io.next).ok then Fit(env.hal(io.next + 1).rx, n) else []
  {
  }

  /** The command and dummy transfers of MX25_RES: two HAL decisions each, nothing received. */
  lemma ResHeadCalls()
    ensures var head := ResPlan()[..4];
      AllChecked(head) && PlanCalls(head) == 8 && TotalRecv(head) == 0
  {
    var head := ResPlan()[..4];
    assert head[1..][1..][1..][1..] == [];
    assert PlanCalls(head[1..][1..][1..]) == 2 && TotalRecv(head[1..][1..][1..]) == 0;
    assert PlanCalls(head[1..][1..]) == 4 && TotalRecv(head[1..][1..]) == 0;
    assert PlanCalls(head[1..]) == 6 && TotalRecv(head[1..]) == 0;
  }

  /** The frame of MX25_RES is its command and dummy transfers, then an unchecked receive. */
  lemma ResFrameSplit(env: Env, io: Io)
    ensures var p := Steps(env, io, Mx25Flash, ResPlan()[..4]);
      var t := TransferSpec(env, p.io, Mx25Flash, [], POINTER_SIZE);
      FrameSpec(env, io, Mx25Flash, ResPlan()).value ==
        if p.value.ok then Transferred(true, p.value.rx + t.value.rx) else p.value
  {
    var plan := ResPlan();
    assert plan == plan[..4] + [plan[4]];
    StepsSnoc(env, io, Mx25Flash, plan[..4], plan[4]);
  }

  // ---------------------------------------------------------------------------
  // Status reads and the WIP poll

  /**
   * MX25_RDSR succeeds exactly when its three decisions succeed and then yields the
   * received byte; otherwise the caller's byte is kept.
   */
  lemma RdsrResult(env: Env, io: Io, reg: Byte)
    ensures var r := RdsrSpec(env, io, reg);
      (r.value.0 == Success <==> Healthy(env, io.next, 3)) &&
      r.value.1 == if Healthy(env, io.next, 3) then Fit(env.hal(io.next + 2).rx, 1)[0] else reg
  {
    RegisterReadResult(env, io, FLASH_CMD_RDSR, reg);
  }

  /** MX25_RDSCUR, like MX25_RDSR, for the security register. */
  lemma RdscurResult(env: Env, io: Io, reg: Byte)
    ensures var r := RdscurSpec(env, io, reg);
      (r.value.0 == Success <==> Healthy(env, io.next, 3)) &&
      r.value.1 == if Healthy(env, io.next, 3) then Fit(env.hal(io.next + 2).rx, 1)[0] else reg
  {
    RegisterReadResult(env, io, FLASH_CMD_RDSCUR, reg);
  }

  lemma RegisterReadResult(env: Env, io: Io, cmd: Byte, reg: Byte)
    ensures var r := RegisterReadSpec(env, io, cmd, reg);
      (r.value.0 == Success <==> Healthy(env, io.next, 3)) &&
      r.value.1 == if Healthy(env, io.next, 3) then Fit(env.hal(io.next + 2).rx, 1)[0] else reg
  {
    var plan := [Command(cmd, 1)];
    assert plan[1..] == [] && PlanCalls(plan) == 3 && AllChecked(plan);
    FrameOkIff(env, io, Mx25Flash, plan);
    if Healthy(env, io.next, 3) {
      FrameHealthy(env, io, Mx25Flash, plan);
      HealthyRxCons(env, io.next, plan, io.next + 3);
      assert HealthyRx(env, io.next, plan) == Fit(env.hal(io.next + 2).rx, 1) + [];
    }
  }

  /**
   * flashIsBusy tests bit 0 of the status byte read; when the read fails it tests
   * whatever the uninitialised buffer held.
   */
  lemma IsBusyReadsWip(env: Env, io: Io)
    ensures IsBusySpec(env, io).value ==
      ((if Healthy(env, io.next, 3) then Fit(env.hal(io.next + 2).rx, 1)[0] else env.stale(io.next))
         & FLASH_WIP_MASK == FLASH_WIP_MASK)
  {
    RdsrResult(env, io, env.stale(io.next));
  }

  /** flashIs4Byte tests bit 2 of the security byte read, or of the uninitialised buffer. */
  lemma Is4ByteReadsMode(env: Env, io: Io)
    ensures Is4ByteSpec(env, io).value ==
      ((if Healthy(env, io.next, 3) then Fit(env.hal(io.next + 2).rx, 1)[0] else env.stale(io.next))
         & FLASH_4BYTE_MASK == FLASH_4BYTE_MASK)
  {
    RdscurResult(env, io, env.stale(io.next));
  }

  /** On a prompt bus the status read takes no time. */
  lemma PromptIsBusy(env: Env, io: Io)
    requires Prompt(env)
    ensures IsBusySpec(env, io).io.ticks == io.ticks
  {
    PromptFrame(env, io, Mx25Flash, [Command(FLASH_CMD_RDSR, 1)]);
  }

  /**
   * flashWaitTillReady gives up only once more than the bound has passed since its
   * start; time only moves forward. On a prompt bus it reports ready exactly when it
   * stopped within the bound, and when it gives up the tick count is one past it.
   */
  lemma {:induction false} PollBound(env: Env, io: Io, start: nat, timeout: nat)
    requires start <= io.ticks <= start + timeout
    decreases Remaining(io.ticks, start, timeout), 1
    ensures var r := WaitPoll(env, io, start, timeout);
      io.ticks <= r.io.ticks && (!r.value ==> r.io.ticks > start + timeout)
    ensures var r := WaitPoll(env, io, start, timeout);
      Prompt(env) ==>
        (r.value ==> r.io.ticks <= start + timeout) && (!r.value ==> r.io.ticks == start + timeout + 1)
  {
    var b := IsBusySpec(env, io);
    if Prompt(env) {
      PromptIsBusy(env, io);
    }
    AfterReadBound(env, b.io, b.value, start, timeout);
  }

  lemma {:induction false} AfterReadBound(env: Env, io: Io, busy: bool, start: nat, timeout: nat)
    requires start <= io.ticks
    decreases Remaining(io.ticks, start, timeout), 0
    ensures var r := WaitAfterRead(env, io, busy, start, timeout);
      io.ticks <= r.io.ticks && (!r.value ==> r.io.ticks > start + timeout)
    ensures var r := WaitAfterRead(env, io, busy, start, timeout);
      Prompt(env) && io.ticks <= start + timeout ==>
        (r.value ==> r.io.ticks <= start + timeout) && (!r.value ==> r.io.ticks == start + timeout + 1)
  {
    if busy && io.ticks + 1 - start <= timeout {
      PollBound(env, io.(ticks := io.ticks + 1), start, timeout);
    }
  }

  /**
   * The elapsed time of flashWaitTillReady(t): it gives up only after more than t ms,
   * and it reads the status register at most t + 1 times. On a prompt bus it is ready exactly when at most t ms passed, and takes exactly
   * t + 1 ms when it gives up.
   */
  lemma WaitTillReadyBound(env: Env, io: Io, timeout: nat)
    ensures var r := WaitTillReadySpec(env, io, timeout);
      io.ticks <= r.io.ticks && (!r.value ==> r.io.ticks - io.ticks > timeout)
    ensures |Opcodes(WaitTillReadySpec(env, io, timeout).events)| <= timeout + 1
    ensures var r := WaitTillReadySpec(env, io, timeout);
      Prompt(env) ==>
        (r.value <==> r.io.ticks - io.ticks <= timeout) && (!r.value ==> r.io.ticks - io.ticks == timeout + 1)
  {
    PollBound(env, io, io.ticks, timeout);
    PollTrace(env, io, io.ticks, timeout);
  }

  /** A status read from `last` that began within the bound, found WIP clear and ended at `end`. */
  predicate ClearReadWithin(env: Env, last: Io, start: nat, timeout: nat, end: Io)
  {
    var b := IsBusySpec(env, last);
    start <= last.ticks <= start + timeout && !b.value && b.io == end
  }

  /**
   * flashWaitTillReady reports ready only from a status read that began within the
   * bound and found WIP clear; the wait ends when that read does.
   */
  lemma {:induction false} PollReadyWithinBound(env: Env, io: Io, start: nat, timeout: nat)
    requires start <= io.ticks <= start + timeout
    decreases Remaining(io.ticks, start, timeout)
    ensures var r := WaitPoll(env, io, start, timeout);
      r.value ==> exists last: Io :: ClearReadWithin(env, last, start, timeout, r.io)
  {
    var b := IsBusySpec(env, io);
    if !b.value {
      assert ClearReadWithin(env, io, start, timeout, WaitPoll(env, io, start, timeout).io);
    } else if b.io.ticks + 1 - start <= timeout {
      var slept := b.io.(ticks := b.io.ticks + 1);
      assert WaitPoll(env, io, start, timeout).io == WaitPoll(env, slept, start, timeout).io;
      assert WaitPoll(env, io, start, timeout).value == WaitPoll(env, slept, start, timeout).value;
      PollReadyWithinBound(env, slept, start, timeout);
    }
  }

  /** WIP clear at the first read: flashWaitTillReady returns true at once, without a delay. */
  lemma PollReadyAtOnce(env: Env, io: Io, start: nat, timeout: nat)
    requires start <= io.ticks <= start + timeout && !IsBusySpec(env, io).value
    ensures var b := IsBusySpec(env, io);
      WaitPoll(env, io, start, timeout) == Run(b.events, b.io, true)
  {
    assert IsBusySpec(env, io).events + [] == IsBusySpec(env, io).events;
  }

  /**
   * A device that always answers with WIP set makes flashWaitTillReady give up, past
   * the bound; when no call blocks, exactly one tick past it.
   */
  lemma {:induction false} PollAlwaysBusy(env: Env, io: Io, start: nat, timeout: nat)
    requires start <= io.ticks <= start + timeout
    requires forall k :: env.hal(k).ok && env.hal(k).rx == [FLASH_WIP_MASK]
    decreases Remaining(io.ticks, start, timeout)
    ensures var r := WaitPoll(env, io, start, timeout);
      !r.value && r.io.ticks > start + timeout
    ensures (forall k :: env.hal(k).wait == 0) ==> WaitPoll(env, io, start, timeout).io.ticks == start + timeout + 1
  {
    var b := IsBusySpec(env, io);
    assert Healthy(env, io.next, 3);
    assert Fit(env.hal(io.next + 2).rx, 1) == [FLASH_WIP_MASK];
    IsBusyReadsWip(env, io);
    PollBound(env, io, start, timeout);
    if b.io.ticks + 1 - start <= timeout {
      PollAlwaysBusy(env, b.io.(ticks := b.io.ticks + 1), start, timeout);
    }
  }

  /**
   * A mutex take that times out in the first status read blocks for SPI_TIMEOUT_MS, so
   * with a bound below that flashWaitTillReady decides from the uninitialised status
   * buffer: with WIP set there it gives up after that one read and one delay, with WIP
   * clear it reports ready although more than the bound has passed.
   */
  lemma MutexTimeoutInPoll(env: Env, io: Io, timeout: nat)
    requires timeout < SPI_TIMEOUT_MS && !env.hal(io.next).ok
    ensures var r := WaitTillReadySpec(env, io, timeout);
      var wip := env.stale(io.next) & FLASH_WIP_MASK == FLASH_WIP_MASK;
      r.value == !wip && r.io.ticks - io.ticks > timeout &&
      r.events == [CsLow(Mx25Flash), CsHigh(Mx25Flash)] + (if wip then [Delay(1)] else [])
  {
    var plan := [Command(FLASH_CMD_RDSR, 1)];
    StepsSingle(env, io, Mx25Flash, plan[0]);
    assert plan == [plan[0]];
    var b := IsBusySpec(env, io);
    assert b.events == [CsLow(Mx25Flash), CsHigh(Mx25Flash)];
    assert b.io == Io(io.next + 1, io.ticks + SPI_TIMEOUT_MS);
    IsBusyReadsWip(env, io);
    assert !Healthy(env, io.next, 3);
    var rest := WaitAfterRead(env, b.io, b.value, io.ticks, timeout);
    assert b.events + rest.events == [CsLow(Mx25Flash), CsHigh(Mx25Flash)] + (if b.value then [Delay(1)] else []);
  }

  /** The opcodes a poll sends are all RDSR. */
  predicate OnlyRdsr(ops: seq<Byte>)
  {
    forall i :: 0 <= i < |ops| ==> ops[i] == FLASH_CMD_RDSR
  }

  /**
   * Every poll keeps the line discipline, sends only RDSR and leaves no command
   * half-sent; it sends RDSR at most once per tick left before the bound, and once more.
   */
  lemma {:induction false} PollTrace(env: Env, io: Io, start: nat, timeout: nat)
    requires start <= io.ticks <= start + timeout
    decreases Remaining(io.ticks, start, timeout), 1
    ensures var r := WaitPoll(env, io, start, timeout);
      Disciplined(r.events, Mx25Flash) && OnlyRdsr(Opcodes(r.events)) && !PendingAfter(r.events, false)
    ensures |Opcodes(WaitPoll(env, io, start, timeout).events)| <= Remaining(io.ticks, start, timeout) + 1
  {
    var b := IsBusySpec(env, io);
    var rest := WaitAfterRead(env, b.io, b.value, start, timeout);
    var plan := [Command(FLASH_CMD_RDSR, 1)];
    FrameOpcodes(env, io, Mx25Flash, plan, false);
    FrameDisciplined(env, io, Mx25Flash, plan);
    AfterReadTrace(env, b.io, b.value, start, timeout);
    DisciplinedAppend(b.events, rest.events, Mx25Flash);
    OpcodesAppend(b.events, rest.events, false);
  }

  lemma {:induction false} AfterReadTrace(env: Env, io: Io, busy: bool, start: nat, timeout: nat)
    requires start <= io.ticks
    decreases Remaining(io.ticks, start, timeout), 0
    ensures var r := WaitAfterRead(env, io, busy, start, timeout);
      Disciplined(r.events, Mx25Flash) && OnlyRdsr(Opcodes(r.events)) && !PendingAfter(r.events, false)
    ensures |Opcodes(WaitAfterRead(env, io, busy, start, timeout).events)| <= Remaining(io.ticks, start, timeout)
  {
    DelayOpcodes(1);
    DelayDisciplined(1, Mx25Flash);
    if busy && io.ticks + 1 - start <= timeout {
      var p := WaitPoll(env, io.(ticks := io.ticks + 1), start, timeout);
      PollTrace(env, io.(ticks := io.ticks + 1), start, timeout);
      DisciplinedAppend([Delay(1)], p.events, Mx25Flash);
      OpcodesAppend([Delay(1)], p.events, false);
      assert [] + Opcodes(p.events) == Opcodes(p.events);
    }
  }

  lemma DelayOpcodes(ms: nat)
    ensures Opcodes([Delay(ms)]) == [] && !PendingAfter([Delay(ms)], false)
  {
    var e := [Delay(ms)];
    assert e[0] == Delay(ms) && e[1..] == [];
    assert OpcodesFrom(e, false) == OpcodesFrom([], false);
    assert PendingAfter(e, false) == PendingAfter([], false);
  }

  // ---------------------------------------------------------------------------
  // Address and busy gates

  /** MX25_READ, MX25_SE and MX25_PP refuse an address past FLASH_SIZE before any line or bus event. */
  lemma AddressGate(env: Env, io: Io, addr: bv32, data: seq<Byte>, byteLength: nat)
    requires addr > FLASH_SIZE && byteLength % 0x1_0000 <= |data|
    ensures ReadSpec(env, io, addr, byteLength) == Run([], io, (AddressInvalid, []))
    ensures SeSpec(env, io, addr) == Run([], io, AddressInvalid)
    ensures PpSpec(env, io, addr, data, byteLength) == Run([], io, AddressInvalid)
  {
  }

  /** The range check is `>`: the address FLASH_SIZE, one past the last byte, is let through. */
  lemma FlashSizeLetThrough(env: Env, io: Io, data: seq<Byte>, byteLength: nat)
    requires byteLength % 0x1_0000 <= |data|
    ensures ReadSpec(env, io, FLASH_SIZE, byteLength).value.0 != AddressInvalid
    ensures SeSpec(env, io, FLASH_SIZE).value != AddressInvalid
    ensures PpSpec(env, io, FLASH_SIZE, data, byteLength).value != AddressInvalid
  {
    var b := IsBusySpec(env, io);
    var m := Is4ByteSpec(env, b.io);
    TailCodes(env, m.io, SePlan(FLASH_SIZE, m.value), SECTOR_ERASE_CYCLE_TIME, TimeOut, OperationFailed);
    TailCodes(env, m.io, PpPlan(FLASH_SIZE, m.value, Payload(data, byteLength)), PAGE_PROGRAM_CYCLE_TIME,
              TimeOut, TimeOut);
  }

  /** The results the shared tail of the write commands can have. */
  lemma TailCodes(env: Env, io: Io, plan: seq<Xfer>, timeout: nat, onWrenFail: FlashMsg, onFrameFail: FlashMsg)
    ensures CommandTail(env, io, plan, timeout, onWrenFail, onFrameFail).value in
      {Success, TimeOut, onWrenFail, onFrameFail}
  {
  }

  /**
   * With WIP set at the first status read, MX25_CE, MX25_SE and MX25_PP report
   * FLASH_IS_BUSY having done nothing but that read: no WREN and no command frame.
   */
  lemma BusyGate(env: Env, io: Io, addr: bv32, data: seq<Byte>, byteLength: nat)
    requires IsBusySpec(env, io).value && addr <= FLASH_SIZE && byteLength % 0x1_0000 <= |data|
    ensures var b := IsBusySpec(env, io);
      CeSpec(env, io) == Run(b.events, b.io, IsBusy) &&
      SeSpec(env, io, addr) == Run(b.events, b.io, IsBusy) &&
      PpSpec(env, io, addr, data, byteLength) == Run(b.events, b.io, IsBusy)
    ensures Opcodes(IsBusySpec(env, io).events) <= [FLASH_CMD_RDSR]
  {
    FrameOpcodes(env, io, Mx25Flash, [Command(FLASH_CMD_RDSR, 1)], false);
  }

  // ---------------------------------------------------------------------------
  // The write-enable guard

  /** Opcode `cmd` is only ever sent immediately after a WREN. */
  predicate EnabledBefore(ops: seq<Byte>, cmd: Byte)
  {
    forall i :: 0 <= i < |ops| && ops[i] == cmd ==> 0 < i && ops[i - 1] == FLASH_CMD_WREN
  }

  lemma EnabledBeforeShape(c: seq<Byte>, p: seq<Byte>, cmd: Byte)
    requires c == [] || c == [cmd]
    requires OnlyRdsr(p) && cmd != FLASH_CMD_RDSR && cmd != FLASH_CMD_WREN
    ensures EnabledBefore([FLASH_CMD_WREN] + c + p, cmd)
  {
    var ops := [FLASH_CMD_WREN] + c + p;
    forall i | 0 <= i < |ops| && ops[i] == cmd
      ensures 0 < i && ops[i - 1] == FLASH_CMD_WREN
    {
      assert forall j :: 1 + |c| <= j < |ops| ==> ops[j] == p[j - 1 - |c|];
    }
  }

  lemma EnabledBeforePrefix(a: seq<Byte>, b: seq<Byte>, cmd: Byte)
    requires cmd !in a && EnabledBefore(b, cmd)
    ensures EnabledBefore(a + b, cmd)
  {
    var ops := a + b;
    forall i | 0 <= i < |ops| && ops[i] == cmd
      ensures 0 < i && ops[i - 1] == FLASH_CMD_WREN
    {
      assert forall j :: 0 <= j < |a| ==> ops[j] == a[j];
      if i >= |a| {
        assert ops[i] == b[i - |a|];
        assert i - |a| > 0 && ops[i - 1] == b[i - |a| - 1];
      }
    }
  }

  /**
   * The WREN, command frame and WIP poll that MX25_CE, MX25_SE and MX25_PP end with
   * keep the line discipline, and the command goes out only right after a WREN.
   */
  lemma TailTrace(env: Env, io: Io, plan: seq<Xfer>, timeout: nat, onWrenFail: FlashMsg, onFrameFail: FlashMsg)
    requires |plan| > 0 && plan[0].checked && |plan[0].send| > 0
    requires plan[0].send[0] != FLASH_CMD_RDSR && plan[0].send[0] != FLASH_CMD_WREN
    ensures var t := CommandTail(env, io, plan, timeout, onWrenFail, onFrameFail);
      Disciplined(t.events, Mx25Flash) && !PendingAfter(t.events, false) &&
      EnabledBefore(Opcodes(t.events), plan[0].send[0])
  {
    var w := WrenSpec(env, io);
    WrenTrace(env, io);
    if w.value == Success {
      var c := FrameSpec(env, w.io, Mx25Flash, plan);
      if !c.value.ok {
        TailFrameFailed(env, w.events, w.io, plan);
      } else {
        TailPolled(env, w.events, w.io, plan, timeout);
      }
    } else {
      assert !(plan[0].send[0] in [FLASH_CMD_WREN]);
    }
  }

  /**
   * When WREN fails, the tail reports its WREN code and sends nothing but that WREN;
   * when it reports success, its first two opcodes are WREN and the command.
   */
  lemma TailOutcome(env: Env, io: Io, plan: seq<Xfer>, timeout: nat, onWrenFail: FlashMsg, onFrameFail: FlashMsg)
    requires |plan| > 0 && plan[0].checked && |plan[0].send| > 0
    requires plan[0].send[0] != FLASH_CMD_RDSR && plan[0].send[0] != FLASH_CMD_WREN
    requires onWrenFail != Success && onFrameFail != Success
    ensures var t := CommandTail(env, io, plan, timeout, onWrenFail, onFrameFail);
      var ops := Opcodes(t.events);
      (WrenSpec(env, io).value != Success ==> t.value == onWrenFail && ops <= [FLASH_CMD_WREN]) &&
      (t.value == Success ==> |ops| >= 2 && ops[..2] == [FLASH_CMD_WREN, plan[0].send[0]])
  {
    var w := WrenSpec(env, io);
    WrenTrace(env, io);
    if w.value == Success {
      var c := FrameSpec(env, w.io, Mx25Flash, plan);
      if c.value.ok {
        TailPolled(env, w.events, w.io, plan, timeout);
      }
    }
  }

  /** The WREN frame: its opcode is logged whenever it got the mutex, and always when it succeeded. */
  lemma WrenTrace(env: Env, io: Io)
    ensures var w := WrenSpec(env, io);
      Disciplined(w.events, Mx25Flash) && !PendingAfter(w.events, false) &&
      Opcodes(w.events) <= [FLASH_CMD_WREN] && (w.value == Success ==> Opcodes(w.events) == [FLASH_CMD_WREN])
  {
    var wplan := [Command(FLASH_CMD_WREN, 0)];
    FrameOpcodes(env, io, Mx25Flash, wplan, false);
    FrameDisciplined(env, io, Mx25Flash, wplan);
    if WrenSpec(env, io).value == Success {
      FirstTransferGotMutex(env, io, Mx25Flash, wplan);
    }
  }

  /** After a successful WREN, a command frame that failed. */
  lemma TailFrameFailed(env: Env, wEvents: seq<Event>, io: Io, plan: seq<Xfer>)
    requires |plan| > 0 && plan[0].checked && |plan[0].send| > 0
    requires plan[0].send[0] != FLASH_CMD_RDSR && plan[0].send[0] != FLASH_CMD_WREN
    requires Disciplined(wEvents, Mx25Flash) && !PendingAfter(wEvents, false) && Opcodes(wEvents) == [FLASH_CMD_WREN]
    ensures var c := FrameSpec(env, io, Mx25Flash, plan);
      var e := wEvents + c.events;
      Disciplined(e, Mx25Flash) && !PendingAfter(e, false) && EnabledBefore(Opcodes(e), plan[0].send[0])
  {
    var c := FrameSpec(env, io, Mx25Flash, plan);
    FrameOpcodes(env, io, Mx25Flash, plan, false);
    FrameDisciplined(env, io, Mx25Flash, plan);
    OpcodesAppend(wEvents, c.events, false);
    DisciplinedAppend(wEvents, c.events, Mx25Flash);
    EnabledBeforeShape(Opcodes(c.events), [], plan[0].send[0]);
    assert [FLASH_CMD_WREN] + Opcodes(c.events) + [] == Opcodes(wEvents + c.events);
  }

  /** After a successful WREN, a command frame that succeeded and the WIP poll after it. */
  lemma TailPolled(env: Env, wEvents: seq<Event>, io: Io, plan: seq<Xfer>, timeout: nat)
    requires |plan| > 0 && plan[0].checked && |plan[0].send| > 0
    requires plan[0].send[0] != FLASH_CMD_RDSR && plan[0].send[0] != FLASH_CMD_WREN
    requires Disciplined(wEvents, Mx25Flash) && !PendingAfter(wEvents, false) && Opcodes(wEvents) == [FLASH_CMD_WREN]
    requires FrameSpec(env, io, Mx25Flash, plan).value.ok
    ensures var c := FrameSpec(env, io, Mx25Flash, plan);
      var p := WaitTillReadySpec(env, c.io, timeout);
      var e := wEvents + c.events + p.events;
      var ops := Opcodes(e);
      Disciplined(e, Mx25Flash) && !PendingAfter(e, false) && EnabledBefore(ops, plan[0].send[0]) &&
      |ops| >= 2 && ops[..2] == [FLASH_CMD_WREN, plan[0].send[0]]
  {
    var cmd := plan[0].send[0];
    var c := FrameSpec(env, io, Mx25Flash, plan);
    FrameOpcodes(env, io, Mx25Flash, plan, false);
    FrameDisciplined(env, io, Mx25Flash, plan);
    FirstTransferGotMutex(env, io, Mx25Flash, plan);
    OpcodesAppend(wEvents, c.events, false);
    DisciplinedAppend(wEvents, c.events, Mx25Flash);
    var wc := wEvents + c.events;
    assert Opcodes(wc) == [FLASH_CMD_WREN, cmd];
    var p := WaitTillReadySpec(env, c.io, timeout);
    PollTrace(env, c.io, c.io.ticks, timeout);
    OpcodesAppend(wc, p.events, false);
    DisciplinedAppend(wc, p.events, Mx25Flash);
    EnabledBeforeShape([cmd], Opcodes(p.events), cmd);
    assert [FLASH_CMD_WREN] + [cmd] + Opcodes(p.events) == Opcodes(wc + p.events);
  }

  /** A status or security register read keeps the discipline and sends at most its own opcode. */
  lemma RegisterReadTrace(env: Env, io: Io, cmd: Byte, reg: Byte)
    ensures var r := RegisterReadSpec(env, io, cmd, reg);
      Disciplined(r.events, Mx25Flash) && !PendingAfter(r.events, false) && Opcodes(r.events) <= [cmd]
  {
    var plan := [Command(cmd, 1)];
    FrameOpcodes(env, io, Mx25Flash, plan, false);
    FrameDisciplined(env, io, Mx25Flash, plan);
  }

  /** Checks run before the tail that send no `cmd` leave the tail's guarantees standing. */
  lemma PrefixTail(pre: seq<Event>, tail: seq<Event>, cmd: Byte)
    requires Disciplined(pre, Mx25Flash) && !PendingAfter(pre, false) && cmd !in Opcodes(pre)
    requires Disciplined(tail, Mx25Flash) && EnabledBefore(Opcodes(tail), cmd)
    ensures Disciplined(pre + tail, Mx25Flash) && EnabledBefore(Opcodes(pre + tail), cmd)
    ensures Opcodes(pre + tail) == Opcodes(pre) + Opcodes(tail)
  {
    DisciplinedAppend(pre, tail, Mx25Flash);
    OpcodesConcat(pre, tail);
    EnabledBeforePrefix(Opcodes(pre), Opcodes(tail), cmd);
  }

  /** Where a `cmd` of the tail can and cannot show up once checks are run before it. */
  lemma PrefixOutcome(pre: seq<Event>, tail: seq<Event>, cmd: Byte)
    requires !PendingAfter(pre, false) && cmd !in Opcodes(pre) && cmd != FLASH_CMD_WREN
    ensures Opcodes(tail) <= [FLASH_CMD_WREN] ==> cmd !in Opcodes(pre + tail)
    ensures |Opcodes(tail)| >= 2 && Opcodes(tail)[..2] == [FLASH_CMD_WREN, cmd] ==> cmd in Opcodes(pre + tail)
  {
    OpcodesConcat(pre, tail);
    if |Opcodes(tail)| >= 2 && Opcodes(tail)[..2] == [FLASH_CMD_WREN, cmd] {
      assert Opcodes(tail)[1] == cmd;
      assert Opcodes(pre + tail)[|Opcodes(pre)| + 1] == cmd;
    }
  }

  /** The busy check and mode check of MX25_SE and MX25_PP, run one after the other. */
  lemma ChecksTrace(env: Env, io: Io)
    ensures var b := IsBusySpec(env, io);
      var m := Is4ByteSpec(env, b.io);
      var e := b.events + m.events;
      Disciplined(e, Mx25Flash) && !PendingAfter(e, false) &&
      forall op :: op in Opcodes(e) ==> op == FLASH_CMD_RDSR || op == FLASH_CMD_RDSCUR
  {
    var b := IsBusySpec(env, io);
    var m := Is4ByteSpec(env, b.io);
    RegisterReadTrace(env, io, FLASH_CMD_RDSR, env.stale(io.next));
    RegisterReadTrace(env, b.io, FLASH_CMD_RDSCUR, env.stale(b.io.next));
    DisciplinedAppend(b.events, m.events, Mx25Flash);
    OpcodesAppend(b.events, m.events, false);
  }

  /**
   * MX25_CE keeps the line discipline, and sends the chip-erase opcode only immediately
   * after a WREN.
   */
  lemma CeTrace(env: Env, io: Io)
    ensures var r := CeSpec(env, io);
      Disciplined(r.events, Mx25Flash) && EnabledBefore(Opcodes(r.events), FLASH_CMD_CE)
  {
    var b := IsBusySpec(env, io);
    RegisterReadTrace(env, io, FLASH_CMD_RDSR, env.stale(io.next));
    if !b.value {
      var plan := CePlan();
      var t := CommandTail(env, b.io, plan, CHIP_ERASE_CYCLE_TIME, OperationFailed, OperationFailed);
      TailTrace(env, b.io, plan, CHIP_ERASE_CYCLE_TIME, OperationFailed, OperationFailed);
      PrefixTail(b.events, t.events, FLASH_CMD_CE);
    } else {
      assert FLASH_CMD_CE !in [FLASH_CMD_RDSR];
    }
  }

  /**
   * MX25_CE: when WREN fails, its failure code is passed on and no chip erase is sent;
   * when the result is success, the erase was sent right after WREN.
   */
  lemma CeOutcome(env: Env, io: Io)
    ensures var r := CeSpec(env, io);
      var b := IsBusySpec(env, io);
      var ops := Opcodes(r.events);
      (!b.value && WrenSpec(env, b.io).value != Success ==> r.value == OperationFailed && FLASH_CMD_CE !in ops) &&
      (r.value == Success ==> FLASH_CMD_CE in ops)
  {
    var b := IsBusySpec(env, io);
    RegisterReadTrace(env, io, FLASH_CMD_RDSR, env.stale(io.next));
    if !b.value {
      var plan := CePlan();
      var t := CommandTail(env, b.io, plan, CHIP_ERASE_CYCLE_TIME, OperationFailed, OperationFailed);
      TailOutcome(env, b.io, plan, CHIP_ERASE_CYCLE_TIME, OperationFailed, OperationFailed);
      PrefixOutcome(b.events, t.events, FLASH_CMD_CE);
    }
  }

  /**
   * MX25_SE keeps the line discipline, and sends the sector-erase opcode only
   * immediately after a WREN.
   */
  lemma SeTrace(env: Env, io: Io, addr: bv32)
    ensures var r := SeSpec(env, io, addr);
      Disciplined(r.events, Mx25Flash) && EnabledBefore(Opcodes(r.events), FLASH_CMD_SE)
  {
    if addr <= FLASH_SIZE {
      var b := IsBusySpec(env, io);
      RegisterReadTrace(env, io, FLASH_CMD_RDSR, env.stale(io.next));
      if !b.value {
        var m := Is4ByteSpec(env, b.io);
        var plan := SePlan(addr, m.value);
        var t := CommandTail(env, m.io, plan, SECTOR_ERASE_CYCLE_TIME, TimeOut, OperationFailed);
        ChecksTrace(env, io);
        TailTrace(env, m.io, plan, SECTOR_ERASE_CYCLE_TIME, TimeOut, OperationFailed);
        PrefixTail(b.events + m.events, t.events, FLASH_CMD_SE);
      } else {
        assert FLASH_CMD_SE !in [FLASH_CMD_RDSR];
      }
    }
  }

  /**
   * MX25_SE: when WREN fails it reports a time-out and no sector erase is sent; when the
   * result is success, the erase was sent right after WREN.
   */
  lemma SeOutcome(env: Env, io: Io, addr: bv32)
    requires addr <= FLASH_SIZE
    ensures var r := SeSpec(env, io, addr);
      var b := IsBusySpec(env, io);
      var m := Is4ByteSpec(env, b.io);
      var ops := Opcodes(r.events);
      (!b.value && WrenSpec(env, m.io).value != Success ==> r.value == TimeOut && FLASH_CMD_SE !in ops) &&
      (r.value == Success ==> FLASH_CMD_SE in ops)
  {
    var b := IsBusySpec(env, io);
    if !b.value {
      var m := Is4ByteSpec(env, b.io);
      var plan := SePlan(addr, m.value);
      var t := CommandTail(env, m.io, plan, SECTOR_ERASE_CYCLE_TIME, TimeOut, OperationFailed);
      ChecksTrace(env, io);
      TailOutcome(env, m.io, plan, SECTOR_ERASE_CYCLE_TIME, TimeOut, OperationFailed);
      PrefixOutcome(b.events + m.events, t.events, FLASH_CMD_SE);
    }
  }

  /**
   * MX25_PP keeps the line discipline, and sends the page-program opcode only
   * immediately after a WREN.
   */
  lemma PpTrace(env: Env, io: Io, addr: bv32, data: seq<Byte>, byteLength: nat)
    requires byteLength % 0x1_0000 <= |data|
    ensures var r := PpSpec(env, io, addr, data, byteLength);
      Disciplined(r.events, Mx25Flash) && EnabledBefore(Opcodes(r.events), FLASH_CMD_PP)
  {
    if addr <= FLASH_SIZE {
      var b := IsBusySpec(env, io);
      RegisterReadTrace(env, io, FLASH_CMD_RDSR, env.stale(io.next));
      if !b.value {
        var m := Is4ByteSpec(env, b.io);
        var plan := PpPlan(addr, m.value, Payload(data, byteLength));
        var t := CommandTail(env, m.io, plan, PAGE_PROGRAM_CYCLE_TIME, TimeOut, TimeOut);
        ChecksTrace(env, io);
        TailTrace(env, m.io, plan, PAGE_PROGRAM_CYCLE_TIME, TimeOut, TimeOut);
        PrefixTail(b.events + m.events, t.events, FLASH_CMD_PP);
      } else {
        assert FLASH_CMD_PP !in [FLASH_CMD_RDSR];
      }
    }
  }

  /**
   * MX25_PP: when WREN fails it reports a time-out and no page program is sent; when
   * the result is success, the program was sent right after WREN.
   */
  lemma PpOutcome(env: Env, io: Io, addr: bv32, data: seq<Byte>, byteLength: nat)
    requires addr <= FLASH_SIZE && byteLength % 0x1_0000 <= |data|
    ensures var r := PpSpec(env, io, addr, data, byteLength);
      var b := IsBusySpec(env, io);
      var m := Is4ByteSpec(env, b.io);
      var ops := Opcodes(r.events);
      (!b.value && WrenSpec(env, m.io).value != Success ==> r.value == TimeOut && FLASH_CMD_PP !in ops) &&
      (r.value == Success ==> FLASH_CMD_PP in ops)
  {
    var b := IsBusySpec(env, io);
    if !b.value {
      var m := Is4ByteSpec(env, b.io);
      var plan := PpPlan(addr, m.value, Payload(data, byteLength));
      var t := CommandTail(env, m.io, plan, PAGE_PROGRAM_CYCLE_TIME, TimeOut, TimeOut);
      ChecksTrace(env, io);
      TailOutcome(env, m.io, plan, PAGE_PROGRAM_CYCLE_TIME, TimeOut, TimeOut);
      PrefixOutcome(b.events + m.events, t.events, FLASH_CMD_PP);
    }
  }

  // ---------------------------------------------------------------------------
  // MX25_READ

  /** The command and address transfers of MX25_READ: two HAL decisions each. */
  lemma ReadHeadCalls(addr: bv32, fourByte: bool, byteLength: nat)
    ensures var head := ReadPlan(addr, fourByte, byteLength)[..2];
      AllChecked(head) && PlanCalls(head) == 4 && TotalRecv(head) == 0
  {
    AddressRoundTrip(addr);
    var head := ReadPlan(addr, fourByte, byteLength)[..2];
    assert head[1..][1..] == [];
    assert PlanCalls(head[1..]) == HalCalls(head[1].send, 0) + PlanCalls(head[1..][1..]);
    assert TotalRecv(head[1..]) == head[1].recvLen + TotalRecv(head[1..][1..]);
  }

  /** The frame of MX25_READ is its command and address transfers, then an unchecked receive. */
  lemma ReadFrameSplit(env: Env, io: Io, addr: bv32, fourByte: bool, byteLength: nat)
    ensures var p := Steps(env, io, Mx25Flash, ReadPlan(addr, fourByte, byteLength)[..2]);
      var t := TransferSpec(env, p.io, Mx25Flash, [], byteLength % 0x1_0000);
      FrameSpec(env, io, Mx25Flash, ReadPlan(addr, fourByte, byteLength)).value ==
        if p.value.ok then Transferred(true, p.value.rx + t.value.rx) else p.value
  {
    var plan := ReadPlan(addr, fourByte, byteLength);
    assert plan == plan[..2] + [plan[2]];
    StepsSnoc(env, io, Mx25Flash, plan[..2], plan[2]);
  }

  /**
   * The frame of MX25_READ succeeds exactly when the command and the address went out;
   * the data receive's own status is ignored, so on success the bytes are whatever the
   * receive left, or nothing when its transfer did not get the mutex. A failed frame
   * received nothing.
   */
  lemma ReadFrameOutcome(env: Env, io: Io, addr: bv32, fourByte: bool, byteLength: nat)
    ensures var f := FrameSpec(env, io, Mx25Flash, ReadPlan(addr, fourByte, byteLength));
      var k := io.next;
      var len := byteLength % 0x1_0000;
      (f.value.ok <==> Healthy(env, k, 4)) &&
      (f.value.ok ==> f.value.rx == (if len > 0 && env.hal(k + 4).ok then Fit(env.hal(k + 5).rx, len) else [])) &&
      (!f.value.ok ==> f.value.rx == [])
  {
    var head := ReadPlan(addr, fourByte, byteLength)[..2];
    ReadHeadCalls(addr, fourByte, byteLength);
    ReadFrameSplit(env, io, addr, fourByte, byteLength);
    var p := Steps(env, io, Mx25Flash, head);
    if p.value.ok {
      StepsOkOnlyIfHealthy(env, io, Mx25Flash, head);
    }
    if Healthy(env, io.next, 4) {
      StepsHealthy(env, io, Mx25Flash, head);
      assert head[1..][1..] == [];
      assert HealthyRx(env, io.next, head) == [];
    }
  }

  /** MX25_READ: the frame's outcome above, taken after the RDSCUR read of the address mode. */
  lemma ReadOutcome(env: Env, io: Io, addr: bv32, byteLength: nat)
    requires addr <= FLASH_SIZE
    ensures var m := Is4ByteSpec(env, io);
      var r := ReadSpec(env, io, addr, byteLength);
      var k := m.io.next;
      var len := byteLength % 0x1_0000;
      (r.value.0 == Success <==> Healthy(env, k, 4)) &&
      (r.value.0 == Success ==>
        r.value.1 == (if len > 0 && env.hal(k + 4).ok then Fit(env.hal(k + 5).rx, len) else [])) &&
      (r.value.0 != Success ==> r.value == (OperationFailed, []))
  {
    var m := Is4ByteSpec(env, io);
    ReadFrameOutcome(env, m.io, addr, m.value, byteLength);
  }

  /** MX25_READ keeps the line discipline and sends no opcode but RDSCUR and READ. */
  lemma ReadTrace(env: Env, io: Io, addr: bv32, byteLength: nat)
    ensures var r := ReadSpec(env, io, addr, byteLength);
      Disciplined(r.events, Mx25Flash) &&
      forall op :: op in Opcodes(r.events) ==> op == FLASH_CMD_RDSCUR || op == FLASH_CMD_READ
  {
    if addr <= FLASH_SIZE {
      var m := Is4ByteSpec(env, io);
      var plan := ReadPlan(addr, m.value, byteLength);
      var f := FrameSpec(env, m.io, Mx25Flash, plan);
      RegisterReadTrace(env, io, FLASH_CMD_RDSCUR, env.stale(io.next));
      FrameOpcodes(env, m.io, Mx25Flash, plan, false);
      FrameDisciplined(env, m.io, Mx25Flash, plan);
      DisciplinedAppend(m.events, f.events, Mx25Flash);
      OpcodesConcat(m.events, f.events);
    }
  }

  /** The length is a uint16: MX25_READ of `n + 65536` bytes is MX25_READ of `n` bytes. */
  lemma ReadLengthWraps(env: Env, io: Io, addr: bv32, n: nat)
    ensures ReadSpec(env, io, addr, n + 0x1_0000) == ReadSpec(env, io, addr, n)
  {
    assert (n + 0x1_0000) % 0x1_0000 == n % 0x1_0000;
    var m := Is4ByteSpec(env, io);
    assert ReadPlan(addr, m.value, n + 0x1_0000) == ReadPlan(addr, m.value, n);
  }

  /** The same holds for the payload of MX25_PP. */
  lemma PpLengthWraps(env: Env, io: Io, addr: bv32, data: seq<Byte>, n: nat)
    requires n % 0x1_0000 <= |data|
    ensures PpSpec(env, io, addr, data, n + 0x1_0000) == PpSpec(env, io, addr, data, n)
  {
    assert (n + 0x1_0000) % 0x1_0000 == n % 0x1_0000;
    assert Payload(data, n + 0x1_0000) == Payload(data, n);
    var b := IsBusySpec(env, io);
    var m := Is4ByteSpec(env, b.io);
    assert PpPlan(addr, m.value, Payload(data, n + 0x1_0000)) == PpPlan(addr, m.value, Payload(data, n));
  }

  /**
   * MX25_PP ignores the result of the address transfer: with the command and the data
   * transfers healthy, the frame succeeds even though the address transmit failed.
   */
  lemma PpIgnoresAddressFailure(env: Env, io: Io, addr: bv32, fourByte: bool, payload: seq<Byte>)
    requires |payload| > 0
    requires Healthy(env, io.next, 3) && !env.hal(io.next + 3).ok && Healthy(env, io.next + 4, 2)
    ensures FrameSpec(env, io, Mx25Flash, PpPlan(addr, fourByte, payload)).value.ok
  {
    AddressRoundTrip(addr);
    var plan := PpPlan(addr, fourByte, payload);
    var c := plan[..1];
    assert plan == c + plan[1..2] + plan[2..];
    assert c + plan[1..2] == plan[..2];
    assert plan[..2] == c + [plan[1]];
    assert plan[2..] == [plan[2]];
    assert c[1..] == [] && PlanCalls(c) == 2;
    StepsHealthy(env, io, Mx25Flash, c);
    var sc := Steps(env, io, Mx25Flash, c);
    StepsSnoc(env, io, Mx25Flash, c, plan[1]);
    var a := TransferSpec(env, sc.io, Mx25Flash, plan[1].send, 0);
    assert a.io.next == io.next + 4;
    StepsSnoc(env, io, Mx25Flash, plan[..2], plan[2]);
    TransferHealthy(env, Steps(env, io, Mx25Flash, plan[..2]).io, Mx25Flash, payload, 0);
  }

  // ---------------------------------------------------------------------------
  // MX25_DP and MX25_WAKE

  /**
   * MX25_DP always ends with the tDP delay, whatever its frame did; it succeeds exactly
   * when the B9h frame's two HAL decisions succeed, and otherwise reports a failure.
   */
  lemma DpOutcome(env: Env, io: Io)
    ensures var r := DpSpec(env, io);
      |r.events| > 0 && r.events[|r.events| - 1] == Delay(STANDBY_TO_DP_MODE_DELAY) &&
      r.io.ticks == FrameSpec(env, io, Mx25Flash, [Command(FLASH_CMD_DP, 0)]).io.ticks + STANDBY_TO_DP_MODE_DELAY &&
      r.io.ticks >= io.ticks + STANDBY_TO_DP_MODE_DELAY &&
      (r.value == Success <==> Healthy(env, io.next, 2)) &&
      (r.value != Success ==> r.value == OperationFailed)
  {
    var plan := [Command(FLASH_CMD_DP, 0)];
    assert plan[1..] == [] && PlanCalls(plan) == 2 && AllChecked(plan);
    FrameOkIff(env, io, Mx25Flash, plan);
  }

  /** MX25_DP keeps the line discipline and logs B9h whenever its transfer got the mutex. */
  lemma DpTrace(env: Env, io: Io)
    ensures var r := DpSpec(env, io);
      Disciplined(r.events, Mx25Flash) &&
      Opcodes(r.events) == if env.hal(io.next).ok then [FLASH_CMD_DP] else []
  {
    var plan := [Command(FLASH_CMD_DP, 0)];
    var f := FrameSpec(env, io, Mx25Flash, plan);
    FrameOpcodes(env, io, Mx25Flash, plan, false);
    FrameDisciplined(env, io, Mx25Flash, plan);
    DelayDisciplined(STANDBY_TO_DP_MODE_DELAY, Mx25Flash);
    DisciplinedAppend(f.events, [Delay(STANDBY_TO_DP_MODE_DELAY)], Mx25Flash);
    OpcodesConcat(f.events, [Delay(STANDBY_TO_DP_MODE_DELAY)]);
    DelayOpcodes(STANDBY_TO_DP_MODE_DELAY);
  }

  /**
   * MX25_WAKE pulses the chip select without touching the bus or the mutex: it keeps
   * the discipline, sends no byte and takes tCRDP + tRDP.
   */
  lemma WakeTrace(io: Io)
    ensures var r := WakeSpec(io);
      Disciplined(r.events, Mx25Flash) && Opcodes(r.events) == [] && Sent(r.events) == [] &&
      r.io.next == io.next && r.io.ticks == io.ticks + WAKE_UP_CS_PIN_LOW_TIME + DP_TO_STANDBY_MODE_DELAY
  {
    var e := WakeSpec(io).events;
    var dev := Mx25Flash;
    assert Walk(e[4..], dev, Idle) == Some(Idle);
    assert Walk(e[3..], dev, Idle) == Some(Idle);
    assert Walk(e[2..], dev, Lines(true, false)) == Some(Idle);
    assert Walk(e[1..], dev, Lines(true, false)) == Some(Idle);
    assert OpcodesFrom(e[4..], false) == [] && OpcodesFrom(e[3..], false) == [];
    assert OpcodesFrom(e[2..], true) == [] && OpcodesFrom(e[1..], true) == [];
    assert Sent(e[4..]) == [] && Sent(e[3..]) == [] && Sent(e[2..]) == [] && Sent(e[1..]) == [];
  }

  // ---------------------------------------------------------------------------
  // The one-frame commands

  /** MX25_RDID, MX25_RES, MX25_REMS, MX25_RDSR, MX25_RDSCUR and MX25_WREN keep the line discipline. */
  lemma OneFrameCommandsDisciplined(env: Env, io: Io, id: bv32, eid: Byte, mid: bv16, fs: FlashStatus, reg: Byte)
    ensures Disciplined(RdidSpec(env, io, id).events, Mx25Flash)
    ensures Disciplined(ResSpec(env, io, eid).events, Mx25Flash)
    ensures Disciplined(RemsSpec(env, io, mid, fs).events, Mx25Flash)
    ensures Disciplined(RdsrSpec(env, io, reg).events, Mx25Flash)
    ensures Disciplined(RdscurSpec(env, io, reg).events, Mx25Flash)
    ensures Disciplined(WrenSpec(env, io).events, Mx25Flash)
  {
    FrameDisciplined(env, io, Mx25Flash, [Command(FLASH_CMD_RDID, 3)]);
    FrameDisciplined(env, io, Mx25Flash, ResPlan());
    FrameDisciplined(env, io, Mx25Flash, RemsPlan(fs.arrangeOpt));
    RegisterReadTrace(env, io, FLASH_CMD_RDSR, reg);
    RegisterReadTrace(env, io, FLASH_CMD_RDSCUR, reg);
    WrenTrace(env, io);
  }
}
