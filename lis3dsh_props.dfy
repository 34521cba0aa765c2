/**
 * What the LIS3DSH driver and its register map promise, stated about the functions of
 * modules Lis3dshRegs and Lis3dsh that the driver's methods are proved to follow.
 */
module Lis3dshProps {
  import opened Platform
  import opened SpiCore
  import opened Frame
  import opened BitFields
  import opened Lis3dshRegs
  import opened Lis3dsh

  // ---------------------------------------------------------------------------
  // The register map

  /** CTRL_REG3 is eight one-bit fields, STRT in bit 0 up to DR_EN in bit 7. */
  lemma CtrlReg3Layout()
    ensures Tiles(CTRL_REG3_WIDTHS, CTRL_REG3_FIELDS) && Sum(CTRL_REG3_WIDTHS) == 8
  {
    var w := CTRL_REG3_WIDTHS;
    assert w[7..][1..] == [];
    assert Sum(w[7..]) == 1;
    assert w[6..][1..] == w[7..] && Sum(w[6..]) == 2;
    assert w[5..][1..] == w[6..] && Sum(w[5..]) == 3;
    assert w[4..][1..] == w[5..] && Sum(w[4..]) == 4;
    assert w[3..][1..] == w[4..] && Sum(w[3..]) == 5;
    assert w[2..][1..] == w[3..] && Sum(w[2..]) == 6;
    assert w[1..][1..] == w[2..] && Sum(w[1..]) == 7;
    var f := CTRL_REG3_FIELDS;
    forall i | 0 <= i < |f| ensures f[i].width == w[i] && InByte(f[i]) && f[i].pos as int == i {
      if i == 0 {} else if i == 1 {} else if i == 2 {} else if i == 3 {}
      else if i == 4 {} else if i == 5 {} else if i == 6 {} else {}
    }
  }

  /** CTRL_REG4: Xen, Yen, Zen, BDU in bits 0 to 3, ODR in bits 4 to 7. */
  lemma CtrlReg4Layout()
    ensures Tiles(CTRL_REG4_WIDTHS, CTRL_REG4_FIELDS) && Sum(CTRL_REG4_WIDTHS) == 8
  {
    var w := CTRL_REG4_WIDTHS;
    assert w[4..][1..] == [];
    assert Sum(w[4..]) == 4;
    assert w[3..][1..] == w[4..] && Sum(w[3..]) == 5;
    assert w[2..][1..] == w[3..] && Sum(w[2..]) == 6;
    assert w[1..][1..] == w[2..] && Sum(w[1..]) == 7;
  }

  /** CTRL_REG5: SIM in bit 0, ST in bits 1-2, FSCALE in bits 3-5, BW in bits 6-7. */
  lemma CtrlReg5Layout()
    ensures Tiles(CTRL_REG5_WIDTHS, CTRL_REG5_FIELDS) && Sum(CTRL_REG5_WIDTHS) == 8
  {
    var w := CTRL_REG5_WIDTHS;
    assert w[3..][1..] == [];
    assert Sum(w[3..]) == 2;
    assert w[2..][1..] == w[3..] && Sum(w[2..]) == 5;
    assert w[1..][1..] == w[2..] && Sum(w[1..]) == 7;
  }

  /** The fields of a layout that tiles the byte share no bit. */
  lemma {:induction false} TilesDisjoint(widths: seq<Byte>, fields: seq<Field>, i: nat, j: nat)
    requires Tiles(widths, fields) && i < j < |fields|
    decreases j - i
    ensures fields[i].pos + fields[i].width <= fields[j].pos
    ensures Disjoint(fields[i], fields[j])
  {
    assert InByte(fields[i]) && InByte(fields[j]);
    if j > i + 1 {
      TilesDisjoint(widths, fields, i + 1, j);
      assert InByte(fields[i + 1]);
      assert fields[i + 1].pos == fields[i].pos + fields[i].width;
    }
  }

  /** The register addresses are distinct and all below the read bit. */
  lemma AddressesDistinct()
    ensures forall i, j :: 0 <= i < j < |ADDRESSES| ==> ADDRESSES[i] != ADDRESSES[j]
    ensures forall i :: 0 <= i < |ADDRESSES| ==> ADDRESSES[i] < LIS3DSH_READ_BITMASK
  {
  }

  /**
   * Setting the read bit in an address below it gives a byte that is no register
   * address and from which the address is recovered by clearing that bit again, so
   * the read commands of two registers differ exactly when the registers do.
   */
  lemma ReadCommandNeverAliases(a: Byte)
    requires a < LIS3DSH_READ_BITMASK
    ensures ReadCommand(a) >= LIS3DSH_READ_BITMASK && ReadCommand(a) & !LIS3DSH_READ_BITMASK == a
    ensures forall j :: 0 <= j < |ADDRESSES| ==> ReadCommand(a) != ADDRESSES[j]
  {
    AddressesDistinct();
  }

  /**
   * The burst read from OUT_X_L covers the six output registers in address order, and
   * the byte positions the driver decodes are those of the named registers.
   */
  lemma OutputRegistersConsecutive()
    ensures |OUTPUT_REGISTERS| == ACCEL_DATA_NUM_BYTES
    ensures forall k :: 0 <= k < |OUTPUT_REGISTERS| ==>
      OUTPUT_REGISTERS[k] as int == LIS3DSH_OUT_X_L_REGISTER_ADDR as int + k
    ensures OUTPUT_REGISTERS[ACCEL_X_LSB] == LIS3DSH_OUT_X_L_REGISTER_ADDR &&
            OUTPUT_REGISTERS[ACCEL_X_MSB] == LIS3DSH_OUT_X_H_REGISTER_ADDR &&
            OUTPUT_REGISTERS[ACCEL_Y_LSB] == LIS3DSH_OUT_Y_L_REGISTER_ADDR &&
            OUTPUT_REGISTERS[ACCEL_Y_MSB] == LIS3DSH_OUT_Y_H_REGISTER_ADDR &&
            OUTPUT_REGISTERS[ACCEL_Z_LSB] == LIS3DSH_OUT_Z_L_REGISTER_ADDR &&
            OUTPUT_REGISTERS[ACCEL_Z_MSB] == LIS3DSH_OUT_Z_H_REGISTER_ADDR
  {
  }

  // ---------------------------------------------------------------------------
  // The register edits

  /**
   * accelConfigure on CTRL_REG4: ODR holds the requested rate's code and BDU is 1;
   * the axis enables keep the values read.
   */
  lemma RateAndBduFields(b: Byte, odr: OutputDataRate)
    ensures var n := Edited(RateAndBdu(odr), b);
      Get(n, ODR) == OdrCode(odr) && Get(n, BDU) == 1 &&
      Get(n, XEN) == Get(b, XEN) && Get(n, YEN) == Get(b, YEN) && Get(n, ZEN) == Get(b, ZEN)
  {
    var m := Set(b, ODR, OdrCode(odr));
    GetSet(b, ODR, OdrCode(odr));
    GetOther(m, BDU, ODR, 1);
    GetSet(m, BDU, 1);
    GetOther(b, ODR, XEN, OdrCode(odr));
    GetOther(m, BDU, XEN, 1);
    GetOther(b, ODR, YEN, OdrCode(odr));
    GetOther(m, BDU, YEN, 1);
    GetOther(b, ODR, ZEN, OdrCode(odr));
    GetOther(m, BDU, ZEN, 1);
  }

  /** accelConfigure on CTRL_REG5: BW holds the requested bandwidth's code; SIM, ST and FSCALE keep the values read. */
  lemma BandwidthFields(b: Byte, bw: AntiAliasBandwidth)
    ensures var n := Edited(Bandwidth(bw), b);
      Get(n, BW) == BwCode(bw) &&
      Get(n, SIM) == Get(b, SIM) && Get(n, ST) == Get(b, ST) && Get(n, FSCALE) == Get(b, FSCALE)
  {
    GetSet(b, BW, BwCode(bw));
    GetOther(b, BW, SIM, BwCode(bw));
    GetOther(b, BW, ST, BwCode(bw));
    GetOther(b, BW, FSCALE, BwCode(bw));
  }

  /**
   * LIS3DSH_EnableInterrupt: IEL, IEA, DR_EN and INT1_EN are 1; STRT, the reserved
   * bit, VFILT and INT2_EN keep the values read.
   */
  lemma Int1DataReadyFields(b: Byte)
    ensures var n := Edited(Int1DataReady, b);
      Get(n, IEL) == 1 && Get(n, IEA) == 1 && Get(n, DR_EN) == 1 && Get(n, INT1_EN) == 1 &&
      Get(n, STRT) == Get(b, STRT) && Get(n, RESERVED) == Get(b, RESERVED) &&
      Get(n, VFILT) == Get(b, VFILT) && Get(n, INT2_EN) == Get(b, INT2_EN)
  {
  }

  /** LIS3DSH_PerformSoftReset: STRT is 1 and every other bit of CTRL_REG3 keeps the value read. */
  lemma StartResetFields(b: Byte)
    ensures var n := Edited(StartReset, b);
      Get(n, STRT) == 1 && n & !Mask(STRT) == b & !Mask(STRT)
  {
    GetSet(b, STRT, 1);
    SetOutside(b, STRT, 1);
  }

  // ---------------------------------------------------------------------------
  // Register reads and writes: accelRead and accelWrite

  /** The one transfer of a register read: what it sends, its decisions and what it receives. */
  lemma ReadPlanFacts(env: Env, from: nat, reg: Byte, n: nat)
    ensures var plan := ReadPlan(reg, n);
      AllChecked(plan) && PlanCalls(plan) == HalCalls([ReadCommand(reg)], n) &&
      SendsOf(plan) == [ReadCommand(reg)] &&
      HealthyRx(env, from, plan) == (if n > 0 then Fit(env.hal(from + 2).rx, n) else [])
  {
    var plan := ReadPlan(reg, n);
    assert plan[1..] == [];
    assert SendsOf(plan) == [ReadCommand(reg)] + [];
    HealthyRxCons(env, from, plan, from + HalCalls([ReadCommand(reg)], n));
    var rx: seq<Byte> := if n > 0 then Fit(env.hal(from + 2).rx, n) else [];
    assert HealthyRx(env, from, plan) == rx + [];
  }

  /**
   * accelRead succeeds exactly when its transfer's decisions (the mutex, the transmit
   * of the command, the receive) all succeed. Then it has sent only the register
   * address with the read bit set and returns the bytes the receive delivered.
   */
  lemma AccelReadOutcome(env: Env, io: Io, reg: Byte, n: nat)
    ensures var r := AccelReadSpec(env, io, reg, n);
      var k := HalCalls([ReadCommand(reg)], n);
      (r.value.ok <==> Healthy(env, io.next, k)) &&
      (r.value.ok ==>
        Sent(r.events) == [ReadCommand(reg)] && r.io.next == io.next + k &&
        r.value.rx == (if n > 0 then Fit(env.hal(io.next + 2).rx, n) else []))
  {
    var plan := ReadPlan(reg, n);
    ReadPlanFacts(env, io.next, reg, n);
    FrameOkIff(env, io, Lis3dshAccel, plan);
    if Healthy(env, io.next, PlanCalls(plan)) {
      FrameHealthy(env, io, Lis3dshAccel, plan);
    }
  }

  /**
   * accelRead keeps the line discipline on the accelerometer's chip select and bus,
   * and logs its read command whenever it got the mutex.
   */
  lemma AccelReadTrace(env: Env, io: Io, reg: Byte, n: nat)
    ensures var r := AccelReadSpec(env, io, reg, n);
      Disciplined(r.events, Lis3dshAccel) && !PendingAfter(r.events, false) &&
      Opcodes(r.events) == (if env.hal(io.next).ok then [ReadCommand(reg)] else []) &&
      Sent(r.events) == (if env.hal(io.next).ok then [ReadCommand(reg)] else [])
  {
    var plan := ReadPlan(reg, n);
    FrameOpcodes(env, io, Lis3dshAccel, plan, false);
    FrameDisciplined(env, io, Lis3dshAccel, plan);
    StepsSingle(env, io, Lis3dshAccel, plan[0]);
    assert plan == [plan[0]];
    TransferSent(env, io, Lis3dshAccel, [ReadCommand(reg)], n);
    SentFrame(Lis3dshAccel, Steps(env, io, Lis3dshAccel, plan).events);
  }

  /** The two transfers of a register write. */
  lemma WritePlanFacts(reg: Byte, data: seq<Byte>)
    ensures var plan := WritePlan(reg, data);
      AllChecked(plan) && PlanCalls(plan) == 2 + HalCalls(data, 0) && SendsOf(plan) == [reg] + data
  {
    var plan := WritePlan(reg, data);
    var p1 := plan[1..];
    assert p1[1..] == [];
    assert SendsOf(p1) == data + [];
    assert PlanCalls(p1) == HalCalls(data, 0) + 0;
    assert SendsOf(plan) == [reg] + SendsOf(p1);
  }

  /**
   * accelWrite succeeds exactly when the decisions of both of its transfers succeed;
   * then it has sent the register address, unmodified, followed by the data.
   */
  lemma AccelWriteOutcome(env: Env, io: Io, reg: Byte, data: seq<Byte>)
    ensures var w := AccelWriteSpec(env, io, reg, data);
      var k := 2 + HalCalls(data, 0);
      (w.value <==> Healthy(env, io.next, k)) &&
      (w.value ==> Sent(w.events) == [reg] + data && w.io.next == io.next + k)
  {
    var plan := WritePlan(reg, data);
    WritePlanFacts(reg, data);
    FrameOkIff(env, io, Lis3dshAccel, plan);
    if Healthy(env, io.next, PlanCalls(plan)) {
      FrameHealthy(env, io, Lis3dshAccel, plan);
    }
  }

  /**
   * accelWrite skips the data transfer when the address transfer failed, and drives
   * chip select high again in either case.
   */
  lemma AccelWriteStopsAtFailure(env: Env, io: Io, reg: Byte, data: seq<Byte>)
    ensures var w := AccelWriteSpec(env, io, reg, data);
      var t1 := TransferSpec(env, io, Lis3dshAccel, [reg], 0);
      (!t1.value.ok ==> w.events == [CsLow(Lis3dshAccel)] + t1.events + [CsHigh(Lis3dshAccel)] && !w.value) &&
      w.events[|w.events| - 1] == CsHigh(Lis3dshAccel)
  {
    var c := Command(reg, 0);
    var x := Xfer(data, 0, true);
    assert WritePlan(reg, data) == [c] + [x];
    StepsSingle(env, io, Lis3dshAccel, c);
    if !TransferSpec(env, io, Lis3dshAccel, [reg], 0).value.ok {
      StepsStopAtFailure(env, io, Lis3dshAccel, [c], [x]);
    }
  }

  /** accelWrite keeps the line discipline and logs the register address whenever it got the mutex. */
  lemma AccelWriteTrace(env: Env, io: Io, reg: Byte, data: seq<Byte>)
    ensures var w := AccelWriteSpec(env, io, reg, data);
      Disciplined(w.events, Lis3dshAccel) && !PendingAfter(w.events, false) &&
      Opcodes(w.events) == (if env.hal(io.next).ok then [reg] else [])
  {
    var plan := WritePlan(reg, data);
    FrameOpcodes(env, io, Lis3dshAccel, plan, false);
    FrameDisciplined(env, io, Lis3dshAccel, plan);
  }

  // ---------------------------------------------------------------------------
  // Read-modify-write of a control register

  /**
   * A register update succeeds exactly when the seven hardware decisions of its read
   * and its write succeed. Then it has sent the read command, and then the register
   * address and the byte read with the edit's fields assigned.
   */
  lemma UpdateOutcome(env: Env, io: Io, reg: Byte, e: Edit)
    ensures var u := UpdateSpec(env, io, reg, e);
      var b := Fit(env.hal(io.next + 2).rx, 1)[0];
      (u.value <==> Healthy(env, io.next, 7)) &&
      (u.value ==> Sent(u.events) == [ReadCommand(reg), reg, Edited(e, b)] && u.io.next == io.next + 7)
  {
    var r := AccelReadSpec(env, io, reg, LIS3DSH_REGISTER_LEN);
    AccelReadOutcome(env, io, reg, LIS3DSH_REGISTER_LEN);
    HealthySplit(env, io.next, 3, 4);
    if r.value.ok {
      var b := Fit(env.hal(io.next + 2).rx, 1)[0];
      assert r.value.rx[0] == b;
      var w := AccelWriteSpec(env, r.io, reg, [Edited(e, b)]);
      AccelWriteOutcome(env, r.io, reg, [Edited(e, b)]);
      SentAppend(r.events, w.events);
    }
  }

  /**
   * A register update keeps the line discipline. Its opcode log is a prefix of the
   * read command followed by the register address, and all of it when the update
   * succeeded. When the read failed there is no write: the update is the read alone.
   */
  lemma UpdateTrace(env: Env, io: Io, reg: Byte, e: Edit)
    ensures var u := UpdateSpec(env, io, reg, e);
      var r := AccelReadSpec(env, io, reg, LIS3DSH_REGISTER_LEN);
      Disciplined(u.events, Lis3dshAccel) && !PendingAfter(u.events, false) &&
      Opcodes(u.events) <= [ReadCommand(reg), reg] &&
      (u.value ==> Opcodes(u.events) == [ReadCommand(reg), reg]) &&
      (!r.value.ok ==> u.events == r.events && !u.value && Sent(u.events) <= [ReadCommand(reg)])
  {
    var r := AccelReadSpec(env, io, reg, LIS3DSH_REGISTER_LEN);
    AccelReadTrace(env, io, reg, LIS3DSH_REGISTER_LEN);
    if r.value.ok {
      FirstTransferGotMutex(env, io, Lis3dshAccel, ReadPlan(reg, LIS3DSH_REGISTER_LEN));
      var w := AccelWriteSpec(env, r.io, reg, [Edited(e, r.value.rx[0])]);
      AccelWriteTrace(env, r.io, reg, [Edited(e, r.value.rx[0])]);
      DisciplinedAppend(r.events, w.events, Lis3dshAccel);
      OpcodesAppend(r.events, w.events, false);
      if w.value {
        FirstTransferGotMutex(env, r.io, Lis3dshAccel, WritePlan(reg, [Edited(e, r.value.rx[0])]));
      }
    }
  }

  /** Opcode logs of whole pieces joined one after the other. */
  lemma JoinOpcodes(a: seq<Event>, b: seq<Event>, p: seq<Byte>, q: seq<Byte>)
    requires !PendingAfter(a, false) && !PendingAfter(b, false)
    requires Opcodes(a) == p && Opcodes(b) <= q
    ensures !PendingAfter(a + b, false) && Opcodes(a + b) <= p + q
    ensures Opcodes(b) == q ==> Opcodes(a + b) == p + q
  {
    OpcodesAppend(a, b, false);
    assert p + Opcodes(b) == (p + q)[..|p| + |Opcodes(b)|];
  }

  // ---------------------------------------------------------------------------
  // accelConfigure

  /**
   * accelConfigure succeeds exactly when the fourteen hardware decisions of its two
   * register updates succeed. Then it has read CTRL_REG4 and written it back with the
   * data rate and BDU assigned, and then done the same with CTRL_REG5 and the bandwidth.
   */
  lemma ConfigureOutcome(env: Env, io: Io, odr: OutputDataRate, bw: AntiAliasBandwidth)
    ensures var c := ConfigureSpec(env, io, odr, bw);
      var b4 := Fit(env.hal(io.next + 2).rx, 1)[0];
      var b5 := Fit(env.hal(io.next + 9).rx, 1)[0];
      (c.value <==> Healthy(env, io.next, 14)) &&
      (c.value ==>
        Sent(c.events) == [0xA0, 0x20, Edited(RateAndBdu(odr), b4), 0xA4, 0x24, Edited(Bandwidth(bw), b5)] &&
        c.io.next == io.next + 14)
  {
    var c4 := UpdateSpec(env, io, LIS3DSH_CTRL_REG4_REGISTER_ADDR, RateAndBdu(odr));
    UpdateOutcome(env, io, LIS3DSH_CTRL_REG4_REGISTER_ADDR, RateAndBdu(odr));
    HealthySplit(env, io.next, 7, 7);
    if c4.value {
      var c5 := UpdateSpec(env, c4.io, LIS3DSH_CTRL_REG5_REGISTER_ADDR, Bandwidth(bw));
      UpdateOutcome(env, c4.io, LIS3DSH_CTRL_REG5_REGISTER_ADDR, Bandwidth(bw));
      SentAppend(c4.events, c5.events);
    }
  }

  /**
   * accelConfigure keeps the line discipline; its opcode log is a prefix of the two
   * read-modify-writes, all of them on success. When CTRL_REG4 could not be updated,
   * CTRL_REG5 is not touched.
   */
  lemma ConfigureTrace(env: Env, io: Io, odr: OutputDataRate, bw: AntiAliasBandwidth)
    ensures var c := ConfigureSpec(env, io, odr, bw);
      var c4 := UpdateSpec(env, io, LIS3DSH_CTRL_REG4_REGISTER_ADDR, RateAndBdu(odr));
      Disciplined(c.events, Lis3dshAccel) && !PendingAfter(c.events, false) &&
      Opcodes(c.events) <= [0xA0, 0x20, 0xA4, 0x24] &&
      (c.value ==> Opcodes(c.events) == [0xA0, 0x20, 0xA4, 0x24]) &&
      (!c4.value ==> c == c4 && Opcodes(c.events) <= [0xA0, 0x20])
  {
    var c4 := UpdateSpec(env, io, LIS3DSH_CTRL_REG4_REGISTER_ADDR, RateAndBdu(odr));
    UpdateTrace(env, io, LIS3DSH_CTRL_REG4_REGISTER_ADDR, RateAndBdu(odr));
    if c4.value {
      var c5 := UpdateSpec(env, c4.io, LIS3DSH_CTRL_REG5_REGISTER_ADDR, Bandwidth(bw));
      UpdateTrace(env, c4.io, LIS3DSH_CTRL_REG5_REGISTER_ADDR, Bandwidth(bw));
      DisciplinedAppend(c4.events, c5.events, Lis3dshAccel);
      JoinOpcodes(c4.events, c5.events, [0xA0, 0x20], [0xA4, 0x24]);
      assert [0xA0, 0x20] + [0xA4, 0x24] == [0xA0, 0x20, 0xA4, 0x24];
    } else {
      assert [0xA0, 0x20] <= [0xA0, 0x20, 0xA4, 0x24];
    }
  }

  // ---------------------------------------------------------------------------
  // LIS3DSH_EnableInterrupt and LIS3DSH_PerformSoftReset

  /**
   * LIS3DSH_EnableInterrupt succeeds exactly when its seven hardware decisions succeed;
   * then it has written CTRL_REG3 back with IEL, IEA, DR_EN and INT1_EN set, its other
   * bits as read.
   */
  lemma EnableInterruptOutcome(env: Env, io: Io)
    ensures var r := EnableInterruptSpec(env, io);
      var b := Fit(env.hal(io.next + 2).rx, 1)[0];
      (r.value <==> Healthy(env, io.next, 7)) &&
      (r.value ==> Sent(r.events) == [0xA3, 0x23, Edited(Int1DataReady, b)] && r.io.next == io.next + 7) &&
      Disciplined(r.events, Lis3dshAccel) && Opcodes(r.events) <= [0xA3, 0x23]
  {
    UpdateOutcome(env, io, LIS3DSH_CTRL_REG3_REGISTER_ADDR, Int1DataReady);
    UpdateTrace(env, io, LIS3DSH_CTRL_REG3_REGISTER_ADDR, Int1DataReady);
  }

  /**
   * LIS3DSH_PerformSoftReset succeeds exactly when its seven hardware decisions succeed.
   * Then it has written CTRL_REG3 back with STRT set and afterwards waited the reset
   * time; when it failed it has done nothing after the failed update.
   */
  lemma SoftResetOutcome(env: Env, io: Io)
    ensures var r := SoftResetSpec(env, io);
      var u := UpdateSpec(env, io, LIS3DSH_CTRL_REG3_REGISTER_ADDR, StartReset);
      var b := Fit(env.hal(io.next + 2).rx, 1)[0];
      (r.value <==> Healthy(env, io.next, 7)) &&
      (r.value ==>
        r.events == u.events + [Delay(LIS3DSH_RESET_TIME_MS)] &&
        Sent(r.events) == [0xA3, 0x23, Edited(StartReset, b)] &&
        r.io == Io(io.next + 7, u.io.ticks + LIS3DSH_RESET_TIME_MS) &&
        r.io.ticks >= io.ticks + LIS3DSH_RESET_TIME_MS) &&
      (!r.value ==> r == u)
  {
    var u := UpdateSpec(env, io, LIS3DSH_CTRL_REG3_REGISTER_ADDR, StartReset);
    UpdateOutcome(env, io, LIS3DSH_CTRL_REG3_REGISTER_ADDR, StartReset);
    UpdateTicks(env, io, LIS3DSH_CTRL_REG3_REGISTER_ADDR, StartReset);
    if u.value {
      SentAppend(u.events, [Delay(LIS3DSH_RESET_TIME_MS)]);
    }
  }

  /**
   * LIS3DSH_PerformSoftReset keeps the line discipline; on success the reset wait is the last
   * event and comes after the update's frames have returned chip select and mutex to idle.
   */
  lemma SoftResetTrace(env: Env, io: Io)
    ensures var r := SoftResetSpec(env, io);
      Disciplined(r.events, Lis3dshAccel) && Opcodes(r.events) <= [0xA3, 0x23]
    ensures var r := SoftResetSpec(env, io);
      var u := UpdateSpec(env, io, LIS3DSH_CTRL_REG3_REGISTER_ADDR, StartReset);
      r.value ==>
        r.events == u.events + [Delay(LIS3DSH_RESET_TIME_MS)] &&
        Walk(u.events, Lis3dshAccel, Idle) == Some(Idle)
  {
    var u := UpdateSpec(env, io, LIS3DSH_CTRL_REG3_REGISTER_ADDR, StartReset);
    UpdateTrace(env, io, LIS3DSH_CTRL_REG3_REGISTER_ADDR, StartReset);
    if u.value {
      DelayDisciplined(LIS3DSH_RESET_TIME_MS, Lis3dshAccel);
      DisciplinedAppend(u.events, [Delay(LIS3DSH_RESET_TIME_MS)], Lis3dshAccel);
      OpcodesAppend(u.events, [Delay(LIS3DSH_RESET_TIME_MS)], false);
    }
  }

  /**
   * A register update blocks only inside its two transfers: the tick count never goes
   * back, and on a prompt bus the update succeeds without the tick count moving.
   */
  lemma UpdateTicks(env: Env, io: Io, reg: Byte, e: Edit)
    ensures io.ticks <= UpdateSpec(env, io, reg, e).io.ticks
    ensures Prompt(env) ==> UpdateSpec(env, io, reg, e).value && UpdateSpec(env, io, reg, e).io.ticks == io.ticks
  {
    if Prompt(env) {
      var r := AccelReadSpec(env, io, reg, LIS3DSH_REGISTER_LEN);
      PromptFrame(env, io, Lis3dshAccel, ReadPlan(reg, LIS3DSH_REGISTER_LEN));
      ReadPlanShape(reg, LIS3DSH_REGISTER_LEN);
      PromptFrame(env, r.io, Lis3dshAccel, WritePlan(reg, [Edited(e, r.value.rx[0])]));
    }
  }

  // ---------------------------------------------------------------------------
  // LIS3DSH_ReadAccelData

  /**
   * LIS3DSH_ReadAccelData succeeds exactly when its read of the six output registers
   * does. Then it has sent the burst read command for OUT_X_L and the sample is the
   * six bytes received, taken as little-endian signed pairs; on failure it is zero.
   */
  lemma ReadAccelDataOutcome(env: Env, io: Io)
    ensures var r := ReadAccelDataSpec(env, io);
      var data := Fit(env.hal(io.next + 2).rx, ACCEL_DATA_NUM_BYTES);
      (r.value.0 <==> Healthy(env, io.next, 3)) &&
      (r.value.0 ==>
        Sent(r.events) == [0xA8] &&
        r.value.1 == Sample(Axis(data[ACCEL_X_LSB], data[ACCEL_X_MSB]),
                            Axis(data[ACCEL_Y_LSB], data[ACCEL_Y_MSB]),
                            Axis(data[ACCEL_Z_LSB], data[ACCEL_Z_MSB]))) &&
      (!r.value.0 ==> r.value.1 == Sample(0, 0, 0)) &&
      Disciplined(r.events, Lis3dshAccel) && Opcodes(r.events) <= [0xA8]
  {
    AccelReadOutcome(env, io, LIS3DSH_OUT_X_L_REGISTER_ADDR, ACCEL_DATA_NUM_BYTES);
    AccelReadTrace(env, io, LIS3DSH_OUT_X_L_REGISTER_ADDR, ACCEL_DATA_NUM_BYTES);
  }

  /** The byte holding the value `x`. */
  function ByteOf(x: nat): (r: Byte)
    requires x < 0x100
    ensures r as int == x
  {
    if x == 0 then 0 else ByteOf(x - 1) + 1
  }

  /** The two bytes of an axis reading, least significant first. */
  function AxisBytes(v: Int16): (Byte, Byte)
  {
    var u := if v < 0 then v as int + 0x1_0000 else v as int;
    (ByteOf(u % 0x100), ByteOf(u / 0x100))
  }

  /** Decoding the two bytes of a reading gives the reading back: every int16_t value can be read. */
  lemma AxisOfBytes(v: Int16)
    ensures Axis(AxisBytes(v).0, AxisBytes(v).1) == v
  {
    var u := if v < 0 then v as int + 0x1_0000 else v as int;
    assert u == u / 0x100 * 0x100 + u % 0x100;
  }

  /** Every byte pair is the encoding of its decoded reading: Axis is one-to-one. */
  lemma BytesOfAxis(lsb: Byte, msb: Byte)
    ensures AxisBytes(Axis(lsb, msb)) == (lsb, msb)
  {
    var l, m := lsb as int, msb as int;
    var u := m * 0x100 + l;
    var r := Axis(lsb, msb);
    assert (if r < 0 then r as int + 0x1_0000 else r as int) == u;
    assert u % 0x100 == l && u / 0x100 == m;
    var pair := AxisBytes(r);
    assert pair == (ByteOf(l), ByteOf(m));
    SameValue(pair.0, lsb);
    SameValue(pair.1, msb);
  }

  lemma SameValue(a: Byte, b: Byte)
    requires a as int == b as int
    ensures a == b
  {
  }

  /** The extremes of the 16-bit two's complement range. */
  lemma AxisExtremes()
    ensures Axis(0x00, 0x80) == -0x8000 && Axis(0xFF, 0x7F) == 0x7FFF && Axis(0xFF, 0xFF) == -1
  {
  }

  // ---------------------------------------------------------------------------
  // LIS3DSH_ReadID

  /**
   * LIS3DSH_ReadID returns either 0 or the device ID, and the device ID exactly when
   * the WHO_AM_I read succeeded and delivered it.
   */
  lemma ReadIdOutcome(env: Env, io: Io)
    ensures var r := ReadIdSpec(env, io);
      (r.value == 0 || r.value == LIS3DSH_DEVICE_ID) &&
      (r.value == LIS3DSH_DEVICE_ID <==>
        Healthy(env, io.next, 3) && Fit(env.hal(io.next + 2).rx, 1)[0] == LIS3DSH_DEVICE_ID) &&
      Disciplined(r.events, Lis3dshAccel) && !PendingAfter(r.events, false) && Opcodes(r.events) <= [0x8F] &&
      (Healthy(env, io.next, 3) ==> Opcodes(r.events) == [0x8F] && r.io.next == io.next + 3)
  {
    AccelReadOutcome(env, io, LIS3DSH_WHO_AM_I_REGISTER_ADDR, LIS3DSH_REGISTER_LEN);
    AccelReadTrace(env, io, LIS3DSH_WHO_AM_I_REGISTER_ADDR, LIS3DSH_REGISTER_LEN);
  }

  // ---------------------------------------------------------------------------
  // LIS3DSH_Init

  lemma PrefixTrans(a: seq<Byte>, b: seq<Byte>, c: seq<Byte>)
    requires a <= b && b <= c
    ensures a <= c
  {
  }

  /** An opcode that is not in a log is not in any prefix of it. */
  lemma NotInPrefix(p: seq<Byte>, q: seq<Byte>, x: Byte)
    requires p <= q && x !in q
    ensures x !in p
  {
  }

  /**
   * After a good WHO_AM_I, LIS3DSH_Init configures and then enables the interrupt;
   * this succeeds exactly when the twenty-one hardware decisions of the three register
   * updates succeed.
   */
  lemma BringUpOutcome(env: Env, io: Io)
    ensures var b := BringUpSpec(env, io);
      (b.value <==> Healthy(env, io.next, 21)) && (b.value ==> b.io.next == io.next + 21)
  {
    var c := ConfigureSpec(env, io, Rate800Hz, Bw200Hz);
    ConfigureOutcome(env, io, Rate800Hz, Bw200Hz);
    HealthySplit(env, io.next, 14, 7);
    if c.value {
      EnableInterruptOutcome(env, c.io);
    }
  }

  /**
   * Two disciplined pieces of trace joined: their opcode logs concatenate, and an
   * opcode missing from both pieces is missing from the whole.
   */
  lemma TraceJoin(a: seq<Event>, b: seq<Event>, p: seq<Byte>, q: seq<Byte>, x: Byte, y: Byte)
    requires Disciplined(a, Lis3dshAccel) && Disciplined(b, Lis3dshAccel)
    requires !PendingAfter(a, false) && !PendingAfter(b, false)
    requires Opcodes(a) == p && Opcodes(b) <= q
    ensures Disciplined(a + b, Lis3dshAccel) && !PendingAfter(a + b, false) && Opcodes(a + b) <= p + q
    ensures Opcodes(b) == q ==> Opcodes(a + b) == p + q
    ensures x !in p && x !in Opcodes(b) ==> x !in Opcodes(a + b)
    ensures y !in p && y !in Opcodes(b) ==> y !in Opcodes(a + b)
  {
    DisciplinedAppend(a, b, Lis3dshAccel);
    JoinOpcodes(a, b, p, q);
    OpcodesAppend(a, b, false);
  }

  /**
   * The register updates after a good WHO_AM_I keep the line discipline and come in
   * order: CTRL_REG4, CTRL_REG5, CTRL_REG3.
   */
  lemma BringUpTrace(env: Env, io: Io)
    ensures var b := BringUpSpec(env, io);
      Disciplined(b.events, Lis3dshAccel) && !PendingAfter(b.events, false) &&
      Opcodes(b.events) <= [0xA0, 0x20, 0xA4, 0x24, 0xA3, 0x23] &&
      (b.value ==> Opcodes(b.events) == [0xA0, 0x20, 0xA4, 0x24, 0xA3, 0x23])
  {
    var c := ConfigureSpec(env, io, Rate800Hz, Bw200Hz);
    ConfigureTrace(env, io, Rate800Hz, Bw200Hz);
    var four: seq<Byte> := [0xA0, 0x20, 0xA4, 0x24];
    var full: seq<Byte> := [0xA0, 0x20, 0xA4, 0x24, 0xA3, 0x23];
    assert four + [0xA3, 0x23] == full;
    if c.value {
      var e := EnableInterruptSpec(env, c.io);
      UpdateTrace(env, c.io, LIS3DSH_CTRL_REG3_REGISTER_ADDR, Int1DataReady);
      TraceJoin(c.events, e.events, four, [0xA3, 0x23], 0, 0);
    } else {
      PrefixTrans(Opcodes(c.events), four, full);
    }
  }

  /** When configuring failed, CTRL_REG3 is neither read nor written: the interrupt is not enabled. */
  lemma BringUpConfigureFails(env: Env, io: Io)
    ensures var b := BringUpSpec(env, io);
      var c := ConfigureSpec(env, io, Rate800Hz, Bw200Hz);
      !c.value ==> b == c && !b.value && 0xA3 !in Opcodes(b.events) && 0x23 !in Opcodes(b.events)
  {
    var c := ConfigureSpec(env, io, Rate800Hz, Bw200Hz);
    if !c.value {
      ConfigureTrace(env, io, Rate800Hz, Bw200Hz);
      NotInPrefix(Opcodes(c.events), [0xA0, 0x20, 0xA4, 0x24], 0xA3);
      NotInPrefix(Opcodes(c.events), [0xA0, 0x20, 0xA4, 0x24], 0x23);
    }
  }

  /**
   * The two results of LIS3DSH_Init: the module is marked initialized after any good
   * WHO_AM_I, even when configuring then failed, and is never unmarked; a successful
   * Init implies a good WHO_AM_I.
   */
  lemma InitFlag(env: Env, io: Io, initialized: bool)
    ensures var r := InitSpec(env, io, initialized);
      var id := ReadIdSpec(env, io);
      r.value.1 == (initialized || id.value == LIS3DSH_DEVICE_ID) &&
      (r.value.0 ==> r.value.1 && id.value == LIS3DSH_DEVICE_ID)
  {
    ReadIdOutcome(env, io);
  }

  /**
   * LIS3DSH_Init succeeds exactly when all twenty-four hardware decisions of its four
   * register accesses succeed and WHO_AM_I delivered the device ID.
   */
  lemma InitOutcome(env: Env, io: Io, initialized: bool)
    ensures var r := InitSpec(env, io, initialized);
      (r.value.0 <==> Healthy(env, io.next, 24) && Fit(env.hal(io.next + 2).rx, 1)[0] == LIS3DSH_DEVICE_ID) &&
      (r.value.0 ==> r.io.next == io.next + 24)
  {
    var id := ReadIdSpec(env, io);
    ReadIdOutcome(env, io);
    HealthySplit(env, io.next, 3, 21);
    if id.value != 0 {
      BringUpOutcome(env, id.io);
    }
  }

  /**
   * LIS3DSH_Init keeps the line discipline and issues, at most, the ID read and the
   * three register updates, in that order; all of them when it succeeds.
   */
  lemma InitTrace(env: Env, io: Io, initialized: bool)
    ensures var r := InitSpec(env, io, initialized);
      Disciplined(r.events, Lis3dshAccel) &&
      Opcodes(r.events) <= [0x8F, 0xA0, 0x20, 0xA4, 0x24, 0xA3, 0x23] &&
      (r.value.0 ==> Opcodes(r.events) == [0x8F, 0xA0, 0x20, 0xA4, 0x24, 0xA3, 0x23])
  {
    var id := ReadIdSpec(env, io);
    ReadIdOutcome(env, io);
    var full: seq<Byte> := [0xA0, 0x20, 0xA4, 0x24, 0xA3, 0x23];
    if id.value != 0 {
      var b := BringUpSpec(env, id.io);
      BringUpTrace(env, id.io);
      TraceJoin(id.events, b.events, [0x8F], full, 0, 0);
      assert [0x8F] + full == [0x8F, 0xA0, 0x20, 0xA4, 0x24, 0xA3, 0x23];
    } else {
      assert [0x8F] <= [0x8F] + full;
    }
  }

  /**
   * A bad or unreadable ID stops LIS3DSH_Init after that read; a failed configuration
   * leaves the interrupt disabled.
   */
  lemma InitStops(env: Env, io: Io, initialized: bool)
    ensures var r := InitSpec(env, io, initialized);
      var id := ReadIdSpec(env, io);
      (id.value != LIS3DSH_DEVICE_ID ==> r.events == id.events && Opcodes(r.events) <= [0x8F]) &&
      (id.value == LIS3DSH_DEVICE_ID && !ConfigureSpec(env, id.io, Rate800Hz, Bw200Hz).value ==>
        0xA3 !in Opcodes(r.events) && 0x23 !in Opcodes(r.events))
  {
    var id := ReadIdSpec(env, io);
    ReadIdOutcome(env, io);
    if id.value != 0 && !ConfigureSpec(env, id.io, Rate800Hz, Bw200Hz).value {
      var b := BringUpSpec(env, id.io);
      BringUpTrace(env, id.io);
      BringUpConfigureFails(env, id.io);
      TraceJoin(id.events, b.events, [0x8F], [0xA0, 0x20, 0xA4, 0x24, 0xA3, 0x23], 0xA3, 0x23);
    }
  }
}
