/**
 * What the MB85RS256 driver promises, stated about the functions of module Mb85 that
 * its methods are proved to follow: the frame of each command and what it sends, when
 * each command reports success, and how a write is bracketed by WREN and WRDI.
 */
module Mb85Props {
  import opened Platform
  import opened SpiCore
  import opened Frame
  import opened Mb85

  // ---------------------------------------------------------------------------
  // One-opcode commands: MB85RS256_WREN and MB85RS256_WRDI

  /**
   * framSendCommand sends exactly its opcode in a frame of its own, and succeeds exactly
   * when the transfer's two hardware decisions (the mutex, the transmit) succeed.
   */
  lemma SendCommandOutcome(env: Env, io: Io, command: Byte)
    ensures var r := SendCommandSpec(env, io, command);
      (r.value <==> Healthy(env, io.next, 2)) &&
      (r.value ==> Sent(r.events) == [command] && r.io.next == io.next + 2)
  {
    var plan := [Command(command, 0)];
    assert plan[1..] == [] && PlanCalls(plan) == 2 && AllChecked(plan) && SendsOf(plan) == [command];
    FrameOkIff(env, io, Mb85Fram, plan);
    if Healthy(env, io.next, 2) {
      FrameHealthy(env, io, Mb85Fram, plan);
    }
  }

  /** framSendCommand keeps the line discipline and logs its opcode whenever it got the mutex. */
  lemma SendCommandTrace(env: Env, io: Io, command: Byte)
    ensures var r := SendCommandSpec(env, io, command);
      Disciplined(r.events, Mb85Fram) && !PendingAfter(r.events, false) &&
      Opcodes(r.events) == (if env.hal(io.next).ok then [command] else [])
  {
    var plan := [Command(command, 0)];
    FrameOpcodes(env, io, Mb85Fram, plan, false);
    FrameDisciplined(env, io, Mb85Fram, plan);
  }

  // ---------------------------------------------------------------------------
  // MB85RS256_Read

  /** The transfers of the read frame: all checked, their decisions, and what they send. */
  lemma ReadPlanFacts(address: bv16, length: U16)
    ensures var plan := ReadPlan(address, length);
      AllChecked(plan) && PlanCalls(plan) == 4 + HalCalls([], Clamp(length)) &&
      SendsOf(plan) == [FRAM_OPCODE_READ] + AddressBytes(address)
  {
    var plan := ReadPlan(address, length);
    var p2, p1 := plan[2..], plan[1..];
    assert p2[1..] == [] && p1[1..] == p2;
    assert SendsOf(p2) == [] + [];
    assert SendsOf(p1) == AddressBytes(address) + SendsOf(p2);
    assert PlanCalls(p2) == HalCalls([], Clamp(length)) + 0;
    assert PlanCalls(p1) == 2 + PlanCalls(p2);
    assert plan[0].checked && p1[0].checked && p2[0].checked;
    assert SendsOf(plan) == [FRAM_OPCODE_READ] + SendsOf(p1);
  }

  /** What the read frame receives when all its decisions succeed: the receive's bytes. */
  lemma ReadPlanRx(env: Env, from: nat, address: bv16, length: U16)
    ensures var n := Clamp(length);
      HealthyRx(env, from, ReadPlan(address, length)) == (if n > 0 then Fit(env.hal(from + 5).rx, n) else [])
  {
    var plan := ReadPlan(address, length);
    var n := Clamp(length);
    var p2, p1 := plan[2..], plan[1..];
    assert p2[1..] == [] && p1[1..] == p2;
    HealthyRxCons(env, from, plan, from + 2);
    HealthyRxCons(env, from + 2, p1, from + 4);
    HealthyRxCons(env, from + 4, p2, from + 4 + HalCalls([], n));
    assert HealthyRx(env, from + 4, p2) == (if n > 0 then Fit(env.hal(from + 5).rx, n) else []) + [];
  }

  /**
   * MB85RS256_Read succeeds exactly when all of its transfers' decisions succeed. Then
   * it has sent the READ opcode and the address, most significant byte first, and
   * returns the clamped number of bytes the receive delivered.
   */
  lemma ReadOutcome(env: Env, io: Io, address: bv16, length: U16)
    ensures var r := ReadSpec(env, io, address, length);
      var n := Clamp(length);
      (r.value.ok <==> Healthy(env, io.next, 4 + HalCalls([], n))) &&
      (r.value.ok ==>
        Sent(r.events) == [FRAM_OPCODE_READ] + AddressBytes(address) &&
        r.value.rx == (if n > 0 then Fit(env.hal(io.next + 5).rx, n) else []))
  {
    var plan := ReadPlan(address, length);
    ReadPlanFacts(address, length);
    ReadPlanRx(env, io.next, address, length);
    FrameOkIff(env, io, Mb85Fram, plan);
    if Healthy(env, io.next, PlanCalls(plan)) {
      FrameHealthy(env, io, Mb85Fram, plan);
    }
  }

  /** MB85RS256_Read keeps the line discipline and logs READ whenever its first transfer got the mutex. */
  lemma ReadTrace(env: Env, io: Io, address: bv16, length: U16)
    ensures var r := ReadSpec(env, io, address, length);
      Disciplined(r.events, Mb85Fram) &&
      Opcodes(r.events) == (if env.hal(io.next).ok then [FRAM_OPCODE_READ] else [])
  {
    var plan := ReadPlan(address, length);
    FrameOpcodes(env, io, Mb85Fram, plan, false);
    FrameDisciplined(env, io, Mb85Fram, plan);
  }

  /**
   * MB85RS256_Read stops at the first failed transfer: when the opcode transfer fails
   * nothing follows it, when the address transfer fails no receive follows it, and in
   * both cases the read fails with no data. Chip select is released either way.
   */
  lemma ReadStopsAtFailure(env: Env, io: Io, address: bv16, length: U16)
    ensures var r := ReadSpec(env, io, address, length);
      var t1 := TransferSpec(env, io, Mb85Fram, [FRAM_OPCODE_READ], 0);
      var t2 := TransferSpec(env, t1.io, Mb85Fram, AddressBytes(address), 0);
      (!t1.value.ok ==> r.events == [CsLow(Mb85Fram)] + t1.events + [CsHigh(Mb85Fram)]) &&
      (t1.value.ok && !t2.value.ok ==> r.events == [CsLow(Mb85Fram)] + (t1.events + t2.events) + [CsHigh(Mb85Fram)]) &&
      (!t1.value.ok || !t2.value.ok ==> !r.value.ok && r.value.rx == [])
  {
    var c := Command(FRAM_OPCODE_READ, 0);
    var a := Xfer(AddressBytes(address), 0, true);
    var x := Xfer([], Clamp(length), true);
    var plan := ReadPlan(address, length);
    assert plan == [c] + [a, x] && plan == [c, a] + [x] && [c] + [a] == [c, a];
    var t1 := TransferSpec(env, io, Mb85Fram, [FRAM_OPCODE_READ], 0);
    StepsSingle(env, io, Mb85Fram, c);
    if !t1.value.ok {
      StepsStopAtFailure(env, io, Mb85Fram, [c], [a, x]);
    } else {
      StepsSnoc(env, io, Mb85Fram, [c], a);
      var t2 := TransferSpec(env, t1.io, Mb85Fram, AddressBytes(address), 0);
      if !t2.value.ok {
        StepsStopAtFailure(env, io, Mb85Fram, [c, a], [x]);
      }
    }
  }

  // ---------------------------------------------------------------------------
  // MB85RS256_Write

  /** The transfers of the write frame and what they send when all succeed. */
  lemma WritePlanFacts(address: bv16, payload: seq<Byte>)
    ensures var plan := WritePlan(address, payload);
      AllChecked(plan) && PlanCalls(plan) == 4 + HalCalls(payload, 0) &&
      SendsOf(plan) == [FRAM_OPCODE_WRITE] + AddressBytes(address) + payload
  {
    var plan := WritePlan(address, payload);
    var p2, p1 := plan[2..], plan[1..];
    assert p2[1..] == [] && p1[1..] == p2;
    assert SendsOf(p2) == payload + [];
    assert SendsOf(p1) == AddressBytes(address) + SendsOf(p2);
    assert PlanCalls(p2) == HalCalls(payload, 0) + 0;
    assert PlanCalls(p1) == 2 + PlanCalls(p2);
    assert plan[0].checked && p1[0].checked && p2[0].checked;
    assert SendsOf(plan) == [FRAM_OPCODE_WRITE] + SendsOf(p1);
  }

  /**
   * MB85RS256_Write reports WRDI's status: once WREN has succeeded, the result is true
   * exactly when the WRDI frame after the write frame succeeds, whatever the write
   * frame did. When WREN fails the result is false and nothing else is sent.
   */
  lemma WriteOutcome(env: Env, io: Io, address: bv16, data: seq<Byte>, length: U16)
    requires Clamp(length) <= |data|
    ensures var r := WriteSpec(env, io, address, data, length);
      var w := SendCommandSpec(env, io, FRAM_OPCODE_WREN);
      var f := FrameSpec(env, w.io, Mb85Fram, WritePlan(address, data[..Clamp(length)]));
      (!w.value ==> !r.value && r.events == w.events) &&
      (w.value ==> (r.value <==> Healthy(env, f.io.next, 2))) &&
      (r.value ==> Healthy(env, io.next, 2))
  {
    var w := SendCommandSpec(env, io, FRAM_OPCODE_WREN);
    SendCommandOutcome(env, io, FRAM_OPCODE_WREN);
    if w.value {
      var f := FrameSpec(env, w.io, Mb85Fram, WritePlan(address, data[..Clamp(length)]));
      SendCommandOutcome(env, f.io, FRAM_OPCODE_WRDI);
    }
  }

  /**
   * The result hides a failed write: WREN and WRDI succeed while the write frame's
   * mutex does not arrive, and MB85RS256_Write still returns true.
   */
  lemma WriteIgnoresFrameFailure(env: Env, io: Io, address: bv16, data: seq<Byte>, length: U16)
    requires Clamp(length) <= |data|
    requires Healthy(env, io.next, 2) && !env.hal(io.next + 2).ok && Healthy(env, io.next + 3, 2)
    ensures var w := SendCommandSpec(env, io, FRAM_OPCODE_WREN);
      !FrameSpec(env, w.io, Mb85Fram, WritePlan(address, data[..Clamp(length)])).value.ok
    ensures WriteSpec(env, io, address, data, length).value
  {
    SendCommandOutcome(env, io, FRAM_OPCODE_WREN);
    WriteOutcome(env, io, address, data, length);
  }

  /**
   * With every decision succeeding, MB85RS256_Write returns true and sends WREN, then
   * WRITE, the address and the clamped data, then WRDI.
   */
  lemma WriteHealthy(env: Env, io: Io, address: bv16, data: seq<Byte>, length: U16)
    requires Clamp(length) <= |data|
    requires Healthy(env, io.next, 8 + HalCalls(data[..Clamp(length)], 0))
    ensures var r := WriteSpec(env, io, address, data, length);
      r.value &&
      Sent(r.events) == [FRAM_OPCODE_WREN, FRAM_OPCODE_WRITE] + AddressBytes(address) + data[..Clamp(length)] + [FRAM_OPCODE_WRDI]
  {
    var payload := data[..Clamp(length)];
    var plan := WritePlan(address, payload);
    var m := 4 + HalCalls(payload, 0);
    WritePlanFacts(address, payload);
    var w := SendCommandSpec(env, io, FRAM_OPCODE_WREN);
    HealthySplit(env, io.next, 2, 6 + HalCalls(payload, 0));
    SendCommandOutcome(env, io, FRAM_OPCODE_WREN);
    HealthySplit(env, io.next + 2, m, 2);
    FrameHealthy(env, w.io, Mb85Fram, plan);
    var f := FrameSpec(env, w.io, Mb85Fram, plan);
    SendCommandOutcome(env, f.io, FRAM_OPCODE_WRDI);
    var d := SendCommandSpec(env, f.io, FRAM_OPCODE_WRDI);
    SentAppend(w.events, f.events);
    SentAppend(w.events + f.events, d.events);
  }

  /** MB85RS256_Write keeps the line discipline through all three of its frames. */
  lemma WriteDisciplined(env: Env, io: Io, address: bv16, data: seq<Byte>, length: U16)
    requires Clamp(length) <= |data|
    ensures Disciplined(WriteSpec(env, io, address, data, length).events, Mb85Fram)
  {
    var w := SendCommandSpec(env, io, FRAM_OPCODE_WREN);
    SendCommandTrace(env, io, FRAM_OPCODE_WREN);
    if w.value {
      var plan := WritePlan(address, data[..Clamp(length)]);
      var f := FrameSpec(env, w.io, Mb85Fram, plan);
      var d := SendCommandSpec(env, f.io, FRAM_OPCODE_WRDI);
      FrameDisciplined(env, w.io, Mb85Fram, plan);
      SendCommandTrace(env, f.io, FRAM_OPCODE_WRDI);
      DisciplinedAppend(w.events, f.events, Mb85Fram);
      DisciplinedAppend(w.events + f.events, d.events, Mb85Fram);
    }
  }

  /**
   * The opcode log of MB85RS256_Write is WREN, then WRITE and WRDI as far as each got
   * the mutex: WRITE is never sent without a WREN before it.
   */
  lemma WriteTrace(env: Env, io: Io, address: bv16, data: seq<Byte>, length: U16)
    requires Clamp(length) <= |data|
    ensures var r := WriteSpec(env, io, address, data, length);
      Opcodes(r.events) in {[], [FRAM_OPCODE_WREN], [FRAM_OPCODE_WREN, FRAM_OPCODE_WRITE],
                            [FRAM_OPCODE_WREN, FRAM_OPCODE_WRDI], [FRAM_OPCODE_WREN, FRAM_OPCODE_WRITE, FRAM_OPCODE_WRDI]}
  {
    var w := SendCommandSpec(env, io, FRAM_OPCODE_WREN);
    SendCommandTrace(env, io, FRAM_OPCODE_WREN);
    if w.value {
      var plan := WritePlan(address, data[..Clamp(length)]);
      var f := FrameSpec(env, w.io, Mb85Fram, plan);
      var d := SendCommandSpec(env, f.io, FRAM_OPCODE_WRDI);
      FrameOpcodes(env, w.io, Mb85Fram, plan, false);
      SendCommandTrace(env, f.io, FRAM_OPCODE_WRDI);
      OpcodesAppend(w.events, f.events, false);
      OpcodesConcat(w.events + f.events, d.events);
      FirstTransferGotMutex(env, io, Mb85Fram, [Command(FRAM_OPCODE_WREN, 0)]);
      assert Opcodes(w.events + f.events + d.events) == [FRAM_OPCODE_WREN] + Opcodes(f.events) + Opcodes(d.events);
      WriteOpcodesShape(Opcodes(f.events), Opcodes(d.events));
    }
  }

  lemma WriteOpcodesShape(a: seq<Byte>, b: seq<Byte>)
    requires a == [] || a == [FRAM_OPCODE_WRITE]
    requires b == [] || b == [FRAM_OPCODE_WRDI]
    ensures [FRAM_OPCODE_WREN] + a + b in {[FRAM_OPCODE_WREN], [FRAM_OPCODE_WREN, FRAM_OPCODE_WRITE],
                                          [FRAM_OPCODE_WREN, FRAM_OPCODE_WRDI], [FRAM_OPCODE_WREN, FRAM_OPCODE_WRITE, FRAM_OPCODE_WRDI]}
  {
    if a == [] {
      if b == [] {
        assert [FRAM_OPCODE_WREN] + a + b == [FRAM_OPCODE_WREN];
      } else {
        assert [FRAM_OPCODE_WREN] + a + b == [FRAM_OPCODE_WREN, FRAM_OPCODE_WRDI];
      }
    } else {
      if b == [] {
        assert [FRAM_OPCODE_WREN] + a + b == [FRAM_OPCODE_WREN, FRAM_OPCODE_WRITE];
      } else {
        assert [FRAM_OPCODE_WREN] + a + b == [FRAM_OPCODE_WREN, FRAM_OPCODE_WRITE, FRAM_OPCODE_WRDI];
      }
    }
  }

  /** Once WREN has succeeded, WRDI is sent whenever its transfer gets the mutex, as the last opcode. */
  lemma WriteEndsWithWrdi(env: Env, io: Io, address: bv16, data: seq<Byte>, length: U16)
    requires Clamp(length) <= |data|
    ensures var r := WriteSpec(env, io, address, data, length);
      var w := SendCommandSpec(env, io, FRAM_OPCODE_WREN);
      var f := FrameSpec(env, w.io, Mb85Fram, WritePlan(address, data[..Clamp(length)]));
      w.value && env.hal(f.io.next).ok ==> |Opcodes(r.events)| > 0 && Opcodes(r.events)[|Opcodes(r.events)| - 1] == FRAM_OPCODE_WRDI
  {
    var w := SendCommandSpec(env, io, FRAM_OPCODE_WREN);
    if w.value {
      var plan := WritePlan(address, data[..Clamp(length)]);
      var f := FrameSpec(env, w.io, Mb85Fram, plan);
      var d := SendCommandSpec(env, f.io, FRAM_OPCODE_WRDI);
      SendCommandTrace(env, io, FRAM_OPCODE_WREN);
      FrameOpcodes(env, w.io, Mb85Fram, plan, false);
      SendCommandTrace(env, f.io, FRAM_OPCODE_WRDI);
      OpcodesAppend(w.events, f.events, false);
      OpcodesConcat(w.events + f.events, d.events);
    }
  }

  /**
   * What the FRAM self-test relies on: writing 10 bytes at address 0 and reading 10
   * bytes back from address 0 name the same cells. With every decision succeeding,
   * both return true, the write sends the bytes right after the address 00h 00h, and
   * the read sends the same address and returns 10 bytes, whatever the part answers.
   */
  lemma SelfTestWiring(env: Env, io1: Io, io2: Io, data: seq<Byte>)
    requires |data| == 10
    requires Healthy(env, io1.next, 10) && Healthy(env, io2.next, 6)
    ensures var w := WriteSpec(env, io1, 0, data, 10);
      w.value && Sent(w.events) == [FRAM_OPCODE_WREN, FRAM_OPCODE_WRITE, 0, 0] + data + [FRAM_OPCODE_WRDI]
    ensures var r := ReadSpec(env, io2, 0, 10);
      r.value.ok && Sent(r.events) == [FRAM_OPCODE_READ, 0, 0] && |r.value.rx| == 10
  {
    assert data[..Clamp(10)] == data;
    WriteHealthy(env, io1, 0, data, 10);
    ReadOutcome(env, io2, 0, 10);
    assert AddressBytes(0) == [0, 0];
  }

  // ---------------------------------------------------------------------------
  // MB85RS256_RDSR and MB85RS256_RDID

  /**
   * MB85RS256_RDSR succeeds exactly when its three decisions succeed. The register
   * takes the first received byte whenever the receive ran, that is whenever the mutex
   * and the opcode transmit succeeded, and keeps its value otherwise.
   */
  lemma RdsrResult(env: Env, io: Io, reg: Byte)
    ensures var r := RdsrSpec(env, io, reg);
      (r.value.0 <==> Healthy(env, io.next, 3)) &&
      r.value.1 == (if Healthy(env, io.next, 2) then Fit(env.hal(io.next + 2).rx, POINTER_SIZE)[0] else reg)
  {
    var plan := [Command(FRAM_OPCODE_RDSR, POINTER_SIZE)];
    assert plan[1..] == [] && PlanCalls(plan) == 3 && AllChecked(plan);
    FrameOkIff(env, io, Mb85Fram, plan);
    StepsSingle(env, io, Mb85Fram, plan[0]);
  }

  /**
   * MB85RS256_RDID succeeds exactly when its three decisions succeed; it then yields
   * the four received bytes, first one most significant, and otherwise leaves the
   * identification as it was.
   */
  lemma RdidResult(env: Env, io: Io, id: bv32)
    ensures var r := RdidSpec(env, io, id);
      var rx := Fit(env.hal(io.next + 2).rx, 4);
      (r.value.0 <==> Healthy(env, io.next, 3)) &&
      (r.value.0 ==> r.value.1 == ((rx[0] as bv32) << 24) | ((rx[1] as bv32) << 16) | ((rx[2] as bv32) << 8) | (rx[3] as bv32)) &&
      (!r.value.0 ==> r.value.1 == id)
  {
    var plan := [Command(FRAM_OPCODE_RDID, 4)];
    assert plan[1..] == [] && PlanCalls(plan) == 3 && AllChecked(plan);
    FrameOkIff(env, io, Mb85Fram, plan);
    if Healthy(env, io.next, 3) {
      FrameHealthy(env, io, Mb85Fram, plan);
      HealthyRxCons(env, io.next, plan, io.next + 3);
      assert HealthyRx(env, io.next, plan) == Fit(env.hal(io.next + 2).rx, 4) + [];
    }
  }

  /** RDSR, RDID, WREN and WRDI keep the line discipline. */
  lemma RegisterReadsDisciplined(env: Env, io: Io, reg: Byte, id: bv32)
    ensures Disciplined(RdsrSpec(env, io, reg).events, Mb85Fram)
    ensures Disciplined(RdidSpec(env, io, id).events, Mb85Fram)
    ensures Disciplined(SendCommandSpec(env, io, FRAM_OPCODE_WREN).events, Mb85Fram)
    ensures Disciplined(SendCommandSpec(env, io, FRAM_OPCODE_WRDI).events, Mb85Fram)
  {
    FrameDisciplined(env, io, Mb85Fram, [Command(FRAM_OPCODE_RDSR, POINTER_SIZE)]);
    FrameDisciplined(env, io, Mb85Fram, [Command(FRAM_OPCODE_RDID, 4)]);
    SendCommandTrace(env, io, FRAM_OPCODE_WREN);
    SendCommandTrace(env, io, FRAM_OPCODE_WRDI);
  }
}
