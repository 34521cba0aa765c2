/**
 * The chip-select frame every driver builds around its transfers: drive the device's
 * chip select low, run a sequence of SPI_Transfer calls where each one runs only if
 * the previous checked ones succeeded, and drive chip select high again whatever
 * happened. Also the two views of a trace used to state what the drivers promise:
 * the line discipline (`Disciplined`) and the opcode log (`Opcodes`).
 */
module Frame {
  import opened Platform
  import opened SpiCore

  /**
   * One SPI_Transfer inside a frame. An unchecked transfer is one whose result the
   * driver ignores: the frame's status is left as it was.
   */
  datatype Xfer = Xfer(send: seq<Byte>, recvLen: nat, checked: bool)

  /**
   * A one-byte command followed by a receive of `n` bytes, checked: the one transfer of
   * flashRead, flashWrite, framReadRegister and framSendCommand.
   */
  function Command(cmd: Byte, n: nat): Xfer
  {
    Xfer([cmd], n, true)
  }

  /** The number of bytes a plan asks to receive. */
  function TotalRecv(plan: seq<Xfer>): nat
  {
    if plan == [] then 0 else plan[0].recvLen + TotalRecv(plan[1..])
  }

  predicate AllChecked(plan: seq<Xfer>)
  {
    forall i :: 0 <= i < |plan| ==> plan[i].checked
  }

  /** No chip-select change and no delay: the events of the transport alone. */
  predicate TransportOnly(events: seq<Event>)
  {
    forall i :: 0 <= i < |events| ==> events[i].Lock? || events[i].Unlock? || events[i].Transmit? || events[i].Receive?
  }

  lemma TransferIsTransportOnly(env: Env, io: Io, dev: Device, send: seq<Byte>, recvLen: nat)
    ensures TransportOnly(TransferSpec(env, io, dev, send, recvLen).events)
  {
  }

  lemma TransportOnlyAppend(a: seq<Event>, b: seq<Event>)
    requires TransportOnly(a) && TransportOnly(b)
    ensures TransportOnly(a + b)
  {
    forall i | 0 <= i < |a + b| ensures (a + b)[i] == if i < |a| then a[i] else b[i - |a|] {}
  }

  /**
   * The transfers of a plan run one after the other; once a checked transfer has
   * failed the rest are skipped. The result is the frame's status and the bytes all
   * performed receives delivered.
   */
  function Steps(env: Env, io: Io, dev: Device, plan: seq<Xfer>): (r: Run<Transferred>)
    decreases |plan|
    ensures io.ticks <= r.io.ticks && io.next <= r.io.next
    ensures |r.value.rx| <= TotalRecv(plan)
    ensures r.value.ok && AllChecked(plan) ==> |r.value.rx| == TotalRecv(plan)
    ensures TransportOnly(r.events)
  {
    if plan == [] then Run([], io, Transferred(true, []))
    else
      var x := plan[0];
      var t := TransferSpec(env, io, dev, x.send, x.recvLen);
      TransferIsTransportOnly(env, io, dev, x.send, x.recvLen);
      if x.checked && !t.value.ok then Run(t.events, t.io, Transferred(false, t.value.rx))
      else
        var rest := Steps(env, t.io, dev, plan[1..]);
        TransportOnlyAppend(t.events, rest.events);
        assert AllChecked(plan) ==> AllChecked(plan[1..]) && t.value.ok;
        Run(t.events + rest.events, rest.io, Transferred(rest.value.ok, t.value.rx + rest.value.rx))
  }

  /** A plan run between chip select low and chip select high of `dev`. */
  function FrameSpec(env: Env, io: Io, dev: Device, plan: seq<Xfer>): (r: Run<Transferred>)
    ensures io.ticks <= r.io.ticks && io.next <= r.io.next
    ensures |r.value.rx| <= TotalRecv(plan)
    ensures r.value.ok && AllChecked(plan) ==> |r.value.rx| == TotalRecv(plan)
  {
    var s := Steps(env, io, dev, plan);
    Run([CsLow(dev)] + s.events + [CsHigh(dev)], s.io, s.value)
  }

  /** Running `b` after `a`, unless `a` failed. */
  function Join(a: Run<Transferred>, b: Run<Transferred>): Run<Transferred>
  {
    if !a.value.ok then a
    else Run(a.events + b.events, b.io, Transferred(b.value.ok, a.value.rx + b.value.rx))
  }

  /** One transfer `t` of `x` as a frame step: a failure only counts when `x` is checked. */
  function Head(t: Run<Transferred>, x: Xfer): Run<Transferred>
  {
    Run(t.events, t.io, Transferred(!x.checked || t.value.ok, t.value.rx))
  }

  lemma JoinAssoc(h: Run<Transferred>, a: Run<Transferred>, b: Run<Transferred>)
    ensures Join(Join(h, a), b) == Join(h, Join(a, b))
  {
    if h.value.ok && a.value.ok {
      assert (h.events + a.events) + b.events == h.events + (a.events + b.events);
      assert (h.value.rx + a.value.rx) + b.value.rx == h.value.rx + (a.value.rx + b.value.rx);
    }
  }

  /** What running a plan that starts with `x` does. */
  lemma StepsCons(env: Env, io: Io, dev: Device, x: Xfer, rest: seq<Xfer>)
    ensures var t := TransferSpec(env, io, dev, x.send, x.recvLen);
      Steps(env, io, dev, [x] + rest) == Join(Head(t, x), Steps(env, t.io, dev, rest))
  {
    assert ([x] + rest)[0] == x && ([x] + rest)[1..] == rest;
  }

  /** Running `p + q` is running `p` and then, if it did not fail, running `q` from where `p` left off. */
  lemma {:induction false} StepsAppend(env: Env, io: Io, dev: Device, p: seq<Xfer>, q: seq<Xfer>)
    decreases |p|
    ensures var a := Steps(env, io, dev, p);
      Steps(env, io, dev, p + q) == Join(a, Steps(env, a.io, dev, q))
  {
    if p == [] {
      assert p + q == q;
      var b := Steps(env, io, dev, q);
      assert [] + b.events == b.events && [] + b.value.rx == b.value.rx;
    } else {
      var x := p[0];
      var p' := p[1..];
      assert p == [x] + p' && p + q == [x] + (p' + q);
      var t := TransferSpec(env, io, dev, x.send, x.recvLen);
      var h := Head(t, x);
      var a' := Steps(env, t.io, dev, p');
      var a := Steps(env, io, dev, p);
      StepsCons(env, io, dev, x, p');
      StepsCons(env, io, dev, x, p' + q);
      assert a == Join(h, a');
      StepsAppend(env, t.io, dev, p', q);
      JoinAssoc(h, a', Steps(env, a'.io, dev, q));
      if a.value.ok {
        assert a.io == a'.io;
      }
    }
  }

  /** A single transfer as a plan. */
  lemma StepsSingle(env: Env, io: Io, dev: Device, x: Xfer)
    ensures Steps(env, io, dev, [x]) == Head(TransferSpec(env, io, dev, x.send, x.recvLen), x)
  {
    var t := TransferSpec(env, io, dev, x.send, x.recvLen);
    assert [x][1..] == [];
    assert t.events + [] == t.events && t.value.rx + [] == t.value.rx;
  }

  /** Running one more transfer after a plan: how the drivers' code proceeds. */
  lemma StepsSnoc(env: Env, io: Io, dev: Device, plan: seq<Xfer>, x: Xfer)
    ensures var p := Steps(env, io, dev, plan);
      Steps(env, io, dev, plan + [x]) == Join(p, Head(TransferSpec(env, p.io, dev, x.send, x.recvLen), x))
  {
    StepsAppend(env, io, dev, plan, [x]);
    StepsSingle(env, Steps(env, io, dev, plan).io, dev, x);
  }

  /**
   * The drivers' code runs a frame one transfer at a time, appending to the trace so
   * far: after `plan` has run, transfer `x` runs only if the plan has not failed.
   */
  lemma StepsExtend(pre: seq<Event>, env: Env, io: Io, dev: Device, plan: seq<Xfer>, x: Xfer)
    ensures var p := Steps(env, io, dev, plan);
      var t := TransferSpec(env, p.io, dev, x.send, x.recvLen);
      var q := Steps(env, io, dev, plan + [x]);
      (p.value.ok ==> pre + p.events + t.events == pre + q.events && q.io == t.io &&
                      q.value == Transferred(!x.checked || t.value.ok, p.value.rx + t.value.rx)) &&
      (!p.value.ok ==> q == p)
  {
    StepsSnoc(env, io, dev, plan, x);
    var p := Steps(env, io, dev, plan);
    Regroup(pre, p.events, TransferSpec(env, p.io, dev, x.send, x.recvLen).events);
  }

  /** Once a checked transfer has failed, nothing that follows it runs. */
  lemma StepsStopAtFailure(env: Env, io: Io, dev: Device, p: seq<Xfer>, q: seq<Xfer>)
    requires !Steps(env, io, dev, p).value.ok
    ensures Steps(env, io, dev, p + q) == Steps(env, io, dev, p)
  {
    StepsAppend(env, io, dev, p, q);
  }

  /**
   * When every transfer of a non-empty plan is checked, the plan succeeds exactly when
   * the device is recognised and every hardware step it took succeeded.
   */
  lemma {:induction false} StepsOkIff(env: Env, io: Io, dev: Device, plan: seq<Xfer>)
    requires |plan| > 0 && AllChecked(plan)
    decreases |plan|
    ensures var r := Steps(env, io, dev, plan);
      r.value.ok <==> !dev.Unrecognized? && forall k :: io.next <= k < r.io.next ==> env.hal(k).ok
  {
    var x := plan[0];
    var t := TransferSpec(env, io, dev, x.send, x.recvLen);
    TransferOkIff(env, io, dev, x.send, x.recvLen);
    if t.value.ok && |plan| > 1 {
      assert AllChecked(plan[1..]) by {
        forall i | 0 <= i < |plan[1..]| ensures plan[1..][i].checked {
          assert plan[1..][i] == plan[i + 1];
        }
      }
      StepsOkIff(env, t.io, dev, plan[1..]);
    }
  }

  /**
   * A frame drives its chip select low first and high last, exactly once each, even
   * when a transfer inside it fails, and changes no chip select in between.
   */
  lemma FrameChipSelect(env: Env, io: Io, dev: Device, plan: seq<Xfer>)
    ensures var f := FrameSpec(env, io, dev, plan);
      |f.events| >= 2 && f.events[0] == CsLow(dev) && f.events[|f.events| - 1] == CsHigh(dev) &&
      multiset(f.events)[CsLow(dev)] == 1 && multiset(f.events)[CsHigh(dev)] == 1 &&
      forall i :: 0 < i < |f.events| - 1 ==> !f.events[i].CsLow? && !f.events[i].CsHigh?
  {
    var s := Steps(env, io, dev, plan);
    var f := FrameSpec(env, io, dev, plan);
    assert f.events[1..|f.events| - 1] == s.events;
    assert CsLow(dev) !in s.events && CsHigh(dev) !in s.events;
    assert forall i :: 0 < i < |f.events| - 1 ==> f.events[i] == s.events[i - 1];
  }

  /** A transfer that got the mutex starts by taking it and ends by giving it back. */
  lemma TransferBrackets(env: Env, io: Io, dev: Device, send: seq<Byte>, recvLen: nat)
    requires !dev.Unrecognized? && env.hal(io.next).ok
    ensures var r := TransferSpec(env, io, dev, send, recvLen);
      2 <= |r.events| <= 4 && r.events[0] == Lock && r.events[|r.events| - 1] == Unlock
  {
  }

  /**
   * The source takes the SPI mutex per transfer, not per frame: between two transfers
   * of one frame the mutex is given back and taken again while chip select stays low.
   */
  lemma LockReleasedBetweenTransfers(env: Env, io: Io, dev: Device, x1: Xfer, x2: Xfer)
    requires !dev.Unrecognized? && env.hal(io.next).ok
    requires var t1 := TransferSpec(env, io, dev, x1.send, x1.recvLen);
      (!x1.checked || t1.value.ok) && env.hal(t1.io.next).ok
    ensures var f := FrameSpec(env, io, dev, [x1, x2]);
      var k := |TransferSpec(env, io, dev, x1.send, x1.recvLen).events|;
      1 < k && k + 2 < |f.events| && f.events[k] == Unlock && f.events[k + 1] == Lock
  {
    var t1 := TransferSpec(env, io, dev, x1.send, x1.recvLen);
    var t2 := TransferSpec(env, t1.io, dev, x2.send, x2.recvLen);
    StepsSingle(env, io, dev, x1);
    StepsCons(env, io, dev, x1, [x2]);
    assert [x1] + [x2] == [x1, x2];
    StepsSingle(env, t1.io, dev, x2);
    var s := Steps(env, io, dev, [x1, x2]);
    assert s.events == t1.events + t2.events;
    TransferBrackets(env, io, dev, x1.send, x1.recvLen);
    TransferBrackets(env, t1.io, dev, x2.send, x2.recvLen);
    var f := FrameSpec(env, io, dev, [x1, x2]);
    var k := |t1.events|;
    assert f.events == [CsLow(dev)] + s.events + [CsHigh(dev)];
    assert f.events[k] == s.events[k - 1] == t1.events[k - 1];
    assert f.events[k + 1] == s.events[k] == t2.events[0];
  }

  // ---------------------------------------------------------------------------
  // Line discipline

  /** The state of the two shared resources a driver touches: its chip select and the SPI mutex. */
  datatype Lines = Lines(selected: bool, locked: bool)

  const Idle := Lines(false, false)

  /**
   * One event under the discipline for `dev`: chip select is `dev`'s own and alternates
   * low/high, the mutex alternates take/give, and bytes move only on `dev`'s own
   * peripheral while both the chip select is low and the mutex is held. Delays are
   * allowed anywhere.
   */
  function StepLines(e: Event, dev: Device, s: Lines): Option<Lines>
  {
    match e
    case CsLow(d) => if d == dev && !s.selected then Some(s.(selected := true)) else None
    case CsHigh(d) => if d == dev && s.selected then Some(s.(selected := false)) else None
    case Lock => if !s.locked then Some(s.(locked := true)) else None
    case Unlock => if s.locked then Some(s.(locked := false)) else None
    case Transmit(bus, _) => if s.selected && s.locked && BusOf(dev) == Some(bus) then Some(s) else None
    case Receive(bus, _) => if s.selected && s.locked && BusOf(dev) == Some(bus) then Some(s) else None
    case Delay(_) => Some(s)
  }

  function Walk(events: seq<Event>, dev: Device, s: Lines): Option<Lines>
    decreases |events|
  {
    if events == [] then Some(s)
    else
      match StepLines(events[0], dev, s)
      case None => None
      case Some(s') => Walk(events[1..], dev, s')
  }

  /** A trace that keeps the discipline for `dev` from idle lines back to idle lines. */
  predicate Disciplined(events: seq<Event>, dev: Device)
  {
    Walk(events, dev, Idle) == Some(Idle)
  }

  lemma {:induction false} WalkAppend(a: seq<Event>, b: seq<Event>, dev: Device, s: Lines)
    decreases |a|
    ensures Walk(a + b, dev, s) == match Walk(a, dev, s) case None => None case Some(m) => Walk(b, dev, m)
  {
    if a == [] {
      assert a + b == b;
    } else {
      assert (a + b)[0] == a[0];
      assert (a + b)[1..] == a[1..] + b;
      var s1 := StepLines(a[0], dev, s);
      if s1.Some? {
        WalkAppend(a[1..], b, dev, s1.value);
        assert Walk(a + b, dev, s) == Walk(a[1..] + b, dev, s1.value);
        assert Walk(a, dev, s) == Walk(a[1..], dev, s1.value);
      }
    }
  }

  /** Disciplined traces compose. */
  lemma DisciplinedAppend(a: seq<Event>, b: seq<Event>, dev: Device)
    requires Disciplined(a, dev) && Disciplined(b, dev)
    ensures Disciplined(a + b, dev)
  {
    WalkAppend(a, b, dev, Idle);
  }

  /** Walking one event and then the rest. */
  lemma WalkCons(e: Event, rest: seq<Event>, dev: Device, s: Lines)
    ensures Walk([e] + rest, dev, s) == match StepLines(e, dev, s) case None => None case Some(m) => Walk(rest, dev, m)
  {
    assert ([e] + rest)[0] == e && ([e] + rest)[1..] == rest;
  }

  /** A transfer, run while `dev` is selected and the mutex is free, leaves them so. */
  lemma TransferWalk(env: Env, io: Io, dev: Device, send: seq<Byte>, recvLen: nat)
    ensures Walk(TransferSpec(env, io, dev, send, recvLen).events, dev, Lines(true, false)) == Some(Lines(true, false))
  {
    var r := TransferSpec(env, io, dev, send, recvLen);
    if !dev.Unrecognized? && env.hal(io.next).ok {
      var bus := BusOf(dev).value;
      var held := Lines(true, true);
      var tail: seq<Event> := if r.events[|r.events| - 2].Receive? then [Receive(bus, recvLen), Unlock] else [Unlock];
      WalkCons(Unlock, [], dev, held);
      assert [Unlock] + [] == [Unlock];
      WalkCons(Receive(bus, recvLen), [Unlock], dev, held);
      assert Walk(tail, dev, held) == Some(Lines(true, false));
      var body: seq<Event> := if |send| > 0 then [Transmit(bus, send)] + tail else tail;
      WalkCons(Transmit(bus, send), tail, dev, held);
      assert Walk(body, dev, held) == Some(Lines(true, false));
      assert r.events == [Lock] + body;
      WalkCons(Lock, body, dev, Lines(true, false));
    }
  }

  lemma {:induction false} StepsWalk(env: Env, io: Io, dev: Device, plan: seq<Xfer>)
    decreases |plan|
    ensures Walk(Steps(env, io, dev, plan).events, dev, Lines(true, false)) == Some(Lines(true, false))
  {
    if plan != [] {
      var x := plan[0];
      var t := TransferSpec(env, io, dev, x.send, x.recvLen);
      TransferWalk(env, io, dev, x.send, x.recvLen);
      if !(x.checked && !t.value.ok) {
        StepsWalk(env, t.io, dev, plan[1..]);
        WalkAppend(t.events, Steps(env, t.io, dev, plan[1..]).events, dev, Lines(true, false));
      }
    }
  }

  /** Every frame keeps the discipline, whatever its transfers do. */
  lemma FrameDisciplined(env: Env, io: Io, dev: Device, plan: seq<Xfer>)
    ensures Disciplined(FrameSpec(env, io, dev, plan).events, dev)
  {
    var s := Steps(env, io, dev, plan);
    StepsWalk(env, io, dev, plan);
    WalkAppend([CsLow(dev)], s.events + [CsHigh(dev)], dev, Idle);
    WalkAppend(s.events, [CsHigh(dev)], dev, Lines(true, false));
    assert [CsLow(dev)] + (s.events + [CsHigh(dev)]) == FrameSpec(env, io, dev, plan).events;
  }

  lemma DelayDisciplined(ms: nat, dev: Device)
    ensures Disciplined([Delay(ms)], dev)
  {
  }

  // ---------------------------------------------------------------------------
  // Opcode log

  /**
   * The first byte transmitted after each chip-select assertion: the command opcodes a
   * trace sent, in order. `pending` says a chip select was asserted and nothing has
   * been transmitted since.
   */
  function OpcodesFrom(events: seq<Event>, pending: bool): seq<Byte>
    decreases |events|
  {
    if events == [] then []
    else
      match events[0]
      case CsLow(_) => OpcodesFrom(events[1..], true)
      case CsHigh(_) => OpcodesFrom(events[1..], false)
      case Transmit(_, bytes) =>
        if pending && |bytes| > 0 then [bytes[0]] + OpcodesFrom(events[1..], false)
        else OpcodesFrom(events[1..], pending)
      case _ => OpcodesFrom(events[1..], pending)
  }

  /** Whether, after `events`, a chip select is asserted with nothing transmitted yet. */
  function PendingAfter(events: seq<Event>, pending: bool): bool
    decreases |events|
  {
    if events == [] then pending
    else
      match events[0]
      case CsLow(_) => PendingAfter(events[1..], true)
      case CsHigh(_) => PendingAfter(events[1..], false)
      case Transmit(_, bytes) => PendingAfter(events[1..], pending && |bytes| == 0)
      case _ => PendingAfter(events[1..], pending)
  }

  function Opcodes(events: seq<Event>): seq<Byte>
  {
    OpcodesFrom(events, false)
  }

  lemma {:induction false} OpcodesAppend(a: seq<Event>, b: seq<Event>, pending: bool)
    decreases |a|
    ensures OpcodesFrom(a + b, pending) == OpcodesFrom(a, pending) + OpcodesFrom(b, PendingAfter(a, pending))
    ensures PendingAfter(a + b, pending) == PendingAfter(b, PendingAfter(a, pending))
  {
    if a == [] {
      assert a + b == b;
    } else {
      assert (a + b)[0] == a[0];
      assert (a + b)[1..] == a[1..] + b;
      match a[0]
      case CsLow(_) => OpcodesAppend(a[1..], b, true);
      case CsHigh(_) => OpcodesAppend(a[1..], b, false);
      case Transmit(_, bytes) =>
        if pending && |bytes| > 0 {
          OpcodesAppend(a[1..], b, false);
        } else {
          OpcodesAppend(a[1..], b, pending);
        }
      case Lock => OpcodesAppend(a[1..], b, pending);
      case Unlock => OpcodesAppend(a[1..], b, pending);
      case Receive(_, _) => OpcodesAppend(a[1..], b, pending);
      case Delay(_) => OpcodesAppend(a[1..], b, pending);
    }
  }

  /** The opcode log of a trace made of whole pieces is the concatenation of theirs. */
  lemma OpcodesConcat(a: seq<Event>, b: seq<Event>)
    requires !PendingAfter(a, false)
    ensures Opcodes(a + b) == Opcodes(a) + Opcodes(b)
  {
    OpcodesAppend(a, b, false);
  }

  /** Without a chip-select assertion nothing counts as an opcode. */
  lemma {:induction false} OpcodesTransportOnly(events: seq<Event>)
    requires TransportOnly(events)
    decreases |events|
    ensures OpcodesFrom(events, false) == [] && !PendingAfter(events, false)
  {
    if events != [] {
      assert TransportOnly(events[1..]) by {
        forall i | 0 <= i < |events[1..]| ensures events[1..][i] == events[i + 1] {}
      }
      OpcodesTransportOnly(events[1..]);
    }
  }

  /**
   * A frame whose first transfer is checked and sends a command logs exactly that command
   * when the transfer got the mutex for a recognised device, and logs nothing otherwise;
   * it leaves no assertion pending.
   */
  lemma FrameOpcodes(env: Env, io: Io, dev: Device, plan: seq<Xfer>, pending: bool)
    requires |plan| > 0 && plan[0].checked && |plan[0].send| > 0
    ensures var f := FrameSpec(env, io, dev, plan);
      OpcodesFrom(f.events, pending) ==
        (if !dev.Unrecognized? && env.hal(io.next).ok then [plan[0].send[0]] else []) &&
      !PendingAfter(f.events, pending)
  {
    var s := Steps(env, io, dev, plan);
    OpcodesOfFrame(dev, s.events, pending);
    if !dev.Unrecognized? && env.hal(io.next).ok {
      StepsStartWithCommand(env, io, dev, plan);
      OpcodesAfterCommand(BusOf(dev).value, plan[0].send, s.events[2..]);
      assert s.events == [Lock, Transmit(BusOf(dev).value, plan[0].send)] + s.events[2..];
    } else {
      assert s.events == [];
    }
  }

  /** A frame reports the opcodes of its body as sent after a chip-select assertion, and ends with none pending. */
  lemma OpcodesOfFrame(dev: Device, body: seq<Event>, pending: bool)
    ensures OpcodesFrom([CsLow(dev)] + body + [CsHigh(dev)], pending) == OpcodesFrom(body, true)
    ensures !PendingAfter([CsLow(dev)] + body + [CsHigh(dev)], pending)
  {
    assert [CsLow(dev)] + body + [CsHigh(dev)] == [CsLow(dev)] + (body + [CsHigh(dev)]);
    OpcodesAppend([CsLow(dev)], body + [CsHigh(dev)], pending);
    OpcodesAppend(body, [CsHigh(dev)], true);
    assert [CsLow(dev)][1..] == [] && [CsHigh(dev)][1..] == [];
    assert OpcodesFrom([CsLow(dev)], pending) == [] && PendingAfter([CsLow(dev)], pending);
    var m := PendingAfter(body, true);
    assert OpcodesFrom([CsHigh(dev)], m) == [] && !PendingAfter([CsHigh(dev)], m);
    assert OpcodesFrom(body, true) + [] == OpcodesFrom(body, true);
  }

  /** A plan whose first transfer sends, once the mutex is taken, starts by locking and transmitting. */
  lemma StepsStartWithCommand(env: Env, io: Io, dev: Device, plan: seq<Xfer>)
    requires |plan| > 0 && |plan[0].send| > 0 && !dev.Unrecognized? && env.hal(io.next).ok
    ensures var s := Steps(env, io, dev, plan);
      |s.events| >= 2 && s.events[..2] == [Lock, Transmit(BusOf(dev).value, plan[0].send)] &&
      TransportOnly(s.events[2..])
  {
    var x := plan[0];
    var t := TransferSpec(env, io, dev, x.send, x.recvLen);
    var s := Steps(env, io, dev, plan);
    assert t.events[..2] == [Lock, Transmit(BusOf(dev).value, x.send)];
    assert s.events[..|t.events|] == t.events;
    assert s.events[..2] == t.events[..2];
    var tail := s.events[2..];
    assert TransportOnly(tail) by {
      forall i | 0 <= i < |tail| ensures tail[i] == s.events[i + 2] {}
    }
  }

  /** After a chip-select assertion, a lock and a transmit followed by transport events report the transmit's first byte. */
  lemma OpcodesAfterCommand(bus: Bus, bytes: seq<Byte>, tail: seq<Event>)
    requires |bytes| > 0 && TransportOnly(tail)
    ensures OpcodesFrom([Lock, Transmit(bus, bytes)] + tail, true) == [bytes[0]]
  {
    var head := [Lock, Transmit(bus, bytes)];
    OpcodesTransportOnly(tail);
    OpcodesAppend(head, tail, true);
    var sent := [Transmit(bus, bytes)];
    assert head[0] == Lock && head[1..] == sent && sent[1..] == [];
    assert OpcodesFrom(sent, true) == [bytes[0]] && !PendingAfter(sent, true);
    assert OpcodesFrom(head, true) == [bytes[0]] && !PendingAfter(head, true);
  }

  // ---------------------------------------------------------------------------
  // Bytes on the wire

  /** The bytes a trace transmitted, in order. */
  function Sent(events: seq<Event>): seq<Byte>
    decreases |events|
  {
    if events == [] then []
    else (if events[0].Transmit? then events[0].bytes else []) + Sent(events[1..])
  }

  lemma {:induction false} SentAppend(a: seq<Event>, b: seq<Event>)
    decreases |a|
    ensures Sent(a + b) == Sent(a) + Sent(b)
  {
    if a == [] {
      assert a + b == b;
    } else {
      assert (a + b)[0] == a[0];
      assert (a + b)[1..] == a[1..] + b;
      SentAppend(a[1..], b);
      var h: seq<Byte> := if a[0].Transmit? then a[0].bytes else [];
      assert h + (Sent(a[1..]) + Sent(b)) == h + Sent(a[1..]) + Sent(b);
    }
  }

  /** A chip-select frame puts on the wire what its body transmits. */
  lemma SentFrame(dev: Device, body: seq<Event>)
    ensures Sent([CsLow(dev)] + body + [CsHigh(dev)]) == Sent(body)
  {
    SentAppend([CsLow(dev)] + body, [CsHigh(dev)]);
    SentAppend([CsLow(dev)], body);
    assert [CsLow(dev)][1..] == [] && [CsHigh(dev)][1..] == [];
    assert Sent(body) + [] == Sent(body);
  }

  /** Everything a plan would send, in order. */
  function SendsOf(plan: seq<Xfer>): seq<Byte>
  {
    if plan == [] then [] else plan[0].send + SendsOf(plan[1..])
  }

  /** The `n` hardware decisions from `from` on all succeed. */
  predicate Healthy(env: Env, from: nat, n: nat)
  {
    forall k :: from <= k < from + n ==> env.hal(k).ok
  }

  lemma HealthySplit(env: Env, from: nat, a: nat, b: nat)
    ensures Healthy(env, from, a + b) <==> Healthy(env, from, a) && Healthy(env, from + a, b)
  {
  }

  /** The hardware decisions a transfer for a recognised device makes when all succeed: the mutex, then each HAL call. */
  function HalCalls(send: seq<Byte>, recvLen: nat): nat
  {
    1 + (if |send| > 0 then 1 else 0) + (if recvLen > 0 then 1 else 0)
  }

  function PlanCalls(plan: seq<Xfer>): nat
  {
    if plan == [] then 0 else HalCalls(plan[0].send, plan[0].recvLen) + PlanCalls(plan[1..])
  }

  /**
   * A transfer for a recognised device succeeds exactly when its decisions all succeed;
   * it never makes more than those, and makes all of them when it succeeds.
   */
  lemma TransferCalls(env: Env, io: Io, dev: Device, send: seq<Byte>, recvLen: nat)
    requires !dev.Unrecognized?
    ensures var t := TransferSpec(env, io, dev, send, recvLen);
      var n := HalCalls(send, recvLen);
      (t.value.ok <==> Healthy(env, io.next, n)) && t.io.next <= io.next + n &&
      (t.value.ok ==> t.io.next == io.next + n)
  {
    var t := TransferSpec(env, io, dev, send, recvLen);
    var n := HalCalls(send, recvLen);
    if t.value.ok {
      TransferOkIff(env, io, dev, send, recvLen);
      assert t.io.next == io.next + n;
    }
    if Healthy(env, io.next, n) {
      assert env.hal(io.next).ok;
      assert |send| > 0 ==> env.hal(io.next + 1).ok;
    }
  }

  /** With its decisions all succeeding, a transfer sends its bytes and receives what the last one delivered. */
  lemma TransferHealthy(env: Env, io: Io, dev: Device, send: seq<Byte>, recvLen: nat)
    requires !dev.Unrecognized? && Healthy(env, io.next, HalCalls(send, recvLen))
    ensures var t := TransferSpec(env, io, dev, send, recvLen);
      var n := HalCalls(send, recvLen);
      t.value.ok && Sent(t.events) == send && t.io.next == io.next + n &&
      t.value.rx == (if recvLen > 0 then Fit(env.hal(io.next + n - 1).rx, recvLen) else [])
  {
    TransferCalls(env, io, dev, send, recvLen);
    TransferSent(env, io, dev, send, recvLen);
    assert env.hal(io.next).ok;
    assert |send| > 0 ==> env.hal(io.next + 1).ok;
  }

  /** A transfer puts its bytes on the wire exactly when it got the mutex, whether or not the HAL call succeeded. */
  lemma TransferSent(env: Env, io: Io, dev: Device, send: seq<Byte>, recvLen: nat)
    ensures Sent(TransferSpec(env, io, dev, send, recvLen).events) ==
      if !dev.Unrecognized? && env.hal(io.next).ok then send else []
  {
    var t := TransferSpec(env, io, dev, send, recvLen);
    if !dev.Unrecognized? && env.hal(io.next).ok {
      var bus := BusOf(dev).value;
      var tx: seq<Event> := if |send| > 0 then [Transmit(bus, send)] else [];
      var tail: seq<Event> :=
        if (|send| == 0 || env.hal(io.next + 1).ok) && recvLen > 0 then [Receive(bus, recvLen), Unlock]
        else [Unlock];
      assert t.events == [Lock] + tx + tail;
      SentTransfer(bus, tx, tail);
      assert Sent(tx) == send;
    }
  }

  /** The bytes of the events of one transfer that got the mutex. */
  lemma SentTransfer(bus: Bus, tx: seq<Event>, tail: seq<Event>)
    requires tail == [Unlock] || (|tail| == 2 && tail[0].Receive? && tail[1] == Unlock)
    ensures Sent([Lock] + tx + tail) == Sent(tx)
  {
    SentAppend([Lock] + tx, tail);
    SentAppend([Lock], tx);
    assert [Lock][1..] == [] && [Unlock][1..] == [];
    if |tail| == 2 {
      assert tail[1..] == [Unlock];
    }
    assert Sent(tx) + [] == Sent(tx);
  }

  /**
   * What the receives of a plan deliver when all its decisions from `from` on succeed:
   * each receive is the last decision of its transfer.
   */
  function HealthyRx(env: Env, from: nat, plan: seq<Xfer>): seq<Byte>
    decreases |plan|
  {
    if plan == [] then []
    else
      var n := HalCalls(plan[0].send, plan[0].recvLen);
      (if plan[0].recvLen > 0 then Fit(env.hal(from + n - 1).rx, plan[0].recvLen) else []) +
      HealthyRx(env, from + n, plan[1..])
  }

  lemma HealthyRxCons(env: Env, from: nat, plan: seq<Xfer>, next: nat)
    requires plan != [] && next == from + HalCalls(plan[0].send, plan[0].recvLen)
    ensures HealthyRx(env, from, plan) ==
      (if plan[0].recvLen > 0 then Fit(env.hal(next - 1).rx, plan[0].recvLen) else []) + HealthyRx(env, next, plan[1..])
  {
  }

  /** With all its decisions succeeding, a plan succeeds, sends what it would send and receives what they delivered. */
  lemma {:induction false} StepsHealthy(env: Env, io: Io, dev: Device, plan: seq<Xfer>)
    requires !dev.Unrecognized? && Healthy(env, io.next, PlanCalls(plan))
    decreases |plan|
    ensures var s := Steps(env, io, dev, plan);
      s.value.ok && Sent(s.events) == SendsOf(plan) && s.io.next == io.next + PlanCalls(plan) &&
      s.value.rx == HealthyRx(env, io.next, plan)
  {
    if plan != [] {
      var x := plan[0];
      var n := HalCalls(x.send, x.recvLen);
      HealthySplit(env, io.next, n, PlanCalls(plan[1..]));
      var t := TransferSpec(env, io, dev, x.send, x.recvLen);
      TransferHealthy(env, io, dev, x.send, x.recvLen);
      var rest := Steps(env, t.io, dev, plan[1..]);
      StepsHealthy(env, t.io, dev, plan[1..]);
      SentAppend(t.events, rest.events);
      HealthyRxCons(env, io.next, plan, t.io.next);
    }
  }

  /** A plan whose every transfer is checked succeeds only when all its decisions succeeded. */
  lemma {:induction false} StepsOkOnlyIfHealthy(env: Env, io: Io, dev: Device, plan: seq<Xfer>)
    requires AllChecked(plan) && Steps(env, io, dev, plan).value.ok
    decreases |plan|
    ensures !dev.Unrecognized? || plan == []
    ensures Healthy(env, io.next, PlanCalls(plan))
  {
    if plan != [] {
      var x := plan[0];
      var t := TransferSpec(env, io, dev, x.send, x.recvLen);
      assert x.checked && t.value.ok;
      assert !dev.Unrecognized?;
      TransferCalls(env, io, dev, x.send, x.recvLen);
      assert AllChecked(plan[1..]) by {
        forall i | 0 <= i < |plan[1..]| ensures plan[1..][i].checked {
          assert plan[1..][i] == plan[i + 1];
        }
      }
      StepsOkOnlyIfHealthy(env, t.io, dev, plan[1..]);
      HealthySplit(env, io.next, HalCalls(x.send, x.recvLen), PlanCalls(plan[1..]));
    }
  }

  /** A plan that succeeded although its first transfer is checked got the mutex for a recognised device. */
  lemma FirstTransferGotMutex(env: Env, io: Io, dev: Device, plan: seq<Xfer>)
    requires |plan| > 0 && plan[0].checked && Steps(env, io, dev, plan).value.ok
    ensures !dev.Unrecognized? && env.hal(io.next).ok
  {
    var x := plan[0];
    assert TransferSpec(env, io, dev, x.send, x.recvLen).value.ok;
  }

  /** With all its decisions succeeding, a frame succeeds and sends exactly what its plan would send. */
  lemma FrameHealthy(env: Env, io: Io, dev: Device, plan: seq<Xfer>)
    requires !dev.Unrecognized? && Healthy(env, io.next, PlanCalls(plan))
    ensures var f := FrameSpec(env, io, dev, plan);
      f.value.ok && Sent(f.events) == SendsOf(plan) && f.io.next == io.next + PlanCalls(plan) &&
      f.value.rx == HealthyRx(env, io.next, plan)
  {
    StepsHealthy(env, io, dev, plan);
    SentFrame(dev, Steps(env, io, dev, plan).events);
  }

  /** A frame of checked transfers succeeds exactly when all its decisions succeed. */
  lemma FrameOkIff(env: Env, io: Io, dev: Device, plan: seq<Xfer>)
    requires !dev.Unrecognized? && AllChecked(plan)
    ensures FrameSpec(env, io, dev, plan).value.ok <==> Healthy(env, io.next, PlanCalls(plan))
  {
    if FrameSpec(env, io, dev, plan).value.ok {
      StepsOkOnlyIfHealthy(env, io, dev, plan);
    }
    if Healthy(env, io.next, PlanCalls(plan)) {
      StepsHealthy(env, io, dev, plan);
    }
  }

  /** On a prompt bus a plan for a recognised device succeeds and the tick count does not move. */
  lemma {:induction false} PromptSteps(env: Env, io: Io, dev: Device, plan: seq<Xfer>)
    requires Prompt(env) && !dev.Unrecognized?
    decreases |plan|
    ensures var s := Steps(env, io, dev, plan);
      s.value.ok && s.io.ticks == io.ticks
  {
    if plan != [] {
      var x := plan[0];
      var t := TransferSpec(env, io, dev, x.send, x.recvLen);
      PromptTransfer(env, io, dev, x.send, x.recvLen);
      PromptSteps(env, t.io, dev, plan[1..]);
    }
  }

  /** On a prompt bus a frame for a recognised device succeeds and takes no time. */
  lemma PromptFrame(env: Env, io: Io, dev: Device, plan: seq<Xfer>)
    requires Prompt(env) && !dev.Unrecognized?
    ensures var f := FrameSpec(env, io, dev, plan);
      f.value.ok && f.io.ticks == io.ticks
  {
    PromptSteps(env, io, dev, plan);
  }
}
