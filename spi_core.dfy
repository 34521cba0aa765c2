/**
 * The SPI transport (platform/spi/spi-core.c): one transfer routine shared by the
 * three drivers. It picks the SPI peripheral of the device, takes the one SPI mutex,
 * transmits and then receives, and gives the mutex back. Chip select is not its
 * business: every driver frames its own transfers.
 */
module SpiCore {
  import opened Platform

  /** SPI_TIMEOUT_MS: the timeout of the mutex take and of each HAL call. */
  const SPI_TIMEOUT_MS: nat := 1000

  /** The SPI peripheral SPI_Transfer uses for a device; None when the device is not recognised. */
  function BusOf(dev: Device): (bus: Option<Bus>)
    ensures bus == Some(AccelSpi) <==> dev == Lis3dshAccel
    ensures bus == Some(SharedSpi) <==> dev == Mx25Flash || dev == Mb85Fram
    ensures bus == None <==> dev.Unrecognized?
  {
    match dev
    case Lis3dshAccel => Some(AccelSpi)
    case Mx25Flash => Some(SharedSpi)
    case Mb85Fram => Some(SharedSpi)
    case Unrecognized(_) => None
  }

  /** The outcome of one transfer: its boolean result and the bytes received (none if no receive ran). */
  datatype Transferred = Transferred(ok: bool, rx: seq<Byte>)

  /** What SPI_Transfer does from io state `io`. */
  function TransferSpec(env: Env, io: Io, dev: Device, send: seq<Byte>, recvLen: nat): (r: Run<Transferred>)
    ensures io.ticks <= r.io.ticks && io.next <= r.io.next <= io.next + 3
    ensures BusOf(dev).Some? ==> Take(env, io, SPI_TIMEOUT_MS).ticks <= r.io.ticks
    ensures r.value.rx == [] || |r.value.rx| == recvLen
    ensures r.value.ok && recvLen > 0 ==> |r.value.rx| == recvLen
  {
    match BusOf(dev)
    case None => Run([], io, Transferred(false, []))
    case Some(bus) =>
      if !env.hal(io.next).ok then
        // the mutex did not arrive within SPI_TIMEOUT_MS
        Run([], Take(env, io, SPI_TIMEOUT_MS), Transferred(false, []))
      else
        var afterLock := Take(env, io, SPI_TIMEOUT_MS);
        var txOk := |send| == 0 || env.hal(afterLock.next).ok;
        var afterTx := if |send| > 0 then Consume(env, afterLock) else afterLock;
        var tx := if |send| > 0 then [Transmit(bus, send)] else [];
        if txOk && recvLen > 0 then
          var reply := env.hal(afterTx.next);
          Run([Lock] + tx + [Receive(bus, recvLen), Unlock], Consume(env, afterTx),
              Transferred(reply.ok, Fit(reply.rx, recvLen)))
        else
          Run([Lock] + tx + [Unlock], afterTx, Transferred(txOk, []))
  }

  /** spiMutexAcquire: xSemaphoreTake with a timeout of SPI_TIMEOUT_MS. */
  method SpiMutexAcquire(hw: Hardware) returns (taken: bool)
    modifies hw
    ensures taken == hw.env.hal(old(hw.next)).ok
    ensures hw.trace == old(hw.trace) + (if taken then [Lock] else [])
    ensures hw.IoState() == Take(hw.env, old(hw.IoState()), SPI_TIMEOUT_MS)
  {
    taken := hw.MutexTake(SPI_TIMEOUT_MS);
  }

  /** spiMutexRelease. */
  method SpiMutexRelease(hw: Hardware)
    modifies hw
    ensures hw.trace == old(hw.trace) + [Unlock] && hw.IoState() == old(hw.IoState())
  {
    hw.MutexGive();
  }

  /**
   * SPI_Transfer. The send buffer and the receive length are uint16 lengths in the
   * source; a receive buffer that no receive wrote is returned as the empty sequence.
   */
  method SpiTransfer(hw: Hardware, device: Device, dataToSend: seq<Byte>, lengthToReceive: nat)
    returns (ok: bool, dataReceived: seq<Byte>)
    requires |dataToSend| < 0x1_0000 && lengthToReceive < 0x1_0000
    modifies hw
    ensures var r := TransferSpec(hw.env, old(hw.IoState()), device, dataToSend, lengthToReceive);
      hw.trace == old(hw.trace) + r.events && hw.IoState() == r.io &&
      ok == r.value.ok && dataReceived == r.value.rx
  {
    var bus := SharedSpi;
    var stat := true;
    if device == Lis3dshAccel {
      bus := AccelSpi;
    } else if device == Mx25Flash || device == Mb85Fram {
      bus := SharedSpi;
    } else {
      stat := false;
    }
    dataReceived := [];
    var acquired := false;
    if stat {
      acquired := SpiMutexAcquire(hw);
    }
    if stat && acquired {
      if |dataToSend| > 0 {
        stat := hw.HalTransmit(bus, dataToSend);
      }
      if stat && lengthToReceive > 0 {
        stat, dataReceived := hw.HalReceive(bus, lengthToReceive);
      }
      SpiMutexRelease(hw);
    } else {
      stat := false;
    }
    ok := stat;
  }

  /** A device SPI_Transfer does not recognise fails at once and touches neither mutex nor bus. */
  lemma UnrecognizedDeviceFails(env: Env, io: Io, dev: Device, send: seq<Byte>, recvLen: nat)
    requires dev.Unrecognized?
    ensures var r := TransferSpec(env, io, dev, send, recvLen);
      r.events == [] && r.io == io && !r.value.ok
  {
  }

  /**
   * When the mutex does not arrive in time, nothing is sent and the transfer fails
   * after blocking for the whole SPI_TIMEOUT_MS.
   */
  lemma MutexTimeoutFails(env: Env, io: Io, dev: Device, send: seq<Byte>, recvLen: nat)
    requires !dev.Unrecognized? && !env.hal(io.next).ok
    ensures var r := TransferSpec(env, io, dev, send, recvLen);
      r.events == [] && r.io == Io(io.next + 1, io.ticks + SPI_TIMEOUT_MS) && !r.value.ok
  {
  }

  /** Once the mutex is taken it is given back exactly once, as the last event. */
  lemma TransferShape(env: Env, io: Io, dev: Device, send: seq<Byte>, recvLen: nat)
    requires !dev.Unrecognized? && env.hal(io.next).ok
    ensures var r := TransferSpec(env, io, dev, send, recvLen);
      |r.events| >= 2 && r.events[0] == Lock && r.events[|r.events| - 1] == Unlock &&
      multiset(r.events)[Lock] == 1 && multiset(r.events)[Unlock] == 1
  {
  }

  /**
   * Every bus event of a transfer goes to the device's own peripheral while the mutex
   * is held; the transmit happens exactly when there is something to send, and the
   * receive exactly when there is something to receive and the transmit (if any)
   * succeeded.
   */
  lemma TransferBusEvents(env: Env, io: Io, dev: Device, send: seq<Byte>, recvLen: nat)
    requires !dev.Unrecognized? && env.hal(io.next).ok
    ensures var r := TransferSpec(env, io, dev, send, recvLen);
      var bus := BusOf(dev).value;
      var txOk := |send| == 0 || env.hal(io.next + 1).ok;
      (Transmit(bus, send) in r.events <==> |send| > 0) &&
      (Receive(bus, recvLen) in r.events <==> recvLen > 0 && txOk) &&
      (forall i :: 0 <= i < |r.events| && (r.events[i].Transmit? || r.events[i].Receive?) ==>
        r.events[i].bus == bus && 0 < i < |r.events| - 1)
  {
  }

  /**
   * The transfer result is true exactly when the device is recognised and every
   * hardware step it took (mutex, transmit, receive) succeeded.
   */
  lemma TransferOkIff(env: Env, io: Io, dev: Device, send: seq<Byte>, recvLen: nat)
    ensures var r := TransferSpec(env, io, dev, send, recvLen);
      r.value.ok <==> !dev.Unrecognized? && forall k :: io.next <= k < r.io.next ==> env.hal(k).ok
  {
    var r := TransferSpec(env, io, dev, send, recvLen);
    if !dev.Unrecognized? && env.hal(io.next).ok {
      if |send| > 0 && !env.hal(io.next + 1).ok {
        assert !r.value.ok && io.next + 1 < r.io.next;
      }
    }
  }

  /** With nothing to send or receive, a transfer only takes and gives back the mutex. */
  lemma EmptyTransfer(env: Env, io: Io, dev: Device)
    requires !dev.Unrecognized? && env.hal(io.next).ok
    ensures var r := TransferSpec(env, io, dev, [], 0);
      r.events == [Lock, Unlock] && r.value.ok && r.io == Take(env, io, SPI_TIMEOUT_MS)
  {
  }

  /**
   * Flash and FRAM share one peripheral, the accelerometer has its own, and all three
   * take the same mutex: the transfers of any two recognised devices lock and unlock
   * the same object.
   */
  lemma OneMutexForAllDevices(env: Env, io: Io, d1: Device, d2: Device, send: seq<Byte>, recvLen: nat)
    requires !d1.Unrecognized? && !d2.Unrecognized? && env.hal(io.next).ok
    ensures var r1 := TransferSpec(env, io, d1, send, recvLen);
      var r2 := TransferSpec(env, io, d2, send, recvLen);
      r1.events[0] == r2.events[0] == Lock &&
      r1.events[|r1.events| - 1] == r2.events[|r2.events| - 1] == Unlock &&
      r1.value == r2.value &&
      (BusOf(d1) == BusOf(d2) <==> (d1 == Lis3dshAccel <==> d2 == Lis3dshAccel))
  {
  }

  /** On a prompt bus a transfer to a recognised device succeeds and the tick count does not move. */
  lemma PromptTransfer(env: Env, io: Io, dev: Device, send: seq<Byte>, recvLen: nat)
    requires Prompt(env)
    ensures var r := TransferSpec(env, io, dev, send, recvLen);
      r.io.ticks == io.ticks && (r.value.ok <==> !dev.Unrecognized?)
  {
  }
}
