/**
 * The services the drivers call through but whose code is not part of this model:
 * the chip-select GPIO writes, the STM32 HAL SPI transmit and receive calls, the
 * FreeRTOS mutex, delays and tick counter.
 *
 * Their effect is observed as a trace of bus events. Their answers (did the mutex
 * arrive within its timeout, did the HAL call return HAL_OK, which bytes came back
 * on MISO, how long the call blocked) come from an oracle that is consumed one reply
 * per hardware decision.
 */
module Platform {

  type Byte = bv8

  datatype Option<T> = None | Some(value: T)

  /** SpiDevice_t (platform/spi/spi-core.h), plus any other value a caller may pass. */
  datatype Device = Lis3dshAccel | Mx25Flash | Mb85Fram | Unrecognized(code: nat)

  /**
   * sizeof of a pointer on the Cortex-M4. MX25_RES and MB85RS256_RDSR pass the size of
   * their buffer pointer, not of the byte it points to, as the receive length.
   */
  const POINTER_SIZE: nat := 4

  /** The two SPI peripherals: SPI1 serves the accelerometer, SPI2 is shared by flash and FRAM. */
  datatype Bus = AccelSpi | SharedSpi

  datatype Event =
    | CsLow(dev: Device)                   // chip select asserted (pin driven low)
    | CsHigh(dev: Device)                  // chip select released (pin driven high)
    | Lock                                 // the SPI mutex was taken
    | Unlock                               // the SPI mutex was given back
    | Transmit(bus: Bus, bytes: seq<Byte>) // HAL_SPI_Transmit of these bytes
    | Receive(bus: Bus, count: nat)        // HAL_SPI_Receive of this many bytes
    | Delay(ms: nat)                       // vTaskDelay or HAL_Delay

  /**
   * One answer of the hardware: whether the step succeeded, for a receive the bytes
   * seen, and for how many ticks the call blocked.
   */
  datatype Reply = Reply(ok: bool, rx: seq<Byte>, wait: nat)

  /**
   * The oracle. `hal(k)` answers the k-th hardware decision; `stale(k)` is what an
   * uninitialised local byte holds when it is read while `k` decisions have been made.
   */
  datatype Env = Env(hal: nat -> Reply, stale: nat -> Byte)

  /** How far the oracle has been consumed, and the RTOS tick count (1 tick = 1 ms). */
  datatype Io = Io(next: nat, ticks: nat)

  /** What a piece of driver code does: the events it adds, the state it leaves, its result. */
  datatype Run<T> = Run(events: seq<Event>, io: Io, value: T)

  /** The io state after a HAL call: one more oracle reply used, and the ticks the call blocked for. */
  function Consume(env: Env, io: Io): (r: Io)
    ensures r.next == io.next + 1 && io.ticks <= r.ticks
  {
    Io(io.next + 1, io.ticks + env.hal(io.next).wait)
  }

  /**
   * The io state after xSemaphoreTake with a timeout of `timeout` ticks: a take that
   * fails has blocked for the whole timeout, one that succeeds for at most that long.
   */
  function Take(env: Env, io: Io, timeout: nat): (r: Io)
    ensures r.next == io.next + 1 && io.ticks <= r.ticks <= io.ticks + timeout
    ensures !env.hal(io.next).ok ==> r.ticks == io.ticks + timeout
    ensures env.hal(io.next).ok && env.hal(io.next).wait == 0 ==> r.ticks == io.ticks
  {
    var w := env.hal(io.next).wait;
    Io(io.next + 1, io.ticks + if !env.hal(io.next).ok then timeout else if w <= timeout then w else timeout)
  }

  /** A bus on which every mutex take and every HAL call succeeds without blocking. */
  ghost predicate Prompt(env: Env)
  {
    forall k :: env.hal(k).ok && env.hal(k).wait == 0
  }

  /** The `n` bytes a receive of length `n` leaves in its buffer, given what the bus delivered. */
  function Fit(rx: seq<Byte>, n: nat): (r: seq<Byte>)
    ensures |r| == n
    ensures forall i :: 0 <= i < n && i < |rx| ==> r[i] == rx[i]
  {
    if n <= |rx| then rx[..n] else rx + seq(n - |rx|, _ => 0)
  }

  /** Grouping of appended traces; driver proofs regroup the events of nested calls with it. */
  lemma Regroup(a: seq<Event>, b: seq<Event>, c: seq<Event>)
    ensures a + b + c == a + (b + c)
  {
  }

  /** The events of a chip-select frame appended after `a`. */
  lemma RegroupFrame(a: seq<Event>, dev: Device, body: seq<Event>)
    ensures a + [CsLow(dev)] + body + [CsHigh(dev)] == a + ([CsLow(dev)] + body + [CsHigh(dev)])
  {
  }

  /** The hardware and kernel as the drivers see them. */
  class Hardware {
    const env: Env
    var trace: seq<Event>
    var next: nat
    var ticks: nat

    function IoState(): Io
      reads this
    {
      Io(next, ticks)
    }

    constructor (env: Env)
      ensures this.env == env && trace == [] && next == 0 && ticks == 0
    {
      this.env := env;
      trace := [];
      next := 0;
      ticks := 0;
    }

    /** HAL_GPIO_WritePin(port, pin, GPIO_PIN_RESET) on the chip-select line of `dev`. */
    method ChipSelectLow(dev: Device)
      modifies this
      ensures trace == old(trace) + [CsLow(dev)] && IoState() == old(IoState())
    {
      trace := trace + [CsLow(dev)];
    }

    /** HAL_GPIO_WritePin(port, pin, GPIO_PIN_SET) on the chip-select line of `dev`. */
    method ChipSelectHigh(dev: Device)
      modifies this
      ensures trace == old(trace) + [CsHigh(dev)] && IoState() == old(IoState())
    {
      trace := trace + [CsHigh(dev)];
    }

    /** vTaskDelay(pdMS_TO_TICKS(ms)) or HAL_Delay(ms): the tick count advances by `ms`. */
    method Sleep(ms: nat)
      modifies this
      ensures trace == old(trace) + [Delay(ms)]
      ensures next == old(next) && ticks == old(ticks) + ms
    {
      trace := trace + [Delay(ms)];
      ticks := ticks + ms;
    }

    /** xTaskGetTickCount(). */
    method TickCount() returns (t: nat)
      ensures t == ticks
    {
      t := ticks;
    }

    /** xSemaphoreTake with a timeout: whether the mutex arrived in time is the oracle's answer. */
    method MutexTake(timeout: nat) returns (taken: bool)
      modifies this
      ensures taken == env.hal(old(next)).ok
      ensures trace == old(trace) + (if taken then [Lock] else [])
      ensures IoState() == Take(env, old(IoState()), timeout)
    {
      var w := env.hal(next).wait;
      taken := env.hal(next).ok;
      if taken {
        trace := trace + [Lock];
        ticks := ticks + if w <= timeout then w else timeout;
      } else {
        ticks := ticks + timeout;
      }
      next := next + 1;
    }

    /** xSemaphoreGive. */
    method MutexGive()
      modifies this
      ensures trace == old(trace) + [Unlock] && IoState() == old(IoState())
    {
      trace := trace + [Unlock];
    }

    /** HAL_SPI_Transmit: true when it returned HAL_OK. */
    method HalTransmit(bus: Bus, bytes: seq<Byte>) returns (ok: bool)
      modifies this
      ensures ok == env.hal(old(next)).ok
      ensures trace == old(trace) + [Transmit(bus, bytes)]
      ensures IoState() == Consume(env, old(IoState()))
    {
      ok := env.hal(next).ok;
      trace := trace + [Transmit(bus, bytes)];
      ticks := ticks + env.hal(next).wait;
      next := next + 1;
    }

    /** HAL_SPI_Receive: true when it returned HAL_OK, and what it left in the buffer. */
    method HalReceive(bus: Bus, count: nat) returns (ok: bool, rx: seq<Byte>)
      modifies this
      ensures ok == env.hal(old(next)).ok && rx == Fit(env.hal(old(next)).rx, count)
      ensures trace == old(trace) + [Receive(bus, count)]
      ensures IoState() == Consume(env, old(IoState()))
    {
      ok := env.hal(next).ok;
      rx := Fit(env.hal(next).rx, count);
      trace := trace + [Receive(bus, count)];
      ticks := ticks + env.hal(next).wait;
      next := next + 1;
    }

    /** The value of a local byte that the code reads before anything wrote it. */
    method Uninitialised() returns (b: Byte)
      ensures b == env.stale(next)
    {
      b := env.stale(next);
    }
  }
}
