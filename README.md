# Driver_Development: SPI transport and three device drivers, modelled in Dafny

This project models the SPI layer of an STM32F407/FreeRTOS firmware:

- `SPI_Transfer`, the transport. It picks the SPI peripheral of a device, takes the one SPI mutex, transmits, receives, and gives the mutex back.
- The three drivers built on it:
  - the Macronix MX25V1635F serial NOR flash;
  - the Fujitsu MB85RS256 FRAM;
  - the ST LIS3DSH accelerometer.

The model then proves what each driver operation does on the wires.

**How the hardware is modelled.** The model does not compute with memory cells or electrical levels. As seen from a driver, the hardware is a *trace* of events:

- chip select of a device driven low or high;
- the SPI mutex taken or given back;
- a HAL transmit of bytes on a peripheral;
- a HAL receive of a number of bytes;
- a task delay.

Every answer the hardware or the kernel gives comes from an *oracle* (`Env`), one reply per hardware decision:

- did the mutex arrive within its timeout;
- did `HAL_SPI_Transmit` or `HAL_SPI_Receive` return `HAL_OK`;
- which bytes came back on MISO;
- for how many ticks the call blocked.

The tick count moves with these waits and with the delays. A HAL call blocks for the ticks its reply names. A mutex take that fails has blocked for the whole `SPI_TIMEOUT_MS`, and one that succeeds for at most that long. On a *prompt* bus (`Platform.Prompt`) every take and every HAL call succeeds without blocking, so only the delays move the clock; several timing lemmas state an exact form for that case next to their general one.

The oracle also supplies what an uninitialised local byte holds when the code reads it. The class `Platform.Hardware` holds the trace, the oracle position and the tick count. Its methods stand in for the GPIO writes, the HAL calls and the FreeRTOS calls.

Every driver operation comes in two parts:

- a specification function `...Spec(env, io, ...)`, which returns the events the operation appends, the io state it leaves and its result;
- a method that performs the same steps on `Hardware`. It is proved to append exactly those events, to leave that io state and to return that result.

Each operation's properties are then proved as lemmas about its specification function, in modules `Mx25Props`, `Mb85Props` and `Lis3dshProps`. The lemmas cover:

- when it succeeds, stated as an if-and-only-if over the oracle's answers;
- what it sends and what it returns;
- which error code each failure yields;
- what it does not do after a failure;
- two views of the trace:
  - `Frame.Disciplined`, the line discipline. One device's chip select alternates, the mutex alternates, bytes move only while both are held, and everything ends released.
  - `Frame.Opcodes`, the log of command opcodes: the first byte sent after each chip-select assertion.

**Locking is per transfer.** The SPI mutex is taken and given back inside each `SPI_Transfer` (platform/spi/spi-core.c:196-217). Another task can therefore take the bus between two transfers of one frame while that frame's chip select is still low. `Frame.LockReleasedBetweenTransfers` states this behaviour.

**Other behaviour the model reproduces from the code:**

- The flash range check is `flashAddress > FLASH_SIZE`, so the address `FLASH_SIZE` is accepted (`Mx25Props.FlashSizeLetThrough`).
- MX25_PP ignores the result of its address transfer.
- MX25_READ and MX25_RES ignore the result of their data receive.
- MB85RS256_Write returns the status of WRDI, so a failed write frame goes unreported.
- MX25_RES and MB85RS256_RDSR ask for `sizeof` of their buffer pointer (4 bytes) as the receive length.
- flashIsBusy and flashIs4Byte test an uninitialised byte when their register read fails.
- LIS3DSH_Init marks the module initialised even when configuring fails.
- A failed WREN is reported differently by each command. MX25_CE passes on `FLASH_OPERATION_FAILED`, while MX25_SE and MX25_PP report `FLASH_TIME_OUT`.

Modules:

| file | module | content |
|---|---|---|
| platform.dfy | Platform | bytes, devices, events, oracle, `Hardware` |
| spi_core.dfy | SpiCore | `SPI_Transfer` and the mutex |
| frame.dfy | Frame | chip-select frames of transfers, the discipline and opcode views |
| mx25v1635f_defs.dfy | Mx25Defs | constants, result codes and status structure of the flash header |
| mx25v1635f.dfy | Mx25 | the flash driver |
| mx25v1635f_props.dfy | Mx25Props | what the flash driver promises |
| mb85rs256.dfy | Mb85 | the FRAM driver |
| mb85rs256_props.dfy | Mb85Props | what the FRAM driver promises |
| lis3dsh_registers.dfy | BitFields, Lis3dshRegs | C bit-fields; the LIS3DSH register map |
| lis3dsh.dfy | Lis3dsh | the accelerometer driver and its module flag |
| lis3dsh_props.dfy | Lis3dshProps | what the accelerometer driver promises |

## Model

| member | source | states |
|---|---|---|
| SpiCore.BusOf | platform/spi/spi-core.c:182-195 | the accelerometer uses SPI1, flash and FRAM share SPI2, and any other device gets no peripheral; each direction of all three is stated |
| SpiCore.TransferSpec | platform/spi/spi-core.c:177-226 | a transfer makes at most three hardware decisions (mutex, transmit, receive) and lasts at least as long as its mutex take; it delivers either no bytes or exactly the requested number, and the requested number whenever it succeeded |
| Platform.Take | platform/spi/spi-core.c:46-54 | a mutex take uses one decision; one that fails blocks for the whole timeout, one that succeeds for at most the timeout, and a prompt one not at all |
| SpiCore.SpiMutexAcquire | platform/spi/spi-core.c:46-54 | the lock is taken exactly when the mutex arrived within SPI_TIMEOUT_MS; one decision is used up and the tick count moves as `Take` says |
| SpiCore.SpiMutexRelease | platform/spi/spi-core.c:57-60 | gives the mutex back and changes nothing else |
| SpiCore.SpiTransfer | platform/spi/spi-core.c:177-226 | the method appends exactly the events of `TransferSpec`, leaves its io state and returns its status and bytes |
| SpiCore.UnrecognizedDeviceFails | platform/spi/spi-core.c:190-194 | an unknown device fails at once, with no event and no decision used |
| SpiCore.MutexTimeoutFails | platform/spi/spi-core.c:196-225 | when the mutex does not arrive, the transfer fails with no event after blocking for exactly SPI_TIMEOUT_MS: nothing is sent and nothing is given back |
| SpiCore.PromptTransfer | platform/spi/spi-core.c:196-225 | on a prompt bus a transfer to a recognised device succeeds and the tick count does not move |
| SpiCore.TransferShape | platform/spi/spi-core.c:196-217 | once the mutex is taken, it is given back exactly once, as the last event |
| SpiCore.TransferBusEvents | platform/spi/spi-core.c:196-217 | the transmit happens exactly when there are bytes to send; the receive happens exactly when bytes are requested and the transmit, if any, succeeded; every bus event is on the device's own peripheral and strictly inside the lock |
| SpiCore.TransferOkIff | platform/spi/spi-core.c:177-226 | a transfer returns true exactly when the device is known and every hardware decision it made succeeded |
| SpiCore.EmptyTransfer | platform/spi/spi-core.c:196-225 | with nothing to send or receive, a transfer only locks and unlocks, and succeeds |
| SpiCore.OneMutexForAllDevices | platform/spi/spi-core.c:182-196 | all known devices lock and unlock the same mutex with the same outcome; two devices share a peripheral exactly when both or neither are the accelerometer |
| Frame.TransferIsTransportOnly | platform/spi/spi-core.c:177-226 | a transfer never drives a chip select and never delays |
| Frame.Steps | storage/fram/mb85rs256.c:103-118 | the transfers inside a frame deliver at most the bytes the plan asks for, and all of them when every transfer is checked and the frame succeeded; no chip select or delay happens among them |
| Frame.FrameSpec | storage/fram/mb85rs256.c:103-120 | the same bounds for a whole chip-select frame |
| Frame.JoinAssoc | storage/fram/mb85rs256.c:103-118 | running three groups of transfers one after the other does not depend on how they are grouped |
| Frame.StepsAppend | storage/fram/mb85rs256.c:103-118 | running `p + q` is running `p` and then, if it did not fail, running `q` from where `p` stopped |
| Frame.StepsExtend | storage/fram/mb85rs256.c:103-118 | after a plan, one more transfer runs only if the plan has not failed, and its failure counts only if it is checked |
| Frame.StepsStopAtFailure | storage/fram/mb85rs256.c:103-118 | once a checked transfer has failed, nothing that follows it runs |
| Frame.StepsOkIff | storage/fram/mb85rs256.c:103-118 | a plan of checked transfers succeeds exactly when the device is known and every hardware decision it made succeeded |
| Frame.FrameChipSelect | storage/fram/mb85rs256.c:103-120 | a frame drives its chip select low first and high last, exactly once each, even when a transfer fails, and changes no chip select in between |
| Frame.LockReleasedBetweenTransfers | platform/spi/spi-core.c:196-217 | between two transfers of one frame, the mutex is given back and taken again while chip select stays low |
| Frame.FrameDisciplined | storage/fram/mb85rs256.c:103-120 | every frame keeps the line discipline, whatever its transfers do |
| Frame.DisciplinedAppend | storage/fram/mb85rs256.c:129-176 | disciplined traces stay disciplined when run one after the other |
| Frame.FrameOpcodes | storage/fram/mb85rs256.c:103-120 | a frame whose first transfer sends a command logs exactly that command when the transfer got the mutex for a known device, and nothing otherwise |
| Frame.OpcodesConcat | storage/fram/mb85rs256.c:129-176 | the opcode log of whole frames run one after the other is the concatenation of their logs |
| Frame.SentFrame | storage/fram/mb85rs256.c:103-120 | the chip-select changes of a frame put no byte on the wire |
| Frame.TransferCalls | platform/spi/spi-core.c:196-217 | a transfer to a known device succeeds exactly when its mutex and HAL decisions all succeed; it never makes more decisions than those, and makes all of them when it succeeds |
| Frame.TransferHealthy | platform/spi/spi-core.c:196-217 | with all its decisions succeeding, a transfer succeeds, sends its bytes and delivers what the receive left |
| Frame.TransferSent | platform/spi/spi-core.c:196-201 | a transfer puts its bytes on the wire exactly when it got the mutex, whether or not the HAL call then succeeded |
| Frame.StepsHealthy | storage/fram/mb85rs256.c:103-118 | with all its decisions succeeding, a plan succeeds, sends what each transfer sends, in order, and delivers what the receives left |
| Frame.StepsOkOnlyIfHealthy | storage/fram/mb85rs256.c:103-118 | a plan of checked transfers succeeds only when all its decisions succeeded |
| Frame.FirstTransferGotMutex | storage/fram/mb85rs256.c:105-107 | a plan that succeeded with a checked first transfer got the mutex for a known device |
| Frame.FrameHealthy | storage/fram/mb85rs256.c:103-120 | with all its decisions succeeding, a frame succeeds and sends exactly what its plan sends |
| Frame.FrameOkIff | storage/fram/mb85rs256.c:103-120 | a frame of checked transfers succeeds exactly when all its decisions succeed |
| Frame.PromptSteps | storage/fram/mb85rs256.c:103-118 | on a prompt bus a plan for a recognised device succeeds and the tick count does not move |
| Frame.PromptFrame | storage/fram/mb85rs256.c:103-120 | on a prompt bus a chip-select frame for a recognised device succeeds and takes no time |
| Mx25Defs.Code | storage/flash/mx25v1635f.h:127-136 | each result code has its enumerator's value, which is below 7 |
| Mx25Defs.FromCode | storage/flash/mx25v1635f.h:127-136 | a value names a result code exactly when it is below 7 |
| Mx25Defs.CodeRoundTrip | storage/flash/mx25v1635f.h:127-136 | the codes are distinct values, and only `FLASH_OPERATION_SUCCESS` is zero |
| Mx25Defs.IdentificationConsistent | storage/flash/mx25v1635f.h:14-17 | the RDID, RES and REMS identification constants agree: manufacturer C2h, type 23h, device 15h, with REMS_ID_1 the byte swap of REMS_ID_0 |
| Mx25Defs.GeometryNests | storage/flash/mx25v1635f.h:42-47 | 32 blocks of 64 KiB fill the 2 MiB device; blocks, 32K blocks, sectors, pages and 32-byte pages nest exactly |
| Mx25Defs.WaitBoundsOrdered | storage/flash/mx25v1635f.h:21-36 | the page program bound is the shortest wait and the chip erase bound the longest |
| Mx25Defs.MasksAreSingleBits | storage/flash/mx25v1635f.h:51-57 | WIP is bit 0, LDSO bit 1 and QE bit 6 of the status register; 4BYTE is bit 2 and WPSEL bit 7 of the security register |
| Mx25.Dummies | storage/flash/mx25v1635f.c:39-56 | n dummy cycles are n checked transfers, each sending one FFh |
| Mx25.RegisterReadSpec | storage/flash/mx25v1635f.c:440-463 | a register read never moves the tick count back |
| Mx25.WrenSpec | storage/flash/mx25v1635f.c:472-487 | MX25_WREN reports only success or `FLASH_OPERATION_FAILED`, and never moves the tick count back |
| Mx25.IsBusySpec | storage/flash/mx25v1635f.c:169-178 | the busy check never moves the tick count back, so the poll loop's bound holds |
| Mx25.FlashChipSelectLow | storage/flash/mx25v1635f.c:28-31 | drives the flash chip select low and changes nothing else |
| Mx25.FlashChipSelectHigh | storage/flash/mx25v1635f.c:22-25 | drives the flash chip select high and changes nothing else |
| Mx25.InsertDummyCycle | storage/flash/mx25v1635f.c:39-56 | the loop's trace, io state and status are those of the dummy-cycle plan |
| Mx25.FlashRead | storage/flash/mx25v1635f.c:92-103 | a frame holding one checked transfer: the command and the receive |
| Mx25.FlashWrite | storage/flash/mx25v1635f.c:111-121 | a frame holding one checked transfer of the command |
| Mx25.SendAddr | storage/flash/mx25v1635f.c:132-159 | one transfer of the address bytes for the current address mode |
| Mx25.Rdsr | storage/flash/mx25v1635f.c:440-463 | the method follows `RdsrSpec` |
| Mx25.Rdscur | storage/flash/mx25v1635f.c:353-375 | the method follows `RdscurSpec` |
| Mx25.IsBusyCheck | storage/flash/mx25v1635f.c:169-178 | the method follows `IsBusySpec`; the tick count does not go back |
| Mx25.Is4Byte | storage/flash/mx25v1635f.c:66-84 | the method follows `Is4ByteSpec` |
| Mx25.PollAgain | storage/flash/mx25v1635f.c:197-204 | one pass of the poll loop after WIP was read set: it gives up exactly when more than the bound has passed after the one-tick delay, as the specification does; otherwise time has moved forward and the rest of the specification is what remains |
| Mx25.WaitTillReady | storage/flash/mx25v1635f.c:191-209 | the loop's trace, io state and result are those of `WaitTillReadySpec` |
| Mx25.ShiftInThree | storage/flash/mx25v1635f.c:237-239 | assembling three bytes by shifting gives their big-endian value |
| Mx25.Rdid | storage/flash/mx25v1635f.c:220-247 | the method follows `RdidSpec` |
| Mx25.DummiesReceiveNothing | storage/flash/mx25v1635f.c:39-56 | dummy cycles only transmit |
| Mx25.Res | storage/flash/mx25v1635f.c:256-293 | the method follows `ResSpec` |
| Mx25.Rems | storage/flash/mx25v1635f.c:303-344 | the method follows `RemsSpec` |
| Mx25.ReadFrame | storage/flash/mx25v1635f.c:401-422 | the chip-select frame of MX25_READ follows its plan |
| Mx25.Read | storage/flash/mx25v1635f.c:385-432 | the method follows `ReadSpec` |
| Mx25.Wren | storage/flash/mx25v1635f.c:472-487 | the method follows `WrenSpec` |
| Mx25.Ce | storage/flash/mx25v1635f.c:496-535 | the method follows `CeSpec` |
| Mx25.SeFrame | storage/flash/mx25v1635f.c:571-584 | the chip-select frame of MX25_SE follows its plan: command, then the address if the command went out |
| Mx25.Se | storage/flash/mx25v1635f.c:545-599 | the method follows `SeSpec` |
| Mx25.PpFrame | storage/flash/mx25v1635f.c:641-660 | the chip-select frame of MX25_PP follows its plan: the address transfer's result is not looked at |
| Mx25.Pp | storage/flash/mx25v1635f.c:615-672 | the method follows `PpSpec` |
| Mx25.Dp | storage/flash/mx25v1635f.c:681-699 | the method follows `DpSpec` |
| Mx25.Wake | storage/flash/mx25v1635f.c:707-720 | the method follows `WakeSpec` |
| Mx25.Init | storage/flash/mx25v1635f.c:729-744 | the chip select is driven high, nothing else is done, and the result is true |
| Mx25Props.AddressRoundTrip | storage/flash/mx25v1635f.c:132-159 | in 4-byte mode the four address bytes decode to the address; in 3-byte mode the three bytes decode to its low 24 bits and are the 4-byte form without its top byte |
| Mx25Props.ValidAddressFitsThreeBytes | storage/flash/mx25v1635f.c:392-393 | every address the range check lets through fits in the three bytes of 3-byte mode |
| Mx25Props.AddressEncodingInjective | storage/flash/mx25v1635f.c:132-159 | distinct addresses the range check lets through are sent as distinct bytes, in either mode |
| Mx25Props.NoDummyCycles | storage/flash/mx25v1635f.c:39-56 | zero dummy cycles do nothing and succeed |
| Mx25Props.DummyCyclesOkIff | storage/flash/mx25v1635f.c:39-56 | n dummy cycles succeed exactly when all 2n mutex and transmit decisions succeed |
| Mx25Props.DummyCyclesSend | storage/flash/mx25v1635f.c:39-56 | every byte the dummy cycles put on the wire is FFh; all n go out on success |
| Mx25Props.RdidResult | storage/flash/mx25v1635f.c:220-247 | MX25_RDID succeeds exactly when the mutex, the 9Fh transmit and the 3-byte receive succeed; it then yields b0<<16 \| b1<<8 \| b2 of the bytes received, and otherwise keeps the caller's id |
| Mx25Props.RdidReadsDeviceId | storage/flash/mx25v1635f.h:14 | the answer C2h 23h 15h is read as FLASH_DEVICE_ID |
| Mx25Props.RdidOpcodes | storage/flash/mx25v1635f.c:220-247 | MX25_RDID keeps the line discipline and logs 9Fh whenever it got the mutex |
| Mx25Props.RemsResult | storage/flash/mx25v1635f.c:303-344 | MX25_REMS succeeds exactly when its nine decisions succeed; it then has sent 90h, two dummy bytes and the ArrangeOpt byte, and yields b0<<8 \| b1; otherwise it keeps the caller's id |
| Mx25Props.RemsReadsIds | storage/flash/mx25v1635f.h:16-17 | with ArrangeOpt 0 the answer C2h 15h reads as REMS_ID_0; with ArrangeOpt 1 the answer 15h C2h reads as REMS_ID_1 |
| Mx25Props.ResResult | storage/flash/mx25v1635f.c:256-293 | MX25_RES succeeds exactly when ABh and its three dummy bytes went out, whatever the receive did; the id is the first byte the receive left when its transfer got the mutex, and the caller's byte otherwise |
| Mx25Props.ResFrameOutcome | storage/flash/mx25v1635f.c:261-282 | the frame of MX25_RES succeeds exactly when its eight command and dummy decisions succeed; it then holds what the unchecked receive left, and a failed frame holds nothing |
| Mx25Props.RdsrResult | storage/flash/mx25v1635f.c:440-463 | MX25_RDSR succeeds exactly when its three decisions succeed and then yields the byte received; otherwise it keeps the caller's byte |
| Mx25Props.RdscurResult | storage/flash/mx25v1635f.c:353-375 | the same for MX25_RDSCUR and the security register |
| Mx25Props.IsBusyReadsWip | storage/flash/mx25v1635f.c:169-178 | flashIsBusy is bit 0 of the status byte read, or of the uninitialised buffer when the read failed |
| Mx25Props.Is4ByteReadsMode | storage/flash/mx25v1635f.c:66-84 | flashIs4Byte is bit 2 of the security byte read, or of the uninitialised buffer when the read failed |
| Mx25Props.PromptIsBusy | storage/flash/mx25v1635f.c:169-178 | on a prompt bus the status read takes no time |
| Mx25Props.PollBound | storage/flash/mx25v1635f.c:197-204 | the poll gives up only once more than the bound has passed since its start, and time never goes back; on a prompt bus it reports ready exactly when it stopped within the bound, and gives up exactly one tick past it |
| Mx25Props.WaitTillReadyBound | storage/flash/mx25v1635f.c:191-209 | flashWaitTillReady(t) gives up only after more than t ms, and reads the status register at most t + 1 times; on a prompt bus it is ready exactly when at most t ms passed, and takes exactly t + 1 ms when it gives up |
| Mx25Props.PollReadyWithinBound | storage/flash/mx25v1635f.c:197-205 | a ready result comes from a status read that began within the bound and found WIP clear, and the wait ends when that read does; the read itself may end past the bound |
| Mx25Props.PollReadyAtOnce | storage/flash/mx25v1635f.c:197-205 | with WIP clear at the first read, the wait returns true at once, without a delay |
| Mx25Props.PollAlwaysBusy | storage/flash/mx25v1635f.c:197-204 | a device that always reports WIP set makes the wait give up past the bound, exactly one tick past it when no call blocks |
| Mx25Props.MutexTimeoutInPoll | storage/flash/mx25v1635f.c:169-204 | a mutex time-out in the first status read blocks for SPI_TIMEOUT_MS, so with a shorter bound the wait decides from the uninitialised status buffer: WIP set there gives up after one read and one delay, WIP clear reports ready although more than the bound has passed |
| Mx25Props.PollTrace | storage/flash/mx25v1635f.c:191-209 | every poll keeps the line discipline and sends no opcode but RDSR, at most once per tick left before the bound and once more |
| Mx25Props.AddressGate | storage/flash/mx25v1635f.c:392-393 | MX25_READ, MX25_SE and MX25_PP refuse an address past FLASH_SIZE with `FLASH_ADDRESS_INVALID`, before any line or bus event |
| Mx25Props.FlashSizeLetThrough | storage/flash/mx25v1635f.c:552-553 | the range check is strict, so the address FLASH_SIZE itself is let through by all three |
| Mx25Props.TailCodes | storage/flash/mx25v1635f.c:566-597 | the write-enable, command and wait steps end with success, the WREN failure code, the frame failure code or `FLASH_TIME_OUT` |
| Mx25Props.BusyGate | storage/flash/mx25v1635f.c:503-506 | with WIP set at the first read, MX25_CE, MX25_SE and MX25_PP report `FLASH_IS_BUSY` after nothing but that read: no WREN and no command |
| Mx25Props.TailTrace | storage/flash/mx25v1635f.c:566-597 | the write-enable, command and wait steps keep the line discipline, and the command goes out only right after a WREN |
| Mx25Props.TailOutcome | storage/flash/mx25v1635f.c:566-597 | when WREN fails, these steps report the WREN failure code and send only the WREN; when they report success, WREN and the command were their first opcodes |
| Mx25Props.CeTrace | storage/flash/mx25v1635f.c:496-535 | MX25_CE keeps the line discipline and sends 60h only immediately after a WREN |
| Mx25Props.CeOutcome | storage/flash/mx25v1635f.c:509-514 | MX25_CE passes a failed WREN's result on as it is and sends no erase; on success, the erase was sent right after WREN |
| Mx25Props.SeTrace | storage/flash/mx25v1635f.c:545-599 | MX25_SE keeps the line discipline and sends 20h only immediately after a WREN |
| Mx25Props.SeOutcome | storage/flash/mx25v1635f.c:566-569 | MX25_SE reports a failed WREN as `FLASH_TIME_OUT` and sends no erase; on success, the erase was sent right after WREN |
| Mx25Props.PpTrace | storage/flash/mx25v1635f.c:615-672 | MX25_PP keeps the line discipline and sends 02h only immediately after a WREN |
| Mx25Props.PpOutcome | storage/flash/mx25v1635f.c:636-639 | MX25_PP reports a failed WREN as `FLASH_TIME_OUT` and sends no program; on success, the program was sent right after WREN |
| Mx25Props.ReadFrameOutcome | storage/flash/mx25v1635f.c:401-422 | the frame of MX25_READ succeeds exactly when command and address went out; the data receive's status is ignored, so its bytes are whatever the receive left, or none when it did not get the mutex; a failed frame delivers nothing |
| Mx25Props.ReadOutcome | storage/flash/mx25v1635f.c:385-432 | after the RDSCUR mode read, MX25_READ succeeds exactly when its four command and address decisions succeed, returning what the receive left; otherwise it reports `FLASH_OPERATION_FAILED` with no data |
| Mx25Props.ReadTrace | storage/flash/mx25v1635f.c:385-432 | MX25_READ keeps the line discipline and sends no opcode but RDSCUR and READ |
| Mx25Props.ReadLengthWraps | storage/flash/mx25v1635f.c:414-419 | the uint32 length is passed to SPI_Transfer as a uint16, so a read of n + 65536 bytes behaves as a read of n bytes |
| Mx25Props.PpLengthWraps | storage/flash/mx25v1635f.c:655-656 | the page-program length is truncated the same way |
| Mx25Props.PpIgnoresAddressFailure | storage/flash/mx25v1635f.c:648-651 | with the command and data transfers healthy, the MX25_PP frame succeeds even though the address transmit failed |
| Mx25Props.DpOutcome | storage/flash/mx25v1635f.c:681-699 | MX25_DP always ends with the tDP delay, which adds tDP to the tick count its frame left; it succeeds exactly when the B9h frame's two decisions succeed, and reports `FLASH_OPERATION_FAILED` otherwise |
| Mx25Props.DpTrace | storage/flash/mx25v1635f.c:681-699 | MX25_DP keeps the line discipline and logs B9h whenever its transfer got the mutex |
| Mx25Props.WakeTrace | storage/flash/mx25v1635f.c:707-720 | MX25_WAKE pulses chip select without bus or mutex events, sends no byte and takes tCRDP + tRDP |
| Mx25Props.OneFrameCommandsDisciplined | storage/flash/mx25v1635f.c:220-487 | MX25_RDID, MX25_RES, MX25_REMS, MX25_RDSR, MX25_RDSCUR and MX25_WREN keep the line discipline |
| Mb85.AddressBytes | storage/fram/mb85rs256.c:92-95 | the address goes out as two bytes, most significant first, from which it is recovered |
| Mb85.Clamp | storage/fram/mb85rs256.c:98-101 | a length is clamped to FRAM_SIZE_IN_BYTES: never more than asked or than the part holds, and shortened only to exactly the part's size |
| Mb85.FramChipSelectHigh | storage/fram/mb85rs256.c:34-37 | drives the FRAM chip select high and changes nothing else |
| Mb85.FramChipSelectLow | storage/fram/mb85rs256.c:40-43 | drives the FRAM chip select low and changes nothing else |
| Mb85.ReadRegister | storage/fram/mb85rs256.c:51-61 | a frame holding one checked transfer: the opcode and the receive |
| Mb85.SendCommand | storage/fram/mb85rs256.c:69-79 | the method follows `SendCommandSpec` |
| Mb85.ReadSteps | storage/fram/mb85rs256.c:105-116 | the three transfers of a read, each run only if the previous one succeeded |
| Mb85.Read | storage/fram/mb85rs256.c:89-121 | the method follows `ReadSpec` |
| Mb85.WriteFrame | storage/fram/mb85rs256.c:151-169 | the write frame: opcode, address, then the data if both went out |
| Mb85.Write | storage/fram/mb85rs256.c:129-176 | the method follows `WriteSpec` |
| Mb85.Rdsr | storage/fram/mb85rs256.c:184-191 | the method follows `RdsrSpec` |
| Mb85.Wren | storage/fram/mb85rs256.c:200-207 | MB85RS256_WREN sends the WREN opcode in a frame of its own |
| Mb85.Wrdi | storage/fram/mb85rs256.c:216-223 | MB85RS256_WRDI sends the WRDI opcode in a frame of its own |
| Mb85.Rdid | storage/fram/mb85rs256.c:233-257 | the method follows `RdidSpec` |
| Mb85.ShiftInFour | storage/fram/mb85rs256.c:250-253 | shifting the four bytes in one by one builds their big-endian word |
| Mb85.Init | storage/fram/mb85rs256.c:266-281 | the chip select is driven high, nothing else is done, and the result is true |
| Mb85Props.SendCommandOutcome | storage/fram/mb85rs256.c:69-79 | a command sends exactly its opcode in a frame of its own and succeeds exactly when the mutex and the transmit succeed |
| Mb85Props.SendCommandTrace | storage/fram/mb85rs256.c:69-79 | a command keeps the line discipline and logs its opcode whenever it got the mutex |
| Mb85Props.ReadOutcome | storage/fram/mb85rs256.c:89-121 | MB85RS256_Read succeeds exactly when all its decisions succeed; it then has sent READ and the address, most significant byte first, and returns the clamped number of bytes received |
| Mb85Props.ReadTrace | storage/fram/mb85rs256.c:89-121 | MB85RS256_Read keeps the line discipline and logs READ whenever its first transfer got the mutex |
| Mb85Props.ReadStopsAtFailure | storage/fram/mb85rs256.c:105-118 | a failed opcode transfer is followed by nothing, a failed address transfer by no receive, and either way the read fails with no data and chip select released |
| Mb85Props.WriteOutcome | storage/fram/mb85rs256.c:129-176 | once WREN succeeded, MB85RS256_Write is true exactly when WRDI succeeds, whatever the write frame did; when WREN fails, the result is false and nothing else is sent |
| Mb85Props.WriteIgnoresFrameFailure | storage/fram/mb85rs256.c:151-175 | with WREN and WRDI succeeding and the write frame's mutex not arriving, MB85RS256_Write still returns true |
| Mb85Props.WriteHealthy | storage/fram/mb85rs256.c:129-176 | with every decision succeeding, MB85RS256_Write returns true and sends WREN, WRITE, the address, the clamped data and WRDI, in that order |
| Mb85Props.WriteDisciplined | storage/fram/mb85rs256.c:129-176 | MB85RS256_Write keeps the line discipline through all three of its frames |
| Mb85Props.WriteTrace | storage/fram/mb85rs256.c:129-176 | the opcode log of MB85RS256_Write is a prefix of WREN, WRITE, WRDI, so WRITE is never sent without a WREN before it |
| Mb85Props.WriteEndsWithWrdi | storage/fram/mb85rs256.c:171-175 | once WREN has succeeded, WRDI is the last opcode whenever its transfer gets the mutex |
| Mb85Props.SelfTestWiring | storage/fram/fram-services.c:51-73 | writing 10 bytes at address 0 and reading 10 bytes at address 0 address the same cells: with all decisions succeeding, both succeed, the write sends the data right after 00h 00h, and the read sends that address and returns 10 bytes |
| Mb85Props.RdsrResult | storage/fram/mb85rs256.c:184-191 | MB85RS256_RDSR succeeds exactly when its three decisions succeed; the register takes the first received byte whenever the receive ran, and keeps its value otherwise |
| Mb85Props.RdidResult | storage/fram/mb85rs256.c:233-257 | MB85RS256_RDID succeeds exactly when its three decisions succeed; it then yields the four bytes received, first one most significant, and otherwise keeps the identification |
| Mb85Props.RegisterReadsDisciplined | storage/fram/mb85rs256.c:184-257 | RDSR, RDID, WREN and WRDI keep the line discipline |
| BitFields.GetSet | sensing/accel/lis3dsh-registers.h:40-47 | reading a bit-field after assigning it gives the value, truncated to the field's width |
| BitFields.SetGet | sensing/accel/lis3dsh-registers.h:40-47 | assigning a field the value it holds changes nothing |
| BitFields.SetOutside | sensing/accel/lis3dsh-registers.h:40-47 | assigning a field changes no bit outside it |
| BitFields.GetOther | sensing/accel/lis3dsh-registers.h:40-47 | assigning one field leaves every disjoint field as it was |
| Lis3dshProps.CtrlReg3Layout | sensing/accel/lis3dsh-registers.h:27-37 | CTRL_REG3 is eight one-bit fields that tile the byte, STRT in bit 0 up to DR_EN in bit 7 |
| Lis3dshProps.CtrlReg4Layout | sensing/accel/lis3dsh-registers.h:40-47 | CTRL_REG4 is Xen, Yen, Zen and BDU in bits 0 to 3 and ODR in bits 4 to 7, tiling the byte |
| Lis3dshProps.CtrlReg5Layout | sensing/accel/lis3dsh-registers.h:50-56 | CTRL_REG5 is SIM in bit 0, ST in bits 1-2, FSCALE in bits 3-5 and BW in bits 6-7, tiling the byte |
| Lis3dshProps.TilesDisjoint | sensing/accel/lis3dsh-registers.h:27-56 | any two fields of a layout that tiles the byte share no bit |
| Lis3dshProps.AddressesDistinct | sensing/accel/lis3dsh-registers.h:13-22 | the register addresses are distinct and all below the read bit |
| Lis3dshProps.ReadCommandNeverAliases | sensing/accel/lis3dsh.c:90-102 | a read command is never a register address, and clearing the read bit gives the register back |
| Lis3dshProps.OutputRegistersConsecutive | sensing/accel/lis3dsh.c:19-25 | a six-byte burst from OUT_X_L covers the six output registers in address order, and the decoded positions are those of the named registers |
| Lis3dshProps.RateAndBduFields | sensing/accel/lis3dsh.c:167-190 | accelConfigure writes CTRL_REG4 with ODR holding the rate's code and BDU 1; the axis enables keep the values read |
| Lis3dshProps.BandwidthFields | sensing/accel/lis3dsh.c:192-213 | accelConfigure writes CTRL_REG5 with BW holding the bandwidth's code; SIM, ST and FSCALE keep the values read |
| Lis3dshProps.Int1DataReadyFields | sensing/accel/lis3dsh.c:330-333 | LIS3DSH_EnableInterrupt sets IEL, IEA, DR_EN and INT1_EN; STRT, the reserved bit, VFILT and INT2_EN keep the values read |
| Lis3dshProps.StartResetFields | sensing/accel/lis3dsh.c:243-269 | LIS3DSH_PerformSoftReset sets STRT, and every other bit of CTRL_REG3 keeps the value read |
| Lis3dsh.Axis | sensing/accel/lis3dsh.c:291-295 | an axis is the two bytes, low byte first, as a signed 16-bit value: negative exactly when the high byte's top bit is set |
| Lis3dsh.AccelChipSelectHigh | sensing/accel/lis3dsh.c:73-76 | drives the accelerometer chip select high and changes nothing else |
| Lis3dsh.AccelChipSelectLow | sensing/accel/lis3dsh.c:79-82 | drives the accelerometer chip select low and changes nothing else |
| Lis3dsh.AccelRead | sensing/accel/lis3dsh.c:90-102 | the method follows `AccelReadSpec` |
| Lis3dsh.AccelWrite | sensing/accel/lis3dsh.c:110-125 | the method follows `AccelWriteSpec` |
| Lis3dsh.UpdateRegister | sensing/accel/lis3dsh.c:167-190 | the read-modify-write of one control register follows `UpdateSpec` |
| Lis3dsh.Configure | sensing/accel/lis3dsh.c:163-216 | the method follows `ConfigureSpec` |
| Lis3dsh.EnableInterrupt | sensing/accel/lis3dsh.c:320-348 | the method follows `EnableInterruptSpec` |
| Lis3dsh.PerformSoftReset | sensing/accel/lis3dsh.c:243-269 | the method follows `SoftResetSpec` |
| Lis3dsh.ReadAccelData | sensing/accel/lis3dsh.c:277-312 | the method follows `ReadAccelDataSpec` |
| Lis3dsh.ReadId | sensing/accel/lis3dsh.c:356-379 | the method follows `ReadIdSpec` |
| Lis3dsh.Accelerometer.constructor | sensing/accel/lis3dsh.c:68 | the module starts out not initialised |
| Lis3dsh.Accelerometer.IsModuleInitialized | sensing/accel/lis3dsh.c:226-235 | reports the module flag |
| Lis3dsh.Accelerometer.Init | sensing/accel/lis3dsh.c:388-442 | the method follows `InitSpec` for both the status and the new flag |
| Lis3dsh.Accelerometer.BringUp | sensing/accel/lis3dsh.c:422-431 | the method follows `BringUpSpec`, and the module flag is set afterwards whatever configuring did |
| Lis3dshProps.AccelReadOutcome | sensing/accel/lis3dsh.c:90-102 | accelRead succeeds exactly when the mutex, the command transmit and the receive succeed; it then has sent only the address with the read bit set, and returns the bytes received |
| Lis3dshProps.AccelReadTrace | sensing/accel/lis3dsh.c:90-102 | accelRead keeps the line discipline on the accelerometer's lines and logs its read command whenever it got the mutex |
| Lis3dshProps.AccelWriteOutcome | sensing/accel/lis3dsh.c:110-125 | accelWrite succeeds exactly when both of its transfers' decisions succeed; it then has sent the address, unmodified, followed by the data |
| Lis3dshProps.AccelWriteStopsAtFailure | sensing/accel/lis3dsh.c:110-125 | accelWrite skips the data when the address transfer failed, and releases chip select either way |
| Lis3dshProps.AccelWriteTrace | sensing/accel/lis3dsh.c:110-125 | accelWrite keeps the line discipline and logs the address whenever it got the mutex |
| Lis3dshProps.UpdateOutcome | sensing/accel/lis3dsh.c:167-190 | a register update succeeds exactly when the seven decisions of its read and write succeed; it then has sent the read command, then the address and the byte read with the edit's fields assigned |
| Lis3dshProps.UpdateTrace | sensing/accel/lis3dsh.c:167-190 | a register update keeps the line discipline; its opcode log is a prefix of the read command and the address, all of it on success; when the read fails there is no write |
| Lis3dshProps.UpdateTicks | sensing/accel/lis3dsh.c:167-190 | a register update never moves the tick count back; on a prompt bus it succeeds and the tick count does not move |
| Lis3dshProps.ConfigureOutcome | sensing/accel/lis3dsh.c:163-216 | accelConfigure succeeds exactly when the fourteen decisions of its two updates succeed; it then has rewritten CTRL_REG4 with rate and BDU, then CTRL_REG5 with the bandwidth |
| Lis3dshProps.ConfigureTrace | sensing/accel/lis3dsh.c:163-216 | accelConfigure keeps the line discipline, and leaves CTRL_REG5 untouched when CTRL_REG4 could not be updated |
| Lis3dshProps.EnableInterruptOutcome | sensing/accel/lis3dsh.c:320-348 | LIS3DSH_EnableInterrupt succeeds exactly when its seven decisions succeed; it then has rewritten CTRL_REG3 with IEL, IEA, DR_EN and INT1_EN set and the other bits as read |
| Lis3dshProps.SoftResetOutcome | sensing/accel/lis3dsh.c:243-269 | LIS3DSH_PerformSoftReset succeeds exactly when its seven decisions succeed; it then has rewritten CTRL_REG3 with STRT set and waited the reset time after the update; on failure it does nothing after the failed update |
| Lis3dshProps.SoftResetTrace | sensing/accel/lis3dsh.c:243-269 | the soft reset keeps the line discipline; on success the trace is the update's frames, which end with chip select high and the mutex given back, followed by the reset wait as its last event |
| Lis3dshProps.ReadAccelDataOutcome | sensing/accel/lis3dsh.c:277-312 | LIS3DSH_ReadAccelData succeeds exactly when its read of the six output registers does; it then has sent the burst read for OUT_X_L and the sample is the six bytes as little-endian signed pairs; on failure the sample is zero |
| Lis3dshProps.AxisOfBytes | sensing/accel/lis3dsh.c:291-295 | every int16_t reading has a byte pair that decodes to it |
| Lis3dshProps.BytesOfAxis | sensing/accel/lis3dsh.c:291-295 | every byte pair is the encoding of its decoded reading, so decoding is one-to-one |
| Lis3dshProps.AxisExtremes | sensing/accel/lis3dsh.c:291-295 | 00h 80h decodes to -32768, FFh 7Fh to 32767 and FFh FFh to -1 |
| Lis3dshProps.ReadIdOutcome | sensing/accel/lis3dsh.c:356-379 | LIS3DSH_ReadID returns 0 or the device ID, and the device ID exactly when the WHO_AM_I read succeeded and delivered it |
| Lis3dshProps.BringUpOutcome | sensing/accel/lis3dsh.c:422-431 | after a good WHO_AM_I, configuring and enabling the interrupt succeed exactly when the twenty-one decisions of the three updates succeed |
| Lis3dshProps.BringUpTrace | sensing/accel/lis3dsh.c:422-431 | these updates keep the line discipline and come in order: CTRL_REG4, CTRL_REG5, CTRL_REG3 |
| Lis3dshProps.BringUpConfigureFails | sensing/accel/lis3dsh.c:422-431 | when configuring fails, CTRL_REG3 is neither read nor written |
| Lis3dshProps.InitFlag | sensing/accel/lis3dsh.c:417-426 | the module is marked initialised after any good WHO_AM_I, even when configuring then fails, and is never unmarked; a successful Init implies a good WHO_AM_I |
| Lis3dshProps.InitOutcome | sensing/accel/lis3dsh.c:388-442 | LIS3DSH_Init succeeds exactly when all twenty-four decisions of its four register accesses succeed and WHO_AM_I delivered the device ID |
| Lis3dshProps.InitTrace | sensing/accel/lis3dsh.c:388-442 | LIS3DSH_Init keeps the line discipline and issues at most the ID read and the three updates, in that order, all of them on success |
| Lis3dshProps.InitStops | sensing/accel/lis3dsh.c:416-431 | a bad or unreadable ID stops LIS3DSH_Init after that read; a failed configuration leaves the interrupt disabled |

## Left out

- NULL-pointer checks of the public functions: the model has no pointers. Results are returned, and a caller's previous value is passed in.
- The GPIO, clock and pin setup:
  - spi1AccelInit and spi2SharedInit, and the mutex creation in SPI_Init;
  - the pin part of MX25_Init and MB85RS256_Init;
  - the GPIO and NVIC part of LIS3DSH_Init (sensing/accel/lis3dsh.c:393-414), including its first chip-select-high write;
  - the HAL_NVIC_EnableIRQ call of LIS3DSH_EnableInterrupt.

  These are outside the SPI traffic. The discipline is stated from idle lines.
- The debug output: all `printf` calls, and accelReadRegister, which only reads and prints one register.
- accelConvertDataToMg and the milli-g values: floating-point scaling.
- Lis3dsh.ReadAccelData: returns the raw sample in counts. The source only prints it in milli-g, through floating point.
- The `NUMOF` sentinels of the data-rate and bandwidth enumerations: they are counts, not values a caller passes.
- The number of bytes RES and RDSR receive into a one-byte variable: modelled as a 4-byte receive of which the first byte is kept. The overwrite of the memory beyond that byte is not modelled.
- The `NON_SYNCHRONOUS_IO`, `FLASH_4BYTE_ONLY`, `FLASH_3BYTE_ONLY` and `FLASH_CMD_RDSCUR` build options: the model takes the default build, with synchronous waits and the 4BYTE bit read from the security register.
- The contents of the flash and FRAM arrays, and the services' write-then-read tests: the parts' memory is not modelled. `Mb85Props.SelfTestWiring` states only what the FRAM test's two calls put on the wire.
- The FreeRTOS tasks, the data-ready interrupt handler and the accelerometer, flash and FRAM services.
- Concurrency: other tasks taking the mutex between two transfers of a frame. The trace is that of one task, and `Frame.LockReleasedBetweenTransfers` shows where others could interleave.
- The wrap-around of the 32-bit tick count in flashWaitTillReady: ticks are unbounded.
- The contents of a receive buffer after a failed HAL receive: the model returns the bytes the oracle gives, whether or not the call succeeded.
- The uint16 and uint8 lengths of SPI_Transfer, flashRead, flashInsertDummyCycle, accelRead and accelWrite are preconditions that they fit. The uint32 lengths of MX25_READ and MX25_PP are truncated explicitly.
- FRAM_ID and FRAM_SIZE_IN_BYTES: their header, storage/fram/mb85rs256.h, is not part of this model. The size is the 256 Kbit part's 0x8000 bytes, FRAM_ID is only used by the test services.
- The opcodes that are defined but never sent (WRSR, SLEEP, the flash's other read, erase, mode and reset commands): no code issues them.
- Ticks: one tick is one millisecond, so `pdMS_TO_TICKS` is the identity.
- Time spent between two statements: a delay of n ticks adds exactly n, and the code between the calls takes no time. A task that another task preempts wakes later than that; this falls under concurrency.
- The HAL's own time-out: a HAL call blocks for whatever its reply names. The model does not tie a `HAL_TIMEOUT` result to a wait of SPI_TIMEOUT_MS or more.
