/**
 * The MX25V1635F serial NOR flash as the driver's header describes it: identification
 * values, size and geometry, timing bounds, register masks, opcodes and the result codes
 * of the public API.
 */
module Mx25Defs {
  import opened Platform

  // Identification
  const FLASH_DEVICE_ID: bv32 := 0xC22315 // manufacturer C2h, memory type 23h, density 15h
  const ELECTRONIC_ID: Byte := 0x15
  const REMS_ID_0: bv16 := 0xC215         // manufacturer ID first
  const REMS_ID_1: bv16 := 0x15C2         // electronic ID first
  const FLASH_SIZE: bv32 := 0x200000      // 2 MiB

  // Timing bounds in milliseconds
  const T_PP: nat := 4
  const T_SE: nat := 240
  const T_PUW: nat := 10
  const T_DP: nat := 1
  const T_DPDD: nat := 1
  const T_CRDP: nat := 1
  const T_RDP: nat := 1
  const T_CE: nat := 38000

  const PAGE_PROGRAM_CYCLE_TIME: nat := T_PP
  const SECTOR_ERASE_CYCLE_TIME: nat := T_SE
  const FLASH_FULL_ACCESS_TIME: nat := T_PUW
  const STANDBY_TO_DP_MODE_DELAY: nat := T_DP
  const WAKE_UP_CS_PIN_LOW_TIME: nat := T_CRDP
  const DP_TO_STANDBY_MODE_DELAY: nat := T_RDP
  const CHIP_ERASE_CYCLE_TIME: nat := T_CE

  // Geometry in bytes
  const BLOCK_OFFSET: nat := 0x10000
  const BLOCK_32K_OFFSET: nat := 0x8000
  const SECTOR_OFFSET: nat := 0x1000
  const PAGE_OFFSET: nat := 0x0100
  const PAGE_32_OFFSET: nat := 0x0020
  const BLOCK_NUM: nat := FLASH_SIZE as nat / BLOCK_OFFSET

  // Status register
  const FLASH_WIP_MASK: Byte := 0x01
  const FLASH_LDSO_MASK: Byte := 0x02
  const FLASH_QE_MASK: Byte := 0x40
  // Security register
  const FLASH_OTPLOCK_MASK: Byte := 0x03
  const FLASH_4BYTE_MASK: Byte := 0x04
  const FLASH_WPSEL_MASK: Byte := 0x80

  // Opcodes the driver sends
  const FLASH_CMD_RDID: Byte := 0x9F
  const FLASH_CMD_RES: Byte := 0xAB
  const FLASH_CMD_REMS: Byte := 0x90
  const FLASH_CMD_RDSR: Byte := 0x05
  const FLASH_CMD_RDSCUR: Byte := 0x2B
  const FLASH_CMD_READ: Byte := 0x03
  const FLASH_CMD_WREN: Byte := 0x06
  const FLASH_CMD_WRDI: Byte := 0x04
  const FLASH_CMD_PP: Byte := 0x02
  const FLASH_CMD_SE: Byte := 0x20
  const FLASH_CMD_CE: Byte := 0x60
  const FLASH_CMD_DP: Byte := 0xB9

  /** The byte clocked out to generate dummy cycles. */
  const DUMMY_BYTE: Byte := 0xFF

  /** flashReturnMsg_t. */
  datatype FlashMsg =
    | Success
    | OperationFailed
    | WriteRegFailed
    | TimeOut
    | IsBusy
    | QuadNotEnable
    | AddressInvalid

  /** The numeric value of each enumerator, in declaration order. */
  function Code(m: FlashMsg): (c: nat)
    ensures c < 7
  {
    match m
    case Success => 0
    case OperationFailed => 1
    case WriteRegFailed => 2
    case TimeOut => 3
    case IsBusy => 4
    case QuadNotEnable => 5
    case AddressInvalid => 6
  }

  /** The inverse of `Code`. */
  function FromCode(c: nat): (m: Option<FlashMsg>)
    ensures c < 7 <==> m.Some?
  {
    if c == 0 then Some(Success)
    else if c == 1 then Some(OperationFailed)
    else if c == 2 then Some(WriteRegFailed)
    else if c == 3 then Some(TimeOut)
    else if c == 4 then Some(IsBusy)
    else if c == 5 then Some(QuadNotEnable)
    else if c == 6 then Some(AddressInvalid)
    else None
  }

  /** The enumerators are distinct values and success is zero. */
  lemma CodeRoundTrip(m: FlashMsg)
    ensures FromCode(Code(m)) == Some(m)
    ensures Code(m) == 0 <==> m == Success
  {
  }

  /** FlashStatus_t. */
  datatype FlashStatus = FlashStatus(modeReg: Byte, arrangeOpt: bool)

  /** The identification values are consistent with each other. */
  lemma IdentificationConsistent()
    ensures FLASH_DEVICE_ID >> 16 == 0xC2 && (FLASH_DEVICE_ID >> 8) & 0xFF == 0x23
    ensures (FLASH_DEVICE_ID & 0xFF) as Byte == ELECTRONIC_ID
    ensures REMS_ID_0 == (0xC2 as bv16 << 8) | ELECTRONIC_ID as bv16
    ensures REMS_ID_1 == (REMS_ID_0 << 8) | (REMS_ID_0 >> 8)
  {
  }

  /** The geometry nests: pages in sectors in 32K blocks in blocks in the device. */
  lemma GeometryNests()
    ensures BLOCK_NUM == 32 && BLOCK_NUM * BLOCK_OFFSET == FLASH_SIZE as nat
    ensures BLOCK_OFFSET == 2 * BLOCK_32K_OFFSET && BLOCK_32K_OFFSET == 8 * SECTOR_OFFSET
    ensures SECTOR_OFFSET == 16 * PAGE_OFFSET && PAGE_OFFSET == 8 * PAGE_32_OFFSET
  {
  }

  /** The wait bounds: page program is shortest, chip erase longest. */
  lemma WaitBoundsOrdered()
    ensures 0 < PAGE_PROGRAM_CYCLE_TIME < SECTOR_ERASE_CYCLE_TIME < CHIP_ERASE_CYCLE_TIME
  {
  }

  /** The masks the driver tests are single bits. */
  lemma MasksAreSingleBits()
    ensures FLASH_WIP_MASK == 1 << 0 && FLASH_4BYTE_MASK == 1 << 2
    ensures FLASH_LDSO_MASK == 1 << 1 && FLASH_QE_MASK == 1 << 6 && FLASH_WPSEL_MASK == 1 << 7
  {
  }
}
