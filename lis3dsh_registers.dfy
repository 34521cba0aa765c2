/**
 * C bit-fields of a one-byte register: reading a field (`Get`) and assigning one
 * (`Set`) as the compiler does it with shifts and masks.
 */
module BitFields {
  import opened Platform

  /** A bit-field: its lowest bit and its width. */
  datatype Field = Field(pos: Byte, width: Byte)

  /** A field that lies inside one byte. */
  predicate InByte(f: Field)
  {
    1 <= f.width <= 8 && f.pos <= 8 - f.width
  }

  /** The mask of the `width` low bits. */
  function LowBits(width: Byte): Byte
    requires 1 <= width <= 8
  {
    0xFF >> (8 - width)
  }

  /** The bits of a register byte a field occupies. */
  function Mask(f: Field): Byte
    requires InByte(f)
  {
    LowBits(f.width) << f.pos
  }

  /** Reading bit-field `f` of register byte `b`. */
  function Get(b: Byte, f: Field): Byte
    requires InByte(f)
  {
    (b >> f.pos) & LowBits(f.width)
  }

  /** Assigning `v` to bit-field `f`, as C does: `v` is truncated to the field's width. */
  function Set(b: Byte, f: Field, v: Byte): Byte
    requires InByte(f)
  {
    (b & !Mask(f)) | ((v & LowBits(f.width)) << f.pos)
  }

  /** Reading a field back after assigning it yields the assigned value, truncated to the field. */
  lemma GetSet(b: Byte, f: Field, v: Byte)
    requires InByte(f)
    ensures Get(Set(b, f, v), f) == v & LowBits(f.width)
  {
    // one case per position, so that every shift is by a constant
    if f.pos == 0 {} else if f.pos == 1 {} else if f.pos == 2 {} else if f.pos == 3 {}
    else if f.pos == 4 {} else if f.pos == 5 {} else if f.pos == 6 {} else {}
  }

  /** Assigning a field the value it holds changes nothing. */
  lemma SetGet(b: Byte, f: Field)
    requires InByte(f)
    ensures Set(b, f, Get(b, f)) == b
  {
    // one case per position, so that every shift is by a constant
    if f.pos == 0 {} else if f.pos == 1 {} else if f.pos == 2 {} else if f.pos == 3 {}
    else if f.pos == 4 {} else if f.pos == 5 {} else if f.pos == 6 {} else {}
  }

  /** Assigning a field changes no bit outside it. */
  lemma SetOutside(b: Byte, f: Field, v: Byte)
    requires InByte(f)
    ensures Set(b, f, v) & !Mask(f) == b & !Mask(f)
  {
  }

  /** Fields that share no bit. */
  predicate Disjoint(f: Field, g: Field)
    requires InByte(f) && InByte(g)
  {
    f.pos + f.width <= g.pos || g.pos + g.width <= f.pos
  }

  /** Assigning one field leaves every field disjoint from it as it was. */
  lemma GetOther(b: Byte, f: Field, g: Field, v: Byte)
    requires InByte(f) && InByte(g) && Disjoint(f, g)
    ensures Get(Set(b, f, v), g) == Get(b, g)
  {
    if f.pos + f.width <= g.pos {
      GetAbove(b, f, g, v);
    } else {
      GetBelow(b, f, g, v);
    }
  }

  /** GetOther for a field `g` above the assigned one. */
  lemma GetAbove(b: Byte, f: Field, g: Field, v: Byte)
    requires InByte(f) && InByte(g) && f.pos + f.width <= g.pos
    ensures Get(Set(b, f, v), g) == Get(b, g)
  {
    // one case per position, so that every shift is by a constant
    if g.pos == 0 {} else if g.pos == 1 {} else if g.pos == 2 {} else if g.pos == 3 {}
    else if g.pos == 4 {} else if g.pos == 5 {} else if g.pos == 6 {} else {}
  }

  /** GetOther for a field `g` below the assigned one. */
  lemma GetBelow(b: Byte, f: Field, g: Field, v: Byte)
    requires InByte(f) && InByte(g) && g.pos + g.width <= f.pos
    ensures Get(Set(b, f, v), g) == Get(b, g)
  {
    // one case per position, so that every shift is by a constant
    if f.pos == 0 {} else if f.pos == 1 {} else if f.pos == 2 {} else if f.pos == 3 {}
    else if f.pos == 4 {} else if f.pos == 5 {} else if f.pos == 6 {} else {}
  }
}

/**
 * The LIS3DSH register map (sensing/accel/lis3dsh-registers.h): the addresses the
 * driver uses and the bit-field layouts of CTRL_REG3, CTRL_REG4 and CTRL_REG5.
 *
 * A layout is the list of its fields' widths in declaration order; the compiler
 * (GCC for the little-endian Cortex-M4) allocates `uint8_t` bit-fields from the least
 * significant bit up, so each field starts where the previous one ended. Reading a
 * field of a register byte and assigning one are `Get` and `Set`.
 */
module Lis3dshRegs {
  import opened Platform
  import opened BitFields

  const LIS3DSH_WHO_AM_I_REGISTER_ADDR: Byte := 0x0F
  const LIS3DSH_OUT_X_L_REGISTER_ADDR: Byte := 0x28
  const LIS3DSH_OUT_X_H_REGISTER_ADDR: Byte := 0x29
  const LIS3DSH_OUT_Y_L_REGISTER_ADDR: Byte := 0x2A
  const LIS3DSH_OUT_Y_H_REGISTER_ADDR: Byte := 0x2B
  const LIS3DSH_OUT_Z_L_REGISTER_ADDR: Byte := 0x2C
  const LIS3DSH_OUT_Z_H_REGISTER_ADDR: Byte := 0x2D
  const LIS3DSH_CTRL_REG3_REGISTER_ADDR: Byte := 0x23
  const LIS3DSH_CTRL_REG4_REGISTER_ADDR: Byte := 0x20
  const LIS3DSH_CTRL_REG5_REGISTER_ADDR: Byte := 0x24

  /** Every register address of the map, in the order they are defined. */
  const ADDRESSES: seq<Byte> := [
    LIS3DSH_WHO_AM_I_REGISTER_ADDR,
    LIS3DSH_OUT_X_L_REGISTER_ADDR, LIS3DSH_OUT_X_H_REGISTER_ADDR,
    LIS3DSH_OUT_Y_L_REGISTER_ADDR, LIS3DSH_OUT_Y_H_REGISTER_ADDR,
    LIS3DSH_OUT_Z_L_REGISTER_ADDR, LIS3DSH_OUT_Z_H_REGISTER_ADDR,
    LIS3DSH_CTRL_REG3_REGISTER_ADDR, LIS3DSH_CTRL_REG4_REGISTER_ADDR, LIS3DSH_CTRL_REG5_REGISTER_ADDR]

  /** The six output registers, in the order a burst read from OUT_X_L delivers them. */
  const OUTPUT_REGISTERS: seq<Byte> := [
    LIS3DSH_OUT_X_L_REGISTER_ADDR, LIS3DSH_OUT_X_H_REGISTER_ADDR,
    LIS3DSH_OUT_Y_L_REGISTER_ADDR, LIS3DSH_OUT_Y_H_REGISTER_ADDR,
    LIS3DSH_OUT_Z_L_REGISTER_ADDR, LIS3DSH_OUT_Z_H_REGISTER_ADDR]

  // ---------------------------------------------------------------------------
  // Layouts

  function Sum(widths: seq<Byte>): nat
  {
    if widths == [] then 0 else widths[0] as nat + Sum(widths[1..])
  }

  /**
   * The fields of a layout with the declared widths, allocated from bit 0 upwards:
   * each field starts where the one before it ended and the last one ends at bit 8.
   */
  predicate Tiles(widths: seq<Byte>, fields: seq<Field>)
  {
    |fields| == |widths| > 0 &&
    (forall i :: 0 <= i < |fields| ==> fields[i].width == widths[i] && InByte(fields[i])) &&
    fields[0].pos == 0 &&
    (forall i :: 0 <= i < |fields| - 1 ==> fields[i + 1].pos == fields[i].pos + fields[i].width) &&
    fields[|fields| - 1].pos + fields[|fields| - 1].width == 8
  }

  // ---------------------------------------------------------------------------
  // CTRL_REG3

  /** LIS3DSH_CtrlReg3_t: STRT, Reserved, VFILT, INT1_EN, INT2_EN, IEL, IEA, DR_EN. */
  const CTRL_REG3_WIDTHS: seq<Byte> := [1, 1, 1, 1, 1, 1, 1, 1]

  const STRT := Field(0, 1)      // soft reset
  const RESERVED := Field(1, 1)
  const VFILT := Field(2, 1)     // vector filter
  const INT1_EN := Field(3, 1)   // INT1 signal enable
  const INT2_EN := Field(4, 1)   // INT2 signal enable
  const IEL := Field(5, 1)       // interrupt latched (0) or pulsed (1)
  const IEA := Field(6, 1)       // interrupt active low (0) or high (1)
  const DR_EN := Field(7, 1)     // data-ready signal routed to INT1

  const CTRL_REG3_FIELDS: seq<Field> := [STRT, RESERVED, VFILT, INT1_EN, INT2_EN, IEL, IEA, DR_EN]

  // ---------------------------------------------------------------------------
  // CTRL_REG4

  /** LIS3DSH_CtrlReg4_t: Xen, Yen, Zen, BDU, ODR. */
  const CTRL_REG4_WIDTHS: seq<Byte> := [1, 1, 1, 1, 4]

  const XEN := Field(0, 1)   // X axis enable
  const YEN := Field(1, 1)   // Y axis enable
  const ZEN := Field(2, 1)   // Z axis enable
  const BDU := Field(3, 1)   // block data update
  const ODR := Field(4, 4)   // output data rate

  const CTRL_REG4_FIELDS: seq<Field> := [XEN, YEN, ZEN, BDU, ODR]

  // ---------------------------------------------------------------------------
  // CTRL_REG5

  /** LIS3DSH_CtrlReg5_t: SIM, ST, FSCALE, BW. */
  const CTRL_REG5_WIDTHS: seq<Byte> := [1, 2, 3, 2]

  const SIM := Field(0, 1)      // SPI mode
  const ST := Field(1, 2)       // self-test
  const FSCALE := Field(3, 3)   // full scale
  const BW := Field(6, 2)       // anti-aliasing filter bandwidth

  const CTRL_REG5_FIELDS: seq<Field> := [SIM, ST, FSCALE, BW]
}
