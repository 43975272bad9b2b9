/** The ESC/POS opcodes the driver emits (Epson ESC/POS command set). */
module Commands {
  import opened Bytes

  const ESC: byte := 0x1B
  const GS: byte := 0x1D

  /** ESC @: initialize the printer. */
  const HW_INIT: seq<byte> := [ESC, 0x40]

  /** GS V 0: full paper cut. */
  const PAPER_FULL_CUT: seq<byte> := [GS, 0x56, 0x00]

  /** ESC p 0 25 250: pulse drawer-kick pin 2 on for 50 ms and off for 500 ms. */
  const CD_KICK_2: seq<byte> := [ESC, 0x70, 0x00, 0x19, 0xFA]
}
