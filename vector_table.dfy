// The vector-table installer of the interrupts example: it patches one
// 4-byte slot of the trap vector table with a `jal x0, offset` instruction
// that targets the handler (RISC-V Unprivileged ISA 20191213, section 2.3
// "Immediate Encoding Variants", J-type, and section 2.5.1 "Unconditional
// Jumps").
module VectorTable {
  import opened Mmio

  /** Number of slots: trap causes 0..31. */
  const TABLE_ENTRIES: bv32 := 32
  /** Major opcode of JAL. */
  const JAL_OPCODE: bv32 := 0x6f
  /** Bits 31:19 of a 32-bit offset: all clear or all set exactly when it fits 20 signed bits. */
  const HIGH_BITS: bv32 := 0xFFF8_0000

  /** The three results of `install_exception_handler`. */
  datatype Outcome = Installed | IndexOutOfRange | OffsetOutOfRange

  /** The integer the function returns for each outcome. */
  function Code(o: Outcome): (c: int)
    ensures 0 <= c <= 2
    ensures c == 0 <==> o == Installed
  {
    match o
    case Installed => 0
    case IndexOutOfRange => 1
    case OffsetOutOfRange => 2
  }

  /**
   * The source's range test `offset >= (1 << 19) || offset < -(1 << 19)` on
   * an `int32_t` fails exactly for the bit patterns below 2^19 (non-negative
   * offsets) and from 2^32 - 2^19 upward (negative offsets down to -2^19).
   */
  predicate InJumpRange(off: bv32)
  {
    off < 0x8_0000 || off >= HIGH_BITS
  }

  /** The `jal x0` word for an offset: imm[10:1] at 30:21, imm[11] at 20, imm[19:12] in place, imm[20] at 31. */
  function EncodeJal(off: bv32): bv32
  {
    ((off & 0x7fe) << 20) | ((off & 0x800) << 9) | (off & 0xff000) | ((off & 0x10_0000) << 11) | JAL_OPCODE
  }

  /** The J-immediate bits of an instruction gathered back into place, before sign extension. */
  function RawJImm(w: bv32): bv32
  {
    ((w >> 31) << 20) | (((w >> 21) & 0x3ff) << 1) | (((w >> 20) & 1) << 11) | (w & 0xf_f000)
  }

  /** Two's-complement sign extension of a 21-bit field. */
  function SignExtend21(raw: bv32): bv32
  {
    if raw & 0x10_0000 != 0 then raw | 0xFFE0_0000 else raw
  }

  /** Reference decoder of the J-immediate: the raw field sign-extended from bit 20. */
  function DecodeJImm(w: bv32): bv32
  {
    SignExtend21(RawJImm(w))
  }

  /** The encoded word is a `jal` whose destination register (bits 11:7) is x0. */
  lemma JalFields(off: bv32)
    ensures EncodeJal(off) & 0x7f == JAL_OPCODE
    ensures EncodeJal(off) & 0xf80 == 0
  {
  }

  // The round trip is proved in small steps: each step below is a fact about
  // a few bit operations, which the solver settles quickly on its own.

  lemma EncodeGathersBack(off: bv32, w: bv32)
    requires w == ((off & 0x7fe) << 20) | ((off & 0x800) << 9) | (off & 0xff000) | ((off & 0x10_0000) << 11) | 0x6f
    ensures ((w >> 31) << 20) | (((w >> 21) & 0x3ff) << 1) | (((w >> 20) & 1) << 11) | (w & 0xf_f000) == off & 0x1F_FFFE
  {
  }

  lemma RawOfEncode(off: bv32)
    ensures RawJImm(EncodeJal(off)) == off & 0x1F_FFFE
  {
    EncodeGathersBack(off, EncodeJal(off));
  }

  lemma RawNonNegative(off: bv32, raw: bv32)
    requires off & HIGH_BITS == 0
    requires raw == off & 0x1F_FFFE
    ensures raw & 0x10_0000 == 0 && raw == off & 0xFFFF_FFFE
  {
  }

  lemma RawNegative(off: bv32, raw: bv32)
    requires off & HIGH_BITS == HIGH_BITS
    requires raw == off & 0x1F_FFFE
    ensures raw & 0x10_0000 != 0 && raw | 0xFFE0_0000 == off & 0xFFFF_FFFE
  {
  }

  lemma ExtendClear(raw: bv32)
    requires raw & 0x10_0000 == 0
    ensures SignExtend21(raw) == raw
  {
  }

  lemma ExtendSet(raw: bv32)
    requires raw & 0x10_0000 != 0
    ensures SignExtend21(raw) == raw | 0xFFE0_0000
  {
  }

  lemma LowRange(off: bv32)
    requires off < 0x8_0000
    ensures off & HIGH_BITS == 0
  {
  }

  lemma HighRange(off: bv32)
    requires off >= HIGH_BITS
    ensures off & HIGH_BITS == HIGH_BITS
  {
  }

  lemma RoundTripNonNegative(off: bv32)
    requires off & HIGH_BITS == 0
    ensures DecodeJImm(EncodeJal(off)) == off & 0xFFFF_FFFE
  {
    RawOfEncode(off);
    RawNonNegative(off, RawJImm(EncodeJal(off)));
    ExtendClear(RawJImm(EncodeJal(off)));
  }

  lemma RoundTripNegative(off: bv32)
    requires off & HIGH_BITS == HIGH_BITS
    ensures DecodeJImm(EncodeJal(off)) == off & 0xFFFF_FFFE
  {
    RawOfEncode(off);
    RawNegative(off, RawJImm(EncodeJal(off)));
    ExtendSet(RawJImm(EncodeJal(off)));
  }

  lemma ClearBitZeroOfEven(off: bv32)
    requires off & 1 == 0
    ensures off & 0xFFFF_FFFE == off
  {
  }

  /**
   * Decoding the J-immediate of an encoded in-range offset gives the offset
   * with bit 0 cleared (JAL offsets are multiples of 2), so the round trip is
   * exact for even offsets.
   */
  lemma JalRoundTrip(off: bv32)
    requires InJumpRange(off)
    ensures DecodeJImm(EncodeJal(off)) == off & 0xFFFF_FFFE
    ensures off & 1 == 0 ==> DecodeJImm(EncodeJal(off)) == off
  {
    if off < 0x8_0000 {
      LowRange(off);
      RoundTripNonNegative(off);
    } else {
      HighRange(off);
      RoundTripNegative(off);
    }
    if off & 1 == 0 {
      ClearBitZeroOfEven(off);
    }
  }

  /** The slot of trap cause `n` in a table that starts at `tableStart` (32-bit address arithmetic). */
  function SlotAddress(tableStart: bv32, n: bv32): bv32
  {
    tableStart + n * 4
  }

  /** What one call decides: an error code, or the word to store in which slot. */
  datatype Plan = Reject(outcome: Outcome) | Store(slot: bv32, word: bv32)

  /** The decision of `install_exception_handler`, given the table's address. */
  function PlanInstall(tableStart: bv32, vectorNum: bv32, handler: bv32): (p: Plan)
    ensures p == Reject(IndexOutOfRange) <==> vectorNum >= TABLE_ENTRIES
    ensures p == Reject(OffsetOutOfRange) <==>
      vectorNum < TABLE_ENTRIES && !InJumpRange(handler - SlotAddress(tableStart, vectorNum))
    ensures p != Reject(Installed)
    ensures p.Store? ==>
      p.slot == SlotAddress(tableStart, vectorNum) &&
      p.word == EncodeJal(handler - SlotAddress(tableStart, vectorNum))
  {
    if vectorNum >= TABLE_ENTRIES then Reject(IndexOutOfRange)
    else if !InJumpRange(handler - SlotAddress(tableStart, vectorNum)) then Reject(OffsetOutOfRange)
    else Store(SlotAddress(tableStart, vectorNum), EncodeJal(handler - SlotAddress(tableStart, vectorNum)))
  }

  /**
   * When the installer stores a word, it is a `jal x0` whose immediate is
   * the offset from the slot to the handler with bit 0 cleared (a JAL target
   * is a multiple of 2): executed from its slot, it lands on the handler
   * whenever the handler lies an even distance away.
   */
  lemma InstalledWordDecodes(tableStart: bv32, vectorNum: bv32, handler: bv32)
    requires vectorNum < TABLE_ENTRIES && InJumpRange(handler - SlotAddress(tableStart, vectorNum))
    ensures var w := EncodeJal(handler - SlotAddress(tableStart, vectorNum));
      w & 0x7f == JAL_OPCODE && w & 0xf80 == 0 &&
      DecodeJImm(w) == (handler - SlotAddress(tableStart, vectorNum)) & 0xFFFF_FFFE
    ensures (handler - SlotAddress(tableStart, vectorNum)) & 1 == 0 ==>
      DecodeJImm(EncodeJal(handler - SlotAddress(tableStart, vectorNum))) == handler - SlotAddress(tableStart, vectorNum)
  {
    JalFields(handler - SlotAddress(tableStart, vectorNum));
    JalRoundTrip(handler - SlotAddress(tableStart, vectorNum));
  }

  /** The accesses the installer performs for a plan: none on a rejection, one store otherwise. */
  function PlanAccesses(p: Plan): (log: seq<Access>)
    ensures p.Reject? <==> log == []
    ensures p.Store? ==> Written(log) == {At(p.slot)}
  {
    match p
    case Reject(_) => []
    case Store(slot, w) => [Write32(At(slot), w)]
  }

  /** The value the function returns for a plan. */
  function PlanCode(p: Plan): int
  {
    match p
    case Reject(o) => Code(o)
    case Store(_, _) => 0
  }

  /**
   * `install_exception_handler`, with `tableStart` the address of the table:
   * it returns 1 or 2 and touches nothing, or performs exactly one write, of
   * the planned word into the planned slot, and returns 0.
   */
  method InstallExceptionHandler(bus: Bus, tableStart: bv32, vectorNum: bv32, handler: bv32)
    returns (status: int)
    modifies bus
    ensures var p := PlanInstall(tableStart, vectorNum, handler);
      status == PlanCode(p) &&
      bus.log == old(bus.log) + PlanAccesses(p) &&
      bus.mem == Apply(old(bus.mem), PlanAccesses(p))
  {
    if vectorNum >= TABLE_ENTRIES {
      return 1;
    }
    if !InJumpRange(handler - SlotAddress(tableStart, vectorNum)) {
      return 2;
    }
    bus.Write(At(SlotAddress(tableStart, vectorNum)), EncodeJal(handler - SlotAddress(tableStart, vectorNum)));
    return 0;
  }

  /**
   * The installer as written: `_vector_table_start` is declared as a
   * `const volatile uint32_t` object, so `_vector_table_start + vector_num*4`
   * reads the table's first word and adds to that value, not to the table's
   * address `tableSym`.
   */
  function PlanInstallAsWritten(mem: map<Reg, bv32>, tableSym: bv32, vectorNum: bv32, handler: bv32): (p: Plan)
    ensures vectorNum >= TABLE_ENTRIES ==> p == Reject(IndexOutOfRange)
    ensures p.Store? ==> p.slot == SlotAddress(PeekIn(mem, At(tableSym)), vectorNum)
  {
    if vectorNum >= TABLE_ENTRIES then Reject(IndexOutOfRange)
    else PlanInstall(PeekIn(mem, At(tableSym)), vectorNum, handler)
  }

  method InstallExceptionHandlerAsWritten(bus: Bus, tableSym: bv32, vectorNum: bv32, handler: bv32)
    returns (status: int)
    modifies bus
    ensures var p := PlanInstallAsWritten(old(bus.mem), tableSym, vectorNum, handler);
      status == PlanCode(p) &&
      bus.log == old(bus.log) +
        (if vectorNum < TABLE_ENTRIES then [Read32(At(tableSym), PeekIn(old(bus.mem), At(tableSym)))] else []) +
        PlanAccesses(p) &&
      bus.mem == Apply(old(bus.mem), PlanAccesses(p))
  {
    if vectorNum >= TABLE_ENTRIES {
      return 1;
    }
    var first := bus.Read(At(tableSym));
    if !InJumpRange(handler - SlotAddress(first, vectorNum)) {
      return 2;
    }
    bus.Write(At(SlotAddress(first, vectorNum)), EncodeJal(handler - SlotAddress(first, vectorNum)));
    return 0;
  }

  /**
   * A table at address 0 whose first slot holds `jal x0, 0` (0x0000006f):
   * installing a handler at 0x100 for cause 11 stores into 0x9b, a
   * misaligned address outside the table, where the intended slot is 0x2c.
   */
  lemma AsWrittenPatchesWrongSlot()
    ensures PlanInstallAsWritten(map[At(0) := 0x6f], 0, 11, 0x100) == Store(0x9b, EncodeJal(0x65))
    ensures PlanInstall(0, 11, 0x100) == Store(0x2c, EncodeJal(0xd4))
  {
    assert PeekIn(map[At(0) := 0x6f], At(0)) == 0x6f;
  }
}
