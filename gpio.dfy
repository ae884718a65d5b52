// The GPIO driver of the common device sources (AMD PG144, one channel):
// the registers are reached through a C struct laid over the device, the
// direction register is updated by read-modify-write, and the interrupt
// handler mirrors the switches onto the LEDs.
module Gpio {
  import opened Mmio

  /** The registers of one channel and of the interrupt block. */
  datatype Field = Data | Tri | Data2 | Tri2 | Gier | Isr | Ier

  /** The byte offset of each register, as the header's macros and PG144 give it. */
  function RegisterOffset(f: Field): nat
  {
    match f
    case Data => 0x0
    case Tri => 0x4
    case Data2 => 0x8
    case Tri2 => 0xC
    case Gier => 0x11C
    case Isr => 0x120
    case Ier => 0x128
  }

  /** One member of a C struct: a 32-bit register or a run of padding bytes. */
  datatype Member = Word(f: Field) | Padding(bytes: nat)

  function Size(m: Member): nat
  {
    match m
    case Word(_) => 4
    case Padding(n) => n
  }

  /** `GPIO_Peripheral` as declared: four words, 0x10C bytes of padding, then gier, isr, ier. */
  const GPIO_PERIPHERAL: seq<Member> :=
    [Word(Data), Word(Tri), Word(Data2), Word(Tri2), Padding(0x10C), Word(Gier), Word(Isr), Word(Ier)]

  /** The byte offset a C compiler gives the member at position `k`: the sizes of the members before it (none of these needs alignment padding). */
  function OffsetAt(members: seq<Member>, k: nat): nat
    requires k <= |members|
  {
    if k == 0 then 0 else OffsetAt(members, k - 1) + Size(members[k - 1])
  }

  /** The position of each register among the declared members. */
  function Position(f: Field): nat
  {
    match f
    case Data => 0
    case Tri => 1
    case Data2 => 2
    case Tri2 => 3
    case Gier => 5
    case Isr => 6
    case Ier => 7
  }

  /**
   * The offsets of `GPIO_Peripheral` as declared. It agrees with the
   * register map up to isr, but the padding is four bytes short of what
   * would put `ier` at IP_IER: it lands on the reserved word before it.
   */
  function StructOffset(f: Field): (o: nat)
    ensures f != Ier ==> o == RegisterOffset(f)
    ensures f == Ier ==> o == RegisterOffset(f) - 4
  {
    match f
    case Data => 0x0
    case Tri => 0x4
    case Data2 => 0x8
    case Tri2 => 0xC
    case Gier => 0x11C
    case Isr => 0x120
    case Ier => 0x124
  }

  /** These are the offsets a C compiler assigns to the declared members. */
  lemma StructOffsetIsLayout(f: Field)
    ensures Position(f) < |GPIO_PERIPHERAL| && GPIO_PERIPHERAL[Position(f)] == Word(f)
    ensures StructOffset(f) == OffsetAt(GPIO_PERIPHERAL, Position(f))
  {
    var s := GPIO_PERIPHERAL;
    assert OffsetAt(s, 1) == 0x4;
    assert OffsetAt(s, 2) == 0x8;
    assert OffsetAt(s, 3) == 0xC;
    assert OffsetAt(s, 4) == 0x10;
    assert OffsetAt(s, 5) == 0x11C;
    assert OffsetAt(s, 6) == 0x120;
    assert OffsetAt(s, 7) == 0x124;
  }

  /** Which offsets a driver uses: the struct as declared, or the register map of the data sheet. */
  datatype Layout = Declared | Documented

  function Offset(layout: Layout, f: Field): nat
  {
    match layout
    case Declared => StructOffset(f)
    case Documented => RegisterOffset(f)
  }

  /** `INPUT`/`OUTPUT`, a one-bit field of `GPIO_Init`. */
  datatype Mode = Input | Output

  /** `ENABLE_INT`/`DISABLE_INT`, a one-bit field of `GPIO_Init`. */
  datatype InterruptConf = EnableInterrupt | DisableInterrupt

  /** `GPIO_Init`: the 16 pins to configure, their direction, and whether to enable the interrupt. */
  datatype Init = Init(pins: bv16, mode: Mode, interrupt: InterruptConf)

  /** The pin mask as the C expression sees it: zero-extended to 32 bits. */
  function PinMask(pins: bv16): (m: bv32)
    ensures m & 0xFFFF_0000 == 0
    ensures m as bv16 == pins
  {
    pins as bv32
  }

  /** INPUT mode, `tri |= pins`: the selected pins become inputs (tri bit set); every other bit is kept. */
  function SetPins(tri: bv32, mask: bv32): (w: bv32)
    ensures w & mask == mask
    ensures w & !mask == tri & !mask
  {
    tri | mask
  }

  /**
   * OUTPUT mode, `tri &= ~pins`: the selected pins become outputs (tri bit
   * clear); every other bit, the upper half included (`~pins` is taken
   * after promotion to int), is kept.
   */
  function ClearPins(tri: bv32, mask: bv32): (w: bv32)
    ensures w & mask == 0
    ensures w & !mask == tri & !mask
  {
    tri & !mask
  }

  /** The new direction word for a mode. */
  function TriWord(mode: Mode, tri: bv32, mask: bv32): bv32
  {
    match mode
    case Input => SetPins(tri, mask)
    case Output => ClearPins(tri, mask)
  }

  /** IER bit of channel 1, and GIER's global enable bit 31. */
  const CHANNEL1_INT: bv32 := 0x1
  const GLOBAL_INT_ENABLE: bv32 := 0x8000_0000

  /** The stores of `gpio_enable_int`: ier first, then gier. */
  function EnableWrites(layout: Layout, base: bv32): seq<Access>
  {
    [Write32(Reg(base, Offset(layout, Ier)), CHANNEL1_INT), Write32(Reg(base, Offset(layout, Gier)), GLOBAL_INT_ENABLE)]
  }

  /** The accesses of `gpio_configure`, given the direction word found in the device. */
  function ConfigureAccesses(tri: bv32, layout: Layout, base: bv32, init: Init): seq<Access>
  {
    var r := Reg(base, Offset(layout, Tri));
    [Read32(r, tri), Write32(r, TriWord(init.mode, tri, PinMask(init.pins)))]
      + (if init.interrupt == EnableInterrupt then EnableWrites(layout, base) else [])
  }

  /** With the register map of the data sheet, enabling sets IER's channel bit and GIER's enable bit. */
  lemma DocumentedEnable(mem: map<Reg, bv32>, base: bv32)
    ensures PeekIn(Apply(mem, EnableWrites(Documented, base)), Reg(base, RegisterOffset(Ier))) == CHANNEL1_INT
    ensures PeekIn(Apply(mem, EnableWrites(Documented, base)), Reg(base, RegisterOffset(Gier))) == GLOBAL_INT_ENABLE
    ensures Written(EnableWrites(Documented, base)) == {Reg(base, RegisterOffset(Ier)), Reg(base, RegisterOffset(Gier))}
  {
    var w := EnableWrites(Documented, base);
    ApplyLastWrite(mem, w, Reg(base, RegisterOffset(Gier)), GLOBAL_INT_ENABLE);
    ApplyAppend(mem, [w[0]], [w[1]]);
    assert [w[0]] + [w[1]] == w;
    ApplyLastWrite(mem, [w[0]], Reg(base, RegisterOffset(Ier)), CHANNEL1_INT);
    ApplyOutside(Apply(mem, [w[0]]), [w[1]], Reg(base, RegisterOffset(Ier)));
    assert w[1..][1..] == [];
  }

  /** With the struct as declared, enabling never reaches IP_IER: whatever it held, it still holds. */
  lemma DeclaredEnableMissesIer(mem: map<Reg, bv32>, base: bv32)
    ensures PeekIn(Apply(mem, EnableWrites(Declared, base)), Reg(base, RegisterOffset(Ier))) == PeekIn(mem, Reg(base, RegisterOffset(Ier)))
    ensures PeekIn(Apply(mem, EnableWrites(Declared, base)), Reg(base, 0x124)) == CHANNEL1_INT
  {
    var w := EnableWrites(Declared, base);
    WrittenPair(w[0], w[1]);
    ApplyOutside(mem, w, Reg(base, RegisterOffset(Ier)));
    ApplyAppend(mem, [w[0]], [w[1]]);
    assert [w[0]] + [w[1]] == w;
    ApplyLastWrite(mem, [w[0]], Reg(base, 0x124), CHANNEL1_INT);
    ApplyOutside(Apply(mem, [w[0]]), [w[1]], Reg(base, 0x124));
  }

  /** Configuring leaves the new direction word in tri, and writes nothing but tri and, when enabling, ier and gier. */
  lemma ConfigureEffect(mem: map<Reg, bv32>, layout: Layout, base: bv32, init: Init)
    ensures var tri := PeekIn(mem, Reg(base, Offset(layout, Tri)));
      PeekIn(Apply(mem, ConfigureAccesses(tri, layout, base, init)), Reg(base, Offset(layout, Tri))) == TriWord(init.mode, tri, PinMask(init.pins))
    ensures forall tri :: (Written(ConfigureAccesses(tri, layout, base, init)) ==
      {Reg(base, Offset(layout, Tri))} + (if init.interrupt == EnableInterrupt then {Reg(base, Offset(layout, Ier)), Reg(base, Offset(layout, Gier))} else {}))
  {
    var r := Reg(base, Offset(layout, Tri));
    var tri := PeekIn(mem, r);
    var head := [Read32(r, tri), Write32(r, TriWord(init.mode, tri, PinMask(init.pins)))];
    var tail := if init.interrupt == EnableInterrupt then EnableWrites(layout, base) else [];
    ApplyAppend(mem, head, tail);
    ApplyLastWrite(mem, head, r, TriWord(init.mode, tri, PinMask(init.pins)));
    if tail != [] {
      WrittenPair(tail[0], tail[1]);
    }
    ApplyOutside(Apply(mem, head), tail, r);
    forall t
      ensures Written(ConfigureAccesses(t, layout, base, init)) ==
        {r} + (if init.interrupt == EnableInterrupt then {Reg(base, Offset(layout, Ier)), Reg(base, Offset(layout, Gier))} else {})
    {
      var h := [Read32(r, t), Write32(r, TriWord(init.mode, t, PinMask(init.pins)))];
      WrittenAppend(h, tail);
      WrittenPair(h[0], h[1]);
      if tail != [] {
        WrittenPair(tail[0], tail[1]);
      } else {
        assert Written(tail) == {};
      }
    }
  }

  /** `gpio_enable_int`: store 1 into ier and the global enable into gier. */
  method EnableInt(bus: Bus, layout: Layout, base: bv32)
    modifies bus
    ensures bus.log == old(bus.log) + EnableWrites(layout, base)
    ensures bus.mem == Apply(old(bus.mem), EnableWrites(layout, base))
  {
    var ier := Write32(Reg(base, Offset(layout, Ier)), CHANNEL1_INT);
    var gier := Write32(Reg(base, Offset(layout, Gier)), GLOBAL_INT_ENABLE);
    bus.Write(ier.reg, ier.value);
    bus.Write(gier.reg, gier.value);
    ApplySnoc(old(bus.mem), [ier], gier);
    ApplySnoc(old(bus.mem), [], ier);
  }

  /** `gpio_configure`: read-modify-write of tri, then the interrupt enable when asked for. */
  method Configure(bus: Bus, layout: Layout, base: bv32, init: Init)
    modifies bus
    ensures var tri := PeekIn(old(bus.mem), Reg(base, Offset(layout, Tri)));
      bus.log == old(bus.log) + ConfigureAccesses(tri, layout, base, init) &&
      bus.mem == Apply(old(bus.mem), ConfigureAccesses(tri, layout, base, init))
  {
    var r := Reg(base, Offset(layout, Tri));
    var tri := bus.Read(r);
    bus.Write(r, TriWord(init.mode, tri, PinMask(init.pins)));
    ghost var head := [Read32(r, tri), Write32(r, TriWord(init.mode, tri, PinMask(init.pins)))];
    ghost var mid := bus.mem;
    ApplySnoc(old(bus.mem), [Read32(r, tri)], Write32(r, TriWord(init.mode, tri, PinMask(init.pins))));
    ApplySnoc(old(bus.mem), [], Read32(r, tri));
    assert [Read32(r, tri)] + [Write32(r, TriWord(init.mode, tri, PinMask(init.pins)))] == head;
    if init.interrupt == EnableInterrupt {
      EnableInt(bus, layout, base);
      ApplyAppend(old(bus.mem), head, EnableWrites(layout, base));
    } else {
      assert head + [] == head;
    }
  }

  /** DATA and ISR, the two registers `gpio_handler` reaches by pointer arithmetic rather than through the struct. */
  const DATA_OFFSET: nat := 0x0
  const ISR_OFFSET: nat := 0x120

  /** `gpio_handler`: copy the input data word to the output data register, then acknowledge the input's channel interrupt. */
  method Handler(bus: Bus, gpioIn: bv32, gpioOut: bv32)
    modifies bus
    ensures var v := PeekIn(old(bus.mem), Reg(gpioIn, DATA_OFFSET));
      bus.log == old(bus.log) + [Read32(Reg(gpioIn, DATA_OFFSET), v), Write32(Reg(gpioOut, DATA_OFFSET), v), Write32(Reg(gpioIn, ISR_OFFSET), CHANNEL1_INT)] &&
      bus.mem == old(bus.mem)[Reg(gpioOut, DATA_OFFSET) := v][Reg(gpioIn, ISR_OFFSET) := CHANNEL1_INT]
    ensures PeekIn(bus.mem, Reg(gpioOut, DATA_OFFSET)) == PeekIn(old(bus.mem), Reg(gpioIn, DATA_OFFSET))
    ensures PeekIn(bus.mem, Reg(gpioIn, ISR_OFFSET)) == CHANNEL1_INT
  {
    var v := bus.Read(Reg(gpioIn, DATA_OFFSET));
    bus.Write(Reg(gpioOut, DATA_OFFSET), v);
    bus.Write(Reg(gpioIn, ISR_OFFSET), CHANNEL1_INT);
  }
}
