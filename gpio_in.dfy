// The input-GPIO driver of the runtime library (AMD PG144, one channel):
// each operation checks that the descriptor names the platform's input
// GPIO, then enables its interrupt, reads its data register or
// acknowledges its interrupt.
module GpioIn {
  import opened Mmio

  /** Register offsets of channel 1 and of the interrupt block. */
  const DATA_OFFSET: nat := 0x0
  const GIER_OFFSET: nat := 0x11C
  const ISR_OFFSET: nat := 0x120
  const IER_OFFSET: nat := 0x128

  /** IER bit of channel 1, and GIER's global enable bit 31. */
  const CHANNEL1_INT: bv32 := 0x1
  const GLOBAL_INT_ENABLE: bv32 := 0x8000_0000

  /** `xlnx_gpio_in_interrupt_conf_t`. */
  datatype InterruptConf = DisableInt | EnableInt

  /** `xlnx_gpio_in_t`: the caller's descriptor. */
  datatype Descriptor = Descriptor(baseAddr: bv32, interrupt: InterruptConf)

  /** The cell behind the `uint16_t *data` argument of `xlnx_gpio_in_read`. */
  class HalfWord {
    var value: bv16

    constructor (v: bv16)
      ensures value == v
    {
      value := v;
    }
  }

  /** `assert_gpio_in`: only the input GPIO, at `GPIO_IN_BASEADDR` (a linker symbol), is accepted. */
  function Check(g: Descriptor, gpioInBase: bv32): (s: Status)
    ensures s == Ok <==> g.baseAddr == gpioInBase
  {
    if g.baseAddr != gpioInBase then Error else Ok
  }

  /** The stores of `xlnx_gpio_in_init` once the check has passed: IER then GIER, and only when enabling. */
  function InitWrites(g: Descriptor): seq<Access>
  {
    if g.interrupt == EnableInt then
      [Write32(Reg(g.baseAddr, IER_OFFSET), CHANNEL1_INT), Write32(Reg(g.baseAddr, GIER_OFFSET), GLOBAL_INT_ENABLE)]
    else []
  }

  /** An enabling init stores into IER and GIER only, IER first. */
  lemma InitWritesTouch(g: Descriptor)
    ensures g.interrupt == DisableInt <==> InitWrites(g) == []
    ensures g.interrupt == EnableInt ==>
      Written(InitWrites(g)) == {Reg(g.baseAddr, IER_OFFSET), Reg(g.baseAddr, GIER_OFFSET)} &&
      InitWrites(g)[0].reg == Reg(g.baseAddr, IER_OFFSET) &&
      InitWrites(g)[|InitWrites(g)| - 1].reg == Reg(g.baseAddr, GIER_OFFSET)
  {
    var w := InitWrites(g);
    if g.interrupt == EnableInt {
      assert |w| == 2;
      assert w[1..][1..] == [];
      assert Written(w[1..]) == {Reg(g.baseAddr, GIER_OFFSET)};
    }
  }

  /** After an enabling init, channel 1's interrupt is enabled and the global enable is on. */
  lemma InitEnables(mem: map<Reg, bv32>, g: Descriptor)
    requires g.interrupt == EnableInt
    ensures PeekIn(Apply(mem, InitWrites(g)), Reg(g.baseAddr, IER_OFFSET)) & CHANNEL1_INT != 0
    ensures PeekIn(Apply(mem, InitWrites(g)), Reg(g.baseAddr, GIER_OFFSET)) & GLOBAL_INT_ENABLE != 0
  {
    var w := InitWrites(g);
    ApplyLastWrite(mem, w, Reg(g.baseAddr, GIER_OFFSET), GLOBAL_INT_ENABLE);
    ApplyAppend(mem, [w[0]], [w[1]]);
    assert [w[0]] + [w[1]] == w;
    ApplyLastWrite(mem, [w[0]], Reg(g.baseAddr, IER_OFFSET), CHANNEL1_INT);
    ApplyOutside(Apply(mem, [w[0]]), [w[1]], Reg(g.baseAddr, IER_OFFSET));
  }

  /** `xlnx_gpio_in_init`. */
  method Init(bus: Bus, g: Descriptor, gpioInBase: bv32) returns (s: Status)
    modifies bus
    ensures s == Check(g, gpioInBase)
    ensures s == Error ==> bus.log == old(bus.log) && bus.mem == old(bus.mem)
    ensures s == Ok ==> bus.log == old(bus.log) + InitWrites(g) && bus.mem == Apply(old(bus.mem), InitWrites(g))
  {
    if Check(g, gpioInBase) != Ok {
      return Error;
    }
    if g.interrupt == EnableInt {
      bus.Write(Reg(g.baseAddr, IER_OFFSET), CHANNEL1_INT);
      bus.Write(Reg(g.baseAddr, GIER_OFFSET), GLOBAL_INT_ENABLE);
      ApplySnoc(old(bus.mem), [Write32(Reg(g.baseAddr, IER_OFFSET), CHANNEL1_INT)], Write32(Reg(g.baseAddr, GIER_OFFSET), GLOBAL_INT_ENABLE));
      ApplySnoc(old(bus.mem), [], Write32(Reg(g.baseAddr, IER_OFFSET), CHANNEL1_INT));
    }
    return Ok;
  }

  /** `xlnx_gpio_in_read`: one 16-bit read of the data register, stored through `data`. */
  method Read(bus: Bus, g: Descriptor, gpioInBase: bv32, data: HalfWord) returns (s: Status)
    modifies bus, data
    ensures s == Check(g, gpioInBase)
    ensures s == Error ==> bus.log == old(bus.log) && data.value == old(data.value)
    ensures s == Ok ==>
      var h := (PeekIn(old(bus.mem), Reg(g.baseAddr, DATA_OFFSET)) & 0xFFFF) as bv16;
      bus.log == old(bus.log) + [Read16(Reg(g.baseAddr, DATA_OFFSET), h)] && data.value == h
    ensures bus.mem == old(bus.mem)
  {
    if Check(g, gpioInBase) != Ok {
      return Error;
    }
    data.value := bus.ReadHalf(Reg(g.baseAddr, DATA_OFFSET));
    return Ok;
  }

  /** `xlnx_gpio_in_clear_int`: one store of channel 1's bit into ISR (write one to clear). */
  method ClearInt(bus: Bus, g: Descriptor, gpioInBase: bv32) returns (s: Status)
    modifies bus
    ensures s == Check(g, gpioInBase)
    ensures s == Error ==> bus.log == old(bus.log) && bus.mem == old(bus.mem)
    ensures s == Ok ==>
      bus.log == old(bus.log) + [Write32(Reg(g.baseAddr, ISR_OFFSET), CHANNEL1_INT)] &&
      bus.mem == old(bus.mem)[Reg(g.baseAddr, ISR_OFFSET) := CHANNEL1_INT]
  {
    if Check(g, gpioInBase) != Ok {
      return Error;
    }
    bus.Write(Reg(g.baseAddr, ISR_OFFSET), CHANNEL1_INT);
    return Ok;
  }
}
