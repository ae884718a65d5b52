// The AXI Timer driver of the runtime library (AMD PG079, registers TCSR0
// and TLR0 of timer 0): every operation first checks that the descriptor
// names one of the platform's two timers, then stores or read-modify-writes
// the control and status register.
module Timer {
  import opened Mmio

  /** Register offsets, the same in every timer instance. */
  const CSR_OFFSET: nat := 0x0
  const TLR_OFFSET: nat := 0x4

  /** Control and status bits. */
  const CSR_COUNTER_MODE: bv32 := 0x2      // UDT0, bit 1: count down
  const CSR_RELOAD_MODE: bv32 := 0x10      // ARHT0, bit 4: auto reload
  const CSR_LOAD: bv32 := 0x20             // LOAD0, bit 5
  const CSR_ENABLE_INTERRUPT: bv32 := 0x40 // ENIT0, bit 6
  const CSR_ENABLE: bv32 := 0x80           // ENT0, bit 7
  const CSR_INTERRUPT: bv32 := 0x100       // T0INT, bit 8

  /** Values of the one-bit descriptor fields. */
  const RELOAD_AUTO: bv1 := 0
  const RELOAD_HOLD: bv1 := 1
  const COUNT_DOWN: bv1 := 0
  const COUNT_UP: bv1 := 1

  /** `xlnx_tim_t`: the caller's descriptor; the driver only reads it. */
  datatype Descriptor = Descriptor(baseAddr: bv32, counter: bv32, reloadMode: bv1, countDirection: bv1)

  /** The addresses of the two timers, `TIM0_BASEADDR` and `TIM1_BASEADDR` (linker symbols). */
  datatype Bases = Bases(tim0: bv32, tim1: bv32)

  function CsrReg(t: Descriptor): Reg
  {
    Reg(t.baseAddr, CSR_OFFSET)
  }

  function TlrReg(t: Descriptor): Reg
  {
    Reg(t.baseAddr, TLR_OFFSET)
  }

  /** `xlnx_tim_assert`: only the two known timers are accepted. */
  function Check(t: Descriptor, b: Bases): (s: Status)
    ensures s == Ok <==> t.baseAddr == b.tim0 || t.baseAddr == b.tim1
  {
    if t.baseAddr != b.tim0 && t.baseAddr != b.tim1 then Error else Ok
  }

  /** The control word `xlnx_tim_configure` stores. */
  function ConfigWord(reloadMode: bv1, countDirection: bv1): (w: bv32)
    ensures w & CSR_LOAD != 0
    ensures w & CSR_RELOAD_MODE != 0 <==> reloadMode == RELOAD_AUTO
    ensures w & CSR_COUNTER_MODE != 0 <==> countDirection == COUNT_DOWN
    ensures w & !(CSR_LOAD | CSR_RELOAD_MODE | CSR_COUNTER_MODE) == 0
  {
    (if reloadMode == RELOAD_AUTO then CSR_RELOAD_MODE else 0) |
    (if countDirection == COUNT_DOWN then CSR_COUNTER_MODE else 0) |
    CSR_LOAD
  }

  /** The control word after `xlnx_tim_enable_int`: ENIT0 set, every other bit as read. */
  function EnableIntWord(csr: bv32): (w: bv32)
    ensures w & CSR_ENABLE_INTERRUPT != 0
    ensures w & !CSR_ENABLE_INTERRUPT == csr & !CSR_ENABLE_INTERRUPT
  {
    csr | CSR_ENABLE_INTERRUPT
  }

  /** The control word after `xlnx_tim_clear_int`: T0INT set (write one to clear), every other bit as read. */
  function ClearIntWord(csr: bv32): (w: bv32)
    ensures w & CSR_INTERRUPT != 0
    ensures w & !CSR_INTERRUPT == csr & !CSR_INTERRUPT
  {
    csr | CSR_INTERRUPT
  }

  /** The control word after `xlnx_tim_start`: LOAD0 lowered, ENT0 raised, every other bit as read. */
  function StartWord(csr: bv32): (w: bv32)
    ensures w & CSR_LOAD == 0
    ensures w & CSR_ENABLE != 0
    ensures w & !(CSR_LOAD | CSR_ENABLE) == csr & !(CSR_LOAD | CSR_ENABLE)
  {
    (csr & !CSR_LOAD) | CSR_ENABLE
  }

  /**
   * Configure, enable interrupts and start, with nothing else touching the
   * control register in between: the timer runs in the configured modes,
   * with interrupts on, and its load bit is down.
   */
  lemma BringUp(reloadMode: bv1, countDirection: bv1)
    ensures var w := StartWord(EnableIntWord(ConfigWord(reloadMode, countDirection)));
      w == (ConfigWord(reloadMode, countDirection) & !CSR_LOAD) | CSR_ENABLE_INTERRUPT | CSR_ENABLE &&
      w & CSR_INTERRUPT == 0
  {
  }

  /** `xlnx_tim_init`: nothing to do. */
  method Init(t: Descriptor) returns (s: Status)
    ensures s == Ok
  {
    s := Ok;
  }

  /** `xlnx_tim_configure`: load value into TLR0 first, then the mode word into TCSR0. */
  method Configure(bus: Bus, t: Descriptor, b: Bases) returns (s: Status)
    modifies bus
    ensures s == Check(t, b)
    ensures s == Error ==> bus.log == old(bus.log) && bus.mem == old(bus.mem)
    ensures s == Ok ==>
      bus.log == old(bus.log) + [Write32(TlrReg(t), t.counter), Write32(CsrReg(t), ConfigWord(t.reloadMode, t.countDirection))] &&
      bus.mem == old(bus.mem)[TlrReg(t) := t.counter][CsrReg(t) := ConfigWord(t.reloadMode, t.countDirection)]
  {
    if Check(t, b) != Ok {
      return Error;
    }
    var config: bv32 := 0;
    if t.reloadMode == RELOAD_AUTO {
      config := config | CSR_RELOAD_MODE;
    }
    if t.countDirection == COUNT_DOWN {
      config := config | CSR_COUNTER_MODE;
    }
    config := config | CSR_LOAD;
    bus.Write(TlrReg(t), t.counter);
    bus.Write(CsrReg(t), config);
    return Ok;
  }

  /** `xlnx_tim_enable_int`: read TCSR0, raise ENIT0, write it back. */
  method EnableInt(bus: Bus, t: Descriptor, b: Bases) returns (s: Status)
    modifies bus
    ensures s == Check(t, b)
    ensures s == Error ==> bus.log == old(bus.log) && bus.mem == old(bus.mem)
    ensures s == Ok ==>
      var csr := PeekIn(old(bus.mem), CsrReg(t));
      bus.log == old(bus.log) + [Read32(CsrReg(t), csr), Write32(CsrReg(t), EnableIntWord(csr))] &&
      bus.mem == old(bus.mem)[CsrReg(t) := EnableIntWord(csr)]
  {
    if Check(t, b) != Ok {
      return Error;
    }
    var csr := bus.Read(CsrReg(t));
    csr := EnableIntWord(csr);
    bus.Write(CsrReg(t), csr);
    return Ok;
  }

  /** `xlnx_tim_clear_int`: read TCSR0, raise T0INT, write it back. */
  method ClearInt(bus: Bus, t: Descriptor, b: Bases) returns (s: Status)
    modifies bus
    ensures s == Check(t, b)
    ensures s == Error ==> bus.log == old(bus.log) && bus.mem == old(bus.mem)
    ensures s == Ok ==>
      var csr := PeekIn(old(bus.mem), CsrReg(t));
      bus.log == old(bus.log) + [Read32(CsrReg(t), csr), Write32(CsrReg(t), ClearIntWord(csr))] &&
      bus.mem == old(bus.mem)[CsrReg(t) := ClearIntWord(csr)]
  {
    if Check(t, b) != Ok {
      return Error;
    }
    var csr := bus.Read(CsrReg(t));
    csr := ClearIntWord(csr);
    bus.Write(CsrReg(t), csr);
    return Ok;
  }

  /** `xlnx_tim_start`: read TCSR0, lower LOAD0, raise ENT0, write it back. */
  method Start(bus: Bus, t: Descriptor, b: Bases) returns (s: Status)
    modifies bus
    ensures s == Check(t, b)
    ensures s == Error ==> bus.log == old(bus.log) && bus.mem == old(bus.mem)
    ensures s == Ok ==>
      var csr := PeekIn(old(bus.mem), CsrReg(t));
      bus.log == old(bus.log) + [Read32(CsrReg(t), csr), Write32(CsrReg(t), StartWord(csr))] &&
      bus.mem == old(bus.mem)[CsrReg(t) := StartWord(csr)]
  {
    if Check(t, b) != Ok {
      return Error;
    }
    var csr := bus.Read(CsrReg(t));
    csr := StartWord(csr);
    bus.Write(CsrReg(t), csr);
    return Ok;
  }
}
