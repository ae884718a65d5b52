// The timer driver of the common device sources: timer 0 only, at the
// linker symbol `_peripheral_TIM0_start`, with no descriptor and no check.
// It builds the same control words as the library driver.
module TimerCommon {
  import opened Mmio
  import opened Timer

  /** The fixed mode word: count down, auto reload, load. */
  const FIXED_CONFIG: bv32 := 0x32

  /** The fixed word is the library's word for auto reload and counting down. */
  lemma FixedConfigIsAutoReloadDown()
    ensures FIXED_CONFIG == CSR_COUNTER_MODE | CSR_LOAD | CSR_RELOAD_MODE
    ensures FIXED_CONFIG == ConfigWord(RELOAD_AUTO, COUNT_DOWN)
  {
  }

  /** `xlnx_tim_configure(counter)`: TLR0 first, then the fixed mode word into TCSR0. */
  method Configure(bus: Bus, tim0: bv32, counter: bv32)
    modifies bus
    ensures bus.log == old(bus.log) + [Write32(Reg(tim0, TLR_OFFSET), counter), Write32(Reg(tim0, CSR_OFFSET), FIXED_CONFIG)]
    ensures bus.mem == old(bus.mem)[Reg(tim0, TLR_OFFSET) := counter][Reg(tim0, CSR_OFFSET) := FIXED_CONFIG]
  {
    bus.Write(Reg(tim0, TLR_OFFSET), counter);
    bus.Write(Reg(tim0, CSR_OFFSET), CSR_COUNTER_MODE | CSR_LOAD | CSR_RELOAD_MODE);
  }

  /** `xlnx_tim_enable_int`: read TCSR0, raise ENIT0, write it back. */
  method EnableInt(bus: Bus, tim0: bv32)
    modifies bus
    ensures var csr := PeekIn(old(bus.mem), Reg(tim0, CSR_OFFSET));
      bus.log == old(bus.log) + [Read32(Reg(tim0, CSR_OFFSET), csr), Write32(Reg(tim0, CSR_OFFSET), EnableIntWord(csr))] &&
      bus.mem == old(bus.mem)[Reg(tim0, CSR_OFFSET) := EnableIntWord(csr)]
  {
    var csr := bus.Read(Reg(tim0, CSR_OFFSET));
    csr := EnableIntWord(csr);
    bus.Write(Reg(tim0, CSR_OFFSET), csr);
  }

  /** `xlnx_tim_start`: read TCSR0, lower LOAD0, raise ENT0, write it back. */
  method Start(bus: Bus, tim0: bv32)
    modifies bus
    ensures var csr := PeekIn(old(bus.mem), Reg(tim0, CSR_OFFSET));
      bus.log == old(bus.log) + [Read32(Reg(tim0, CSR_OFFSET), csr), Write32(Reg(tim0, CSR_OFFSET), StartWord(csr))] &&
      bus.mem == old(bus.mem)[Reg(tim0, CSR_OFFSET) := StartWord(csr)]
  {
    var csr := bus.Read(Reg(tim0, CSR_OFFSET));
    csr := StartWord(csr);
    bus.Write(Reg(tim0, CSR_OFFSET), csr);
  }
}
