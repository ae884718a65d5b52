// Memory-mapped I/O as the drivers use it: a register space of 32-bit
// words, absent registers reading as zero, and the ordered log of every
// access, so that contracts can say exactly which registers an operation
// touched and in which order.
module Mmio {

  /**
   * A register: byte `offset` into the block that starts at the 32-bit
   * address `block` (a device's base address, a linker symbol). Its physical
   * address is `block + offset` modulo 2^32; within one block, distinct
   * offsets below 2^32 are distinct registers.
   */
  datatype Reg = Reg(block: bv32, offset: nat)

  /** The word at a computed 32-bit address. */
  function At(addr: bv32): Reg
  {
    Reg(addr, 0)
  }

  /** The two driver return codes, `UNINASOC_OK` and `UNINASOC_ERROR`. */
  datatype Status = Ok | Error

  datatype Access =
    | Read32(reg: Reg, value: bv32)
    | Read16(reg: Reg, half: bv16)
    | Write32(reg: Reg, value: bv32)

  /** The word a device returns at `r`: what was last stored there, zero if nothing was. */
  function PeekIn(mem: map<Reg, bv32>, r: Reg): bv32
  {
    if r in mem then mem[r] else 0
  }

  /** The effect of one access on the register space: only writes change it. */
  function Step(mem: map<Reg, bv32>, x: Access): map<Reg, bv32>
  {
    if x.Write32? then mem[x.reg := x.value] else mem
  }

  /** The register space after a sequence of accesses, taken in order. */
  function Apply(mem: map<Reg, bv32>, log: seq<Access>): map<Reg, bv32>
    decreases |log|
  {
    if log == [] then mem else Apply(Step(mem, log[0]), log[1..])
  }

  /** Addresses written by a sequence of accesses. */
  function Written(log: seq<Access>): set<Reg>
    decreases |log|
  {
    if log == [] then {}
    else (if log[0].Write32? then {log[0].reg} else {}) + Written(log[1..])
  }

  /** Registers outside the written set keep their contents. */
  lemma {:induction false} ApplyOutside(mem: map<Reg, bv32>, log: seq<Access>, a: Reg)
    requires a !in Written(log)
    ensures PeekIn(Apply(mem, log), a) == PeekIn(mem, a)
    decreases |log|
  {
    if log != [] {
      ApplyOutside(Step(mem, log[0]), log[1..], a);
    }
  }

  /** A written register holds the value of the last write to it. */
  lemma {:induction false} ApplyLastWrite(mem: map<Reg, bv32>, log: seq<Access>, a: Reg, v: bv32)
    requires log != [] && log[|log| - 1] == Write32(a, v)
    ensures PeekIn(Apply(mem, log), a) == v
    decreases |log|
  {
    if |log| > 1 {
      ApplyLastWrite(Step(mem, log[0]), log[1..], a, v);
    }
  }

  /** Applying a log in two pieces is applying it at once. */
  lemma {:induction false} ApplyAppend(mem: map<Reg, bv32>, a: seq<Access>, b: seq<Access>)
    ensures Apply(mem, a + b) == Apply(Apply(mem, a), b)
    decreases |a|
  {
    if a != [] {
      assert (a + b)[0] == a[0] && (a + b)[1..] == a[1..] + b;
      ApplyAppend(Step(mem, a[0]), a[1..], b);
    } else {
      assert a + b == b;
    }
  }

  /** Applying one more access is one more step. */
  lemma ApplySnoc(mem: map<Reg, bv32>, log: seq<Access>, x: Access)
    ensures Apply(mem, log + [x]) == Step(Apply(mem, log), x)
  {
    ApplyAppend(mem, log, [x]);
  }

  /** Written sets of a concatenation add up. */
  lemma {:induction false} WrittenAppend(a: seq<Access>, b: seq<Access>)
    ensures Written(a + b) == Written(a) + Written(b)
    decreases |a|
  {
    if a != [] {
      assert (a + b)[0] == a[0] && (a + b)[1..] == a[1..] + b;
      WrittenAppend(a[1..], b);
    } else {
      assert a + b == b;
    }
  }

  /** The registers a pair of accesses writes. */
  lemma WrittenPair(x: Access, y: Access)
    ensures Written([x, y]) == (if x.Write32? then {x.reg} else {}) + (if y.Write32? then {y.reg} else {})
  {
    assert [x, y][1..] == [y];
    assert [y][1..] == [];
    assert Written([y]) == (if y.Write32? then {y.reg} else {}) + Written([]);
  }

  /** The register space and the access log of one bus. */
  class Bus {
    var mem: map<Reg, bv32>
    var log: seq<Access>

    constructor (init: map<Reg, bv32>)
      ensures mem == init && log == []
    {
      mem := init;
      log := [];
    }

    /** `read32`/`ioread32`: the device supplies the word held at `r`. */
    method Read(r: Reg) returns (v: bv32)
      modifies this`log
      ensures v == PeekIn(mem, r)
      ensures log == old(log) + [Read32(r, v)]
    {
      v := PeekIn(mem, r);
      log := log + [Read32(r, v)];
    }

    /** `ioread16` at a word address: the low half-word (the cores are little endian). */
    method ReadHalf(r: Reg) returns (h: bv16)
      modifies this`log
      ensures h == (PeekIn(mem, r) & 0xFFFF) as bv16
      ensures log == old(log) + [Read16(r, h)]
    {
      h := (PeekIn(mem, r) & 0xFFFF) as bv16;
      log := log + [Read16(r, h)];
    }

    /** `write32`/`iowrite32`. */
    method Write(r: Reg, v: bv32)
      modifies this
      ensures log == old(log) + [Write32(r, v)]
      ensures mem == old(mem)[r := v]
    {
      mem := mem[r := v];
      log := log + [Write32(r, v)];
    }
  }
}
