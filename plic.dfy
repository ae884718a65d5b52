// The PLIC driver of the UninaSoC firmware: one hart context, context 0,
// and at most three interrupt sources (1, 2 and 3; source 0 does not exist
// in the RISC-V PLIC). The two copies of the driver, in the runtime library
// and in the common device sources, differ only in the names of their
// register-access primitives, so they are one class here.
module Plic {
  import opened Mmio

  /**
   * `MAX_SOURCES`: the number of sources the platform wires to the PLIC.
   * Source counts are `size_t` in the driver and are only ever compared,
   * so they are natural numbers here; priorities and ids are 32-bit words.
   */
  const MAX_SOURCES: nat := 3

  /** Offsets of the context-0 enable word and claim/complete register (RISC-V PLIC Specification 1.0.0, memory map). */
  const ENABLE_OFFSET: nat := 0x2000
  const CLAIM_OFFSET: nat := 0x20_0004

  /** Priority register of source `i`, at `0x4 * i`. */
  function PriorityReg(base: bv32, i: nat): Reg
  {
    Reg(base, 4 * i)
  }

  /** Enable bits of context 0. */
  function EnableReg(base: bv32): Reg
  {
    Reg(base, ENABLE_OFFSET)
  }

  /** Claim/complete register of context 0. */
  function ClaimReg(base: bv32): Reg
  {
    Reg(base, CLAIM_OFFSET)
  }

  /**
   * The source count after `plic_configure(_, requested)`: a request below
   * `MAX_SOURCES` is taken, anything else keeps the current count.
   */
  function NextSources(current: nat, requested: nat): (s: nat)
    ensures s == requested || s == current
    ensures s == requested <==> requested < MAX_SOURCES || requested == current
    ensures current <= MAX_SOURCES ==> s <= MAX_SOURCES
  {
    if requested < MAX_SOURCES then requested else current
  }

  /** The priority writes of `plic_configure` for sources `1..n`, in increasing order. */
  function PriorityWrites(base: bv32, priorities: seq<bv32>, n: nat): (w: seq<Access>)
    requires n < |priorities|
    ensures |w| == n
    decreases n
  {
    if n == 0 then []
    else PriorityWrites(base, priorities, n - 1) + [Write32(PriorityReg(base, n), priorities[n])]
  }

  /** The register contents after those writes: each priority stored in its register. */
  function Configured(mem: map<Reg, bv32>, base: bv32, priorities: seq<bv32>, n: nat): map<Reg, bv32>
    requires n < |priorities|
    decreases n
  {
    if n == 0 then mem
    else Configured(mem, base, priorities, n - 1)[PriorityReg(base, n) := priorities[n]]
  }

  /** The priority registers of sources `1..n`. */
  function PriorityRegs(base: bv32, n: nat): set<Reg>
    decreases n
  {
    if n == 0 then {} else PriorityRegs(base, n - 1) + {PriorityReg(base, n)}
  }

  /** Performing the writes in order yields exactly `Configured`. */
  lemma {:induction false} ConfiguredIsApplied(mem: map<Reg, bv32>, base: bv32, priorities: seq<bv32>, n: nat)
    requires n < |priorities|
    ensures Configured(mem, base, priorities, n) == Apply(mem, PriorityWrites(base, priorities, n))
    decreases n
  {
    if n != 0 {
      ConfiguredIsApplied(mem, base, priorities, n - 1);
      ApplySnoc(mem, PriorityWrites(base, priorities, n - 1), Write32(PriorityReg(base, n), priorities[n]));
    }
  }

  /** `priorities[0]` is never read: the writes do not depend on it. */
  lemma {:induction false} PriorityZeroIgnored(base: bv32, priorities: seq<bv32>, n: nat, x: bv32)
    requires n < |priorities|
    ensures PriorityWrites(base, priorities, n) == PriorityWrites(base, priorities[0 := x], n)
    decreases n
  {
    if n != 0 {
      PriorityZeroIgnored(base, priorities, n - 1, x);
    }
  }

  /** After configuring, the priority register of each source `1..n` holds that source's priority. */
  lemma {:induction false} PriorityRegisterSet(mem: map<Reg, bv32>, base: bv32, priorities: seq<bv32>, n: nat, i: nat)
    requires n < |priorities|
    requires 1 <= i <= n
    ensures PeekIn(Configured(mem, base, priorities, n), PriorityReg(base, i)) == priorities[i]
    decreases n
  {
    if i != n {
      PriorityRegisterSet(mem, base, priorities, n - 1, i);
    }
  }

  /**
   * On an array of `source_num` entries, the size the driver's header
   * documents, the loop as written reads `priorities[1..count]`, so its last
   * read is out of bounds (Configure's precondition `count < |priorities|`
   * fails) exactly when the request is taken or equals the current count;
   * with the initial count, `plic_configure(p, 3)` reads `p[3]`.
   */
  lemma ConfigureReadsPastDocumentedEnd(current: nat, sourceNum: nat)
    requires current <= MAX_SOURCES
    requires 1 <= sourceNum
    ensures sourceNum <= NextSources(current, sourceNum) <==> sourceNum < MAX_SOURCES || sourceNum == current
    ensures current == MAX_SOURCES && sourceNum == MAX_SOURCES ==> NextSources(current, sourceNum) == sourceNum
  {
  }

  /** The writes the header documents: source `i` takes `priorities[i - 1]`. */
  function IntendedWrites(base: bv32, priorities: seq<bv32>, n: nat): (w: seq<Access>)
    requires n <= |priorities|
    ensures |w| == n
    decreases n
  {
    if n == 0 then []
    else IntendedWrites(base, priorities, n - 1) + [Write32(PriorityReg(base, n), priorities[n - 1])]
  }

  /** The register contents after the documented writes. */
  function IntendedConfigured(mem: map<Reg, bv32>, base: bv32, priorities: seq<bv32>, n: nat): map<Reg, bv32>
    requires n <= |priorities|
    decreases n
  {
    if n == 0 then mem
    else IntendedConfigured(mem, base, priorities, n - 1)[PriorityReg(base, n) := priorities[n - 1]]
  }

  /** The documented driver is the driver as written, given the array with any entry put in front. */
  lemma {:induction false} IntendedIsPadded(mem: map<Reg, bv32>, base: bv32, priorities: seq<bv32>, n: nat, x: bv32)
    requires n <= |priorities|
    ensures IntendedWrites(base, priorities, n) == PriorityWrites(base, [x] + priorities, n)
    ensures IntendedConfigured(mem, base, priorities, n) == Configured(mem, base, [x] + priorities, n)
    decreases n
  {
    if n != 0 {
      IntendedIsPadded(mem, base, priorities, n - 1, x);
      assert ([x] + priorities)[n] == priorities[n - 1];
    }
  }

  /** Performing the documented writes in order yields `IntendedConfigured`. */
  lemma IntendedIsApplied(mem: map<Reg, bv32>, base: bv32, priorities: seq<bv32>, n: nat)
    requires n <= |priorities|
    ensures IntendedConfigured(mem, base, priorities, n) == Apply(mem, IntendedWrites(base, priorities, n))
  {
    IntendedIsPadded(mem, base, priorities, n, 0);
    ConfiguredIsApplied(mem, base, [0] + priorities, n);
  }

  /** After the documented configuration, source `i`'s register holds `priorities[i - 1]`, the `i`-th entry of the array. */
  lemma IntendedRegisterSet(mem: map<Reg, bv32>, base: bv32, priorities: seq<bv32>, n: nat, i: nat)
    requires n <= |priorities|
    requires 1 <= i <= n
    ensures PeekIn(IntendedConfigured(mem, base, priorities, n), PriorityReg(base, i)) == priorities[i - 1]
  {
    IntendedIsPadded(mem, base, priorities, n, 0);
    PriorityRegisterSet(mem, base, [0] + priorities, n, i);
  }

  /** `PriorityRegs` is exactly the priority registers of sources `1..n`. */
  lemma {:induction false} PriorityRegsAre(base: bv32, n: nat, r: Reg)
    ensures r in PriorityRegs(base, n) <==> exists i :: 1 <= i <= n && r == PriorityReg(base, i)
    decreases n
  {
    if n != 0 {
      PriorityRegsAre(base, n - 1, r);
      if r == PriorityReg(base, n) {
        assert 1 <= n <= n && r == PriorityReg(base, n);
      }
      if exists i :: 1 <= i <= n && r == PriorityReg(base, i) {
        var i :| 1 <= i <= n && r == PriorityReg(base, i);
        if i < n {
          assert 1 <= i <= n - 1 && r == PriorityReg(base, i);
        }
      }
    }
  }

  /** Configuring leaves every register other than those priority registers as it was. */
  lemma {:induction false} ConfiguredLeavesOthers(mem: map<Reg, bv32>, base: bv32, priorities: seq<bv32>, n: nat, r: Reg)
    requires n < |priorities|
    requires r !in PriorityRegs(base, n)
    ensures PeekIn(Configured(mem, base, priorities, n), r) == PeekIn(mem, r)
    decreases n
  {
    if n != 0 {
      ConfiguredLeavesOthers(mem, base, priorities, n - 1, r);
    }
  }

  /** The writes touch exactly the priority registers of sources `1..n`; every other register keeps its contents. */
  lemma {:induction false} PriorityWritten(base: bv32, priorities: seq<bv32>, n: nat, a: Reg)
    requires n < |priorities|
    ensures a in Written(PriorityWrites(base, priorities, n)) <==> a in PriorityRegs(base, n)
    decreases n
  {
    if n != 0 {
      var last := Write32(PriorityReg(base, n), priorities[n]);
      WrittenAppend(PriorityWrites(base, priorities, n - 1), [last]);
      assert Written([last]) == {PriorityReg(base, n)};
      PriorityWritten(base, priorities, n - 1, a);
    }
  }

  /** `1 << i` for the small shift amounts of the enable loop. */
  function Pow2(i: nat): nat
  {
    if i == 0 then 1 else 2 * Pow2(i - 1)
  }

  /** `enable` after the loop of `plic_enable_all` has added `1 << i` for `i` in `1..n`. */
  function EnableSum(n: nat): nat
  {
    if n == 0 then 0 else EnableSum(n - 1) + Pow2(n)
  }

  /** The sum of the bits `1..n` is `2^(n+1) - 2`: a run of ones above a clear bit 0. */
  lemma {:induction false} EnableSumClosedForm(n: nat)
    ensures EnableSum(n) == Pow2(n + 1) - 2
  {
    if n != 0 {
      EnableSumClosedForm(n - 1);
    }
  }

  /** The word written to the enable register for `n` sources. */
  function EnableWord(n: nat): (w: bv32)
    requires n <= MAX_SOURCES
  {
    EnableSum(n) as bv32
  }

  /** The enable word for each reachable source count. */
  lemma EnableWordValues(n: nat)
    requires n <= MAX_SOURCES
    ensures EnableWord(n) == if n == 0 then 0 else if n == 1 then 2 else if n == 2 then 6 else 14
  {
    assert EnableSum(1) == 2 && EnableSum(2) == 6 && EnableSum(3) == 14;
  }

  /** The words 0, 2, 6 and 14 are runs of ones over bits `1..m`. */
  lemma RunOfOnes(w: bv32, m: nat, b: bv32)
    requires m <= 3 && w == if m == 0 then 0 else if m == 1 then 2 else if m == 2 then 6 else 14
    requires b < 32
    ensures (w >> b) & 1 == 1 <==> 1 <= b as int <= m
    ensures w & 1 == 0
  {
  }

  /** For every reachable source count, the enable word has exactly bits `1..n` set. */
  lemma EnableWordBits(n: nat, b: bv32)
    requires n <= MAX_SOURCES && b < 32
    ensures (EnableWord(n) >> b) & 1 == 1 <==> 1 <= b as int <= n
    ensures EnableWord(n) & 1 == 0
    ensures n == MAX_SOURCES ==> EnableWord(n) == 0xE
  {
    EnableWordValues(n);
    RunOfOnes(EnableWord(n), n, b);
  }

  /**
   * The PLIC driver: its register block at `base` and the `static size_t
   * sources` that `plic_configure` may lower.
   */
  class Controller {
    var sources: nat
    const base: bv32

    ghost predicate Valid()
      reads this
    {
      sources <= MAX_SOURCES
    }

    /** The static initialiser: `sources = MAX_SOURCES`. */
    constructor (base: bv32)
      ensures Valid() && this.base == base && sources == MAX_SOURCES
    {
      this.base := base;
      sources := MAX_SOURCES;
    }

    /** `plic_init`: nothing to do. */
    method Init() returns (s: Status)
      ensures s == Ok
    {
      s := Ok;
    }

    /**
     * `plic_configure`: possibly lower the source count, then write the
     * priority of each source `1..sources`. The caller supplies an entry for
     * every configured source.
     */
    method Configure(bus: Bus, priorities: seq<bv32>, sourceNum: nat)
      requires Valid()
      requires NextSources(sources, sourceNum) < |priorities|
      modifies this, bus
      ensures Valid()
      ensures sources == NextSources(old(sources), sourceNum)
      ensures bus.log == old(bus.log) + PriorityWrites(base, priorities, sources)
      ensures bus.mem == Configured(old(bus.mem), base, priorities, sources)
    {
      if sourceNum < MAX_SOURCES {
        sources := sourceNum;
      }
      var i := 1;
      while i <= sources
        invariant 1 <= i <= sources + 1
        invariant sources <= MAX_SOURCES && sources < |priorities|
        invariant bus.log == old(bus.log) + PriorityWrites(base, priorities, i - 1)
        invariant bus.mem == Configured(old(bus.mem), base, priorities, i - 1)
        modifies bus
      {
        bus.Write(PriorityReg(base, i), priorities[i]);
        i := i + 1;
      }
    }

    /**
     * `plic_configure` as its header documents it: `priorities` holds
     * `source_num` entries, the first for source 1, so every read stays
     * inside the array.
     */
    method ConfigureIntended(bus: Bus, priorities: seq<bv32>, sourceNum: nat)
      requires Valid()
      requires sourceNum <= |priorities|
      modifies this, bus
      ensures Valid()
      ensures sources == NextSources(old(sources), sourceNum)
      ensures bus.log == old(bus.log) + IntendedWrites(base, priorities, sources)
      ensures bus.mem == IntendedConfigured(old(bus.mem), base, priorities, sources)
    {
      if sourceNum < MAX_SOURCES {
        sources := sourceNum;
      }
      var i := 1;
      while i <= sources
        invariant 1 <= i <= sources + 1
        invariant sources <= MAX_SOURCES && sources <= |priorities|
        invariant bus.log == old(bus.log) + IntendedWrites(base, priorities, i - 1)
        invariant bus.mem == IntendedConfigured(old(bus.mem), base, priorities, i - 1)
        modifies bus
      {
        bus.Write(PriorityReg(base, i), priorities[i - 1]);
        i := i + 1;
      }
    }

    /** `plic_enable_all`: sum the enable bits of sources `1..sources`, then write them once. */
    method EnableAll(bus: Bus)
      requires Valid()
      modifies bus
      ensures bus.log == old(bus.log) + [Write32(EnableReg(base), EnableWord(sources))]
      ensures bus.mem == old(bus.mem)[EnableReg(base) := EnableWord(sources)]
    {
      var enable := 0;
      var i := 1;
      while i <= sources
        invariant 1 <= i <= sources + 1
        invariant enable == EnableSum(i - 1)
        modifies {}
      {
        enable := enable + Pow2(i);
        i := i + 1;
      }
      assert enable == EnableSum(sources) by { assert i - 1 == sources; }
      EnableSumClosedForm(sources);
      assert Pow2(sources + 1) <= 16;
      bus.Write(EnableReg(base), enable as bv32);
    }

    /** `plic_claim`: one read of the claim register; its value, zero included, is the id. */
    method Claim(bus: Bus) returns (id: bv32)
      modifies bus`log
      ensures id == PeekIn(bus.mem, ClaimReg(base))
      ensures bus.log == old(bus.log) + [Read32(ClaimReg(base), id)]
    {
      id := bus.Read(ClaimReg(base));
    }

    /** `plic_complete`: one write of the id to the claim/complete register. */
    method Complete(bus: Bus, id: bv32)
      modifies bus
      ensures bus.log == old(bus.log) + [Write32(ClaimReg(base), id)]
      ensures bus.mem == old(bus.mem)[ClaimReg(base) := id]
    {
      bus.Write(ClaimReg(base), id);
    }
  }
}
