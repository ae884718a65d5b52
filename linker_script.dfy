// The linker-script generator `config/scripts/create_linker_script.py`:
// it reads the address ranges of every enabled bus, checks that each
// bus lists as many names, bases and widths as it has slaves, sorts the
// slaves into memory blocks and peripherals, and derives the symbols of
// the script: each peripheral's start and end, the vector table at the
// start of the boot memory and the stack at its end.
module LinkerScript {
  import opened Wrappers
  import opened Builtins

  const DISABLE: string := "DISABLE"
  /** The first memory block is the boot memory. */
  const BOOT_MEMORY_BLOCK: nat := 0
  /** 32 entries of one word each. */
  const VECTOR_TABLE_SIZE: nat := 32 * 4
  /** The stack starts one double word below the end of the boot memory. */
  const STACK_OFFSET: nat := 8

  /** A value, or the exception raised instead. */
  datatype Outcome<T> = Done(value: T) | Raises(error: Exception)

  /** The `Value` cells the script reads from a bus's CSV file. */
  datatype BusCsv = BusCsv(protocol: string, numMI: string, rangeNames: string, rangeBaseAddr: string, rangeAddrWidth: string)

  /** A bus's slaves as read: their count, names, hexadecimal bases and address widths. */
  datatype BusRanges = BusRanges(numMI: int, names: seq<string>, bases: seq<string>, widths: seq<int>)

  /**
   * A conversion from text to an integer, `None` for the `ValueError` it
   * raises. The script reads counts and widths with `parse(s)` (`ParseInt`)
   * and base addresses with `parse(s, 16)` (`ParseHex`); the reading and
   * sorting below are stated for any conversion.
   */
  type IntParser = string -> Option<int>

  /** The address widths, each through `parse()`, or `None` for the `ValueError` of the first that is not a number. */
  function ParseWidths(words: seq<string>, parse: IntParser): (widths: Option<seq<int>>)
    ensures widths.Some? <==> forall k :: 0 <= k < |words| ==> parse(words[k]).Some?
    ensures widths.Some? ==> |widths.value| == |words| && forall k :: 0 <= k < |words| ==> parse(words[k]) == Some(widths.value[k])
  {
    if words == [] then Some([])
    else match (parse(words[0]), ParseWidths(words[1..], parse))
      case (Some(w), Some(rest)) => Some([w] + rest)
      case _ => None
  }

  /** One bus's ranges: NUM_MI and the widths must be integers; names, bases and widths are split at white space. */
  function ReadBus(csv: BusCsv, parse: IntParser): Outcome<BusRanges>
  {
    match parse(csv.numMI)
    case None => Raises(ValueError)
    case Some(n) =>
      match ParseWidths(Split(csv.rangeAddrWidth), parse)
      case None => Raises(ValueError)
      case Some(widths) => Done(BusRanges(n, Split(csv.rangeNames), Split(csv.rangeBaseAddr), widths))
  }

  /**
   * The reading loop: each bus in turn, skipping those
   * whose protocol is DISABLE and stopping at the first error.
   */
  function ReadAll(csvs: seq<BusCsv>, parse: IntParser): (r: Outcome<seq<BusRanges>>)
    ensures r.Raises? ==> r.error == ValueError
    decreases |csvs|
  {
    if csvs == [] then Done([])
    else
      var buses := ReadAll(csvs[..|csvs| - 1], parse);
      var last := csvs[|csvs| - 1];
      if buses.Raises? || last.protocol == DISABLE then buses
      else match ReadBus(last, parse)
        case Raises(e) => Raises(e)
        case Done(bus) => Done(buses.value + [bus])
  }

  /** Reading stops at the first error. */
  lemma {:induction false} ReadAllStops(csvs: seq<BusCsv>, k: nat, parse: IntParser)
    requires k <= |csvs| && ReadAll(csvs[..k], parse).Raises?
    ensures ReadAll(csvs, parse) == ReadAll(csvs[..k], parse)
    decreases |csvs|
  {
    if k < |csvs| {
      var init := csvs[..|csvs| - 1];
      assert init[..k] == csvs[..k];
      ReadAllStops(init, k, parse);
    } else {
      assert csvs[..k] == csvs;
    }
  }

  /** The buses that are not disabled, in order. */
  function Enabled(csvs: seq<BusCsv>): (enabled: seq<BusCsv>)
    ensures forall k :: 0 <= k < |enabled| ==> enabled[k].protocol != DISABLE
    ensures |enabled| <= |csvs|
    decreases |csvs|
  {
    if csvs == [] then []
    else
      var last := csvs[|csvs| - 1];
      Enabled(csvs[..|csvs| - 1]) + (if last.protocol == DISABLE then [] else [last])
  }

  /** Every bus read, in order, or the first error. */
  function ReadEach(csvs: seq<BusCsv>, parse: IntParser): Outcome<seq<BusRanges>>
  {
    if csvs == [] then Done([])
    else match (ReadBus(csvs[0], parse), ReadEach(csvs[1..], parse))
      case (Raises(e), _) => Raises(e)
      case (_, Raises(e)) => Raises(e)
      case (Done(bus), Done(rest)) => Done([bus] + rest)
  }

  /** When every bus reads, there is one result per bus, each what reading that bus gives. */
  lemma {:induction false} ReadEachReadsEvery(csvs: seq<BusCsv>, parse: IntParser)
    ensures var r := ReadEach(csvs, parse);
      r.Done? ==> |r.value| == |csvs| && forall k :: 0 <= k < |csvs| ==> ReadBus(csvs[k], parse) == Done(r.value[k])
  {
    if csvs != [] {
      ReadEachReadsEvery(csvs[1..], parse);
      var r := ReadEach(csvs, parse);
      if r.Done? {
        var rest := ReadEach(csvs[1..], parse).value;
        forall k | 0 < k < |csvs|
          ensures ReadBus(csvs[k], parse) == Done(r.value[k])
        {
          assert csvs[k] == csvs[1..][k - 1] && r.value[k] == rest[k - 1];
        }
      }
    }
  }

  lemma {:induction false} ReadEachAppend(csvs: seq<BusCsv>, last: BusCsv, parse: IntParser)
    ensures ReadEach(csvs + [last], parse) ==
      match ReadEach(csvs, parse)
      case Raises(e) => Raises(e)
      case Done(buses) => match ReadBus(last, parse) case Raises(e) => Raises(e) case Done(bus) => Done(buses + [bus])
    decreases |csvs|
  {
    if csvs == [] {
      assert [] + [last] == [last] && [last][1..] == [];
      if ReadBus(last, parse).Done? {
        assert [ReadBus(last, parse).value] + [] == [] + [ReadBus(last, parse).value];
      }
    } else {
      assert (csvs + [last])[1..] == csvs[1..] + [last];
      ReadEachAppend(csvs[1..], last, parse);
      var r := ReadEach(csvs[1..], parse);
      if ReadBus(csvs[0], parse).Done? && r.Done? && ReadBus(last, parse).Done? {
        assert [ReadBus(csvs[0], parse).value] + (r.value + [ReadBus(last, parse).value]) == [ReadBus(csvs[0], parse).value] + r.value + [ReadBus(last, parse).value];
      }
    }
  }

  /** Disabled buses are skipped: the loop reads exactly the enabled buses, in order. */
  lemma {:induction false} ReadAllSkipsDisabled(csvs: seq<BusCsv>, parse: IntParser)
    ensures ReadAll(csvs, parse) == ReadEach(Enabled(csvs), parse)
    decreases |csvs|
  {
    if csvs != [] {
      var init, last := csvs[..|csvs| - 1], csvs[|csvs| - 1];
      ReadAllSkipsDisabled(init, parse);
      if last.protocol == DISABLE {
        assert Enabled(csvs) == Enabled(init) + [];
        assert Enabled(init) + [] == Enabled(init);
      } else {
        ReadEachAppend(Enabled(init), last, parse);
      }
    }
  }

  /** The loop converting a bus's widths one by one. */
  method ConvertWidths(words: seq<string>, parse: IntParser) returns (widths: Option<seq<int>>)
    ensures widths == ParseWidths(words, parse)
  {
    var converted: seq<int> := [];
    for j := 0 to |words|
      invariant |converted| == j
      invariant forall l :: 0 <= l < j ==> parse(words[l]) == Some(converted[l])
    {
      var w := parse(words[j]);
      if w.None? {
        assert ParseWidths(words, parse).None?;
        return None;
      }
      converted := converted + [w.value];
    }
    assert ParseWidths(words, parse).Some?;
    assert ParseWidths(words, parse).value == converted;
    widths := Some(converted);
  }

  /** One bus's cells. */
  method ReadOneBus(csv: BusCsv, parse: IntParser) returns (r: Outcome<BusRanges>)
    ensures r == ReadBus(csv, parse)
  {
    var numMI := parse(csv.numMI);
    if numMI.None? {
      return Raises(ValueError);
    }
    var widths := ConvertWidths(Split(csv.rangeAddrWidth), parse);
    if widths.None? {
      return Raises(ValueError);
    }
    r := Done(BusRanges(numMI.value, Split(csv.rangeNames), Split(csv.rangeBaseAddr), widths.value));
  }

  /** The reading loop of the script. */
  method ReadBuses(csvs: seq<BusCsv>, parse: IntParser) returns (r: Outcome<seq<BusRanges>>)
    ensures r == ReadAll(csvs, parse)
  {
    var buses: seq<BusRanges> := [];
    for k := 0 to |csvs|
      invariant ReadAll(csvs[..k], parse) == Done(buses)
    {
      assert csvs[..k + 1][..k] == csvs[..k];
      if csvs[k].protocol == DISABLE {
        continue;
      }
      var bus := ReadOneBus(csvs[k], parse);
      if bus.Raises? {
        ReadAllStops(csvs, k + 1, parse);
        return Raises(bus.error);
      }
      buses := buses + [bus.value];
    }
    assert csvs[..|csvs|] == csvs;
    r := Done(buses);
  }

  /** What the sanity check demands of a bus: as many names, bases and widths as NUM_MI says. */
  predicate Consistent(bus: BusRanges)
  {
    bus.numMI == |bus.names| && bus.numMI == |bus.bases| && bus.numMI == |bus.widths|
  }

  /** The sanity check: `false` is the `AssertionError` raised for the first mismatched bus. */
  method SanityCheck(buses: seq<BusRanges>) returns (ok: bool)
    ensures ok <==> forall k :: 0 <= k < |buses| ==> Consistent(buses[k])
  {
    for k := 0 to |buses|
      invariant forall l :: 0 <= l < k ==> Consistent(buses[l])
    {
      var bus := buses[k];
      if !(bus.numMI == |bus.names| && bus.numMI == |bus.bases| && bus.numMI == |bus.widths|) {
        return false;
      }
    }
    ok := true;
  }

  /** What a slave is: a memory block, another bus (its name ends in BUS), or a peripheral. */
  datatype Kind = Memory | Bus | Peripheral

  function KindOf(device: string): Kind
  {
    if device == "BRAM" || device == "DDR" || device == "HBM" then Memory
    else if LastThree(device) == "BUS" then Bus
    else Peripheral
  }

  /** BRAM, DDR and HBM are memories; any other name ending in BUS is a bus; everything else is a peripheral. */
  lemma KindOfName(device: string)
    ensures KindOf(device) == Memory <==> device == "BRAM" || device == "DDR" || device == "HBM"
    ensures KindOf(device) == Bus <==> !(device == "BRAM" || device == "DDR" || device == "HBM") && EndsWith(device, "BUS")
  {
    LastThreeIsSuffix(device, "BUS");
  }

  /** A memory block or peripheral: its name, base address and the size of its range. */
  datatype Block = Block(device: string, base: int, range: nat)

  datatype Devices = Devices(memory: seq<Block>, peripherals: seq<Block>)

  /**
   * The block of slave `j` of a bus: its base is the `j`-th base read
   * by `hex`, its range 2 to the power of the `j`-th width; an
   * `IndexError` when the bus has fewer bases or widths than names, a
   * `ValueError` for a base `hex` rejects or a negative width.
   */
  function BlockAt(bus: BusRanges, j: nat, hex: IntParser): (r: Outcome<Block>)
    requires j < |bus.names|
    ensures r.Done? ==> (j < |bus.bases| && j < |bus.widths| && r.value.device == bus.names[j] &&
                         Some(r.value.base) == hex(bus.bases[j]) && 0 <= bus.widths[j] && r.value.range == Pow2(bus.widths[j]))
    ensures r == Raises(IndexError) <==> j >= |bus.bases| || (hex(bus.bases[j]).Some? && j >= |bus.widths|)
  {
    if j >= |bus.bases| then Raises(IndexError)
    else match hex(bus.bases[j])
      case None => Raises(ValueError)
      case Some(base) =>
        if j >= |bus.widths| then Raises(IndexError)
        else if bus.widths[j] < 0 then Raises(ValueError)
        else Done(Block(bus.names[j], base, Pow2(bus.widths[j])))
  }

  /** Every memory block has a memory's name and every peripheral a peripheral's; no range is empty. */
  predicate WellSorted(d: Devices)
  {
    (forall k :: 0 <= k < |d.memory| ==> KindOf(d.memory[k].device) == Memory && d.memory[k].range >= 1) &&
    (forall k :: 0 <= k < |d.peripherals| ==> KindOf(d.peripherals[k].device) == Peripheral && d.peripherals[k].range >= 1)
  }

  /** How many of the first `n` names of a bus are not buses. */
  function Listed(bus: BusRanges, n: nat): nat
    requires n <= |bus.names|
  {
    if n == 0 then 0 else Listed(bus, n - 1) + (if KindOf(bus.names[n - 1]) == Bus then 0 else 1)
  }

  /** The devices after sorting slave `j` of a bus, of kind `kind`, into `d`. */
  function Sort(d: Devices, bus: BusRanges, j: nat, kind: Kind, hex: IntParser): (r: Outcome<Devices>)
    requires j < |bus.names|
  {
    if kind == Bus then Done(d)
    else match BlockAt(bus, j, hex)
      case Raises(e) => Raises(e)
      case Done(b) => if kind == Memory then Done(Devices(d.memory + [b], d.peripherals)) else Done(Devices(d.memory, d.peripherals + [b]))
  }

  /**
   * The devices after the first `n` slaves of a bus: sorting keeps every
   * block on its side, adds one block per slave that is not a bus and
   * keeps the blocks already sorted.
   */
  function BusDevices(d: Devices, bus: BusRanges, n: nat, hex: IntParser): (r: Outcome<Devices>)
    requires n <= |bus.names|
  {
    if n == 0 then Done(d)
    else match BusDevices(d, bus, n - 1, hex)
      case Raises(e) => Raises(e)
      case Done(sorted) => Sort(sorted, bus, n - 1, KindOf(bus.names[n - 1]), hex)
  }

  /** Sorting the first `n` slaves of a bus keeps every block on its side. */
  lemma {:induction false} BusDevicesWellSorted(d: Devices, bus: BusRanges, n: nat, hex: IntParser)
    requires n <= |bus.names| && WellSorted(d)
    ensures BusDevices(d, bus, n, hex).Done? ==> WellSorted(BusDevices(d, bus, n, hex).value)
  {
    if n > 0 {
      BusDevicesWellSorted(d, bus, n - 1, hex);
      var before := BusDevices(d, bus, n - 1, hex);
      if before.Done? {
        SortWellSorted(before.value, bus, n - 1, hex);
      }
    }
  }

  /** Sorting one slave puts a memory among the memory blocks and a peripheral among the peripherals. */
  lemma SortWellSorted(d: Devices, bus: BusRanges, j: nat, hex: IntParser)
    requires j < |bus.names| && WellSorted(d)
    ensures Sort(d, bus, j, KindOf(bus.names[j]), hex).Done? ==> WellSorted(Sort(d, bus, j, KindOf(bus.names[j]), hex).value)
  {
  }

  /** Sorting the first `n` slaves of a bus adds one block per slave that is not a bus and keeps the blocks already sorted. */
  lemma {:induction false} BusDevicesGrows(d: Devices, bus: BusRanges, n: nat, hex: IntParser)
    requires n <= |bus.names|
    ensures var r := BusDevices(d, bus, n, hex);
      r.Done? ==>
        |r.value.memory| + |r.value.peripherals| == |d.memory| + |d.peripherals| + Listed(bus, n) &&
        d.memory <= r.value.memory && d.peripherals <= r.value.peripherals
  {
    if n > 0 {
      BusDevicesGrows(d, bus, n - 1, hex);
      var before := BusDevices(d, bus, n - 1, hex);
      if before.Done? {
        SortGrows(before.value, bus, n - 1, hex);
      }
    }
  }

  /** Sorting one slave adds a block unless the slave is a bus, and keeps the blocks already sorted. */
  lemma SortGrows(d: Devices, bus: BusRanges, j: nat, hex: IntParser)
    requires j < |bus.names|
    ensures var r := Sort(d, bus, j, KindOf(bus.names[j]), hex);
      r.Done? ==>
        |r.value.memory| + |r.value.peripherals| == |d.memory| + |d.peripherals| + (if KindOf(bus.names[j]) == Bus then 0 else 1) &&
        d.memory <= r.value.memory && d.peripherals <= r.value.peripherals
  {
  }

  /** The devices of the first `i` buses. */
  function AllDevices(buses: seq<BusRanges>, i: nat, hex: IntParser): (r: Outcome<Devices>)
    requires i <= |buses|
  {
    if i == 0 then Done(Devices([], []))
    else match AllDevices(buses, i - 1, hex)
      case Raises(e) => Raises(e)
      case Done(d) => BusDevices(d, buses[i - 1], |buses[i - 1].names|, hex)
  }

  /** After sorting, every memory block is a memory, every peripheral a peripheral, and no range is empty. */
  lemma {:induction false} AllDevicesWellSorted(buses: seq<BusRanges>, i: nat, hex: IntParser)
    requires i <= |buses|
    ensures AllDevices(buses, i, hex).Done? ==> WellSorted(AllDevices(buses, i, hex).value)
  {
    if i > 0 {
      AllDevicesWellSorted(buses, i - 1, hex);
      if AllDevices(buses, i - 1, hex).Done? {
        BusDevicesWellSorted(AllDevices(buses, i - 1, hex).value, buses[i - 1], |buses[i - 1].names|, hex);
      }
    }
  }

  /** Sorting stops at the first error. */
  lemma {:induction false} BusDevicesStops(d: Devices, bus: BusRanges, k: nat, n: nat, hex: IntParser)
    requires k <= n <= |bus.names| && BusDevices(d, bus, k, hex).Raises?
    ensures BusDevices(d, bus, n, hex) == BusDevices(d, bus, k, hex)
    decreases n
  {
    if k < n {
      BusDevicesStops(d, bus, k, n - 1, hex);
    }
  }

  /** One more slave: the devices after `j + 1` slaves are those after `j` with slave `j` sorted in. */
  lemma BusDevicesStep(d: Devices, bus: BusRanges, j: nat, sorted: Devices, hex: IntParser)
    requires j < |bus.names| && BusDevices(d, bus, j, hex) == Done(sorted)
    ensures BusDevices(d, bus, j + 1, hex) == Sort(sorted, bus, j, KindOf(bus.names[j]), hex)
  {
  }

  /** One more bus: the devices of `i + 1` buses are those of `i` buses with bus `i` sorted in. */
  lemma AllDevicesStep(buses: seq<BusRanges>, i: nat, sorted: Devices, hex: IntParser)
    requires i < |buses| && AllDevices(buses, i, hex) == Done(sorted)
    ensures AllDevices(buses, i + 1, hex) == BusDevices(sorted, buses[i], |buses[i].names|, hex)
  {
  }

  lemma {:induction false} AllDevicesStops(buses: seq<BusRanges>, k: nat, n: nat, hex: IntParser)
    requires k <= n <= |buses| && AllDevices(buses, k, hex).Raises?
    ensures AllDevices(buses, n, hex) == AllDevices(buses, k, hex)
    decreases n
  {
    if k < n {
      AllDevicesStops(buses, k, n - 1, hex);
    }
  }

  lemma {:induction false} ConsistentBusIndexInRange(d: Devices, bus: BusRanges, n: nat, hex: IntParser)
    requires n <= |bus.names| && Consistent(bus)
    ensures BusDevices(d, bus, n, hex) != Raises(IndexError)
  {
    if n > 0 {
      ConsistentBusIndexInRange(d, bus, n - 1, hex);
    }
  }

  /** Once the sanity check has passed, every slave has a base and a width, so sorting raises no `IndexError`. */
  lemma {:induction false} ConsistentBusesIndexInRange(buses: seq<BusRanges>, i: nat, hex: IntParser)
    requires i <= |buses| && forall k :: 0 <= k < |buses| ==> Consistent(buses[k])
    ensures AllDevices(buses, i, hex) != Raises(IndexError)
  {
    if i > 0 {
      ConsistentBusesIndexInRange(buses, i - 1, hex);
      if AllDevices(buses, i - 1, hex).Done? {
        ConsistentBusIndexInRange(AllDevices(buses, i - 1, hex).value, buses[i - 1], |buses[i - 1].names|, hex);
      }
    }
  }

  /** Sorting one slave: its block is read only when it is not a bus. */
  method SortSlave(memory: seq<Block>, peripherals: seq<Block>, bus: BusRanges, counter: nat, kind: Kind, hex: IntParser)
    returns (r: Outcome<Devices>)
    requires counter < |bus.names|
    ensures r == Sort(Devices(memory, peripherals), bus, counter, kind, hex)
  {
    if kind == Bus {
      return Done(Devices(memory, peripherals));
    }
    if counter >= |bus.bases| {
      return Raises(IndexError);
    }
    var base := hex(bus.bases[counter]);
    if base.None? {
      return Raises(ValueError);
    }
    if counter >= |bus.widths| {
      return Raises(IndexError);
    }
    if bus.widths[counter] < 0 {
      return Raises(ValueError);
    }
    var block := Block(bus.names[counter], base.value, Pow2(bus.widths[counter]));
    if kind == Memory {
      r := Done(Devices(memory + [block], peripherals));
    } else {
      r := Done(Devices(memory, peripherals + [block]));
    }
  }

  /**
   * The sorting loop over one bus. `counter` indexes the bases and
   * widths of the bus; it is zero when the bus starts, is always the
   * index of the current slave and is back at zero when the bus is done.
   */
  method SortBus(memory: seq<Block>, peripherals: seq<Block>, bus: BusRanges, hex: IntParser) returns (r: Outcome<Devices>)
    ensures r == BusDevices(Devices(memory, peripherals), bus, |bus.names|, hex)
  {
    var sorted := Devices(memory, peripherals);
    var counter := 0;
    for j := 0 to |bus.names|
      invariant counter == if j == |bus.names| then 0 else j
      invariant BusDevices(Devices(memory, peripherals), bus, j, hex) == Done(sorted)
    {
      var next := SortSlave(sorted.memory, sorted.peripherals, bus, counter, KindOf(bus.names[j]), hex);
      if next.Raises? {
        BusDevicesStops(Devices(memory, peripherals), bus, j + 1, |bus.names|, hex);
        return next;
      }
      BusDevicesStep(Devices(memory, peripherals), bus, j, sorted, hex);
      sorted := next.value;
      counter := counter + 1;
      if counter == |bus.names| {
        counter := 0;
      }
    }
    r := Done(sorted);
  }

  /** The sorting loop of the script, bus by bus. */
  method SortDevices(buses: seq<BusRanges>, hex: IntParser) returns (r: Outcome<Devices>)
    ensures r == AllDevices(buses, |buses|, hex)
  {
    var sorted := Devices([], []);
    for i := 0 to |buses|
      invariant AllDevices(buses, i, hex) == Done(sorted)
    {
      var next := SortBus(sorted.memory, sorted.peripherals, buses[i], hex);
      if next.Raises? {
        AllDevicesStops(buses, i + 1, |buses|, hex);
        return next;
      }
      AllDevicesStep(buses, i, sorted, hex);
      sorted := next.value;
    }
    r := Done(sorted);
  }

  /** The start and end symbols of a peripheral. */
  datatype PeripheralSymbols = PeripheralSymbols(device: string, start: int, end: int)

  /** What the script writes: the memory blocks, the peripheral symbols and the global symbols. */
  datatype LinkerSymbols = LinkerSymbols(
    memory: seq<Block>, peripherals: seq<PeripheralSymbols>,
    vectorTableStart: int, vectorTableEnd: int, stackStart: int, bootDevice: string)

  /** A peripheral's range runs from its base to its base plus its range. */
  function SymbolsOf(peripherals: seq<Block>): (symbols: seq<PeripheralSymbols>)
    ensures |symbols| == |peripherals|
    ensures forall k :: 0 <= k < |peripherals| ==>
      (symbols[k].device == peripherals[k].device && symbols[k].start == peripherals[k].base &&
       symbols[k].end - symbols[k].start == peripherals[k].range)
  {
    seq(|peripherals|, k requires 0 <= k < |peripherals| => PeripheralSymbols(peripherals[k].device, peripherals[k].base, peripherals[k].base + peripherals[k].range))
  }

  /**
   * The symbols of the script, or the `IndexError` of a configuration
   * with no memory block.
   */
  function Symbols(d: Devices): (r: Outcome<LinkerSymbols>)
    ensures r.Raises? <==> d.memory == []
  {
    if |d.memory| <= BOOT_MEMORY_BLOCK then Raises(IndexError)
    else
      var boot := d.memory[BOOT_MEMORY_BLOCK];
      Done(LinkerSymbols(d.memory, SymbolsOf(d.peripherals),
        boot.base, boot.base + VECTOR_TABLE_SIZE, boot.base + boot.range - STACK_OFFSET, boot.device))
  }

  /**
   * The vector table is 32 words at the start of the boot memory, the
   * first memory block; the stack starts 8 bytes below the end of the
   * boot memory, inside it whenever it holds at least 8 bytes.
   */
  lemma BootMemoryLayout(d: Devices)
    requires Symbols(d).Done?
    ensures var s := Symbols(d).value;
      var boot := d.memory[0];
      s.bootDevice == boot.device && s.vectorTableStart == boot.base && s.vectorTableEnd - s.vectorTableStart == 32 * 4 &&
      s.stackStart + 8 == boot.base + boot.range && (boot.range >= 8 <==> boot.base <= s.stackStart)
  {
  }

  /** The whole script, from the CSV cells to the symbols it writes. */
  function LinkerScriptOf(csvs: seq<BusCsv>): Outcome<LinkerSymbols>
  {
    match ReadAll(csvs, ParseInt)
    case Raises(e) => Raises(e)
    case Done(buses) =>
      if !(forall k :: 0 <= k < |buses| ==> Consistent(buses[k])) then Raises(AssertionError)
      else match AllDevices(buses, |buses|, ParseHex)
        case Raises(e) => Raises(e)
        case Done(d) => Symbols(d)
  }

  /**
   * The script fails with an `AssertionError` exactly when the enabled
   * buses all read well and one of them is inconsistent.
   */
  lemma LinkerScriptAssertion(csvs: seq<BusCsv>)
    ensures var buses := ReadEach(Enabled(csvs), ParseInt);
      LinkerScriptOf(csvs) == Raises(AssertionError) <==>
      buses.Done? && exists k :: 0 <= k < |buses.value| && !Consistent(buses.value[k])
  {
    ReadAllSkipsDisabled(csvs, ParseInt);
    var read := ReadAll(csvs, ParseInt);
    if read.Done? && forall k :: 0 <= k < |read.value| ==> Consistent(read.value[k]) {
      BlockErrors(read.value, |read.value|, ParseHex);
    }
  }

  /** Sorting raises only `ValueError` or `IndexError`. */
  lemma {:induction false} BlockErrors(buses: seq<BusRanges>, i: nat, hex: IntParser)
    requires i <= |buses|
    ensures AllDevices(buses, i, hex).Raises? ==> AllDevices(buses, i, hex).error in {ValueError, IndexError}
  {
    if i > 0 {
      BlockErrors(buses, i - 1, hex);
      if AllDevices(buses, i - 1, hex).Done? {
        BusBlockErrors(AllDevices(buses, i - 1, hex).value, buses[i - 1], |buses[i - 1].names|, hex);
      }
    }
  }

  lemma {:induction false} BusBlockErrors(d: Devices, bus: BusRanges, n: nat, hex: IntParser)
    requires n <= |bus.names|
    ensures BusDevices(d, bus, n, hex).Raises? ==> BusDevices(d, bus, n, hex).error in {ValueError, IndexError}
  {
    if n > 0 {
      BusBlockErrors(d, bus, n - 1, hex);
    }
  }

  /**
   * After the sanity check an `IndexError` comes only from a
   * configuration without memory, never from indexing past a bus's bases
   * or widths.
   */
  lemma LinkerScriptIndexError(csvs: seq<BusCsv>)
    ensures (LinkerScriptOf(csvs) == Raises(IndexError) && ReadAll(csvs, ParseInt).Done? &&
             forall k :: 0 <= k < |ReadAll(csvs, ParseInt).value| ==> Consistent(ReadAll(csvs, ParseInt).value[k])) ==>
      var buses := ReadAll(csvs, ParseInt).value;
      AllDevices(buses, |buses|, ParseHex).Done? && AllDevices(buses, |buses|, ParseHex).value.memory == []
  {
    var read := ReadAll(csvs, ParseInt);
    if read.Done? && forall k :: 0 <= k < |read.value| ==> Consistent(read.value[k]) {
      ConsistentBusesIndexInRange(read.value, |read.value|, ParseHex);
    }
  }

  /**
   * When the script succeeds, every memory block is BRAM, DDR or HBM and
   * every peripheral symbol names a slave that is neither memory nor a
   * bus.
   */
  lemma LinkerScriptSorted(csvs: seq<BusCsv>)
    ensures LinkerScriptOf(csvs).Done? ==> var s := LinkerScriptOf(csvs).value;
      (forall k :: 0 <= k < |s.memory| ==> KindOf(s.memory[k].device) == Memory) &&
      (forall k :: 0 <= k < |s.peripherals| ==> KindOf(s.peripherals[k].device) == Peripheral)
  {
    var read := ReadAll(csvs, ParseInt);
    if read.Done? {
      AllDevicesWellSorted(read.value, |read.value|, ParseHex);
    }
  }

  /** `create_linker_script.py` from the CSV cells to the symbols it writes. */
  method CreateLinkerScript(csvs: seq<BusCsv>) returns (r: Outcome<LinkerSymbols>)
    ensures r == LinkerScriptOf(csvs)
  {
    var buses := ReadBuses(csvs, ParseInt);
    if buses.Raises? {
      return Raises(buses.error);
    }
    var ok := SanityCheck(buses.value);
    if !ok {
      return Raises(AssertionError);
    }
    var devices := SortDevices(buses.value, ParseHex);
    if devices.Raises? {
      return Raises(devices.error);
    }
    r := WriteSymbols(devices.value);
  }

  /** The peripheral loop and the global symbols. */
  method WriteSymbols(d: Devices) returns (r: Outcome<LinkerSymbols>)
    ensures r == Symbols(d)
  {
    var symbols: seq<PeripheralSymbols> := [];
    for k := 0 to |d.peripherals|
      invariant symbols == SymbolsOf(d.peripherals[..k])
    {
      var p := d.peripherals[k];
      symbols := symbols + [PeripheralSymbols(p.device, p.base, p.base + p.range)];
    }
    assert d.peripherals[..|d.peripherals|] == d.peripherals;
    if |d.memory| <= BOOT_MEMORY_BLOCK {
      return Raises(IndexError);
    }
    var boot := d.memory[BOOT_MEMORY_BLOCK];
    r := Done(LinkerSymbols(d.memory, symbols, boot.base, boot.base + VECTOR_TABLE_SIZE, boot.base + boot.range - STACK_OFFSET, boot.device));
  }
}
