// The older reader of the crossbar configuration CSV: one `read_*`
// function per property, taking the property's cell as text. It applies
// the same rules as the property parsers, with its own property names
// and its own way of guarding against an empty cell: the scalar readers
// call `int()` before testing for an empty cell (so an empty cell raises
// `ValueError`), and the list readers split only a non-empty cell and
// test `len(values) == N and retrieved != ""`.
//
// Each reader is a method on a `Configuration` proved equal to the
// property parser's function for the field the reader's name selects,
// so that everything proved about the parsers holds for the reader too.
// The one exception is the range base addresses, which the reader checks
// more strictly and replaces by defaults when they are malformed.
module CrossbarReader {
  import opened Wrappers
  import opened Builtins
  import opened Configuration
  import opened PropertyLists
  import opened ParseProperties

  /** The parameter names the reader matches on. */
  function ReaderField(parameter: string): Field
  {
    match parameter
    case "SI_Number" => NumSI
    case "MI_Number" => NumMI
    case "ID_Width" => IdWidth
    case "AW_User_Width" => AwuserWidth
    case "AR_User_Width" => AruserWidth
    case "W_User_Width" => WuserWidth
    case "R_User_Width" => RuserWidth
    case "B_User_Width" => BuserWidth
    case "Addr_Ranges" => AddrRanges
    case "SI_Read_Acceptance" => SiReadAcceptance
    case "SI_Write_Acceptance" => SiWriteAcceptance
    case "MI_Read_Issuing" => MiReadIssuing
    case "MI_Write_Issuing" => MiWriteIssuing
    case "Read_Connectivity" => Field.ReadConnectivity
    case "Write_Connectivity" => WriteConnectivity
    case _ => Unmatched
  }

  /** `[] if retrieved == "" else retrieved.split()`: the same words as splitting outright. */
  method Values(retrieved: string) returns (values: seq<string>)
    ensures values == Split(retrieved)
  {
    values := [];
    if retrieved != "" {
      values := Split(retrieved);
    }
  }

  /**
   * The reader's per-interface pattern: read the values when there are
   * exactly `n` of them and the cell is not empty, append `n` defaults
   * otherwise. An empty cell has no words, so this is the parsers'
   * pattern.
   */
  method ReadPerInterface(list: seq<int>, retrieved: string, n: nat, lo: int, hi: int, dflt: int) returns (g: Grown)
    ensures g == PerInterface(list, Split(retrieved), n, lo, hi, dflt)
  {
    var values := Values(retrieved);
    if |values| == n && retrieved != "" {
      g := AppendPerInterface(list, values, n, lo, hi, dflt);
    } else {
      var grown := AppendRepeat(list, dflt, n);
      g := Grown(grown, Ok);
      if retrieved == "" && n == 0 {
        assert Parsed(values) == [];
        assert Entries(Parsed(values), lo, hi, dflt) == [];
      }
    }
  }

  /** The reader's per-connection pattern over a `rows` x `cols` grid, the parsers' pattern again. */
  method ReadPerGrid(list: seq<int>, retrieved: string, rows: nat, cols: nat, lo: int, hi: int, first: int, rest: int)
      returns (g: Grown)
    ensures g == PerGrid(list, Split(retrieved), rows, cols, lo, hi, first, rest)
  {
    var values := Values(retrieved);
    if |values| == rows * cols && retrieved != "" {
      g := AppendPerGrid(list, values, rows, cols, lo, hi, first, rest);
    } else {
      var grown := AppendGridDefaults(list, rows, cols, first, rest);
      g := Grown(grown, Ok);
      if retrieved == "" && rows * cols == 0 {
        assert Parsed(values) == [];
        assert GridEntries(Parsed(values), cols, lo, hi, first, rest) == [];
      }
    }
  }

  // ---------------------------------------------------------------------
  // Scalar properties
  // ---------------------------------------------------------------------

  method ReadInterfaces(config: Configuration, parameter: string, retrieved: string) returns (status: Status)
    modifies config
    ensures Outcome(config.Snapshot(), status) == Interfaces(old(config.Snapshot()), ReaderField(parameter), retrieved)
  {
    var parsed := ParseInt(retrieved);
    if parsed.None? {
      return Raised(ValueError);
    }
    var v := parsed.value;
    if retrieved != "" && 0 <= v <= 16 {
      StoreCount(config, ReaderField(parameter), v);
    }
    status := Ok;
  }

  method ReadStrategy(config: Configuration, retrieved: string) returns (status: Status)
    modifies config
    ensures Outcome(config.Snapshot(), status) == Strategy(old(config.Snapshot()), retrieved)
  {
    var parsed := ParseInt(retrieved);
    if parsed.None? {
      return Raised(ValueError);
    }
    if retrieved != "" && 0 <= parsed.value <= 2 {
      config.strategy := parsed.value;
    }
    status := Ok;
  }

  method ReadRRegister(config: Configuration, retrieved: string) returns (status: Status)
    modifies config
    ensures Outcome(config.Snapshot(), status) == RRegister(old(config.Snapshot()), retrieved)
  {
    var parsed := ParseInt(retrieved);
    if parsed.None? {
      return Raised(ValueError);
    }
    if config.strategy == 2 {
      config.rRegister := 0;
    } else if retrieved != "" && 0 <= parsed.value <= 1 {
      config.rRegister := parsed.value;
    }
    status := Ok;
  }

  method ReadProtocol(config: Configuration, retrieved: string)
    modifies config
    ensures config.Snapshot() == Protocol(old(config.Snapshot()), retrieved)
  {
    if retrieved != "" && (retrieved == "AXI4" || retrieved == "AXI4LITE" || retrieved == "AXI3") {
      config.protocol := retrieved;
    }
  }

  method ReadAddrWidth(config: Configuration, retrieved: string) returns (status: Status)
    modifies config
    ensures Outcome(config.Snapshot(), status) == AddrWidth(old(config.Snapshot()), retrieved)
  {
    var parsed := ParseInt(retrieved);
    if parsed.None? {
      return Raised(ValueError);
    }
    var v := parsed.value;
    if retrieved != "" {
      if config.protocol == "AXI4LITE" && 1 <= v <= 64 {
        config.addrWidth := v;
      } else if (config.protocol == "AXI4" || config.protocol == "AXI3") && 12 <= v <= 64 {
        config.addrWidth := v;
      }
    }
    status := Ok;
  }

  method ReadDataWidth(config: Configuration, retrieved: string) returns (status: Status)
    modifies config
    ensures Outcome(config.Snapshot(), status) == DataWidth(old(config.Snapshot()), retrieved)
  {
    var parsed := ParseInt(retrieved);
    if parsed.None? {
      return Raised(ValueError);
    }
    var v := parsed.value;
    if retrieved != "" {
      var found := SearchDataWidth(v);
      if config.protocol == "AXI4LITE" && (v == 32 || v == 64) {
        config.dataWidth := v;
      } else if (config.protocol == "AXI4" || config.protocol == "AXI3") && found {
        config.dataWidth := v;
      }
    }
    status := Ok;
  }

  method ReadWidths(config: Configuration, parameter: string, retrieved: string, lo: nat, hi: int) returns (status: Status)
    modifies config
    ensures Outcome(config.Snapshot(), status) == Widths(old(config.Snapshot()), ReaderField(parameter), retrieved, lo, hi)
  {
    var parsed := ParseInt(retrieved);
    if parsed.None? {
      return Raised(ValueError);
    }
    var v := parsed.value;
    if retrieved != "" && lo <= v <= hi {
      StoreWidth(config, ReaderField(parameter), v);
    }
    status := Ok;
  }

  method ReadConnectivityMode(config: Configuration, retrieved: string)
    modifies config
    ensures config.Snapshot() == ConnectivityMode(old(config.Snapshot()), retrieved)
  {
    if config.strategy == 1 || config.rRegister == 1 {
      config.connectivityMode := "SASD";
    } else if config.strategy == 2 {
      config.connectivityMode := "SAMD";
    } else if retrieved != "" && (retrieved == "SASD" || retrieved == "SAMD") {
      config.connectivityMode := retrieved;
    }
  }

  // ---------------------------------------------------------------------
  // Per-interface lists
  // ---------------------------------------------------------------------

  method ReadSlavePriority(config: Configuration, retrieved: string) returns (status: Status)
    modifies config
    ensures Outcome(config.Snapshot(), status) == SlavePriority(old(config.Snapshot()), retrieved)
  {
    var g := ReadPerInterface(config.slavePriorities, retrieved, config.numSI, 0, 16, 0);
    config.slavePriorities := g.list;
    status := g.status;
  }

  method ReadAcceptance(config: Configuration, parameter: string, retrieved: string) returns (status: Status)
    modifies config
    ensures Outcome(config.Snapshot(), status) == Acceptance(old(config.Snapshot()), ReaderField(parameter), retrieved)
  {
    var f := ReaderField(parameter);
    var list := ListOf(config.Snapshot(), f);
    var g;
    if config.connectivityMode == "SASD" {
      var grown := AppendRepeat(list, 1, config.numSI);
      g := Grown(grown, Ok);
    } else {
      g := ReadPerInterface(list, retrieved, config.numSI, 1, 32, 2);
    }
    StoreList(config, f, g.list);
    status := g.status;
  }

  method ReadThreadIdWidth(config: Configuration, retrieved: string) returns (status: Status)
    modifies config
    ensures Outcome(config.Snapshot(), status) == ThreadIdWidth(old(config.Snapshot()), retrieved)
  {
    if config.numSI == 0 {
      return Raised(ValueError);
    }
    config.threadIdWidth := AppendRepeat(config.threadIdWidth, 0, config.numSI);
    status := Ok;
  }

  method ReadSingleThread(config: Configuration, retrieved: string) returns (status: Status)
    modifies config
    ensures Outcome(config.Snapshot(), status) == SingleThread(old(config.Snapshot()), retrieved)
  {
    var g := ReadPerInterface(config.singleThread, retrieved, config.numSI, 0, 1, 0);
    config.singleThread := g.list;
    status := g.status;
  }

  method ReadBaseId(config: Configuration, retrieved: string)
    modifies config
    ensures config.Snapshot() == BaseId(old(config.Snapshot()), retrieved)
  {
    var values := Values(retrieved);
    var correct := CheckHexWords(values, config.numSI, retrieved, 8);
    if |values| == config.numSI && retrieved != "" && correct {
      config.baseId := AppendAll(config.baseId, values, config.numSI);
      assert values[..config.numSI] == values;
    } else {
      config.baseId := AppendRepeat(config.baseId, DEFAULT_BASE_ID, config.numSI);
    }
  }

  method ReadIssuing(config: Configuration, parameter: string, retrieved: string) returns (status: Status)
    modifies config
    ensures Outcome(config.Snapshot(), status) == Issuing(old(config.Snapshot()), ReaderField(parameter), retrieved)
  {
    var f := ReaderField(parameter);
    var list := ListOf(config.Snapshot(), f);
    var g;
    if config.protocol == "AXI3" || config.protocol == "AXI4LITE" {
      var grown := AppendRepeat(list, 1, config.numMI);
      g := Grown(grown, Ok);
    } else {
      g := ReadPerInterface(list, retrieved, config.numMI, 1, 32, 4);
    }
    StoreList(config, f, g.list);
    status := g.status;
  }

  method ReadSecure(config: Configuration, retrieved: string) returns (status: Status)
    modifies config
    ensures Outcome(config.Snapshot(), status) == Secure(old(config.Snapshot()), retrieved)
  {
    var g := ReadPerInterface(config.secure, retrieved, config.numMI, 0, 1, 0);
    config.secure := g.list;
    status := g.status;
  }

  // ---------------------------------------------------------------------
  // Per-range and per-connection lists
  // ---------------------------------------------------------------------

  /** The default base address of a master's first range. */
  const FIRST_RANGE_BASE_ADDR: string := "0x0000000000100000"

  /** The default base address of a master's other ranges, marking them unused. */
  const UNUSED_RANGE_BASE_ADDR: string := "0xffffffffffffffff"

  /**
   * `read_Range_Base_Addr`: with one value per master and range, each
   * `0x` and exactly sixteen lower-case hexadecimal digits, the values
   * are appended in order; otherwise the default grid is appended, the
   * first range of every master at `FIRST_RANGE_BASE_ADDR` and the others
   * at `UNUSED_RANGE_BASE_ADDR`. The reader never raises here.
   */
  function ReaderRangeBaseAddr(s: Settings, retrieved: string): (t: Settings)
    ensures t.(baseAddr := s.baseAddr) == s
  {
    var words := Split(retrieved);
    if HexWordsWellFormed(words, s.numMI * s.addrRanges, retrieved, 16) then s.(baseAddr := s.baseAddr + words)
    else s.(baseAddr := s.baseAddr + GridDefaults(s.numMI, s.addrRanges, FIRST_RANGE_BASE_ADDR, UNUSED_RANGE_BASE_ADDR))
  }

  /**
   * The reader's range base addresses always grow by one well-formed
   * 64-bit address per master and range: the given values when they all
   * are well-formed, and otherwise the default of each range's column.
   */
  lemma ReaderRangeBaseAddrShape(s: Settings, retrieved: string)
    ensures var t := ReaderRangeBaseAddr(s, retrieved);
      |t.baseAddr| == |s.baseAddr| + s.numMI * s.addrRanges &&
      t.baseAddr[..|s.baseAddr|] == s.baseAddr &&
      forall k :: |s.baseAddr| <= k < |t.baseAddr| ==> IsHexWord(t.baseAddr[k], 16)
    ensures HexWordsWellFormed(Split(retrieved), s.numMI * s.addrRanges, retrieved, 16) ==>
      ReaderRangeBaseAddr(s, retrieved).baseAddr == s.baseAddr + Split(retrieved)
  {
    var t := ReaderRangeBaseAddr(s, retrieved);
    var words := Split(retrieved);
    assert t.baseAddr[..|s.baseAddr|] == s.baseAddr;
    if HexWordsWellFormed(words, s.numMI * s.addrRanges, retrieved, 16) {
      forall k | |s.baseAddr| <= k < |t.baseAddr|
        ensures IsHexWord(t.baseAddr[k], 16)
      {
        assert t.baseAddr[k] == words[k - |s.baseAddr|];
      }
    } else {
      var d := GridDefaults(s.numMI, s.addrRanges, FIRST_RANGE_BASE_ADDR, UNUSED_RANGE_BASE_ADDR);
      assert IsHexWord(FIRST_RANGE_BASE_ADDR, 16) && IsHexWord(UNUSED_RANGE_BASE_ADDR, 16);
      forall k | |s.baseAddr| <= k < |t.baseAddr|
        ensures IsHexWord(t.baseAddr[k], 16)
      {
        assert t.baseAddr[k] == d[k - |s.baseAddr|];
      }
    }
  }

  /** When the values are malformed, range `j` of master `i` gets its column's default. */
  lemma ReaderRangeBaseAddrDefaults(s: Settings, retrieved: string, i: nat, j: nat)
    requires i < s.numMI && j < s.addrRanges
    requires !HexWordsWellFormed(Split(retrieved), s.numMI * s.addrRanges, retrieved, 16)
    ensures var t := ReaderRangeBaseAddr(s, retrieved);
      |s.baseAddr| + s.addrRanges * i + j < |t.baseAddr| &&
      t.baseAddr[|s.baseAddr| + s.addrRanges * i + j] == if j == 0 then FIRST_RANGE_BASE_ADDR else UNUSED_RANGE_BASE_ADDR
  {
    GridDefaultsShape(s.numMI, s.addrRanges, FIRST_RANGE_BASE_ADDR, UNUSED_RANGE_BASE_ADDR, i, j);
  }

  /** Every address the reader accepts is one the property parser accepts. */
  lemma ReaderAddrIsRangeBaseAddr(w: string)
    requires IsHexWord(w, 16)
    ensures IsRangeBaseAddr(w)
  {
  }

  /**
   * The reader and the property parser agree on well-formed 64-bit
   * addresses: both append them. Where the reader falls back on
   * defaults, the parser appends nothing (or raises).
   */
  lemma ReaderAgreesOnWellFormedAddrs(s: Settings, retrieved: string)
    requires HexWordsWellFormed(Split(retrieved), s.numMI * s.addrRanges, retrieved, 16)
    ensures RangeBaseAddr(s, retrieved) == Outcome(ReaderRangeBaseAddr(s, retrieved), Ok)
  {
    var words := Split(retrieved);
    forall k | 0 <= k < |words|
      ensures IsRangeBaseAddr(words[k])
    {
      ReaderAddrIsRangeBaseAddr(words[k]);
    }
    RangeBaseAddrAllOrNothing(s, retrieved);
  }

  method ReadRangeBaseAddr(config: Configuration, retrieved: string)
    modifies config
    ensures config.Snapshot() == ReaderRangeBaseAddr(old(config.Snapshot()), retrieved)
  {
    var values := Values(retrieved);
    var count := config.numMI * config.addrRanges;
    var correct := CheckHexWords(values, count, retrieved, 16);
    if |values| == count && retrieved != "" && correct {
      config.baseAddr := AppendAll(config.baseAddr, values, count);
      assert values[..count] == values;
    } else {
      config.baseAddr := AppendGridDefaults(config.baseAddr, config.numMI, config.addrRanges, FIRST_RANGE_BASE_ADDR, UNUSED_RANGE_BASE_ADDR);
    }
  }

  method ReadRangeWidth(config: Configuration, retrieved: string) returns (status: Status)
    modifies config
    ensures Outcome(config.Snapshot(), status) == RangeAddrWidth(old(config.Snapshot()), retrieved)
  {
    var lo := if config.protocol == "AXI4LITE" then 1 else 12;
    var hi := if config.addrWidth < 64 then config.addrWidth else 64;
    var g := ReadPerGrid(config.rangeAddrWidth, retrieved, config.numMI, config.addrRanges, lo, hi, 12, 0);
    config.rangeAddrWidth := g.list;
    status := g.status;
  }

  method ReadConnectivity(config: Configuration, parameter: string, retrieved: string) returns (status: Status)
    modifies config
    ensures Outcome(config.Snapshot(), status) == Connectivity(old(config.Snapshot()), ReaderField(parameter), retrieved)
  {
    var f := ReaderField(parameter);
    var g := ReadPerGrid(ListOf(config.Snapshot(), f), retrieved, config.numMI, config.numSI, 0, 1, 1, 1);
    StoreList(config, f, g.list);
    status := g.status;
  }
}
