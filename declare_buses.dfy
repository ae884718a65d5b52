// The generator of the bus declaration file of one bus
// (`config/scripts/declare_and_concat_buses_rtl.py`): one AXI (or, for
// the peripheral bus, AXI-Lite) bus declaration per master and per
// slave, then for each side a bus-array declaration and the macro that
// concatenates the declared buses into it, in reverse order.
module DeclareBuses {
  import opened Wrappers
  import opened Builtins
  import opened Configuration
  import opened BusMacros

  const FILE_HEADER: string :=
    "// This file is auto-generated with declare_and_concat_buses_rtl.py\n\n" +
    "/////////////////////////////////////////\n" +
    "// Buses declaration and concatenation //\n" +
    "/////////////////////////////////////////\n"
  const FILE_MASTER_BUSES_HEADER: string := "\n/////////////////\n// AXI Masters //\n/////////////////\n"
  const FILE_SLAVE_BUSES_HEADER: string := "\n/////////////////\n// AXI Slaves  //\n/////////////////\n"
  const FILE_MASTER_CONCAT_HEADER: string :=
    "\n//////////////////////////////////\n// Concatenate AXI master buses //\n//////////////////////////////////\n"
  const FILE_SLAVE_CONCAT_HEADER: string :=
    "\n/////////////////////////////////\n// Concatenate AXI slave buses //\n/////////////////////////////////\n"

  const DECLARE_BUS_PREFIX: string := "`DECLARE_AXI_BUS("
  const DECLARE_BUS_SUFFIX: string := ", LOCAL_DATA_WIDTH, LOCAL_ADDR_WIDTH, LOCAL_ID_WIDTH)\n"
  const DECLARE_AXILITE_BUS_PREFIX: string := "`DECLARE_AXILITE_BUS("
  const DECLARE_BUS_ARRAY_PREFIX: string := "`DECLARE_AXI_BUS_ARRAY("
  const DECLARE_AXILITE_BUS_ARRAY_PREFIX: string := "`DECLARE_AXILITE_BUS_ARRAY("
  const CONCAT_SLAVE_BUS_PREFIX: string := "`CONCAT_AXI_SLAVES_ARRAY"
  const CONCAT_MASTER_BUS_PREFIX: string := "`CONCAT_AXI_MASTERS_ARRAY"
  const CONCAT_AXILITE_SLAVE_BUS_PREFIX: string := "`CONCAT_AXILITE_SLAVES_ARRAY"
  const CONCAT_AXILITE_MASTER_BUS_PREFIX: string := "`CONCAT_AXILITE_MASTERS_ARRAY"
  const BASE_SUFFIX: string := ")\n"

  /** The five section headers of the file. */
  datatype Headers = Headers(file: string, masterBuses: string, slaveBuses: string, masterConcat: string, slaveConcat: string)

  const HEADERS: Headers :=
    Headers(FILE_HEADER, FILE_MASTER_BUSES_HEADER, FILE_SLAVE_BUSES_HEADER, FILE_MASTER_CONCAT_HEADER, FILE_SLAVE_CONCAT_HEADER)

  /**
   * The macros of this generator: every declaration, AXI or AXI-Lite,
   * ends with the AXI parameter list; the master array of the
   * peripheral bus is one bus wide.
   */
  const MACROS: Macros := Macros(
    DECLARE_BUS_PREFIX, DECLARE_BUS_SUFFIX, DECLARE_AXILITE_BUS_PREFIX, DECLARE_BUS_SUFFIX,
    DECLARE_BUS_ARRAY_PREFIX, DECLARE_BUS_SUFFIX, DECLARE_AXILITE_BUS_ARRAY_PREFIX, DECLARE_BUS_SUFFIX,
    "1", "NUM_SI", "PBUS_NUM_MI", "NUM_MI",
    CONCAT_MASTER_BUS_PREFIX, CONCAT_AXILITE_MASTER_BUS_PREFIX, CONCAT_SLAVE_BUS_PREFIX, CONCAT_AXILITE_SLAVE_BUS_PREFIX,
    BASE_SUFFIX)

  /** The bus configuration of a configuration object, named by its CONFIG_NAME. */
  function BusConfigOf(config: Configuration): BusConfig
    reads config
  {
    BusConfig(config.configName, config.numSI, config.numMI, config.masterNames, config.rangeNames)
  }

  /** The lines of the sections of a file, one section after another. */
  function Join(sections: seq<seq<string>>): seq<string>
    decreases |sections|
  {
    if sections == [] then [] else Join(sections[..|sections| - 1]) + sections[|sections| - 1]
  }

  /** Joining one more section appends its lines. */
  lemma JoinSnoc(sections: seq<seq<string>>, last: seq<string>)
    ensures Join(sections + [last]) == Join(sections) + last
  {
    assert (sections + [last])[..|sections|] == sections;
  }

  /** The file: each header followed by the lines of its section. */
  function Assemble(h: Headers, masterDecls: seq<string>, slaveDecls: seq<string>, masterConcat: seq<string>, slaveConcat: seq<string>): seq<string>
  {
    Join([[h.file, h.masterBuses], masterDecls, [h.slaveBuses], slaveDecls, [h.masterConcat], masterConcat, [h.slaveConcat], slaveConcat])
  }

  /** The file as one concatenation of its headers and sections. */
  lemma AssembleFlat(h: Headers, a: seq<string>, b: seq<string>, c: seq<string>, d: seq<string>)
    ensures Assemble(h, a, b, c, d) == [h.file, h.masterBuses] + a + [h.slaveBuses] + b + [h.masterConcat] + c + [h.slaveConcat] + d
  {
    var s0: seq<seq<string>> := [];
    var s1 := s0 + [[h.file, h.masterBuses]];
    var s2 := s1 + [a];
    var s3 := s2 + [[h.slaveBuses]];
    var s4 := s3 + [b];
    var s5 := s4 + [[h.masterConcat]];
    var s6 := s5 + [c];
    var s7 := s6 + [[h.slaveConcat]];
    var s8 := s7 + [d];
    JoinSnoc(s0, [h.file, h.masterBuses]);
    JoinSnoc(s1, a);
    JoinSnoc(s2, [h.slaveBuses]);
    JoinSnoc(s3, b);
    JoinSnoc(s4, [h.masterConcat]);
    JoinSnoc(s5, c);
    JoinSnoc(s6, [h.slaveConcat]);
    JoinSnoc(s7, d);
    assert s8 == [[h.file, h.masterBuses], a, [h.slaveBuses], b, [h.masterConcat], c, [h.slaveConcat], d];
  }

  /** The lines of the file, given the declared master and slave buses. */
  function FileLines(h: Headers, m: Macros, bus: string, masters: seq<string>, slaves: seq<string>): seq<string>
  {
    Assemble(h, DeclareLines(m, bus, masters), DeclareLines(m, bus, slaves), ConcatLines(m, Masters, bus, masters), ConcatLines(m, Slaves, bus, slaves))
  }

  /**
   * `declare_and_concat_buses`: the header, the master and slave
   * declarations, and the master and slave concatenations; `None` for
   * the `IndexError` of a name list shorter than its count.
   */
  function BusesFile(h: Headers, m: Macros, c: BusConfig): Option<seq<string>>
  {
    match BusNames(Masters, c)
    case None => None
    case Some(masters) =>
      match BusNames(Slaves, c)
      case None => None
      case Some(slaves) => Some(FileLines(h, m, c.name, masters, slaves))
  }

  /** An assembled file has five header lines besides its sections. */
  lemma AssembleLength(h: Headers, a: seq<string>, b: seq<string>, c: seq<string>, d: seq<string>)
    ensures |Assemble(h, a, b, c, d)| == |a| + |b| + |c| + |d| + 5
  {
    AssembleFlat(h, a, b, c, d);
  }

  /** Where each section of an assembled file lies. */
  lemma Layout(h: Headers, a: seq<string>, b: seq<string>, c: seq<string>, d: seq<string>)
    ensures var f := Assemble(h, a, b, c, d);
      var n := |a| + |b|;
      |f| == n + |c| + |d| + 5 &&
      f[0] == h.file && f[1] == h.masterBuses && f[2..2 + |a|] == a && f[2 + |a|] == h.slaveBuses && f[3 + |a|..3 + n] == b &&
      f[3 + n] == h.masterConcat && f[4 + n..4 + n + |c|] == c && f[4 + n + |c|] == h.slaveConcat && f[5 + n + |c|..] == d
  {
    var p := [h.file, h.masterBuses] + a;
    var q := p + [h.slaveBuses] + b;
    var r := q + [h.masterConcat] + c;
    var f := r + [h.slaveConcat] + d;
    AssembleFlat(h, a, b, c, d);
    assert p[2..] == a;
    assert q[..|p|] == p && q[|p| + 1..] == b;
    assert r[..|q|] == q && r[|q| + 1..] == c;
    assert f[..|r|] == r && f[|r| + 1..] == d;
  }

  /**
   * The header lines and the concatenation sections of an assembled
   * file with two-line concatenation sections, `na` master declarations
   * and `n` declarations in all.
   */
  lemma AssembleFixedLines(h: Headers, a: seq<string>, b: seq<string>, c: seq<string>, d: seq<string>, na: nat, n: nat)
    requires na == |a| && n == |a| + |b| && |c| == 2
    ensures var f := Assemble(h, a, b, c, d);
      |f| == n + |d| + 7 && f[0] == h.file && f[1] == h.masterBuses && f[2 + na] == h.slaveBuses &&
      f[3 + n] == h.masterConcat && f[4 + n..6 + n] == c && f[6 + n] == h.slaveConcat && f[7 + n..] == d
  {
    Layout(h, a, b, c, d);
  }

  /** The `i`-th master declaration of an assembled file. */
  lemma AssembleMasterAt(h: Headers, a: seq<string>, b: seq<string>, c: seq<string>, d: seq<string>, i: nat)
    requires i < |a|
    ensures 2 + i < |Assemble(h, a, b, c, d)| && Assemble(h, a, b, c, d)[2 + i] == a[i]
  {
    Layout(h, a, b, c, d);
    var f := Assemble(h, a, b, c, d);
    assert f[2 + i] == f[2..2 + |a|][i];
  }

  /** The `j`-th slave declaration of an assembled file. */
  lemma AssembleSlaveAt(h: Headers, a: seq<string>, b: seq<string>, c: seq<string>, d: seq<string>, j: nat, k: nat)
    requires j < |b| && k == 3 + |a| + j
    ensures k < |Assemble(h, a, b, c, d)| && Assemble(h, a, b, c, d)[k] == b[j]
  {
    Layout(h, a, b, c, d);
    var f := Assemble(h, a, b, c, d);
    assert f[k] == f[3 + |a|..3 + |a| + |b|][j];
  }

  /**
   * The file of given buses is nine fixed lines plus one per master and
   * one per slave: the header, the master declarations, the slave
   * header, the slave declarations, then each side's array declaration
   * and concatenation macro under its header.
   */
  lemma FileLinesLayout(h: Headers, m: Macros, bus: string, masters: seq<string>, slaves: seq<string>)
    ensures var f := FileLines(h, m, bus, masters, slaves);
      var n := |masters| + |slaves|;
      |f| == n + 9 && f[0] == h.file && f[1] == h.masterBuses && f[2 + |masters|] == h.slaveBuses &&
      f[3 + n] == h.masterConcat && f[4 + n..6 + n] == ConcatLines(m, Masters, bus, masters) &&
      f[6 + n] == h.slaveConcat && f[7 + n..] == ConcatLines(m, Slaves, bus, slaves)
  {
    var a, b := DeclareLines(m, bus, masters), DeclareLines(m, bus, slaves);
    var c, d := ConcatLines(m, Masters, bus, masters), ConcatLines(m, Slaves, bus, slaves);
    assert |a| == |masters| && |b| == |slaves| && |c| == 2 && |d| == 2;
    assert FileLines(h, m, bus, masters, slaves) == Assemble(h, a, b, c, d);
    AssembleFixedLines(h, a, b, c, d, |masters|, |masters| + |slaves|);
  }

  /** Line `2 + i` of the file declares the bus of master `i`. */
  lemma FileLinesDeclareMasters(h: Headers, m: Macros, bus: string, masters: seq<string>, slaves: seq<string>)
    ensures var f := FileLines(h, m, bus, masters, slaves);
      |f| == |masters| + |slaves| + 9 && forall i :: 0 <= i < |masters| ==> f[2 + i] == DeclareLine(m, bus, masters[i])
  {
    var a, b := DeclareLines(m, bus, masters), DeclareLines(m, bus, slaves);
    var c, d := ConcatLines(m, Masters, bus, masters), ConcatLines(m, Slaves, bus, slaves);
    assert |a| == |masters| && |b| == |slaves| && |c| == 2 && |d| == 2;
    assert FileLines(h, m, bus, masters, slaves) == Assemble(h, a, b, c, d);
    AssembleLength(h, a, b, c, d);
    forall i | 0 <= i < |masters|
      ensures Assemble(h, a, b, c, d)[2 + i] == DeclareLine(m, bus, masters[i])
    {
      AssembleMasterAt(h, a, b, c, d, i);
    }
  }

  /** Line `3 + |masters| + j` of the file declares the bus of slave `j`. */
  lemma FileLinesDeclareSlaves(h: Headers, m: Macros, bus: string, masters: seq<string>, slaves: seq<string>)
    ensures var f := FileLines(h, m, bus, masters, slaves);
      |f| == |masters| + |slaves| + 9 && forall j :: 0 <= j < |slaves| ==> f[3 + |masters| + j] == DeclareLine(m, bus, slaves[j])
  {
    var a, b := DeclareLines(m, bus, masters), DeclareLines(m, bus, slaves);
    var c, d := ConcatLines(m, Masters, bus, masters), ConcatLines(m, Slaves, bus, slaves);
    assert |a| == |masters| && |b| == |slaves| && |c| == 2 && |d| == 2;
    assert FileLines(h, m, bus, masters, slaves) == Assemble(h, a, b, c, d);
    AssembleLength(h, a, b, c, d);
    forall j | 0 <= j < |slaves|
      ensures Assemble(h, a, b, c, d)[3 + |masters| + j] == DeclareLine(m, bus, slaves[j])
    {
      AssembleSlaveAt(h, a, b, c, d, j, 3 + |masters| + j);
    }
  }

  /**
   * The file is produced exactly when both name lists cover their
   * counts, and it is then the file of the declared master and slave
   * buses, one per master and one per slave.
   */
  lemma BusesFileExists(h: Headers, m: Macros, c: BusConfig)
    ensures BusesFile(h, m, c).Some? <==> c.numSI <= |c.masterNames| && c.numMI <= |c.rangeNames|
    ensures BusesFile(h, m, c).Some? ==>
      var masters, slaves := BusNames(Masters, c).value, BusNames(Slaves, c).value;
      |masters| == c.numSI && |slaves| == c.numMI && BusesFile(h, m, c).value == FileLines(h, m, c.name, masters, slaves)
  {
  }

  /** `declare_and_concat_buses`: the lines written to the bus file, or `None` when a name list is too short. */
  method DeclareAndConcatBuses(config: Configuration) returns (file: Option<seq<string>>)
    ensures file == BusesFile(HEADERS, MACROS, BusConfigOf(config))
  {
    file := WriteBusesFile(HEADERS, MACROS, BusConfigOf(config));
  }

  /** The body of `declare_and_concat_buses`, for any headers and macros. */
  method WriteBusesFile(h: Headers, m: Macros, c: BusConfig) returns (file: Option<seq<string>>)
    ensures file == BusesFile(h, m, c)
  {
    var lines := [h.file];
    lines := lines + [h.masterBuses];
    assert lines == [h.file, h.masterBuses];
    var masters := DeclareBusLines(m, lines, Masters, c);
    if masters.None? {
      return None;
    }
    var ms := masters.value.1;
    lines := masters.value.0 + [h.slaveBuses];
    var slaves := DeclareBusLines(m, lines, Slaves, c);
    if slaves.None? {
      return None;
    }
    var ss := slaves.value.1;
    lines := slaves.value.0 + [h.masterConcat];
    lines := ConcatBusLines(m, lines, ms, Masters, c.name);
    lines := lines + [h.slaveConcat];
    lines := ConcatBusLines(m, lines, ss, Slaves, c.name);
    AssembleFlat(h, DeclareLines(m, c.name, ms), DeclareLines(m, c.name, ss), ConcatLines(m, Masters, c.name, ms), ConcatLines(m, Slaves, c.name, ss));
    file := Some(lines);
  }
}
