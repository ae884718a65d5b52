// The bus-declaration rewriter of `config/axi_memory_map/
// declare_and_concat_buses_rtl.py`: it reads an RTL file whose bus
// declarations and concatenations sit between header and trailer
// comments, regenerates the body of each such section from the bus's
// configuration and copies every other line unchanged.
module RewriteBuses {
  import opened Wrappers
  import opened Builtins
  import opened Configuration
  import opened BusMacros

  const DECLARE_MASTERS_HEADER: string := "// AXI Masters //"
  const DECLARE_SLAVES_HEADER: string := "// AXI Slaves  //"
  const CONCAT_MASTERS_HEADER: string := "// Concatenate AXI master buses //"
  const CONCAT_SLAVES_HEADER: string := "// Concatenate AXI slave buses //"
  const DECLARE_MASTERS_TRAILING: string := "// END AXI Masters //"
  const DECLARE_SLAVES_TRAILING: string := "// END AXI Slaves  //"
  const CONCAT_MASTERS_TRAILING: string := "// END Concatenate AXI master buses //"
  const CONCAT_SLAVES_TRAILING: string := "// END Concatenate AXI slave buses //"

  const DECLARE_BUS_PREFIX: string := "\t`DECLARE_AXI_BUS("
  const DECLARE_BUS_SUFFIX: string := ", AXI_DATA_WIDTH);\n"
  const DECLARE_AXILITE_BUS_PREFIX: string := "\t`DECLARE_AXILITE_BUS("
  const DECLARE_AXILITE_BUS_SUFFIX: string := ");\n"
  const DECLARE_BUS_ARRAY_PREFIX: string := "\t`DECLARE_AXI_BUS_ARRAY("
  const DECLARE_BUS_ARRAY_SUFFIX: string := ");\n"
  const DECLARE_AXILITE_BUS_ARRAY_PREFIX: string := "\t`DECLARE_AXILITE_BUS_ARRAY("
  const DECLARE_AXILITE_BUS_ARRAY_SUFFIX: string := ");\n"
  const CONCAT_SLAVE_BUS_PREFIX: string := "\t`CONCAT_AXI_SLAVES_ARRAY"
  const CONCAT_MASTER_BUS_PREFIX: string := "\t`CONCAT_AXI_MASTERS_ARRAY"
  const CONCAT_AXILITE_SLAVE_BUS_PREFIX: string := "\t`CONCAT_AXILITE_SLAVES_ARRAY"
  const CONCAT_AXILITE_MASTER_BUS_PREFIX: string := "\t`CONCAT_AXILITE_MASTERS_ARRAY"
  const CONCAT_BUS_SUFFIX: string := ");\n"

  /** The comments that open and close the four kinds of section. */
  datatype Markers = Markers(
    declareMasters: string, declareSlaves: string, concatMasters: string, concatSlaves: string,
    declareMastersEnd: string, declareSlavesEnd: string, concatMastersEnd: string, concatSlavesEnd: string)

  const MARKERS: Markers := Markers(
    DECLARE_MASTERS_HEADER, DECLARE_SLAVES_HEADER, CONCAT_MASTERS_HEADER, CONCAT_SLAVES_HEADER,
    DECLARE_MASTERS_TRAILING, DECLARE_SLAVES_TRAILING, CONCAT_MASTERS_TRAILING, CONCAT_SLAVES_TRAILING)

  /**
   * The macros of this generator: every macro call is a tab-indented
   * statement; the master array of the peripheral bus is PBUS_NUM_SI wide.
   */
  const MACROS: Macros := Macros(
    DECLARE_BUS_PREFIX, DECLARE_BUS_SUFFIX, DECLARE_AXILITE_BUS_PREFIX, DECLARE_AXILITE_BUS_SUFFIX,
    DECLARE_BUS_ARRAY_PREFIX, DECLARE_BUS_ARRAY_SUFFIX, DECLARE_AXILITE_BUS_ARRAY_PREFIX, DECLARE_AXILITE_BUS_ARRAY_SUFFIX,
    "PBUS_NUM_SI", "NUM_SI", "PBUS_NUM_MI", "NUM_MI",
    CONCAT_MASTER_BUS_PREFIX, CONCAT_AXILITE_MASTER_BUS_PREFIX, CONCAT_SLAVE_BUS_PREFIX, CONCAT_AXILITE_SLAVE_BUS_PREFIX,
    CONCAT_BUS_SUFFIX)

  /** The bus configuration of a configuration object, named by the BUS_NAME its file name gave it. */
  function BusConfigOf(config: Configuration): BusConfig
    reads config
  {
    BusConfig(config.busName, config.numSI, config.numMI, config.masterNames, config.rangeNames)
  }

  /** The kinds of section. */
  datatype Section = DeclareSection(role: Role) | ConcatSection(role: Role)

  /** The section a line opens, testing the headers in the order declare masters, declare slaves, concat masters, concat slaves. */
  function SectionOf(mk: Markers, line: string): (s: Option<Section>)
    ensures s.None? <==> (!Contains(line, mk.declareMasters) && !Contains(line, mk.declareSlaves) &&
      !Contains(line, mk.concatMasters) && !Contains(line, mk.concatSlaves))
  {
    if Contains(line, mk.declareMasters) then Some(DeclareSection(Masters))
    else if Contains(line, mk.declareSlaves) then Some(DeclareSection(Slaves))
    else if Contains(line, mk.concatMasters) then Some(ConcatSection(Masters))
    else if Contains(line, mk.concatSlaves) then Some(ConcatSection(Slaves))
    else None
  }

  /** The trailer that closes a section. */
  function Trailer(mk: Markers, s: Section): string
  {
    match s
    case DeclareSection(Masters) => mk.declareMastersEnd
    case DeclareSection(Slaves) => mk.declareSlavesEnd
    case ConcatSection(Masters) => mk.concatMastersEnd
    case ConcatSection(Slaves) => mk.concatSlavesEnd
  }

  /** The index of the first line from `j` on that contains `pattern`, or `None` (the scan's `IndexError`). */
  function FindTrailing(pattern: string, lines: seq<string>, j: nat): (k: Option<nat>)
    requires j <= |lines|
    ensures k.Some? ==> j <= k.value < |lines| && Contains(lines[k.value], pattern)
    ensures k.Some? ==> forall l :: j <= l < k.value ==> !Contains(lines[l], pattern)
    ensures k.None? ==> forall l :: j <= l < |lines| ==> !Contains(lines[l], pattern)
    decreases |lines| - j
  {
    if j == |lines| then None
    else if Contains(lines[j], pattern) then Some(j)
    else FindTrailing(pattern, lines, j + 1)
  }

  /** `prefix` in front of the rest of the output, unless that raised. */
  function Prepend(prefix: seq<string>, rest: Option<seq<string>>): (r: Option<seq<string>>)
    ensures r.Some? <==> rest.Some?
  {
    if rest.None? then None else Some(prefix + rest.value)
  }

  lemma PrependNothing(rest: Option<seq<string>>)
    ensures Prepend([], rest) == rest
  {
    if rest.Some? {
      assert [] + rest.value == rest.value;
    }
  }

  lemma PrependTwice(a: seq<string>, b: seq<string>, rest: Option<seq<string>>)
    ensures Prepend(a, Prepend(b, rest)) == Prepend(a + b, rest)
  {
    if rest.Some? {
      assert a + (b + rest.value) == a + b + rest.value;
    }
  }

  /**
   * The output from line `i` on, given the master and slave buses
   * declared so far, or `None` for an `IndexError`: a section whose
   * header is too close to the end of the file, whose trailer is
   * missing, or a declaration with fewer names than buses. A declare
   * section keeps its header and the two lines after it, a concat
   * section its header and the line after it; then come the generated
   * lines, the trailer, and the rest of the file; the old body is dropped.
   */
  function RewriteFrom(mk: Markers, m: Macros, c: BusConfig, lines: seq<string>, i: nat, masters: seq<string>, slaves: seq<string>): Option<seq<string>>
    requires i <= |lines|
    decreases |lines| - i
  {
    if i == |lines| then Some([])
    else match SectionOf(mk, lines[i])
      case None => Prepend([lines[i]], RewriteFrom(mk, m, c, lines, i + 1, masters, slaves))
      case Some(DeclareSection(role)) =>
        if i + 3 > |lines| || BusNames(role, c).None? then None
        else
          var buses := BusNames(role, c).value;
          var k := FindTrailing(Trailer(mk, DeclareSection(role)), lines, i + 3);
          if k.None? then None
          else Prepend(lines[i..i + 3] + DeclareLines(m, c.name, buses) + [lines[k.value]],
            RewriteFrom(mk, m, c, lines, k.value + 1, if role.Masters? then buses else masters, if role.Slaves? then buses else slaves))
      case Some(ConcatSection(role)) =>
        if i + 2 > |lines| then None
        else
          var k := FindTrailing(Trailer(mk, ConcatSection(role)), lines, i + 2);
          if k.None? then None
          else Prepend(lines[i..i + 2] + ConcatLines(m, role, c.name, if role.Masters? then masters else slaves) + [lines[k.value]],
            RewriteFrom(mk, m, c, lines, k.value + 1, masters, slaves))
  }

  /** The rewritten lines of a file; no bus is declared before the first declare section. */
  function Rewrite(mk: Markers, m: Macros, c: BusConfig, lines: seq<string>): Option<seq<string>>
  {
    RewriteFrom(mk, m, c, lines, 0, [], [])
  }

  /** The buses each side has after a section: a declare section replaces its side's list. */
  function MastersAfter(s: Section, buses: seq<string>, masters: seq<string>): seq<string>
  {
    if s == DeclareSection(Masters) then buses else masters
  }

  function SlavesAfter(s: Section, buses: seq<string>, slaves: seq<string>): seq<string>
  {
    if s == DeclareSection(Slaves) then buses else slaves
  }

  /** How many lines a section keeps before its generated lines: the header and two lines, or the header and one. */
  function Kept(s: Section): nat
  {
    if s.DeclareSection? then 3 else 2
  }

  /** The lines a section generates, or `None` when a name list is too short. */
  function Generated(m: Macros, c: BusConfig, s: Section, masters: seq<string>, slaves: seq<string>): Option<seq<string>>
  {
    match s
    case DeclareSection(role) => if BusNames(role, c).None? then None else Some(DeclareLines(m, c.name, BusNames(role, c).value))
    case ConcatSection(role) => Some(ConcatLines(m, role, c.name, if role.Masters? then masters else slaves))
  }

  /** The buses declared by a section, or none for a concat section. */
  function Declared(c: BusConfig, s: Section): seq<string>
  {
    if s.DeclareSection? && BusNames(s.role, c).Some? then BusNames(s.role, c).value else []
  }

  /** One section of the file, from its header at `i` to its trailer at `k`. */
  lemma SectionStep(mk: Markers, m: Macros, c: BusConfig, lines: seq<string>, i: nat, k: nat, masters: seq<string>, slaves: seq<string>)
    requires i < |lines| && SectionOf(mk, lines[i]).Some?
    requires var s := SectionOf(mk, lines[i]).value;
      i + Kept(s) <= |lines| && FindTrailing(Trailer(mk, s), lines, i + Kept(s)) == Some(k)
    requires Generated(m, c, SectionOf(mk, lines[i]).value, masters, slaves).Some?
    ensures var s := SectionOf(mk, lines[i]).value;
      var buses := Declared(c, s);
      RewriteFrom(mk, m, c, lines, i, masters, slaves) ==
      Prepend(lines[i..i + Kept(s)] + Generated(m, c, s, masters, slaves).value + [lines[k]],
        RewriteFrom(mk, m, c, lines, k + 1, MastersAfter(s, buses, masters), SlavesAfter(s, buses, slaves)))
  {
    match SectionOf(mk, lines[i]).value
    case DeclareSection(role) =>
      DeclareStep(mk, m, c, lines, i, k, masters, slaves, role);
    case ConcatSection(role) =>
      ConcatStep(mk, m, c, lines, i, k, masters, slaves, role);
  }

  /** A declare section: its kept lines, its side's declarations and its trailer; its side's buses are replaced. */
  lemma DeclareStep(mk: Markers, m: Macros, c: BusConfig, lines: seq<string>, i: nat, k: nat, masters: seq<string>, slaves: seq<string>, role: Role)
    requires i + 3 <= |lines| && SectionOf(mk, lines[i]) == Some(DeclareSection(role))
    requires FindTrailing(Trailer(mk, DeclareSection(role)), lines, i + 3) == Some(k) && BusNames(role, c).Some?
    ensures var buses := BusNames(role, c).value;
      RewriteFrom(mk, m, c, lines, i, masters, slaves) ==
      Prepend(lines[i..i + 3] + DeclareLines(m, c.name, buses) + [lines[k]],
        RewriteFrom(mk, m, c, lines, k + 1, if role.Masters? then buses else masters, if role.Slaves? then buses else slaves))
  {
  }

  /** A concat section: its kept lines, its side's array and concatenation and its trailer. */
  lemma ConcatStep(mk: Markers, m: Macros, c: BusConfig, lines: seq<string>, i: nat, k: nat, masters: seq<string>, slaves: seq<string>, role: Role)
    requires i + 2 <= |lines| && SectionOf(mk, lines[i]) == Some(ConcatSection(role))
    requires FindTrailing(Trailer(mk, ConcatSection(role)), lines, i + 2) == Some(k)
    ensures RewriteFrom(mk, m, c, lines, i, masters, slaves) ==
      Prepend(lines[i..i + 2] + ConcatLines(m, role, c.name, if role.Masters? then masters else slaves) + [lines[k]],
        RewriteFrom(mk, m, c, lines, k + 1, masters, slaves))
  {
  }

  /** A section raises `IndexError` when its header is too close to the end, its trailer is missing or a name list is short. */
  lemma SectionFails(mk: Markers, m: Macros, c: BusConfig, lines: seq<string>, i: nat, masters: seq<string>, slaves: seq<string>)
    requires i < |lines| && SectionOf(mk, lines[i]).Some?
    requires var s := SectionOf(mk, lines[i]).value;
      i + Kept(s) > |lines| || Generated(m, c, s, masters, slaves).None? || FindTrailing(Trailer(mk, s), lines, i + Kept(s)).None?
    ensures RewriteFrom(mk, m, c, lines, i, masters, slaves).None?
  {
  }

  /** A line that opens no section is copied. */
  lemma PlainStep(mk: Markers, m: Macros, c: BusConfig, lines: seq<string>, i: nat, masters: seq<string>, slaves: seq<string>)
    requires i < |lines| && SectionOf(mk, lines[i]).None?
    ensures RewriteFrom(mk, m, c, lines, i, masters, slaves) == Prepend([lines[i]], RewriteFrom(mk, m, c, lines, i + 1, masters, slaves))
  {
  }

  /** A line that opens no section. */
  predicate Plain(mk: Markers, line: string)
  {
    SectionOf(mk, line).None?
  }

  /** Lines that open no section are copied unchanged and in order. */
  lemma {:induction false} PlainLinesCopied(mk: Markers, m: Macros, c: BusConfig, lines: seq<string>, i: nat, j: nat, masters: seq<string>, slaves: seq<string>)
    requires i <= j <= |lines|
    requires forall l :: i <= l < j ==> Plain(mk, lines[l])
    ensures RewriteFrom(mk, m, c, lines, i, masters, slaves) == Prepend(lines[i..j], RewriteFrom(mk, m, c, lines, j, masters, slaves))
    decreases j - i
  {
    if i == j {
      assert lines[i..j] == [];
      PrependNothing(RewriteFrom(mk, m, c, lines, j, masters, slaves));
    } else {
      PlainStep(mk, m, c, lines, i, masters, slaves);
      PlainLinesCopied(mk, m, c, lines, i + 1, j, masters, slaves);
      PrependTwice([lines[i]], lines[i + 1..j], RewriteFrom(mk, m, c, lines, j, masters, slaves));
      SliceCons(lines, i, j);
    }
  }

  lemma SliceCons(lines: seq<string>, i: nat, j: nat)
    requires i < j <= |lines|
    ensures [lines[i]] + lines[i + 1..j] == lines[i..j]
  {
  }

  /** A file in which no line opens a section comes out unchanged. */
  lemma NoSectionUnchanged(mk: Markers, m: Macros, c: BusConfig, lines: seq<string>)
    requires forall l :: 0 <= l < |lines| ==> Plain(mk, lines[l])
    ensures Rewrite(mk, m, c, lines) == Some(lines)
  {
    PlainLinesCopied(mk, m, c, lines, 0, |lines|, [], []);
    assert lines[0..|lines|] == lines && lines + [] == lines;
  }

  /** Reassembling the output around one section. */
  lemma Splice(lines: seq<string>, i: nat, n: nat, t: nat, generated: seq<string>)
    requires i + n <= t < |lines|
    ensures lines[0..i] + (lines[i..i + n] + generated + [lines[t]] + (lines[t + 1..|lines|] + [])) == lines[..i + n] + generated + lines[t..]
  {
    assert lines[t..] == [lines[t]] + lines[t + 1..|lines|];
    assert lines[..i + n] == lines[0..i] + lines[i..i + n];
  }

  /**
   * A file with one section, opened at line `i` and closed at line `t`,
   * and no section header elsewhere: everything up to the section's
   * kept lines (its header and the two lines after a declare header,
   * or the one line after a concat header) is copied, the generated
   * lines replace the old body, and the trailer and everything after it
   * are copied. No bus has been declared before the section, so a
   * concat section concatenates no buses.
   */
  lemma OneSectionRewritten(mk: Markers, m: Macros, c: BusConfig, lines: seq<string>, i: nat, t: nat)
    requires i < |lines| && SectionOf(mk, lines[i]).Some?
    requires var s := SectionOf(mk, lines[i]).value;
      i + Kept(s) <= t < |lines| && Contains(lines[t], Trailer(mk, s)) &&
      (forall l :: i + Kept(s) <= l < t ==> !Contains(lines[l], Trailer(mk, s)))
    requires forall l :: 0 <= l < i ==> Plain(mk, lines[l])
    requires forall l :: t < l < |lines| ==> Plain(mk, lines[l])
    requires Generated(m, c, SectionOf(mk, lines[i]).value, [], []).Some?
    ensures var s := SectionOf(mk, lines[i]).value;
      Rewrite(mk, m, c, lines) == Some(lines[..i + Kept(s)] + Generated(m, c, s, [], []).value + lines[t..])
    ensures var s := SectionOf(mk, lines[i]).value;
      s.ConcatSection? ==> Rewrite(mk, m, c, lines) == Some(lines[..i + 2] + ConcatLines(m, s.role, c.name, []) + lines[t..])
  {
    var s := SectionOf(mk, lines[i]).value;
    var generated := Generated(m, c, s, [], []).value;
    var buses := Declared(c, s);
    var ms, ss := MastersAfter(s, buses, []), SlavesAfter(s, buses, []);
    PlainLinesCopied(mk, m, c, lines, 0, i, [], []);
    SkipToTrailer(Trailer(mk, s), lines, i + Kept(s), t);
    SectionStep(mk, m, c, lines, i, t, [], []);
    PlainLinesCopied(mk, m, c, lines, t + 1, |lines|, ms, ss);
    assert RewriteFrom(mk, m, c, lines, |lines|, ms, ss) == Some([]);
    Splice(lines, i, Kept(s), t, generated);
  }

  /** The scan for a trailer stops at the first line that holds it. */
  lemma SkipToTrailer(pattern: string, lines: seq<string>, j: nat, t: nat)
    requires j <= t < |lines| && Contains(lines[t], pattern)
    requires forall l :: j <= l < t ==> !Contains(lines[l], pattern)
    ensures FindTrailing(pattern, lines, j) == Some(t)
  {
    var k := FindTrailing(pattern, lines, j);
  }

  /** The scan for a section's trailer: the first line from `j` on that holds it, or `None` for the `IndexError` past the end. */
  method ScanTrailer(pattern: string, lines: seq<string>, j: nat) returns (k: Option<nat>)
    requires j <= |lines|
    ensures k == FindTrailing(pattern, lines, j)
  {
    var i := j;
    while i < |lines| && !Contains(lines[i], pattern)
      invariant j <= i <= |lines|
      invariant FindTrailing(pattern, lines, j) == FindTrailing(pattern, lines, i)
      decreases |lines| - i
    {
      i := i + 1;
    }
    if i == |lines| {
      return None;
    }
    k := Some(i);
  }

  /**
   * The lines a section writes after the lines it keeps: the
   * declarations of its side's buses (`declare_master_buses`,
   * `declare_slave_buses`), or the array and concatenation of the buses
   * declared so far (`concat_master_buses`, `concat_slave_buses`); with
   * the buses a declare section declares.
   */
  method GenerateSection(m: Macros, c: BusConfig, kept: seq<string>, s: Section, masters: seq<string>, slaves: seq<string>)
    returns (result: Option<(seq<string>, seq<string>)>)
    ensures result.None? <==> Generated(m, c, s, masters, slaves).None?
    ensures result.Some? ==> result.value.0 == kept + Generated(m, c, s, masters, slaves).value
    ensures result.Some? ==> result.value.1 == Declared(c, s)
  {
    if s.DeclareSection? {
      var declared := DeclareBusLines(m, kept, s.role, c);
      if declared.None? {
        return None;
      }
      result := Some(declared.value);
    } else {
      var generated := ConcatBusLines(m, kept, if s.role.Masters? then masters else slaves, s.role, c.name);
      result := Some((generated, []));
    }
  }

  /**
   * One section of `declare_and_concat_buses`, from its header at `i`:
   * the lines it writes, the index after its trailer and the master and
   * slave buses declared so far, or `None` when it raises `IndexError`.
   */
  method RewriteSection(mk: Markers, m: Macros, c: BusConfig, lines: seq<string>, i: nat, masters: seq<string>, slaves: seq<string>)
    returns (result: Option<(seq<string>, nat, seq<string>, seq<string>)>)
    requires i < |lines| && SectionOf(mk, lines[i]).Some?
    ensures result.None? ==> RewriteFrom(mk, m, c, lines, i, masters, slaves).None?
    ensures result.Some? ==> i < result.value.1 <= |lines|
    ensures result.Some? ==> var (written, next, ms, ss) := result.value;
      RewriteFrom(mk, m, c, lines, i, masters, slaves) == Prepend(written, RewriteFrom(mk, m, c, lines, next, ms, ss))
  {
    var s := SectionOf(mk, lines[i]).value;
    var n := if s.DeclareSection? then 3 else 2;
    if i + n > |lines| {
      SectionFails(mk, m, c, lines, i, masters, slaves);
      return None;
    }
    var generated := GenerateSection(m, c, lines[i..i + n], s, masters, slaves);
    if generated.None? {
      SectionFails(mk, m, c, lines, i, masters, slaves);
      return None;
    }
    var k := ScanTrailer(Trailer(mk, s), lines, i + n);
    if k.None? {
      SectionFails(mk, m, c, lines, i, masters, slaves);
      return None;
    }
    SectionStep(mk, m, c, lines, i, k.value, masters, slaves);
    var buses := generated.value.1;
    var written := generated.value.0 + [lines[k.value]];
    assert n == Kept(s) && buses == Declared(c, s);
    assert written == lines[i..i + Kept(s)] + Generated(m, c, s, masters, slaves).value + [lines[k.value]];
    result := Some((written, k.value + 1, MastersAfter(s, buses, masters), SlavesAfter(s, buses, slaves)));
  }

  /**
   * The line loop of `declare_and_concat_buses`, for any markers and
   * macros: the rewritten lines, or `None` when it raises `IndexError`.
   */
  method RewriteSections(mk: Markers, m: Macros, c: BusConfig, lines: seq<string>) returns (result: Option<seq<string>>)
    ensures result == Rewrite(mk, m, c, lines)
  {
    var newLines: seq<string> := [];
    var masters: seq<string> := [];
    var slaves: seq<string> := [];
    var i := 0;
    PrependNothing(Rewrite(mk, m, c, lines));
    while i < |lines|
      invariant i <= |lines|
      invariant Rewrite(mk, m, c, lines) == Prepend(newLines, RewriteFrom(mk, m, c, lines, i, masters, slaves))
      decreases |lines| - i
    {
      if SectionOf(mk, lines[i]).None? {
        PlainStep(mk, m, c, lines, i, masters, slaves);
        PrependTwice(newLines, [lines[i]], RewriteFrom(mk, m, c, lines, i + 1, masters, slaves));
        newLines := newLines + [lines[i]];
        i := i + 1;
      } else {
        var section := RewriteSection(mk, m, c, lines, i, masters, slaves);
        if section.None? {
          return None;
        }
        var (written, next, ms, ss) := section.value;
        PrependTwice(newLines, written, RewriteFrom(mk, m, c, lines, next, ms, ss));
        newLines := newLines + written;
        i, masters, slaves := next, ms, ss;
      }
    }
    assert newLines + [] == newLines;
    result := Some(newLines);
  }

  /** The length of the first line of `s`, up to and including its newline. */
  function LineLength(s: string): (n: nat)
    requires s != []
    ensures 1 <= n <= |s|
    ensures forall j :: 0 <= j < n - 1 ==> s[j] != '\n'
    ensures n < |s| ==> s[n - 1] == '\n'
  {
    if s[0] == '\n' || |s| == 1 then 1 else 1 + LineLength(s[1..])
  }

  /** Lines as a file stores them: each ends with its only newline, except that the last may have none. */
  predicate WellFormedLines(lines: seq<string>)
  {
    forall k :: 0 <= k < |lines| ==>
      lines[k] != [] && NewlineOnlyAtEnd(lines[k]) && (k < |lines| - 1 ==> lines[k][|lines[k]| - 1] == '\n')
  }

  predicate NewlineOnlyAtEnd(line: string)
  {
    forall j :: 0 <= j < |line| - 1 ==> line[j] != '\n'
  }

  /** `readlines()`: the text cut after every newline; joined, the lines are the text again. */
  function ReadLines(s: string): (lines: seq<string>)
    ensures Concat(lines) == s
    ensures WellFormedLines(lines)
    decreases |s|
  {
    if s == [] then []
    else
      var n := LineLength(s);
      assert s == s[..n] + s[n..];
      [s[..n]] + ReadLines(s[n..])
  }

  /** Reading back well-formed lines after writing them gives the same lines. */
  lemma {:induction false} ReadLinesOfConcat(lines: seq<string>)
    requires WellFormedLines(lines)
    ensures ReadLines(Concat(lines)) == lines
    decreases |lines|
  {
    if lines != [] {
      var s := Concat(lines);
      var first := lines[0];
      assert s == first + Concat(lines[1..]);
      assert WellFormedLines(lines[1..]) by {
        forall k | 0 <= k < |lines[1..]|
          ensures lines[1..][k] == lines[k + 1]
        {
        }
      }
      FirstLineLength(first, Concat(lines[1..]), |lines| == 1);
      assert s[..|first|] == first && s[|first|..] == Concat(lines[1..]);
      ReadLinesOfConcat(lines[1..]);
    }
  }

  lemma FirstLineLength(first: string, rest: string, last: bool)
    requires first != [] && NewlineOnlyAtEnd(first)
    requires !last ==> first[|first| - 1] == '\n'
    requires last ==> rest == []
    ensures LineLength(first + rest) == |first|
  {
    var s := first + rest;
    assert forall j :: 0 <= j < |first| ==> s[j] == first[j];
    assert s[|first| - 1] == first[|first| - 1];
  }

  /**
   * What `seek(0)` and `writelines` leave in a file opened with "r+",
   * which is not truncated: the text written, and after it whatever of
   * the old text lay beyond its end.
   */
  function WrittenFile(previous: string, written: string): (file: string)
    ensures |file| == if |written| < |previous| then |previous| else |written|
    ensures file[..|written|] == written
    ensures |written| < |previous| ==> file[|written|..] == previous[|written|..]
  {
    if |written| < |previous| then written + previous[|written|..] else written
  }

  /** When the new text is shorter than the old one, the old tail survives after it. */
  lemma StaleTailSurvives(previous: string, written: string)
    requires |written| < |previous|
    ensures WrittenFile(previous, written) != written
    ensures ReadLines(WrittenFile(previous, written)) != ReadLines(written)
  {
    assert |WrittenFile(previous, written)| != |written|;
    assert Concat(ReadLines(WrittenFile(previous, written))) != Concat(ReadLines(written));
  }

  /** Joining is compatible with splitting a list of lines in two. */
  lemma {:induction false} ConcatAppend(a: seq<string>, b: seq<string>)
    ensures Concat(a + b) == Concat(a) + Concat(b)
    decreases |a|
  {
    if a == [] {
      assert a + b == b;
    } else {
      assert (a + b)[1..] == a[1..] + b;
      ConcatAppend(a[1..], b);
    }
  }

  /** The text of a file cut into three runs of lines. */
  lemma ConcatThree(a: seq<string>, b: seq<string>, d: seq<string>)
    ensures |Concat(a + b + d)| == |Concat(a)| + |Concat(b)| + |Concat(d)|
  {
    ConcatAppend(a + b, d);
    ConcatAppend(a, b);
  }

  /**
   * A file with one section whose generated text is shorter than the
   * body it replaces: the rewritten text is shorter than the file, so
   * the file left behind is not the rewritten text but keeps a stale
   * tail of the old one.
   */
  lemma ShrinkingSectionLeavesStaleTail(mk: Markers, m: Macros, c: BusConfig, lines: seq<string>, i: nat, t: nat)
    requires i < |lines| && SectionOf(mk, lines[i]).Some?
    requires var s := SectionOf(mk, lines[i]).value;
      i + Kept(s) <= t < |lines| && Contains(lines[t], Trailer(mk, s)) &&
      (forall l :: i + Kept(s) <= l < t ==> !Contains(lines[l], Trailer(mk, s)))
    requires forall l :: 0 <= l < i ==> Plain(mk, lines[l])
    requires forall l :: t < l < |lines| ==> Plain(mk, lines[l])
    requires var s := SectionOf(mk, lines[i]).value;
      Generated(m, c, s, [], []).Some? && |Concat(Generated(m, c, s, [], []).value)| < |Concat(lines[i + Kept(s)..t])|
    ensures var rewritten := Rewrite(mk, m, c, lines);
      rewritten.Some? && WrittenFile(Concat(lines), Concat(rewritten.value)) != Concat(rewritten.value)
  {
    var s := SectionOf(mk, lines[i]).value;
    var generated := Generated(m, c, s, [], []).value;
    OneSectionRewritten(mk, m, c, lines, i, t);
    ShorterBodyShorterText(lines, i + Kept(s), t, generated);
  }

  /** Replacing the lines from `j` up to `t` by lines of shorter text shortens the text, so a stale tail survives. */
  lemma ShorterBodyShorterText(lines: seq<string>, j: nat, t: nat, generated: seq<string>)
    requires j <= t <= |lines| && |Concat(generated)| < |Concat(lines[j..t])|
    ensures var out := lines[..j] + generated + lines[t..];
      |Concat(out)| < |Concat(lines)| && WrittenFile(Concat(lines), Concat(out)) != Concat(out)
  {
    var head, body, tail := lines[..j], lines[j..t], lines[t..];
    assert lines == head + body + tail;
    ConcatThree(head, body, tail);
    ConcatThree(head, generated, tail);
    StaleTailSurvives(Concat(lines), Concat(head + generated + tail));
  }

  /** A file truncated after it is written (`truncate()` at the position `writelines` reached) holds the text written and nothing else. */
  function TruncatedFile(previous: string, written: string): (file: string)
    ensures file == written
  {
    WrittenFile(previous, written)[..|written|]
  }

  // ---------------------------------------------------------------------
  // The rewritten lines are lines a file can hold
  // ---------------------------------------------------------------------

  /** Text without a newline in it. */
  predicate OneLine(s: string)
  {
    '\n' !in s
  }

  /** A line that ends with its only newline. */
  predicate CompleteLine(line: string)
  {
    line != [] && NewlineOnlyAtEnd(line) && line[|line| - 1] == '\n'
  }

  /** Text without a newline, then a complete line, is a complete line. */
  lemma CompleteAfter(a: string, s: string)
    requires OneLine(a) && CompleteLine(s)
    ensures CompleteLine(a + s)
  {
    var line := a + s;
    forall j | 0 <= j < |line| - 1
      ensures line[j] != '\n'
    {
      if j < |a| {
        assert line[j] == a[j] && a[j] in a;
      } else {
        assert line[j] == s[j - |a|];
      }
    }
    assert line[|line| - 1] == s[|s| - 1];
  }

  /** Macros whose prefixes and widths hold no newline and whose suffixes end a line. */
  predicate LineMacros(m: Macros)
  {
    OneLine(m.declareAxi) && OneLine(m.declareAxilite) && OneLine(m.arrayAxi) && OneLine(m.arrayAxilite) &&
    OneLine(m.pbusMasterWidth) && OneLine(m.masterWidth) && OneLine(m.pbusSlaveWidth) && OneLine(m.slaveWidth) &&
    OneLine(m.concatMastersAxi) && OneLine(m.concatMastersAxilite) && OneLine(m.concatSlavesAxi) && OneLine(m.concatSlavesAxilite) &&
    CompleteLine(m.declareAxiSuffix) && CompleteLine(m.declareAxiliteSuffix) &&
    CompleteLine(m.arrayAxiSuffix) && CompleteLine(m.arrayAxiliteSuffix) && CompleteLine(m.concatSuffix)
  }

  /** The closing of a macro call ends its line. */
  lemma SuffixesEndLines()
    ensures CompleteLine(");\n") && CompleteLine(", AXI_DATA_WIDTH);\n")
  {
    assert forall j :: 0 <= j < 2 ==> ");\n"[j] != '\n';
    assert forall j :: 0 <= j < 17 ==> ", AXI_DATA_WIDTH);\n"[j] != '\n';
  }

  lemma DeclarePrefixesOneLine()
    ensures OneLine(DECLARE_BUS_PREFIX) && OneLine(DECLARE_AXILITE_BUS_PREFIX)
    ensures OneLine(DECLARE_BUS_ARRAY_PREFIX) && OneLine(DECLARE_AXILITE_BUS_ARRAY_PREFIX)
  {
  }

  lemma ConcatPrefixesOneLine()
    ensures OneLine(CONCAT_MASTER_BUS_PREFIX) && OneLine(CONCAT_AXILITE_MASTER_BUS_PREFIX)
    ensures OneLine(CONCAT_SLAVE_BUS_PREFIX) && OneLine(CONCAT_AXILITE_SLAVE_BUS_PREFIX)
  {
  }

  /** The macros of this generator end every line they write. */
  lemma MacrosEndLines()
    ensures LineMacros(MACROS)
  {
    SuffixesEndLines();
    DeclarePrefixesOneLine();
    ConcatPrefixesOneLine();
  }

  /** The names a bus's lines are built from hold no newline. */
  predicate OneLineNames(c: BusConfig)
  {
    OneLine(c.name) && (forall p :: p in c.masterNames ==> OneLine(p)) && (forall p :: p in c.rangeNames ==> OneLine(p))
  }

  predicate OneLineAll(buses: seq<string>)
  {
    forall b :: b in buses ==> OneLine(b)
  }

  lemma BusNamesOneLine(role: Role, c: BusConfig)
    requires OneLineNames(c) && BusNames(role, c).Some?
    ensures OneLineAll(BusNames(role, c).value)
  {
    var buses := BusNames(role, c).value;
    forall b | b in buses
      ensures OneLine(b)
    {
      var i :| 0 <= i < |buses| && buses[i] == b;
      assert Peers(role, c)[i] in Peers(role, c);
    }
  }

  lemma DigitsOneLine(s: string)
    requires AllDigits(s, 10)
    ensures OneLine(s)
  {
  }

  lemma {:induction false} ListedLastFirstOneLine(buses: seq<string>)
    requires OneLineAll(buses)
    ensures OneLine(ListedLastFirst(buses))
  {
    if buses != [] {
      assert buses[|buses| - 1] in buses;
      assert forall b :: b in buses[..|buses| - 1] ==> b in buses;
      ListedLastFirstOneLine(buses[..|buses| - 1]);
    }
  }

  lemma DeclareLineComplete(m: Macros, bus: string, name: string)
    requires LineMacros(m) && OneLine(name)
    ensures CompleteLine(DeclareLine(m, bus, name))
  {
    CompleteAfter(DeclarePrefix(m, bus) + name, DeclareSuffix(m, bus));
  }

  lemma ConcatLinesComplete(m: Macros, role: Role, bus: string, buses: seq<string>)
    requires LineMacros(m) && OneLine(bus) && OneLineAll(buses)
    ensures CompleteLine(ConcatLines(m, role, bus, buses)[0]) && CompleteLine(ConcatLines(m, role, bus, buses)[1])
  {
    var arr := ArrayName(role, bus);
    var width := ArrayWidth(m, role, bus);
    assert OneLine(arr);
    if IsLite(bus) {
      CompleteAfter(m.arrayAxilite + arr + ", " + width, m.arrayAxiliteSuffix);
    } else {
      CompleteAfter(m.arrayAxi + arr + ", " + width, m.arrayAxiSuffix);
    }
    DigitsOneLine(NatToString(|buses|));
    ListedLastFirstOneLine(buses);
    CompleteAfter("(" + arr + ListedLastFirst(buses), m.concatSuffix);
    CompleteAfter(ConcatPrefix(m, role, bus) + NatToString(|buses|), ConcatArgs(m, role, bus, buses));
  }

  /** Every line a section generates is a complete line. */
  lemma GeneratedComplete(m: Macros, c: BusConfig, s: Section, masters: seq<string>, slaves: seq<string>)
    requires LineMacros(m) && OneLineNames(c) && OneLineAll(masters) && OneLineAll(slaves)
    requires Generated(m, c, s, masters, slaves).Some?
    ensures forall j :: 0 <= j < |Generated(m, c, s, masters, slaves).value| ==>
      CompleteLine(Generated(m, c, s, masters, slaves).value[j])
  {
    match s
    case DeclareSection(role) =>
      var buses := BusNames(role, c).value;
      BusNamesOneLine(role, c);
      forall j | 0 <= j < |buses|
        ensures CompleteLine(DeclareLines(m, c.name, buses)[j])
      {
        assert buses[j] in buses;
        DeclareLineComplete(m, c.name, buses[j]);
      }
    case ConcatSection(role) =>
      ConcatLinesComplete(m, role, c.name, if role.Masters? then masters else slaves);
  }

  /** The buses a section leaves each side with hold no newline. */
  lemma DeclaredOneLine(c: BusConfig, s: Section, masters: seq<string>, slaves: seq<string>)
    requires OneLineNames(c) && OneLineAll(masters) && OneLineAll(slaves)
    ensures OneLineAll(MastersAfter(s, Declared(c, s), masters)) && OneLineAll(SlavesAfter(s, Declared(c, s), slaves))
  {
    if s.DeclareSection? && BusNames(s.role, c).Some? {
      BusNamesOneLine(s.role, c);
    }
  }

  /** Well-formed runs of lines join into well-formed lines when the first run's last line ends with a newline. */
  lemma WellFormedAppend(a: seq<string>, b: seq<string>)
    requires WellFormedLines(a) && WellFormedLines(b)
    requires a != [] && b != [] ==> a[|a| - 1][|a[|a| - 1]| - 1] == '\n'
    ensures WellFormedLines(a + b)
  {
    var ab := a + b;
    forall k | 0 <= k < |ab|
      ensures ab[k] != [] && NewlineOnlyAtEnd(ab[k]) && (k < |ab| - 1 ==> ab[k][|ab[k]| - 1] == '\n')
    {
      if k < |a| {
        assert ab[k] == a[k];
      } else {
        assert ab[k] == b[k - |a|];
      }
    }
  }

  /** A section's output, from its kept lines to its trailer, then the rest of the output, is well formed. */
  lemma SectionWellFormed(lines: seq<string>, i: nat, n: nat, k: nat, generated: seq<string>, rest: seq<string>)
    requires WellFormedLines(lines) && i + n <= k < |lines|
    requires forall j :: 0 <= j < |generated| ==> CompleteLine(generated[j])
    requires WellFormedLines(rest) && (rest != [] ==> k + 1 < |lines|)
    ensures WellFormedLines(lines[i..i + n] + generated + [lines[k]] + rest)
  {
    var kept := lines[i..i + n];
    var body := kept + generated;
    forall j | 0 <= j < |body|
      ensures CompleteLine(body[j])
    {
      if j < |kept| {
        assert body[j] == lines[i + j];
      } else {
        assert body[j] == generated[j - |kept|];
      }
    }
    WellFormedAppend(body, [lines[k]]);
    WellFormedAppend(body + [lines[k]], rest);
  }

  /** A copied line ahead of a well-formed rest of the output gives a well-formed output. */
  lemma PlainRewriteWellFormed(mk: Markers, m: Macros, c: BusConfig, lines: seq<string>, i: nat, masters: seq<string>, slaves: seq<string>)
    requires WellFormedLines(lines) && i < |lines| && SectionOf(mk, lines[i]).None?
    requires var rest := RewriteFrom(mk, m, c, lines, i + 1, masters, slaves);
      rest.Some? ==> WellFormedLines(rest.value)
    ensures RewriteFrom(mk, m, c, lines, i, masters, slaves).Some? ==> WellFormedLines(RewriteFrom(mk, m, c, lines, i, masters, slaves).value)
  {
    var rest := RewriteFrom(mk, m, c, lines, i + 1, masters, slaves);
    PlainStep(mk, m, c, lines, i, masters, slaves);
    if rest.Some? {
      assert i + 1 == |lines| ==> rest.value == [];
      WellFormedAppend([lines[i]], rest.value);
    }
  }

  /** A section rewritten ahead of a well-formed rest of the output gives a well-formed output. */
  lemma SectionRewriteWellFormed(mk: Markers, m: Macros, c: BusConfig, lines: seq<string>, i: nat, k: nat, masters: seq<string>, slaves: seq<string>)
    requires WellFormedLines(lines) && i < |lines| && SectionOf(mk, lines[i]).Some?
    requires var s := SectionOf(mk, lines[i]).value;
      i + Kept(s) <= |lines| && FindTrailing(Trailer(mk, s), lines, i + Kept(s)) == Some(k)
    requires Generated(m, c, SectionOf(mk, lines[i]).value, masters, slaves).Some?
    requires LineMacros(m) && OneLineNames(c) && OneLineAll(masters) && OneLineAll(slaves)
    requires var s := SectionOf(mk, lines[i]).value;
      var rest := RewriteFrom(mk, m, c, lines, k + 1, MastersAfter(s, Declared(c, s), masters), SlavesAfter(s, Declared(c, s), slaves));
      rest.Some? ==> WellFormedLines(rest.value)
    ensures RewriteFrom(mk, m, c, lines, i, masters, slaves).Some? ==> WellFormedLines(RewriteFrom(mk, m, c, lines, i, masters, slaves).value)
  {
    var s := SectionOf(mk, lines[i]).value;
    var rest := RewriteFrom(mk, m, c, lines, k + 1, MastersAfter(s, Declared(c, s), masters), SlavesAfter(s, Declared(c, s), slaves));
    SectionStep(mk, m, c, lines, i, k, masters, slaves);
    if rest.Some? {
      GeneratedComplete(m, c, s, masters, slaves);
      SectionWellFormed(lines, i, Kept(s), k, Generated(m, c, s, masters, slaves).value, rest.value);
    }
  }

  /** The rewrite of well-formed lines, from line `i` on, is well formed. */
  lemma {:induction false} RewriteFromWellFormed(mk: Markers, m: Macros, c: BusConfig, lines: seq<string>, i: nat, masters: seq<string>, slaves: seq<string>)
    requires WellFormedLines(lines) && i <= |lines|
    requires LineMacros(m) && OneLineNames(c) && OneLineAll(masters) && OneLineAll(slaves)
    ensures var r := RewriteFrom(mk, m, c, lines, i, masters, slaves); r.Some? ==> WellFormedLines(r.value)
    decreases |lines| - i, 1
  {
    if i < |lines| {
      if SectionOf(mk, lines[i]).None? {
        RewriteFromWellFormed(mk, m, c, lines, i + 1, masters, slaves);
        PlainRewriteWellFormed(mk, m, c, lines, i, masters, slaves);
      } else {
        var s := SectionOf(mk, lines[i]).value;
        if i + Kept(s) <= |lines| && Generated(m, c, s, masters, slaves).Some? && FindTrailing(Trailer(mk, s), lines, i + Kept(s)).Some? {
          SectionFromWellFormed(mk, m, c, lines, i, FindTrailing(Trailer(mk, s), lines, i + Kept(s)).value, masters, slaves);
        } else {
          SectionFails(mk, m, c, lines, i, masters, slaves);
        }
      }
    }
  }

  /** The rewrite of well-formed lines, from a section's header at `i` to its trailer at `k` and on, is well formed. */
  lemma {:induction false} SectionFromWellFormed(mk: Markers, m: Macros, c: BusConfig, lines: seq<string>, i: nat, k: nat, masters: seq<string>, slaves: seq<string>)
    requires WellFormedLines(lines) && i < |lines| && SectionOf(mk, lines[i]).Some?
    requires var s := SectionOf(mk, lines[i]).value;
      i + Kept(s) <= |lines| && FindTrailing(Trailer(mk, s), lines, i + Kept(s)) == Some(k)
    requires Generated(m, c, SectionOf(mk, lines[i]).value, masters, slaves).Some?
    requires LineMacros(m) && OneLineNames(c) && OneLineAll(masters) && OneLineAll(slaves)
    ensures var r := RewriteFrom(mk, m, c, lines, i, masters, slaves); r.Some? ==> WellFormedLines(r.value)
    decreases |lines| - i, 0
  {
    var s := SectionOf(mk, lines[i]).value;
    DeclaredOneLine(c, s, masters, slaves);
    RewriteFromWellFormed(mk, m, c, lines, k + 1, MastersAfter(s, Declared(c, s), masters), SlavesAfter(s, Declared(c, s), slaves));
    SectionRewriteWellFormed(mk, m, c, lines, i, k, masters, slaves);
  }

  /**
   * With the file truncated after writing, reading the rewritten RTL file
   * back gives exactly the rewritten lines, whenever no bus or module name
   * holds a newline.
   */
  lemma RewrittenFileReadsBack(c: BusConfig, content: string)
    requires OneLineNames(c)
    requires Rewrite(MARKERS, MACROS, c, ReadLines(content)).Some?
    ensures var rewritten := Rewrite(MARKERS, MACROS, c, ReadLines(content)).value;
      ReadLines(TruncatedFile(content, Concat(rewritten))) == rewritten
  {
    MacrosEndLines();
    RewriteFromWellFormed(MARKERS, MACROS, c, ReadLines(content), 0, [], []);
    TruncatedFileReadsBack(content, Rewrite(MARKERS, MACROS, c, ReadLines(content)).value);
  }

  /** A truncated file, read back, gives exactly the lines written to it. */
  lemma TruncatedFileReadsBack(previous: string, lines: seq<string>)
    requires WellFormedLines(lines)
    ensures ReadLines(TruncatedFile(previous, Concat(lines))) == lines
  {
    ReadLinesOfConcat(lines);
  }

  /**
   * `declare_and_concat_buses` on an RTL file opened with "r+": the text
   * of the file afterwards, or `None` when it raises `IndexError` before
   * writing anything.
   */
  method DeclareAndConcatBuses(config: Configuration, content: string) returns (file: Option<string>)
    ensures var rewritten := Rewrite(MARKERS, MACROS, BusConfigOf(config), ReadLines(content));
      file == if rewritten.None? then None else Some(WrittenFile(content, Concat(rewritten.value)))
  {
    var lines := ReadLines(content);
    var newLines := RewriteSections(MARKERS, MACROS, BusConfigOf(config), lines);
    if newLines.None? {
      return None;
    }
    file := Some(WrittenFile(content, Concat(newLines.value)));
  }
}
