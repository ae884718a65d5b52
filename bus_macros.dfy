// What the two bus-declaration generators have in common: the names of
// the buses between the crossbar and its masters and slaves, the
// declaration of each bus, and for each side the bus array and the macro
// that concatenates the declared buses into it, last bus first.
//
// The generators differ only in the texts of their macros, so those are
// a `Macros` value each generator fixes; the functions and lemmas here
// hold for any macro texts.
module BusMacros {
  import opened Wrappers
  import opened Builtins

  /** Which side of the crossbar a list of buses connects. */
  datatype Role = Masters | Slaves

  /** What the generators read of a bus configuration. */
  datatype BusConfig = BusConfig(name: string, numSI: nat, numMI: nat, masterNames: seq<string>, rangeNames: seq<string>)

  /** The texts a generator writes around the bus names. */
  datatype Macros = Macros(
    declareAxi: string, declareAxiSuffix: string,
    declareAxilite: string, declareAxiliteSuffix: string,
    arrayAxi: string, arrayAxiSuffix: string,
    arrayAxilite: string, arrayAxiliteSuffix: string,
    pbusMasterWidth: string, masterWidth: string, pbusSlaveWidth: string, slaveWidth: string,
    concatMastersAxi: string, concatMastersAxilite: string,
    concatSlavesAxi: string, concatSlavesAxilite: string,
    concatSuffix: string)

  /** A master's bus is `<master>_to_<bus>`, a slave's bus `<bus>_to_<slave>`. */
  function BusName(role: Role, bus: string, peer: string): string
  {
    match role
    case Masters => peer + "_to_" + bus
    case Slaves => bus + "_to_" + peer
  }

  /** The names a side's buses are built from, and how many buses the side has. */
  function Peers(role: Role, c: BusConfig): seq<string>
  {
    match role case Masters => c.masterNames case Slaves => c.rangeNames
  }

  function Count(role: Role, c: BusConfig): nat
  {
    match role case Masters => c.numSI case Slaves => c.numMI
  }

  /** The buses of a side, in index order, or `None` for the `IndexError` of a name list shorter than the count. */
  function BusNames(role: Role, c: BusConfig): (buses: Option<seq<string>>)
    ensures buses.Some? <==> Count(role, c) <= |Peers(role, c)|
    ensures buses.Some? ==> |buses.value| == Count(role, c)
    ensures buses.Some? ==> forall i :: 0 <= i < Count(role, c) ==> buses.value[i] == BusName(role, c.name, Peers(role, c)[i])
  {
    var peers := Peers(role, c);
    var count := Count(role, c);
    if count > |peers| then None else Some(seq(count, i requires 0 <= i < count => BusName(role, c.name, peers[i])))
  }

  /** Distinct peers get distinct buses, so no bus is declared twice. */
  lemma BusNamesDistinct(role: Role, bus: string, p: string, q: string)
    requires p != q
    ensures BusName(role, bus, p) != BusName(role, bus, q)
  {
    if role.Masters? {
      var t := "_to_" + bus;
      assert BusName(role, bus, p) == p + t && BusName(role, bus, q) == q + t;
      if |p| == |q| {
        assert (p + t)[..|p|] == p && (q + t)[..|q|] == q;
      }
    } else {
      var h := bus + "_to_";
      assert BusName(role, bus, p) == h + p && BusName(role, bus, q) == h + q;
      assert (h + p)[|h|..] == p && (h + q)[|h|..] == q;
    }
  }

  /** The peripheral bus is an AXI-Lite bus; every other bus is a full AXI bus. */
  predicate IsLite(bus: string)
  {
    bus == "PBUS"
  }

  /** The text before and after the name in one bus's declaration. */
  function DeclarePrefix(m: Macros, bus: string): string
  {
    if IsLite(bus) then m.declareAxilite else m.declareAxi
  }

  function DeclareSuffix(m: Macros, bus: string): string
  {
    if IsLite(bus) then m.declareAxiliteSuffix else m.declareAxiSuffix
  }

  function DeclareLine(m: Macros, bus: string, name: string): string
  {
    DeclarePrefix(m, bus) + name + DeclareSuffix(m, bus)
  }

  /** The bus a declaration line declares: the text between the macro's prefix and suffix. */
  function DeclaredName(m: Macros, bus: string, line: string): string
    requires |DeclarePrefix(m, bus)| + |DeclareSuffix(m, bus)| <= |line|
  {
    line[|DeclarePrefix(m, bus)|..|line| - |DeclareSuffix(m, bus)|]
  }

  /** Every declaration line holds its bus's name, which reads back from the line. */
  lemma DeclaredNameOfLine(m: Macros, bus: string, name: string)
    ensures |DeclarePrefix(m, bus)| + |DeclareSuffix(m, bus)| <= |DeclareLine(m, bus, name)|
    ensures DeclaredName(m, bus, DeclareLine(m, bus, name)) == name
  {
    var line := DeclareLine(m, bus, name);
    assert line[|DeclarePrefix(m, bus)|..|line| - |DeclareSuffix(m, bus)|] == name;
  }

  /** One declaration line per bus, in the order of the buses. */
  function DeclareLines(m: Macros, bus: string, buses: seq<string>): (lines: seq<string>)
    ensures |lines| == |buses| && forall i :: 0 <= i < |buses| ==> lines[i] == DeclareLine(m, bus, buses[i])
  {
    seq(|buses|, i requires 0 <= i < |buses| => DeclareLine(m, bus, buses[i]))
  }

  /** The reverse of a list. */
  function Reversed<T>(xs: seq<T>): (r: seq<T>)
    ensures |r| == |xs| && forall i :: 0 <= i < |xs| ==> r[i] == xs[|xs| - 1 - i]
  {
    if xs == [] then [] else Reversed(xs[1..]) + [xs[0]]
  }

  /** Each name preceded by ", ", in the order given. */
  function Listed(names: seq<string>): string
  {
    if names == [] then "" else ", " + names[0] + Listed(names[1..])
  }

  lemma {:induction false} ListedAppend(a: seq<string>, b: seq<string>)
    ensures Listed(a + b) == Listed(a) + Listed(b)
  {
    if a != [] {
      assert (a + b)[1..] == a[1..] + b;
      ListedAppend(a[1..], b);
    } else {
      assert a + b == b;
    }
  }

  /** Declaring one more bus puts it at the head of the concatenation's argument list. */
  lemma ListedReversedAppend(buses: seq<string>, last: string)
    ensures Listed(Reversed(buses + [last])) == ", " + last + Listed(Reversed(buses))
  {
    assert Reversed(buses + [last]) == [last] + Reversed(buses);
  }

  /** Each name preceded by ", ", the last name first. */
  function ListedLastFirst(buses: seq<string>): string
  {
    if buses == [] then "" else ", " + buses[|buses| - 1] + ListedLastFirst(buses[..|buses| - 1])
  }

  /** Listing the names last first is listing the reversed list. */
  lemma {:induction false} ListedLastFirstReversed(buses: seq<string>)
    ensures ListedLastFirst(buses) == Listed(Reversed(buses))
  {
    if buses != [] {
      var init := buses[..|buses| - 1];
      assert buses == init + [buses[|buses| - 1]];
      ListedLastFirstReversed(init);
      ListedReversedAppend(init, buses[|buses| - 1]);
    }
  }

  /** The loop that builds the argument list of the concatenation macro. */
  method ListReversed(buses: seq<string>) returns (s: string)
    ensures s == Listed(Reversed(buses))
  {
    s := "";
    for k := 0 to |buses|
      invariant s == Listed(Reversed(buses[..k]))
    {
      assert buses[..k + 1] == buses[..k] + [buses[k]];
      ListedReversedAppend(buses[..k], buses[k]);
      s := ", " + buses[k] + s;
    }
    assert buses[..|buses|] == buses;
  }

  /** The bus array of a side, `<bus>_masters` or `<bus>_slaves`, and its declared width. */
  function ArrayName(role: Role, bus: string): string
  {
    match role
    case Masters => bus + "_masters"
    case Slaves => bus + "_slaves"
  }

  function ArrayWidth(m: Macros, role: Role, bus: string): string
  {
    match role
    case Masters => if IsLite(bus) then m.pbusMasterWidth else m.masterWidth
    case Slaves => if IsLite(bus) then m.pbusSlaveWidth else m.slaveWidth
  }

  /** The concatenation macro of a side, AXI-Lite on the peripheral bus. */
  function ConcatPrefix(m: Macros, role: Role, bus: string): string
  {
    match role
    case Masters => if IsLite(bus) then m.concatMastersAxilite else m.concatMastersAxi
    case Slaves => if IsLite(bus) then m.concatSlavesAxilite else m.concatSlavesAxi
  }

  /** The declaration of a side's bus array: `<macro>(<array>, <width>)`. */
  function ArrayLine(m: Macros, role: Role, bus: string): string
  {
    if IsLite(bus) then m.arrayAxilite + ArrayName(role, bus) + ", " + ArrayWidth(m, role, bus) + m.arrayAxiliteSuffix
    else m.arrayAxi + ArrayName(role, bus) + ", " + ArrayWidth(m, role, bus) + m.arrayAxiSuffix
  }

  /** The arguments of the concatenation macro: the array, then the buses last first. */
  function ConcatArgs(m: Macros, role: Role, bus: string, buses: seq<string>): string
  {
    "(" + ArrayName(role, bus) + ListedLastFirst(buses) + m.concatSuffix
  }

  /**
   * The bus-array declaration of a side, then the macro
   * `<prefix><count>(<array>, <last bus>, ..., <first bus>)`.
   */
  function ConcatLines(m: Macros, role: Role, bus: string, buses: seq<string>): (lines: seq<string>)
    ensures |lines| == 2
  {
    [ArrayLine(m, role, bus), ConcatPrefix(m, role, bus) + NatToString(|buses|) + ConcatArgs(m, role, bus, buses)]
  }

  /** The text between a prefix and the rest of a line. */
  lemma SliceBetween(prefix: string, middle: string, rest: string)
    ensures (prefix + middle + rest)[|prefix|..|prefix| + |middle|] == middle
  {
    var line := prefix + middle + rest;
    assert line[|prefix|..|prefix| + |middle|] == middle;
  }

  /** The decimal text of a number, cut out of a line, reads back as the number. */
  lemma NumberSlice(prefix: string, n: nat, rest: string)
    ensures var line := prefix + NatToString(n) + rest;
      ParseInt(line[|prefix|..|prefix| + |NatToString(n)|]) == Some(n)
  {
    SliceBetween(prefix, NatToString(n), rest);
    ParseNatToString(n);
  }

  /** A number followed by an opening parenthesis: where the digits end, and what they read as. */
  lemma NumberThenParen(prefix: string, n: nat, rest: string)
    requires |rest| > 0 && rest[0] == '('
    ensures var line := prefix + NatToString(n) + rest;
      var digits := NatToString(n);
      |prefix| + |digits| < |line| && line[|prefix| + |digits|] == '(' &&
      ParseInt(line[|prefix|..|prefix| + |digits|]) == Some(n)
  {
    var line := prefix + NatToString(n) + rest;
    assert line[|prefix| + |NatToString(n)|] == rest[0];
    NumberSlice(prefix, n, rest);
  }

  /**
   * The number in the concatenation macro's name is the number of buses
   * concatenated: it reads back from the digits between the macro's
   * prefix and the opening parenthesis.
   */
  lemma ConcatCountReadsBack(m: Macros, role: Role, bus: string, buses: seq<string>)
    ensures var line := ConcatLines(m, role, bus, buses)[1];
      var start := |ConcatPrefix(m, role, bus)|;
      var digits := NatToString(|buses|);
      start + |digits| < |line| && line[start + |digits|] == '(' &&
      ParseInt(line[start..start + |digits|]) == Some(|buses|)
  {
    NumberThenParen(ConcatPrefix(m, role, bus), |buses|, ConcatArgs(m, role, bus, buses));
  }

  /** Appends one declaration per bus of a side to `lines` and returns the bus names. */
  method DeclareBusLines(m: Macros, lines: seq<string>, role: Role, c: BusConfig) returns (result: Option<(seq<string>, seq<string>)>)
    ensures var names := BusNames(role, c);
      result == if names.None? then None else Some((lines + DeclareLines(m, c.name, names.value), names.value))
  {
    var count := if role.Masters? then c.numSI else c.numMI;
    var peers := if role.Masters? then c.masterNames else c.rangeNames;
    assert peers == Peers(role, c) && count == Count(role, c);
    var out := lines;
    var buses: seq<string> := [];
    for i := 0 to count
      invariant |buses| == i && i <= |peers|
      invariant forall k :: 0 <= k < i ==> buses[k] == BusName(role, c.name, peers[k])
      invariant out == lines + DeclareLines(m, c.name, buses)
    {
      if i >= |peers| {
        assert BusNames(role, c).None?;
        return None;
      }
      var bus := if role.Masters? then peers[i] + "_to_" + c.name else c.name + "_to_" + peers[i];
      buses := buses + [bus];
      if c.name == "PBUS" {
        out := out + [m.declareAxilite + buses[|buses| - 1] + m.declareAxiliteSuffix];
      } else {
        out := out + [m.declareAxi + buses[|buses| - 1] + m.declareAxiSuffix];
      }
    }
    assert buses == BusNames(role, c).value;
    result := Some((out, buses));
  }

  /** Appends the bus-array declaration and the concatenation macro of a side to `lines`. */
  method ConcatBusLines(m: Macros, lines: seq<string>, buses: seq<string>, role: Role, bus: string) returns (out: seq<string>)
    ensures out == lines + ConcatLines(m, role, bus, buses)
  {
    var listed := ListReversed(buses);
    ListedLastFirstReversed(buses);
    var width, concatPrefix, suffix;
    if role.Masters? {
      if bus == "PBUS" {
        width, concatPrefix := m.pbusMasterWidth, m.concatMastersAxilite;
      } else {
        width, concatPrefix := m.masterWidth, m.concatMastersAxi;
      }
      suffix := "_masters";
    } else {
      if bus == "PBUS" {
        width, concatPrefix := m.pbusSlaveWidth, m.concatSlavesAxilite;
      } else {
        width, concatPrefix := m.slaveWidth, m.concatSlavesAxi;
      }
      suffix := "_slaves";
    }
    var arrayLine;
    if bus == "PBUS" {
      arrayLine := m.arrayAxilite + (bus + suffix) + ", " + width + m.arrayAxiliteSuffix;
    } else {
      arrayLine := m.arrayAxi + (bus + suffix) + ", " + width + m.arrayAxiSuffix;
    }
    assert arrayLine == ArrayLine(m, role, bus);
    var concatLine := concatPrefix + NatToString(|buses|) + ("(" + (bus + suffix) + listed + m.concatSuffix);
    assert concatLine == ConcatLines(m, role, bus, buses)[1];
    out := lines + [arrayLine, concatLine];
  }
}
