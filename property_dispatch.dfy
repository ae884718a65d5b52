// The property dispatcher of the crossbar configuration: given a
// property's name and its cell, it picks the parser for that name (with
// the admitted range for the shared width parser) and calls it, or skips
// the call for an empty list, for the ignored SLAVE_NAMES and for any
// name it does not support.
module PropertyDispatch {
  import opened Builtins
  import opened Configuration
  import opened ParseProperties

  /** A property's cell: text, or the empty list a missing cell is given as. */
  datatype Cell = Text(value: string) | EmptyList

  /** The parser a property name selects, or `Skip`. */
  datatype Route =
    | ToInterfaces | ToStrategy | ToRRegister | ToProtocol | ToAddrWidth | ToDataWidth | ToConnectivityMode
    | ToSlavePriority | ToThreadIdWidth | ToSingleThread | ToBaseId | ToSecure | ToRangeBaseAddr | ToRangeAddrWidth
    | ToWidths(lo: nat, hi: int)
    | ToAcceptance | ToIssuing | ToConnectivity
    | Skip

  /** The `match property_name` of `parse_property`. */
  function RouteOf(name: string): Route
  {
    match name
    case "NUM_SI" => ToInterfaces
    case "NUM_MI" => ToInterfaces
    case "STRATEGY" => ToStrategy
    case "R_REGISTER" => ToRRegister
    case "PROTOCOL" => ToProtocol
    case "ADDR_WIDTH" => ToAddrWidth
    case "DATA_WIDTH" => ToDataWidth
    case "CONNECTIVITY_MODE" => ToConnectivityMode
    case "Slave_Priority" => ToSlavePriority
    case "THREAD_ID_WIDTH" => ToThreadIdWidth
    case "SINGLE_THREAD" => ToSingleThread
    case "BASE_ID" => ToBaseId
    case "SECURE" => ToSecure
    case "RANGE_BASE_ADDR" => ToRangeBaseAddr
    case "RANGE_ADDR_WIDTH" => ToRangeAddrWidth
    case "ID_WIDTH" => ToWidths(1, 32)
    case "AWUSER_WIDTH" => ToWidths(0, 1024)
    case "ARUSER_WIDTH" => ToWidths(0, 1024)
    case "WUSER_WIDTH" => ToWidths(0, 1024)
    case "RUSER_WIDTH" => ToWidths(0, 1024)
    case "BUSER_WIDTH" => ToWidths(0, 1024)
    case "ADDR_RANGES" => ToWidths(1, 16)
    case "SI_READ_ACCEPTANCE" => ToAcceptance
    case "SI_WRITE_ACCEPTANCE" => ToAcceptance
    case "MI_READ_ISSUING" => ToIssuing
    case "MI_WRITE_ISSUING" => ToIssuing
    case "READ_CONNECTIVITY" => ToConnectivity
    case "WRITE_CONNECTIVITY" => ToConnectivity
    case _ => Skip
  }

  /** The parser a route names, applied to a text cell. */
  function Apply(route: Route, s: Settings, name: string, value: string): Outcome
  {
    match route
    case ToInterfaces => Interfaces(s, ImplField(name), value)
    case ToStrategy => Strategy(s, value)
    case ToRRegister => RRegister(s, value)
    case ToProtocol => Outcome(Protocol(s, value), Ok)
    case ToAddrWidth => AddrWidth(s, value)
    case ToDataWidth => DataWidth(s, value)
    case ToConnectivityMode => Outcome(ConnectivityMode(s, value), Ok)
    case ToSlavePriority => SlavePriority(s, value)
    case ToThreadIdWidth => ThreadIdWidth(s, value)
    case ToSingleThread => SingleThread(s, value)
    case ToBaseId => Outcome(BaseId(s, value), Ok)
    case ToSecure => Secure(s, value)
    case ToRangeBaseAddr => RangeBaseAddr(s, value)
    case ToRangeAddrWidth => RangeAddrWidth(s, value)
    case ToWidths(lo, hi) => Widths(s, ImplField(name), value, lo, hi)
    case ToAcceptance => Acceptance(s, ImplField(name), value)
    case ToIssuing => Issuing(s, ImplField(name), value)
    case ToConnectivity => Connectivity(s, ImplField(name), value)
    case Skip => Outcome(s, Ok)
  }

  /** `parse_property`: an empty list or a skipped name leaves the configuration as it was. */
  function Property(s: Settings, name: string, cell: Cell): (o: Outcome)
    ensures cell.EmptyList? || RouteOf(name).Skip? ==> o == Outcome(s, Ok)
  {
    match cell
    case EmptyList => Outcome(s, Ok)
    case Text(value) => Apply(RouteOf(name), s, name, value)
  }

  /** The names a route's parser serves are the names that parser stores under. */
  lemma RoutesMatchFields(name: string)
    ensures RouteOf(name).ToInterfaces? ==> ImplField(name) == NumSI || ImplField(name) == NumMI
    ensures RouteOf(name).ToWidths? ==>
      ImplField(name) in {IdWidth, AwuserWidth, AruserWidth, WuserWidth, RuserWidth, BuserWidth, AddrRanges}
    ensures RouteOf(name).ToAcceptance? ==> ImplField(name) == SiReadAcceptance || ImplField(name) == SiWriteAcceptance
    ensures RouteOf(name).ToIssuing? ==> ImplField(name) == MiReadIssuing || ImplField(name) == MiWriteIssuing
    ensures RouteOf(name).ToConnectivity? ==> ImplField(name) == ReadConnectivity || ImplField(name) == WriteConnectivity
  {
  }

  /**
   * The bounds the dispatcher hands the width parser are what the width
   * parser enforces: the configuration changes only when the value is
   * an integer within them.
   */
  lemma DispatchedWidthsAccepted(s: Settings, name: string, value: string)
    requires RouteOf(name).ToWidths?
    ensures Property(s, name, Text(value)).settings == s || Accepts(value, RouteOf(name).lo, RouteOf(name).hi)
  {
    var r := RouteOf(name);
    assert Property(s, name, Text(value)) == Widths(s, ImplField(name), value, r.lo, r.hi);
  }

  /** ID_WIDTH ends in 1..32 unless it keeps its previous value. */
  lemma IdWidthInRange(s: Settings, value: string)
    ensures var t := Property(s, "ID_WIDTH", Text(value)).settings;
      t.idWidth == s.idWidth || 1 <= t.idWidth <= 32
  {
    assert RouteOf("ID_WIDTH") == ToWidths(1, 32);
    assert ImplField("ID_WIDTH") == IdWidth;
    assert Property(s, "ID_WIDTH", Text(value)) == Widths(s, IdWidth, value, 1, 32);
  }

  /** ADDR_RANGES ends in 1..16 unless it keeps its previous value. */
  lemma AddrRangesInRange(s: Settings, value: string)
    ensures var t := Property(s, "ADDR_RANGES", Text(value)).settings;
      t.addrRanges == s.addrRanges || 1 <= t.addrRanges <= 16
  {
    assert RouteOf("ADDR_RANGES") == ToWidths(1, 16);
    assert ImplField("ADDR_RANGES") == AddrRanges;
    assert Property(s, "ADDR_RANGES", Text(value)) == Widths(s, AddrRanges, value, 1, 16);
  }

  /** NUM_SI ends in 0..16 unless it keeps its previous value. */
  lemma NumSIInRange(s: Settings, value: string)
    ensures var t := Property(s, "NUM_SI", Text(value)).settings;
      t.numSI == s.numSI || t.numSI <= 16
  {
    assert RouteOf("NUM_SI") == ToInterfaces;
    assert ImplField("NUM_SI") == NumSI;
    assert Property(s, "NUM_SI", Text(value)) == Interfaces(s, NumSI, value);
  }

  /** The dispatcher on a configuration object. */
  method ParseProperty(config: Configuration, name: string, cell: Cell) returns (status: Status)
    modifies config
    ensures Outcome(config.Snapshot(), status) == Property(old(config.Snapshot()), name, cell)
  {
    if cell.EmptyList? {
      return Ok;
    }
    var value := cell.value;
    var route := RouteOf(name);
    assert Property(old(config.Snapshot()), name, cell) == Apply(route, old(config.Snapshot()), name, value);
    status := Ok;
    match route
    case ToInterfaces => status := ParseInterfaces(config, name, value);
    case ToStrategy => status := ParseStrategy(config, value);
    case ToRRegister => status := ParseRRegister(config, value);
    case ToProtocol => ParseProtocol(config, value);
    case ToAddrWidth => status := ParseAddrWidth(config, value);
    case ToDataWidth => status := ParseDataWidth(config, value);
    case ToConnectivityMode => ParseConnectivityMode(config, value);
    case ToSlavePriority => status := ParseSlavePriority(config, value);
    case ToThreadIdWidth => status := ParseThreadIdWidth(config, value);
    case ToSingleThread => status := ParseSingleThread(config, value);
    case ToBaseId => ParseBaseId(config, value);
    case ToSecure => status := ParseSecure(config, value);
    case ToRangeBaseAddr => status := ParseRangeBaseAddr(config, value);
    case ToRangeAddrWidth => status := ParseRangeAddrWidth(config, value);
    case ToWidths(lo, hi) => status := ParseWidths(config, name, value, lo, hi);
    case ToAcceptance => status := ParseAcceptance(config, name, value);
    case ToIssuing => status := ParseIssuing(config, name, value);
    case ToConnectivity => status := ParseConnectivity(config, name, value);
    case Skip =>
  }
}
