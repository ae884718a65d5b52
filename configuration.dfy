// The bus configuration object the configuration scripts build from a
// bus's CSV file and then check or turn into RTL: one record of
// properties with the defaults of `Configuration.__init__`, and the two
// setters that guard the address and data widths by the AXI protocol.
module Configuration {
  import opened Builtins

  /** Every property of a bus configuration, as a value. */
  datatype Settings = Settings(
    configName: string,
    supportedCores: seq<string>,
    coreSelector: string,
    vioResetnDefault: int,
    protocol: string,
    xlen: int,
    physicalAddrWidth: int,
    connectivityMode: string,
    addrWidth: int,
    dataWidth: int,
    idWidth: int,
    numMI: nat,
    numSI: nat,
    masterNames: seq<string>,
    rangeNames: seq<string>,
    addrRanges: nat,
    baseAddr: seq<string>,
    rangeAddrWidth: seq<int>,
    readConnectivity: seq<int>,
    writeConnectivity: seq<int>,
    strategy: int,
    rRegister: int,
    slavePriorities: seq<int>,
    siReadAcceptance: seq<int>,
    siWriteAcceptance: seq<int>,
    threadIdWidth: seq<int>,
    singleThread: seq<int>,
    baseId: seq<string>,
    miReadIssuing: seq<int>,
    miWriteIssuing: seq<int>,
    secure: seq<int>,
    awuserWidth: int,
    aruserWidth: int,
    wuserWidth: int,
    ruserWidth: int,
    buserWidth: int,
    mainClockDomain: int,
    rangeClockDomains: seq<int>,
    busName: string)

  /** The cores the main bus may select. */
  const SUPPORTED_CORES: seq<string> := ["CORE_PICORV32", "CORE_CV32E40P", "CORE_IBEX", "CORE_MICROBLAZEV_32", "CORE_MICROBLAZEV_64", "CORE_CV64A6"]

  /** For AXI4 and AXI3, a data width is one of the powers of two from 32 to 1024. */
  predicate IsDataWidth(v: int)
  {
    v == 32 || v == 64 || v == 128 || v == 256 || v == 512 || v == 1024
  }

  /** The address widths a protocol admits: 1..64 for AXI4LITE, 12..64 for AXI4 and AXI3. */
  predicate AddrWidthAccepted(protocol: string, v: int)
  {
    (protocol == "AXI4LITE" && 1 <= v <= 64) || ((protocol == "AXI4" || protocol == "AXI3") && 12 <= v <= 64)
  }

  /** The data widths a protocol admits: 32 or 64 for AXI4LITE, any `IsDataWidth` for AXI4 and AXI3. */
  predicate DataWidthAccepted(protocol: string, v: int)
  {
    (protocol == "AXI4LITE" && (v == 32 || v == 64)) || ((protocol == "AXI4" || protocol == "AXI3") && IsDataWidth(v))
  }

  /** The data widths are exactly the powers of two from 2^5 to 2^10. */
  lemma DataWidthsArePowersOfTwo(v: int)
    ensures IsDataWidth(v) <==> exists k :: 5 <= k <= 10 && v == Pow2(k)
  {
    assert Pow2(5) == 32 && Pow2(6) == 64 && Pow2(7) == 128;
    assert Pow2(8) == 256 && Pow2(9) == 512 && Pow2(10) == 1024;
    if IsDataWidth(v) {
      if v == 32 { assert v == Pow2(5); }
      else if v == 64 { assert v == Pow2(6); }
      else if v == 128 { assert v == Pow2(7); }
      else if v == 256 { assert v == Pow2(8); }
      else if v == 512 { assert v == Pow2(9); }
      else { assert v == Pow2(10); }
    }
  }

  /** Every data width AXI4LITE admits is admitted by AXI4 too. */
  lemma LiteDataWidthsAreAxi4Widths(v: int)
    requires DataWidthAccepted("AXI4LITE", v)
    ensures DataWidthAccepted("AXI4", v)
  {
  }

  /**
   * The `DATA_WIDTH_Found` search: starting from 32 and doubling while
   * nothing is found and the candidate is at most 1024, it finds `value`
   * exactly when `value` is a data width.
   */
  method SearchDataWidth(value: int) returns (found: bool)
    ensures found <==> IsDataWidth(value)
  {
    found := false;
    var baseData := 32;
    while !found && baseData <= 1024
      invariant baseData == 32 || baseData == 64 || baseData == 128 || baseData == 256 || baseData == 512 || baseData == 1024 || baseData == 2048
      invariant found <==> IsDataWidth(value) && value < baseData
      decreases 2048 - baseData
    {
      if value == baseData {
        found := true;
      }
      baseData := baseData * 2;
    }
  }

  /** A bus configuration. The lists are appended to in place by the property parsers. */
  class Configuration {
    var configName: string
    var supportedCores: seq<string>
    var coreSelector: string
    var vioResetnDefault: int
    var protocol: string
    var xlen: int
    var physicalAddrWidth: int
    var connectivityMode: string
    var addrWidth: int
    var dataWidth: int
    var idWidth: int
    var numMI: nat
    var numSI: nat
    var masterNames: seq<string>
    var rangeNames: seq<string>
    var addrRanges: nat
    var baseAddr: seq<string>
    var rangeAddrWidth: seq<int>
    var readConnectivity: seq<int>
    var writeConnectivity: seq<int>
    var strategy: int
    var rRegister: int
    var slavePriorities: seq<int>
    var siReadAcceptance: seq<int>
    var siWriteAcceptance: seq<int>
    var threadIdWidth: seq<int>
    var singleThread: seq<int>
    var baseId: seq<string>
    var miReadIssuing: seq<int>
    var miWriteIssuing: seq<int>
    var secure: seq<int>
    var awuserWidth: int
    var aruserWidth: int
    var wuserWidth: int
    var ruserWidth: int
    var buserWidth: int
    var mainClockDomain: int
    var rangeClockDomains: seq<int>
    /** Not set by `__init__`: the bus name the reader assigns after parsing ("MBUS" or "PBUS"). */
    var busName: string

    /** All properties at once. */
    function Snapshot(): Settings
      reads this
    {
      Settings(configName, supportedCores, coreSelector, vioResetnDefault, protocol, xlen, physicalAddrWidth,
        connectivityMode, addrWidth, dataWidth, idWidth, numMI, numSI, masterNames, rangeNames, addrRanges,
        baseAddr, rangeAddrWidth, readConnectivity, writeConnectivity, strategy, rRegister, slavePriorities,
        siReadAcceptance, siWriteAcceptance, threadIdWidth, singleThread, baseId, miReadIssuing, miWriteIssuing,
        secure, awuserWidth, aruserWidth, wuserWidth, ruserWidth, buserWidth, mainClockDomain, rangeClockDomains,
        busName)
    }

    /** `Configuration()`: no core, no protocol, 32-bit widths, no interfaces, one address range, empty lists. */
    constructor ()
      ensures configName == "" && supportedCores == SUPPORTED_CORES && coreSelector == "" && vioResetnDefault == 1
      ensures protocol == "" && xlen == 32 && physicalAddrWidth == 32 && connectivityMode == "SAMD"
      ensures addrWidth == 32 && dataWidth == 32 && idWidth == 4 && numMI == 0 && numSI == 0
      ensures masterNames == [] && rangeNames == [] && addrRanges == 1 && baseAddr == [] && rangeAddrWidth == []
      ensures readConnectivity == [] && writeConnectivity == [] && strategy == 0 && rRegister == 0
      ensures slavePriorities == [] && siReadAcceptance == [] && siWriteAcceptance == [] && threadIdWidth == []
      ensures singleThread == [] && baseId == [] && miReadIssuing == [] && miWriteIssuing == [] && secure == []
      ensures awuserWidth == 0 && aruserWidth == 0 && wuserWidth == 0 && ruserWidth == 0 && buserWidth == 0
      ensures mainClockDomain == 100 && rangeClockDomains == [] && busName == ""
    {
      configName := "";
      supportedCores := SUPPORTED_CORES;
      coreSelector := "";
      vioResetnDefault := 1;
      protocol := "";
      xlen := 32;
      physicalAddrWidth := 32;
      connectivityMode := "SAMD";
      addrWidth := 32;
      dataWidth := 32;
      idWidth := 4;
      numMI := 0;
      numSI := 0;
      masterNames := [];
      rangeNames := [];
      addrRanges := 1;
      baseAddr := [];
      rangeAddrWidth := [];
      readConnectivity := [];
      writeConnectivity := [];
      strategy := 0;
      rRegister := 0;
      slavePriorities := [];
      siReadAcceptance := [];
      siWriteAcceptance := [];
      threadIdWidth := [];
      singleThread := [];
      baseId := [];
      miReadIssuing := [];
      miWriteIssuing := [];
      secure := [];
      awuserWidth := 0;
      aruserWidth := 0;
      wuserWidth := 0;
      ruserWidth := 0;
      buserWidth := 0;
      mainClockDomain := 100;
      rangeClockDomains := [];
      busName := "";
    }

    /**
     * `set_ADDR_WIDTH`: a disabled bus keeps its width; every other
     * protocol stores the value, even one the protocol does not admit
     * (that case only logs a warning).
     */
    method SetAddrWidth(value: int)
      modifies this
      ensures old(protocol) == "DISABLE" ==> Snapshot() == old(Snapshot())
      ensures old(protocol) != "DISABLE" ==> Snapshot() == old(Snapshot()).(addrWidth := value)
    {
      if protocol == "AXI4LITE" && 1 <= value <= 64 {
        addrWidth := value;
      } else if (protocol == "AXI4" || protocol == "AXI3") && 12 <= value <= 64 {
        addrWidth := value;
      } else if protocol == "DISABLE" {
        return;
      } else {
        addrWidth := value;
      }
    }

    /** `set_DATA_WIDTH`: the value is stored only when the protocol admits it; otherwise nothing changes. */
    method SetDataWidth(value: int)
      modifies this
      ensures DataWidthAccepted(old(protocol), value) ==> Snapshot() == old(Snapshot()).(dataWidth := value)
      ensures !DataWidthAccepted(old(protocol), value) ==> Snapshot() == old(Snapshot())
    {
      var found := SearchDataWidth(value);
      if protocol == "AXI4LITE" && (value == 32 || value == 64) {
        dataWidth := value;
      } else if (protocol == "AXI4" || protocol == "AXI3") && found {
        dataWidth := value;
      }
    }
  }
}
