// The checks `config/axi_memory_map/check_config.py` runs on the bus
// configurations: the checks of one bus (protocol, list lengths, minimum
// range widths, alignment and overlap of the address ranges), and the
// pass over all buses that warns when a child bus's first base address
// is not the base of the range its parent gives it.
module MemoryMapCheck {
  import opened Wrappers
  import opened Builtins
  import opened Configuration
  import opened AddressRanges
  import opened CheckConfig

  /** `BUS_NAMES`: the file each child bus's configuration is read from. */
  const BUS_FILE_NAMES: map<string, string> := map["MBUS" := "config_main_bus.csv", "PBUS" := "config_peripheral_bus.csv"]

  /** `check_single_config`: the per-bus checks without the core selection, with the strict overlap test. */
  function SingleConfig(m: AddressMap): Returned
  {
    if m.protocol !in VALID_PROTOCOLS then ReturnsFalse
    else if m.numMI != |m.rangeNames| || m.numMI != |m.baseAddr| || m.numMI != |m.rangeAddrWidth| then ReturnsFalse
    else if !WidthsAccepted(m.protocol, m.rangeAddrWidth) then ReturnsFalse
    else
      AcceptedWidthsArePositive(m.protocol, m.rangeAddrWidth);
      RangeCheck(StrictOrShared, HexParsed(m.baseAddr), m.rangeAddrWidth)
  }

  /** `check_single_config` returns `None` exactly when protocol, lengths, widths and ranges are valid. */
  lemma SingleConfigAccepts(m: AddressMap)
    ensures SingleConfig(m) == ReturnsNone <==>
      m.protocol in VALID_PROTOCOLS && LengthsMatch(m) && WidthsAccepted(m.protocol, m.rangeAddrWidth) &&
      (AcceptedWidthsArePositive(m.protocol, m.rangeAddrWidth);
       RangesWellFormed(HexParsed(m.baseAddr), m.rangeAddrWidth))
    ensures SingleConfig(m) == ReturnsNone || SingleConfig(m) == ReturnsFalse || SingleConfig(m) == Raises(ValueError)
  {
    if m.protocol in VALID_PROTOCOLS && LengthsMatch(m) && WidthsAccepted(m.protocol, m.rangeAddrWidth) {
      AcceptedWidthsArePositive(m.protocol, m.rangeAddrWidth);
      RangeCheckAccepts(StrictOrShared, HexParsed(m.baseAddr), m.rangeAddrWidth);
      RangeCheckEnds(StrictOrShared, HexParsed(m.baseAddr), m.rangeAddrWidth, 0, [], []);
    }
  }

  /** On a bus whose core selection is valid, both checkers give the same verdict on one bus. */
  lemma SingleConfigAgreesWithIntraConfig(m: AddressMap)
    requires CoreSelectionValid(m)
    ensures SingleConfig(m) == IntraConfig(m)
  {
    if m.protocol in VALID_PROTOCOLS && LengthsMatch(m) && WidthsAccepted(m.protocol, m.rangeAddrWidth) {
      AcceptedWidthsArePositive(m.protocol, m.rangeAddrWidth);
      RangeChecksAgree(HexParsed(m.baseAddr), m.rangeAddrWidth);
    }
  }

  method CheckSingleConfig(config: Configuration, configFileName: string) returns (r: Returned)
    ensures r == SingleConfig(MapOf(config))
  {
    if config.protocol !in VALID_PROTOCOLS {
      return ReturnsFalse;
    }
    if config.numMI != |config.rangeNames| {
      return ReturnsFalse;
    }
    if config.numMI != |config.baseAddr| {
      return ReturnsFalse;
    }
    if config.numMI != |config.rangeAddrWidth| {
      return ReturnsFalse;
    }
    var ok := CheckMinWidths(config.protocol, config.rangeAddrWidth);
    if !ok {
      return ReturnsFalse;
    }
    AcceptedWidthsArePositive(config.protocol, config.rangeAddrWidth);
    r := CheckRanges(StrictOrShared, HexParsed(config.baseAddr), config.rangeAddrWidth);
  }

  // ---------------------------------------------------------------------
  // The status over all buses
  // ---------------------------------------------------------------------

  /**
   * The status loop of `check_configs` as written, from bus `i` on: each
   * bus's verdict replaces `status`, so only the last bus's verdict is
   * left. A file-name list shorter than the bus list raises `IndexError`.
   */
  function StatusFrom(maps: seq<AddressMap>, fileNames: seq<string>, i: nat, status: Returned): Returned
    requires i <= |maps|
    decreases |maps| - i
  {
    if i == |maps| then status
    else if i >= |fileNames| then Raises(IndexError)
    else match SingleConfig(maps[i])
      case Raises(e) => Raises(e)
      case r => StatusFrom(maps, fileNames, i + 1, r)
  }

  /** The status loop as intended: once a bus fails, the status stays `False`. */
  function IntendedStatusFrom(maps: seq<AddressMap>, fileNames: seq<string>, i: nat, status: Returned): Returned
    requires i <= |maps|
    decreases |maps| - i
  {
    if i == |maps| then status
    else if i >= |fileNames| then Raises(IndexError)
    else match SingleConfig(maps[i])
      case Raises(e) => Raises(e)
      case r => IntendedStatusFrom(maps, fileNames, i + 1, if status == ReturnsFalse then ReturnsFalse else r)
  }

  /** No bus's check raises, and there is a file name for every bus. */
  predicate Checkable(maps: seq<AddressMap>, fileNames: seq<string>)
  {
    |fileNames| >= |maps| && forall k :: 0 <= k < |maps| ==> !SingleConfig(maps[k]).Raises?
  }

  /** Some bus fails its checks. */
  predicate SomeBusFails(maps: seq<AddressMap>)
  {
    exists k :: 0 <= k < |maps| && SingleConfig(maps[k]) == ReturnsFalse
  }

  /** As written, the status after the loop is the last bus's verdict, whatever the others returned. */
  lemma {:induction false} StatusIsLastVerdict(maps: seq<AddressMap>, fileNames: seq<string>, i: nat, status: Returned)
    requires Checkable(maps, fileNames) && i < |maps|
    ensures StatusFrom(maps, fileNames, i, status) == SingleConfig(maps[|maps| - 1])
    decreases |maps| - i
  {
    if i + 1 < |maps| {
      StatusIsLastVerdict(maps, fileNames, i + 1, SingleConfig(maps[i]));
    }
  }

  /** Some bus from bus `i` on fails its checks. */
  predicate FailsFrom(maps: seq<AddressMap>, i: nat)
    decreases |maps| - i
  {
    i < |maps| && (SingleConfig(maps[i]) == ReturnsFalse || FailsFrom(maps, i + 1))
  }

  lemma {:induction false} FailsFromSomeBus(maps: seq<AddressMap>, i: nat)
    requires i <= |maps|
    ensures FailsFrom(maps, i) <==> exists k :: i <= k < |maps| && SingleConfig(maps[k]) == ReturnsFalse
    decreases |maps| - i
  {
    if i < |maps| {
      FailsFromSomeBus(maps, i + 1);
      var here := SingleConfig(maps[i]) == ReturnsFalse;
      if here {
        assert i <= i < |maps| && SingleConfig(maps[i]) == ReturnsFalse;
      } else if exists k :: i <= k < |maps| && SingleConfig(maps[k]) == ReturnsFalse {
        var k :| i <= k < |maps| && SingleConfig(maps[k]) == ReturnsFalse;
        assert i + 1 <= k;
      }
    }
  }

  /** As intended, the status after the loop is `False` exactly when the status was, or some later bus fails. */
  lemma {:induction false} IntendedStatusFromFails(maps: seq<AddressMap>, fileNames: seq<string>, i: nat, status: Returned)
    requires Checkable(maps, fileNames) && i <= |maps| && !status.Raises?
    ensures var st := IntendedStatusFrom(maps, fileNames, i, status);
      !st.Raises? && (st == ReturnsFalse <==> status == ReturnsFalse || FailsFrom(maps, i))
    decreases |maps| - i
  {
    if i < |maps| {
      var r := SingleConfig(maps[i]);
      assert !r.Raises?;
      var next := if status == ReturnsFalse then ReturnsFalse else r;
      assert IntendedStatusFrom(maps, fileNames, i, status) == IntendedStatusFrom(maps, fileNames, i + 1, next);
      IntendedStatusFromFails(maps, fileNames, i + 1, next);
    }
  }

  // ---------------------------------------------------------------------
  // The warning pass
  // ---------------------------------------------------------------------

  /** `path.split('/')[-1]`: what follows the last slash, or the whole path when it has none. */
  function Basename(path: string): (name: string)
    ensures '/' !in name && |name| <= |path|
  {
    if |path| == 0 || path[|path| - 1] == '/' then ""
    else Basename(path[..|path| - 1]) + [path[|path| - 1]]
  }

  /** The base name is the whole path, or the text after a slash that ends the rest of it. */
  lemma {:induction false} BasenameIsSuffix(path: string)
    ensures var name := Basename(path);
      name == path[|path| - |name|..] && (name == path || path[|path| - |name| - 1] == '/')
    decreases |path|
  {
    if |path| > 0 && path[|path| - 1] != '/' {
      var init := path[..|path| - 1];
      BasenameIsSuffix(init);
      var name := Basename(init);
      assert Basename(path) == name + [path[|path| - 1]];
      assert init[|init| - |name|..] + [path[|path| - 1]] == path[|path| - |name| - 1..];
      if name != init {
        assert path[|path| - |name| - 2] == init[|init| - |name| - 1];
      } else {
        assert init + [path[|path| - 1]] == path;
      }
    }
  }

  /** Both halves of a pass must go through; an `IndexError` (`None`) in either ends it. */
  function Then(first: Option<seq<string>>, rest: Option<seq<string>>): Option<seq<string>>
  {
    if first.None? || rest.None? then None else Some(first.value + rest.value)
  }

  lemma ThenNothingFirst(rest: Option<seq<string>>)
    ensures Then(Some([]), rest) == rest
  {
    if rest.Some? {
      assert [] + rest.value == rest.value;
    }
  }

  lemma ThenGrows(done: seq<string>, found: seq<string>, rest: Option<seq<string>>)
    ensures Then(Some(done), Then(Some(found), rest)) == Then(Some(done + found), rest)
  {
    if rest.Some? {
      assert done + (found + rest.value) == done + found + rest.value;
    }
  }

  /**
   * The loop over file names from `k` on for range `j` of bus `i`: a
   * warning names the range whose child bus, read from that file, does
   * not start at the range's base.
   */
  function WarnChildren(maps: seq<AddressMap>, fileNames: seq<string>, i: nat, j: nat, k: nat): (o: Option<seq<string>>)
    requires i < |maps| && j < |maps[i].rangeNames| && maps[i].rangeNames[j] in BUS_FILE_NAMES && k <= |fileNames|
    ensures o.Some? ==> forall w :: w in o.value ==> w == maps[i].rangeNames[j]
    decreases |fileNames| - k
  {
    if k == |fileNames| then Some([])
    else if BUS_FILE_NAMES[maps[i].rangeNames[j]] == Basename(fileNames[k]) then
      if k >= |maps| || |maps[k].baseAddr| == 0 || j >= |maps[i].baseAddr| then None
      else
        var warning := if maps[k].baseAddr[0] != maps[i].baseAddr[j] then [maps[i].rangeNames[j]] else [];
        Then(Some(warning), WarnChildren(maps, fileNames, i, j, k + 1))
    else WarnChildren(maps, fileNames, i, j, k + 1)
  }

  /** A file of another bus is skipped. */
  lemma WarnChildSkipped(maps: seq<AddressMap>, fileNames: seq<string>, i: nat, j: nat, k: nat)
    requires i < |maps| && j < |maps[i].rangeNames| && maps[i].rangeNames[j] in BUS_FILE_NAMES && k < |fileNames|
    requires BUS_FILE_NAMES[maps[i].rangeNames[j]] != Basename(fileNames[k])
    ensures WarnChildren(maps, fileNames, i, j, k) == WarnChildren(maps, fileNames, i, j, k + 1)
  {
  }

  /** The child's file without a configuration or a base address raises `IndexError`. */
  lemma WarnChildFails(maps: seq<AddressMap>, fileNames: seq<string>, i: nat, j: nat, k: nat)
    requires i < |maps| && j < |maps[i].rangeNames| && maps[i].rangeNames[j] in BUS_FILE_NAMES && k < |fileNames|
    requires BUS_FILE_NAMES[maps[i].rangeNames[j]] == Basename(fileNames[k])
    requires k >= |maps| || |maps[k].baseAddr| == 0 || j >= |maps[i].baseAddr|
    ensures WarnChildren(maps, fileNames, i, j, k) == None
  {
  }

  /** The child's file: a warning when its first base address is not the parent's range base. */
  lemma WarnChildFound(maps: seq<AddressMap>, fileNames: seq<string>, i: nat, j: nat, k: nat)
    requires i < |maps| && j < |maps[i].rangeNames| && maps[i].rangeNames[j] in BUS_FILE_NAMES && k < |fileNames|
    requires BUS_FILE_NAMES[maps[i].rangeNames[j]] == Basename(fileNames[k])
    requires k < |maps| && |maps[k].baseAddr| > 0 && j < |maps[i].baseAddr|
    ensures WarnChildren(maps, fileNames, i, j, k) ==
      Then(Some(if maps[k].baseAddr[0] != maps[i].baseAddr[j] then [maps[i].rangeNames[j]] else []), WarnChildren(maps, fileNames, i, j, k + 1))
  {
  }

  /** The loop over the ranges of bus `i` from range `j` on. */
  function WarnRanges(maps: seq<AddressMap>, fileNames: seq<string>, i: nat, j: nat): (o: Option<seq<string>>)
    requires i < |maps|
    ensures o.Some? ==> forall w :: w in o.value ==> w in BUS_FILE_NAMES
    decreases maps[i].numMI - j
  {
    if j >= maps[i].numMI then Some([])
    else if j >= |maps[i].rangeNames| then None
    else if maps[i].rangeNames[j] in BUS_FILE_NAMES then
      Then(WarnChildren(maps, fileNames, i, j, 0), WarnRanges(maps, fileNames, i, j + 1))
    else WarnRanges(maps, fileNames, i, j + 1)
  }

  /** The loop over the buses from bus `i` on. */
  function WarnFrom(maps: seq<AddressMap>, fileNames: seq<string>, i: nat): (o: Option<seq<string>>)
    requires i <= |maps|
    ensures o.Some? ==> forall w :: w in o.value ==> w in BUS_FILE_NAMES
    decreases |maps| - i
  {
    if i == |maps| then Some([])
    else Then(WarnRanges(maps, fileNames, i, 0), WarnFrom(maps, fileNames, i + 1))
  }

  /** What `check_configs` returns, with the warnings it prints, in order. */
  datatype Report = Report(r: Returned, warnings: seq<string>)

  /** The end of `check_configs` once the status loop has left `status`. */
  function Finish(maps: seq<AddressMap>, fileNames: seq<string>, status: Returned): (report: Report)
    ensures report.r != ReturnsTrue
    ensures status == ReturnsFalse ==> report == Report(ReturnsFalse, [])
  {
    if status.Raises? then Report(status, [])
    else if status == ReturnsFalse then Report(ReturnsFalse, [])
    else match WarnFrom(maps, fileNames, 0)
      case None => Report(Raises(IndexError), [])
      case Some(warnings) => Report(ReturnsNone, warnings)
  }

  /** `check_configs` as written. */
  function ConfigsChecked(maps: seq<AddressMap>, fileNames: seq<string>): Report
  {
    Finish(maps, fileNames, StatusFrom(maps, fileNames, 0, ReturnsTrue))
  }

  /** `check_configs` as intended: `False` when any bus fails. */
  function ConfigsCheckedIntended(maps: seq<AddressMap>, fileNames: seq<string>): Report
  {
    Finish(maps, fileNames, IntendedStatusFrom(maps, fileNames, 0, ReturnsTrue))
  }

  /** As written, the whole check fails exactly when the last bus fails. */
  lemma ConfigsCheckedFollowsLastBus(maps: seq<AddressMap>, fileNames: seq<string>)
    requires Checkable(maps, fileNames) && |maps| > 0
    ensures ConfigsChecked(maps, fileNames).r == ReturnsFalse <==> SingleConfig(maps[|maps| - 1]) == ReturnsFalse
  {
    StatusIsLastVerdict(maps, fileNames, 0, ReturnsTrue);
  }

  /** As intended, the whole check fails exactly when some bus fails. */
  lemma ConfigsCheckedIntendedFails(maps: seq<AddressMap>, fileNames: seq<string>)
    requires Checkable(maps, fileNames)
    ensures ConfigsCheckedIntended(maps, fileNames).r == ReturnsFalse <==> SomeBusFails(maps)
  {
    IntendedStatusFromFails(maps, fileNames, 0, ReturnsTrue);
    FailsFromSomeBus(maps, 0);
  }

  /**
   * A main bus with an invalid protocol followed by a valid, empty
   * peripheral bus: the check as written overwrites the main bus's
   * `False` with the peripheral bus's `None` and passes the pair; the
   * intended check fails it.
   */
  lemma ConfigsCheckedKeepsOnlyLastStatus()
    ensures var maps := [AddressMap("MBUS", "", [], "AXI3", 32, 0, [], [], []), AddressMap("PBUS", "", [], "AXI4", 32, 0, [], [], [])];
      var fileNames := ["config_main_bus.csv", "config_peripheral_bus.csv"];
      ConfigsChecked(maps, fileNames) == Report(ReturnsNone, []) &&
      ConfigsCheckedIntended(maps, fileNames) == Report(ReturnsFalse, [])
  {
    var maps := [AddressMap("MBUS", "", [], "AXI3", 32, 0, [], [], []), AddressMap("PBUS", "", [], "AXI4", 32, 0, [], [], [])];
    var fileNames := ["config_main_bus.csv", "config_peripheral_bus.csv"];
    assert "AXI3" !in VALID_PROTOCOLS;
    assert SingleConfig(maps[0]) == ReturnsFalse;
    assert HexParsed([]) == [];
    assert RangeCheck(StrictOrShared, [], []) == ReturnsNone;
    assert SingleConfig(maps[1]) == ReturnsNone;
    assert StatusFrom(maps, fileNames, 1, ReturnsFalse) == ReturnsNone;
    assert IntendedStatusFrom(maps, fileNames, 1, ReturnsFalse) == ReturnsFalse;
    assert WarnRanges(maps, fileNames, 0, 0) == Some([]);
    assert WarnRanges(maps, fileNames, 1, 0) == Some([]);
    assert WarnFrom(maps, fileNames, 2) == Some([]);
    ThenNothingFirst(Some([]));
    assert WarnFrom(maps, fileNames, 1) == Some([]);
    assert WarnFrom(maps, fileNames, 0) == Some([]);
  }

  // ---------------------------------------------------------------------
  // `check_configs` on configuration objects
  // ---------------------------------------------------------------------

  /** The loop over file names for range `j` of bus `i`. */
  method WarnForRange(configs: seq<Configuration>, fileNames: seq<string>, i: nat, j: nat) returns (o: Option<seq<string>>)
    requires i < |configs| && j < |configs[i].rangeNames| && configs[i].rangeNames[j] in BUS_FILE_NAMES
    ensures o == WarnChildren(Maps(configs), fileNames, i, j, 0)
  {
    var maps := Maps(configs);
    var name := maps[i].rangeNames[j];
    var warnings: seq<string> := [];
    ThenNothingFirst(WarnChildren(maps, fileNames, i, j, 0));
    var k := 0;
    while k < |fileNames|
      invariant 0 <= k <= |fileNames|
      invariant WarnChildren(maps, fileNames, i, j, 0) == Then(Some(warnings), WarnChildren(maps, fileNames, i, j, k))
    {
      if BUS_FILE_NAMES[name] == Basename(fileNames[k]) {
        if k >= |maps| || |maps[k].baseAddr| == 0 || j >= |maps[i].baseAddr| {
          WarnChildFails(maps, fileNames, i, j, k);
          return None;
        }
        var warning := if maps[k].baseAddr[0] != maps[i].baseAddr[j] then [name] else [];
        WarnChildFound(maps, fileNames, i, j, k);
        ThenGrows(warnings, warning, WarnChildren(maps, fileNames, i, j, k + 1));
        warnings := warnings + warning;
      } else {
        WarnChildSkipped(maps, fileNames, i, j, k);
      }
      k := k + 1;
    }
    assert warnings + [] == warnings;
    o := Some(warnings);
  }

  /** The loop over the ranges of bus `i`. */
  method WarnForBus(configs: seq<Configuration>, fileNames: seq<string>, i: nat) returns (o: Option<seq<string>>)
    requires i < |configs|
    ensures o == WarnRanges(Maps(configs), fileNames, i, 0)
  {
    ghost var maps := Maps(configs);
    var config := configs[i];
    assert maps[i] == MapOf(config);
    var warnings: seq<string> := [];
    ThenNothingFirst(WarnRanges(maps, fileNames, i, 0));
    var j := 0;
    while j < config.numMI
      invariant 0 <= j <= config.numMI
      invariant WarnRanges(maps, fileNames, i, 0) == Then(Some(warnings), WarnRanges(maps, fileNames, i, j))
    {
      if j >= |config.rangeNames| {
        assert WarnRanges(maps, fileNames, i, j) == None;
        return None;
      }
      if config.rangeNames[j] in BUS_FILE_NAMES {
        var found := WarnForRange(configs, fileNames, i, j);
        if found.None? {
          assert WarnRanges(maps, fileNames, i, j) == None;
          return None;
        }
        ThenGrows(warnings, found.value, WarnRanges(maps, fileNames, i, j + 1));
        warnings := warnings + found.value;
      }
      j := j + 1;
    }
    assert warnings + [] == warnings;
    o := Some(warnings);
  }

  /** The warning pass over all buses. */
  method WarnForAll(configs: seq<Configuration>, fileNames: seq<string>) returns (o: Option<seq<string>>)
    ensures o == WarnFrom(Maps(configs), fileNames, 0)
  {
    ghost var maps := Maps(configs);
    var warnings: seq<string> := [];
    ThenNothingFirst(WarnFrom(maps, fileNames, 0));
    var i := 0;
    while i < |configs|
      invariant 0 <= i <= |configs|
      invariant WarnFrom(maps, fileNames, 0) == Then(Some(warnings), WarnFrom(maps, fileNames, i))
    {
      var found := WarnForBus(configs, fileNames, i);
      if found.None? {
        return None;
      }
      ThenGrows(warnings, found.value, WarnFrom(maps, fileNames, i + 1));
      warnings := warnings + found.value;
      i := i + 1;
    }
    assert warnings + [] == warnings;
    o := Some(warnings);
  }

  method CheckConfigs(configs: seq<Configuration>, fileNames: seq<string>) returns (report: Report)
    ensures report == ConfigsChecked(Maps(configs), fileNames)
  {
    ghost var maps := Maps(configs);
    var status := ReturnsTrue;
    var i := 0;
    while i < |configs|
      invariant 0 <= i <= |configs|
      invariant !status.Raises?
      invariant StatusFrom(maps, fileNames, i, status) == StatusFrom(maps, fileNames, 0, ReturnsTrue)
    {
      if i >= |fileNames| {
        return Report(Raises(IndexError), []);
      }
      assert maps[i] == MapOf(configs[i]);
      status := CheckSingleConfig(configs[i], fileNames[i]);
      if status.Raises? {
        return Report(status, []);
      }
      i := i + 1;
    }
    if status == ReturnsFalse {
      return Report(ReturnsFalse, []);
    }
    var warnings := WarnForAll(configs, fileNames);
    if warnings.None? {
      return Report(Raises(IndexError), []);
    }
    report := Report(ReturnsNone, warnings.value);
  }
}
