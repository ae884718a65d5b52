// The checks `config/scripts/check_config.py` runs on the bus
// configurations before the hardware is generated: the checks of one
// bus on its own (core selection, protocol, list lengths, minimum range
// widths, alignment and overlap of the address ranges), and the check
// across buses that a child bus's address space lies inside the range
// its parent bus gives it.
module CheckConfig {
  import opened Wrappers
  import opened Builtins
  import opened Configuration
  import opened AddressRanges

  /** `BUS_NAMES.values()`: the names a range of a parent bus takes when it leads to a child bus. */
  const BUS_NAME_VALUES: seq<string> := ["MBUS", "PBUS"]

  /** Only the main bus may select a core, and it must select a supported one. */
  predicate CoreSelectionValid(m: AddressMap)
  {
    if m.busName == "MBUS" then m.coreSelector in m.supportedCores else m.coreSelector == ""
  }

  /**
   * `check_intra_config`: `False` at the first failed check, otherwise the
   * range loop's verdict, `None` when every range passes.
   */
  function IntraConfig(m: AddressMap): Returned
  {
    if m.busName == "MBUS" && m.coreSelector !in m.supportedCores then ReturnsFalse
    else if m.busName != "MBUS" && m.coreSelector != "" then ReturnsFalse
    else if m.protocol !in VALID_PROTOCOLS then ReturnsFalse
    else if m.numMI != |m.rangeNames| || m.numMI != |m.baseAddr| || m.numMI != |m.rangeAddrWidth| then ReturnsFalse
    else if !WidthsAccepted(m.protocol, m.rangeAddrWidth) then ReturnsFalse
    else
      AcceptedWidthsArePositive(m.protocol, m.rangeAddrWidth);
      RangeCheck(Inclusive, HexParsed(m.baseAddr), m.rangeAddrWidth)
  }

  /** Everything `check_intra_config` demands of a bus. */
  predicate IntraConfigValid(m: AddressMap)
  {
    CoreSelectionValid(m) && m.protocol in VALID_PROTOCOLS && LengthsMatch(m) &&
    WidthsAccepted(m.protocol, m.rangeAddrWidth) &&
    (AcceptedWidthsArePositive(m.protocol, m.rangeAddrWidth);
     RangesWellFormed(HexParsed(m.baseAddr), m.rangeAddrWidth))
  }

  /**
   * `check_intra_config` returns `None` (its success) exactly when the bus
   * is valid, and `False` or a `ValueError` from `int(base, 16)`
   * otherwise; it never returns `True`, which is why its caller fails
   * only on `== False`.
   */
  lemma IntraConfigAccepts(m: AddressMap)
    ensures IntraConfig(m) == ReturnsNone <==> IntraConfigValid(m)
    ensures IntraConfig(m) == ReturnsNone || IntraConfig(m) == ReturnsFalse || IntraConfig(m) == Raises(ValueError)
  {
    if CoreSelectionValid(m) && m.protocol in VALID_PROTOCOLS && LengthsMatch(m) && WidthsAccepted(m.protocol, m.rangeAddrWidth) {
      AcceptedWidthsArePositive(m.protocol, m.rangeAddrWidth);
      RangeCheckAccepts(Inclusive, HexParsed(m.baseAddr), m.rangeAddrWidth);
      RangeCheckEnds(Inclusive, HexParsed(m.baseAddr), m.rangeAddrWidth, 0, [], []);
    }
  }

  /** The range loop ends in `None`, `False` or `ValueError`. */
  lemma {:induction false} RangeCheckEnds(test: OverlapTest, numbers: seq<Option<int>>, widths: seq<int>, i: nat, bases: seq<int>, ends: seq<int>)
    requires i <= |numbers| == |widths| && |bases| == |ends|
    requires forall k :: 0 <= k < |widths| ==> widths[k] >= 1
    ensures var r := RangeCheckFrom(test, numbers, widths, i, bases, ends);
      r == ReturnsNone || r == ReturnsFalse || r == Raises(ValueError)
    decreases |numbers| - i
  {
    if i < |numbers| && numbers[i].Some? {
      var b := numbers[i].value;
      RangeCheckEnds(test, numbers, widths, i + 1, bases + [b], ends + [LastAddr(b, widths[i])]);
    }
  }

  method CheckIntraConfig(config: Configuration, configFileName: string) returns (r: Returned)
    ensures r == IntraConfig(MapOf(config))
  {
    if config.busName == "MBUS" {
      if config.coreSelector !in config.supportedCores {
        return ReturnsFalse;
      }
    } else if config.coreSelector != "" {
      return ReturnsFalse;
    }
    if config.protocol !in VALID_PROTOCOLS {
      return ReturnsFalse;
    }
    if config.numMI != |config.rangeNames| {
      return ReturnsFalse;
    }
    if config.numMI != |config.baseAddr| {
      return ReturnsFalse;
    }
    if config.numMI != |config.rangeAddrWidth| {
      return ReturnsFalse;
    }
    var ok := CheckMinWidths(config.protocol, config.rangeAddrWidth);
    if !ok {
      return ReturnsFalse;
    }
    AcceptedWidthsArePositive(config.protocol, config.rangeAddrWidth);
    r := CheckRanges(Inclusive, HexParsed(config.baseAddr), config.rangeAddrWidth);
  }

  // ---------------------------------------------------------------------
  // Across buses
  // ---------------------------------------------------------------------

  /** Where a loop of the cross-bus check stands: it goes on, or the check ends with `r`. */
  datatype Step = Continue | Stop(r: Returned)

  /** `~(~1 << (width - 1))`, the range mask; a width below 1 is a negative shift count, a `ValueError`. */
  function Mask(width: int): (m: Option<int>)
    ensures width >= 1 ==> m == Some(Pow2(width) - 1)
  {
    if width >= 1 then Some(Pow2(width) - 1) else None
  }

  /**
   * The width of the child's last range: `RANGE_ADDR_WIDTH[-1]` when
   * `useLast`, and `RANGE_ADDR_WIDTH[i]` (the parent's range index) as
   * the check is written; `None` for the `IndexError` of a list too short.
   */
  function ChildWidth(child: AddressMap, i: nat, useLast: bool): Option<int>
  {
    if useLast then (if |child.rangeAddrWidth| == 0 then None else Some(child.rangeAddrWidth[|child.rangeAddrWidth| - 1]))
    else (if i < |child.rangeAddrWidth| then Some(child.rangeAddrWidth[i]) else None)
  }

  /**
   * The containment test for parent range `i` and a child bus: the child's
   * span runs from its first base to the end of its last range, and must
   * lie within the parent range. The terms are evaluated in the order the
   * check computes them, so the first that fails decides the exception.
   */
  function Contained(parent: AddressMap, i: nat, child: AddressMap, useLast: bool): (s: Step)
    ensures s.Stop? ==> s.r != ReturnsTrue && s.r != ReturnsNone
  {
    if i >= |parent.baseAddr| then Stop(Raises(IndexError))
    else match ParseHex(parent.baseAddr[i])
      case None => Stop(Raises(ValueError))
      case Some(pb) =>
        if i >= |parent.rangeAddrWidth| then Stop(Raises(IndexError))
        else match Mask(parent.rangeAddrWidth[i])
          case None => Stop(Raises(ValueError))
          case Some(pm) =>
            if |child.baseAddr| == 0 then Stop(Raises(IndexError))
            else match ParseHex(child.baseAddr[0])
              case None => Stop(Raises(ValueError))
              case Some(cb) =>
                match ParseHex(child.baseAddr[|child.baseAddr| - 1])
                case None => Stop(Raises(ValueError))
                case Some(ct) =>
                  match ChildWidth(child, i, useLast)
                  case None => Stop(Raises(IndexError))
                  case Some(cw) =>
                    match Mask(cw)
                    case None => Stop(Raises(ValueError))
                    case Some(cm) =>
                      if cb < pb || ct + cm > pb + pm then Stop(ReturnsFalse) else Continue
  }

  /** The loop over the buses a parent's range `i` names, from bus `q` on. */
  function ChildrenFrom(maps: seq<AddressMap>, parent: AddressMap, i: nat, q: nat, useLast: bool): (s: Step)
    requires i < |parent.rangeNames| && q <= |maps|
    ensures s.Stop? ==> s.r != ReturnsTrue && s.r != ReturnsNone
    decreases |maps| - q
  {
    if q == |maps| then Continue
    else if maps[q].busName == parent.rangeNames[i] then
      match Contained(parent, i, maps[q], useLast)
      case Continue => ChildrenFrom(maps, parent, i, q + 1, useLast)
      case Stop(r) => Stop(r)
    else ChildrenFrom(maps, parent, i, q + 1, useLast)
  }

  /** The loop over a parent's ranges from range `i` on. */
  function RangesFrom(maps: seq<AddressMap>, parent: AddressMap, i: nat, useLast: bool): (s: Step)
    ensures s.Stop? ==> s.r != ReturnsTrue && s.r != ReturnsNone
    decreases parent.numMI - i
  {
    if i >= parent.numMI then Continue
    else if i >= |parent.rangeNames| then Stop(Raises(IndexError))
    else if parent.rangeNames[i] in BUS_NAME_VALUES then
      match ChildrenFrom(maps, parent, i, 0, useLast)
      case Continue => RangesFrom(maps, parent, i + 1, useLast)
      case Stop(r) => Stop(r)
    else RangesFrom(maps, parent, i + 1, useLast)
  }

  /** The loop over the parent buses from bus `p` on; `True` when every check passes. */
  function InterFrom(maps: seq<AddressMap>, p: nat, useLast: bool): (r: Returned)
    requires p <= |maps|
    ensures r != ReturnsNone
    decreases |maps| - p
  {
    if p == |maps| then ReturnsTrue
    else match RangesFrom(maps, maps[p], 0, useLast)
      case Continue => InterFrom(maps, p + 1, useLast)
      case Stop(r) => r
  }

  /** `check_inter_config` as written: the child's last range is sized by the child's width at the parent's index. */
  function InterConfig(maps: seq<AddressMap>): Returned
  {
    InterFrom(maps, 0, false)
  }

  /** `check_inter_config` as intended: the child's last range is sized by the child's last width. */
  function InterConfigIntended(maps: seq<AddressMap>): Returned
  {
    InterFrom(maps, 0, true)
  }

  /** The child's whole address space, from its first base to the end of its last range, lies in parent range `i`. */
  predicate SpanInside(parent: AddressMap, i: nat, child: AddressMap)
  {
    i < |parent.baseAddr| && i < |parent.rangeAddrWidth| && parent.rangeAddrWidth[i] >= 1 &&
    ParseHex(parent.baseAddr[i]).Some? &&
    |child.baseAddr| > 0 && |child.rangeAddrWidth| > 0 &&
    ParseHex(child.baseAddr[0]).Some? && ParseHex(child.baseAddr[|child.baseAddr| - 1]).Some? &&
    child.rangeAddrWidth[|child.rangeAddrWidth| - 1] >= 1 &&
    ParseHex(parent.baseAddr[i]).value <= ParseHex(child.baseAddr[0]).value &&
    LastAddr(ParseHex(child.baseAddr[|child.baseAddr| - 1]).value, child.rangeAddrWidth[|child.rangeAddrWidth| - 1]) <=
      LastAddr(ParseHex(parent.baseAddr[i]).value, parent.rangeAddrWidth[i])
  }

  /** Every bus named by range `i` of `parent`, from bus `q` on, lies inside that range. */
  predicate ChildrenInside(maps: seq<AddressMap>, parent: AddressMap, i: nat, q: nat)
  {
    i < |parent.rangeNames| &&
    forall k :: q <= k < |maps| && maps[k].busName == parent.rangeNames[i] ==> SpanInside(parent, i, maps[k])
  }

  /** From range `i` on, every range of `parent` has a name, and each bus a range leads to lies inside it. */
  predicate RangesInside(maps: seq<AddressMap>, parent: AddressMap, i: nat)
    decreases parent.numMI - i
  {
    i < parent.numMI ==>
      i < |parent.rangeNames| && (parent.rangeNames[i] in BUS_NAME_VALUES ==> ChildrenInside(maps, parent, i, 0)) &&
      RangesInside(maps, parent, i + 1)
  }

  /** Every child bus lies inside the range its parent gives it. */
  predicate ChildrenContained(maps: seq<AddressMap>)
  {
    forall p :: 0 <= p < |maps| ==> RangesInside(maps, maps[p], 0)
  }

  lemma ContainedIntended(parent: AddressMap, i: nat, child: AddressMap)
    ensures Contained(parent, i, child, true) == Continue <==> SpanInside(parent, i, child)
  {
  }

  lemma {:induction false} ChildrenFromIntended(maps: seq<AddressMap>, parent: AddressMap, i: nat, q: nat)
    requires i < |parent.rangeNames| && q <= |maps|
    ensures ChildrenFrom(maps, parent, i, q, true) == Continue <==> ChildrenInside(maps, parent, i, q)
    decreases |maps| - q
  {
    if q < |maps| {
      ChildrenFromIntended(maps, parent, i, q + 1);
      ChildrenInsideStep(maps, parent, i, q);
      if maps[q].busName == parent.rangeNames[i] {
        ContainedIntended(parent, i, maps[q]);
      }
    }
  }

  /** Bus `q` lies inside range `i` if it is named by it, and so do the buses after it. */
  lemma ChildrenInsideStep(maps: seq<AddressMap>, parent: AddressMap, i: nat, q: nat)
    requires i < |parent.rangeNames| && q < |maps|
    ensures ChildrenInside(maps, parent, i, q) <==>
      (maps[q].busName == parent.rangeNames[i] ==> SpanInside(parent, i, maps[q])) && ChildrenInside(maps, parent, i, q + 1)
  {
  }

  lemma {:induction false} RangesFromIntended(maps: seq<AddressMap>, parent: AddressMap, i: nat)
    ensures RangesFrom(maps, parent, i, true) == Continue <==> RangesInside(maps, parent, i)
    decreases parent.numMI - i
  {
    if i < parent.numMI && i < |parent.rangeNames| {
      RangesFromIntended(maps, parent, i + 1);
      if parent.rangeNames[i] in BUS_NAME_VALUES {
        ChildrenFromIntended(maps, parent, i, 0);
      }
    }
  }

  lemma {:induction false} InterFromIntended(maps: seq<AddressMap>, p: nat)
    requires p <= |maps|
    ensures InterFrom(maps, p, true) == ReturnsTrue <==> forall k :: p <= k < |maps| ==> RangesInside(maps, maps[k], 0)
    decreases |maps| - p
  {
    if p < |maps| {
      InterFromIntended(maps, p + 1);
      RangesFromIntended(maps, maps[p], 0);
    }
  }

  /** The intended cross-bus check returns `True` exactly when every child bus lies inside its parent's range. */
  lemma InterConfigIntendedAccepts(maps: seq<AddressMap>)
    ensures InterConfigIntended(maps) == ReturnsTrue <==> ChildrenContained(maps)
  {
    InterFromIntended(maps, 0);
  }

  /** A main bus whose second range, at `0x2` and one bit wide, leads to the peripheral bus. */
  const EXAMPLE_PARENT: AddressMap := AddressMap("MBUS", "CORE_IBEX", SUPPORTED_CORES, "AXI4LITE", 32, 2, ["MEM", "PBUS"], ["0x0", "0x2"], [1, 1])

  /** A peripheral bus with a single range that fills the parent's second range exactly. */
  const EXAMPLE_CHILD: AddressMap := AddressMap("PBUS", "", SUPPORTED_CORES, "AXI4LITE", 32, 1, ["UART"], ["0x2"], [1])

  /** The child's width at the parent's index 1 does not exist; its last width fits the parent range. */
  lemma ExampleContained()
    ensures Contained(EXAMPLE_PARENT, 1, EXAMPLE_CHILD, false) == Stop(Raises(IndexError))
    ensures Contained(EXAMPLE_PARENT, 1, EXAMPLE_CHILD, true) == Continue
  {
    assert ParseHex("0x2") == Some(2) by {
      assert Strip("0x2") == "0x2";
      assert Value("2", 16) == 2 by { assert "2"[..0] == []; }
    }
    assert Mask(1) == Some(1);
  }

  /** The check as written stops at the parent's second range with the `IndexError`. */
  lemma ExampleAsWritten()
    ensures InterConfig([EXAMPLE_PARENT, EXAMPLE_CHILD]) == Raises(IndexError)
  {
    var maps := [EXAMPLE_PARENT, EXAMPLE_CHILD];
    ExampleContained();
    assert "MEM" !in BUS_NAME_VALUES && "PBUS" in BUS_NAME_VALUES;
    assert ChildrenFrom(maps, EXAMPLE_PARENT, 1, 1, false) == Stop(Raises(IndexError));
    assert ChildrenFrom(maps, EXAMPLE_PARENT, 1, 0, false) == Stop(Raises(IndexError));
    assert RangesFrom(maps, EXAMPLE_PARENT, 1, false) == Stop(Raises(IndexError));
    assert RangesFrom(maps, EXAMPLE_PARENT, 0, false) == Stop(Raises(IndexError));
  }

  /** The intended check passes both buses. */
  lemma ExampleIntended()
    ensures InterConfigIntended([EXAMPLE_PARENT, EXAMPLE_CHILD]) == ReturnsTrue
  {
    var maps := [EXAMPLE_PARENT, EXAMPLE_CHILD];
    ExampleContained();
    assert "MEM" !in BUS_NAME_VALUES && "PBUS" in BUS_NAME_VALUES && "UART" !in BUS_NAME_VALUES;
    assert ChildrenFrom(maps, EXAMPLE_PARENT, 1, 2, true) == Continue;
    assert ChildrenFrom(maps, EXAMPLE_PARENT, 1, 1, true) == Continue;
    assert ChildrenFrom(maps, EXAMPLE_PARENT, 1, 0, true) == Continue;
    assert RangesFrom(maps, EXAMPLE_PARENT, 2, true) == Continue;
    assert RangesFrom(maps, EXAMPLE_PARENT, 1, true) == Continue;
    assert RangesFrom(maps, EXAMPLE_PARENT, 0, true) == Continue;
    assert RangesFrom(maps, EXAMPLE_CHILD, 1, true) == Continue;
    assert RangesFrom(maps, EXAMPLE_CHILD, 0, true) == Continue;
    assert InterFrom(maps, 2, true) == ReturnsTrue;
    assert InterFrom(maps, 1, true) == ReturnsTrue;
  }

  /**
   * A main bus whose second range is the peripheral bus, and a peripheral
   * bus with a single range that fills that range exactly: the check as
   * written sizes the child's last range with the child's width at index
   * 1, which does not exist, and raises `IndexError`; the intended check
   * accepts the pair.
   */
  lemma InterConfigIndexesChildByParentRange()
    ensures InterConfig([EXAMPLE_PARENT, EXAMPLE_CHILD]) == Raises(IndexError)
    ensures InterConfigIntended([EXAMPLE_PARENT, EXAMPLE_CHILD]) == ReturnsTrue
  {
    ExampleAsWritten();
    ExampleIntended();
  }

  // ---------------------------------------------------------------------
  // The cross-bus check on configuration objects
  // ---------------------------------------------------------------------

  /** The address maps of a list of configuration objects. */
  function Maps(configs: seq<Configuration>): (maps: seq<AddressMap>)
    reads set c | c in configs
    ensures |maps| == |configs|
    ensures forall k :: 0 <= k < |configs| ==> maps[k] == MapOf(configs[k])
  {
    if configs == [] then [] else [MapOf(configs[0])] + Maps(configs[1..])
  }

  /** The loop over the buses a parent's range names. */
  method CheckChildren(configs: seq<Configuration>, parent: AddressMap, i: nat) returns (s: Step)
    requires i < |parent.rangeNames|
    ensures s == ChildrenFrom(Maps(configs), parent, i, 0, false)
  {
    var maps := Maps(configs);
    var q := 0;
    while q < |maps|
      invariant 0 <= q <= |maps|
      invariant ChildrenFrom(maps, parent, i, q, false) == ChildrenFrom(maps, parent, i, 0, false)
    {
      var child := maps[q];
      if child.busName == parent.rangeNames[i] {
        var step := Contained(parent, i, child, false);
        if step.Stop? {
          ChildrenFromStops(maps, parent, i, q);
          return step;
        }
      }
      ChildrenFromSkips(maps, parent, i, q);
      q := q + 1;
    }
    s := Continue;
  }

  /** A named bus that fails the containment test ends the loop with its verdict. */
  lemma ChildrenFromStops(maps: seq<AddressMap>, parent: AddressMap, i: nat, q: nat)
    requires i < |parent.rangeNames| && q < |maps|
    requires maps[q].busName == parent.rangeNames[i] && Contained(parent, i, maps[q], false).Stop?
    ensures ChildrenFrom(maps, parent, i, q, false) == Contained(parent, i, maps[q], false)
  {
  }

  /** A bus that is not named, or that passes the test, hands the loop on to the next bus. */
  lemma ChildrenFromSkips(maps: seq<AddressMap>, parent: AddressMap, i: nat, q: nat)
    requires i < |parent.rangeNames| && q < |maps|
    requires maps[q].busName == parent.rangeNames[i] ==> Contained(parent, i, maps[q], false) == Continue
    ensures ChildrenFrom(maps, parent, i, q, false) == ChildrenFrom(maps, parent, i, q + 1, false)
  {
  }

  /** The loop over a parent bus's ranges. */
  method CheckRangesOfParent(configs: seq<Configuration>, parent: AddressMap) returns (s: Step)
    ensures s == RangesFrom(Maps(configs), parent, 0, false)
  {
    ghost var maps := Maps(configs);
    var i := 0;
    while i < parent.numMI
      invariant 0 <= i <= parent.numMI
      invariant RangesFrom(maps, parent, i, false) == RangesFrom(maps, parent, 0, false)
    {
      if i >= |parent.rangeNames| {
        return Stop(Raises(IndexError));
      }
      if parent.rangeNames[i] in BUS_NAME_VALUES {
        var step := CheckChildren(configs, parent, i);
        if step.Stop? {
          return step;
        }
      }
      i := i + 1;
    }
    s := Continue;
  }

  method CheckInterConfig(configs: seq<Configuration>) returns (r: Returned)
    ensures r == InterConfig(Maps(configs))
  {
    ghost var maps := Maps(configs);
    var p := 0;
    while p < |configs|
      invariant 0 <= p <= |configs|
      invariant InterFrom(maps, p, false) == InterConfig(maps)
    {
      assert maps[p] == MapOf(configs[p]);
      var step := CheckRangesOfParent(configs, MapOf(configs[p]));
      if step.Stop? {
        return step.r;
      }
      p := p + 1;
    }
    r := ReturnsTrue;
  }
}
