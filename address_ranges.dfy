// The address-map rules both configuration checkers apply to a bus: the
// protocol is AXI4 or AXI4LITE, there is one range name, base address
// and range width per master interface, each range width is at least the
// protocol's minimum, and the ranges [base, base + 2^width - 1] are
// aligned to their size and do not overlap one another.
//
// The two checkers write the overlap test differently (one with
// inclusive comparisons, the other with strict comparisons plus shared
// endpoints); both are shown to be closed-interval intersection, so the
// range loop reaches the same verdict with either.
module AddressRanges {
  import opened Wrappers
  import opened Builtins
  import opened Configuration

  /** How a checker ends: the `False` or `True` it returns, the `None` it falls off the end with, or an exception. */
  datatype Returned = ReturnsFalse | ReturnsNone | ReturnsTrue | Raises(error: Exception)

  /** The properties of a bus configuration the checkers read. */
  datatype AddressMap = AddressMap(
    busName: string,
    coreSelector: string,
    supportedCores: seq<string>,
    protocol: string,
    addrWidth: int,
    numMI: nat,
    rangeNames: seq<string>,
    baseAddr: seq<string>,
    rangeAddrWidth: seq<int>)

  /** The address map of a configuration object. */
  function MapOf(config: Configuration): AddressMap
    reads config
  {
    AddressMap(config.busName, config.coreSelector, config.supportedCores, config.protocol, config.addrWidth,
      config.numMI, config.rangeNames, config.baseAddr, config.rangeAddrWidth)
  }

  const VALID_PROTOCOLS: seq<string> := ["AXI4", "AXI4LITE"]
  const MIN_AXI4_ADDR_WIDTH: int := 12
  const MIN_AXI4LITE_ADDR_WIDTH: int := 1

  /** `config.NUM_MI` matches the number of range names, base addresses and range widths. */
  predicate LengthsMatch(m: AddressMap)
  {
    m.numMI == |m.rangeNames| && m.numMI == |m.baseAddr| && m.numMI == |m.rangeAddrWidth|
  }

  /** A range width the minimum-width loop lets through (a width above ADDR_WIDTH only prints an error). */
  predicate WidthAccepted(protocol: string, w: int)
  {
    !(protocol == "AXI4" && w < MIN_AXI4_ADDR_WIDTH) && !(protocol == "AXI4LITE" && w < MIN_AXI4LITE_ADDR_WIDTH)
  }

  predicate WidthsAccepted(protocol: string, widths: seq<int>)
  {
    forall k :: 0 <= k < |widths| ==> WidthAccepted(protocol, widths[k])
  }

  /** Under a valid protocol every accepted width is at least 1, so `2^width` is defined. */
  lemma AcceptedWidthsArePositive(protocol: string, widths: seq<int>)
    requires protocol in VALID_PROTOCOLS && WidthsAccepted(protocol, widths)
    ensures forall k :: 0 <= k < |widths| ==> widths[k] >= 1
  {
  }

  /** The minimum-width loop: it returns `False` at the first width below the protocol's minimum. */
  method CheckMinWidths(protocol: string, widths: seq<int>) returns (ok: bool)
    ensures ok <==> WidthsAccepted(protocol, widths)
  {
    for k := 0 to |widths|
      invariant WidthsAccepted(protocol, widths[..k])
    {
      var w := widths[k];
      if protocol == "AXI4" && w < MIN_AXI4_ADDR_WIDTH {
        assert !WidthAccepted(protocol, widths[k]);
        return false;
      }
      if protocol == "AXI4LITE" && w < MIN_AXI4LITE_ADDR_WIDTH {
        assert !WidthAccepted(protocol, widths[k]);
        return false;
      }
      assert widths[..k + 1] == widths[..k] + [w];
    }
    assert widths[..|widths|] == widths;
    ok := true;
  }

  /** `base + ~(~1 << (width - 1))`: the last address of a range of `2^width` bytes. */
  function LastAddr(base: int, width: int): (e: int)
    requires width >= 1
    ensures e >= base
  {
    base + Pow2(width) - 1
  }

  /**
   * `base & ~(~1 << (width - 1)) == 0`: the base is a multiple of the
   * range size. The mask is `2^width - 1`, and masking a Python integer,
   * negative ones included, leaves its remainder modulo `2^width`.
   */
  predicate Aligned(base: int, width: int)
    requires width >= 1
  {
    base % Pow2(width) == 0
  }

  /** The closed intervals [b, e] and [bj, ej] share an address. */
  predicate Intersect(b: int, e: int, bj: int, ej: int)
  {
    b <= ej && bj <= e
  }

  /** Which of the two overlap tests a checker uses. */
  datatype OverlapTest =
    | Inclusive       // four cases with inclusive comparisons
    | StrictOrShared  // four cases with strict comparisons, or a shared endpoint

  /** Whether the new range [b, e] overlaps the earlier range [bj, ej], by the checker's own test. */
  predicate OverlapsBy(test: OverlapTest, b: int, e: int, bj: int, ej: int)
  {
    match test
    case Inclusive =>
      (b <= ej && b >= bj) || (e >= bj && b <= bj) || (b <= bj && e >= ej) || (b >= bj && e <= ej)
    case StrictOrShared =>
      (b < ej && b > bj) || (e > bj && b < bj) || (b < bj && e > ej) || (b > bj && e < ej) ||
      e == bj || e == ej || b == bj || b == ej
  }

  /** Both overlap tests are closed-interval intersection. */
  lemma OverlapsByIsIntersection(test: OverlapTest, b: int, e: int, bj: int, ej: int)
    requires b <= e && bj <= ej
    ensures OverlapsBy(test, b, e, bj, ej) <==> Intersect(b, e, bj, ej)
  {
  }

  /** The new range overlaps one of the earlier ones. */
  predicate OverlapsAny(test: OverlapTest, b: int, e: int, bases: seq<int>, ends: seq<int>)
    requires |bases| == |ends|
  {
    exists j :: 0 <= j < |bases| && OverlapsBy(test, b, e, bases[j], ends[j])
  }

  /** The inner loop over the earlier ranges; it stops at the first overlap. */
  method OverlapsEarlier(test: OverlapTest, b: int, e: int, bases: seq<int>, ends: seq<int>) returns (found: bool)
    requires |bases| == |ends|
    ensures found <==> OverlapsAny(test, b, e, bases, ends)
  {
    for j := 0 to |bases|
      invariant forall k :: 0 <= k < j ==> !OverlapsBy(test, b, e, bases[k], ends[k])
    {
      if OverlapsBy(test, b, e, bases[j], ends[j]) {
        return true;
      }
    }
    found := false;
  }

  /** `int(v, 16)` for every base address, in order; `None` stands for the `ValueError`. */
  function HexParsed(values: seq<string>): (numbers: seq<Option<int>>)
    ensures |numbers| == |values| && forall i :: 0 <= i < |values| ==> numbers[i] == ParseHex(values[i])
  {
    seq(|values|, i requires 0 <= i < |values| => ParseHex(values[i]))
  }

  /**
   * The range loop from range `i` on, with `bases` and `ends` the ranges
   * accepted so far: a base `int()` rejects raises `ValueError`, an
   * unaligned base or an overlap with an earlier range returns `False`,
   * and the loop falls off the end (returning `None`) when every range
   * passes.
   */
  function RangeCheckFrom(test: OverlapTest, numbers: seq<Option<int>>, widths: seq<int>, i: nat, bases: seq<int>, ends: seq<int>): Returned
    requires i <= |numbers| == |widths| && |bases| == |ends|
    requires forall k :: 0 <= k < |widths| ==> widths[k] >= 1
    decreases |numbers| - i
  {
    if i == |numbers| then ReturnsNone
    else match numbers[i]
      case None => Raises(ValueError)
      case Some(b) =>
        var e := LastAddr(b, widths[i]);
        if !Aligned(b, widths[i]) then ReturnsFalse
        else if OverlapsAny(test, b, e, bases, ends) then ReturnsFalse
        else RangeCheckFrom(test, numbers, widths, i + 1, bases + [b], ends + [e])
  }

  function RangeCheck(test: OverlapTest, numbers: seq<Option<int>>, widths: seq<int>): Returned
    requires |numbers| == |widths|
    requires forall k :: 0 <= k < |widths| ==> widths[k] >= 1
  {
    RangeCheckFrom(test, numbers, widths, 0, [], [])
  }

  /**
   * The range loop of the checkers, given `int(base, 16)` of every base
   * address (`numbers`, as `HexParsed` gives them).
   */
  method CheckRanges(test: OverlapTest, numbers: seq<Option<int>>, widths: seq<int>) returns (r: Returned)
    requires |numbers| == |widths|
    requires forall k :: 0 <= k < |widths| ==> widths[k] >= 1
    ensures r == RangeCheck(test, numbers, widths)
  {
    var bases: seq<int> := [];
    var ends: seq<int> := [];
    var i := 0;
    while i < |numbers|
      invariant 0 <= i <= |numbers| && |bases| == |ends| == i
      invariant RangeCheckFrom(test, numbers, widths, i, bases, ends) == RangeCheck(test, numbers, widths)
    {
      if numbers[i].None? {
        return Raises(ValueError);
      }
      var b := numbers[i].value;
      var e := LastAddr(b, widths[i]);
      if !Aligned(b, widths[i]) {
        return ReturnsFalse;
      }
      if i > 0 {
        var found := OverlapsEarlier(test, b, e, bases, ends);
        if found {
          return ReturnsFalse;
        }
      }
      bases := bases + [b];
      ends := ends + [e];
      i := i + 1;
    }
    r := ReturnsNone;
  }

  // ---------------------------------------------------------------------
  // What the range loop accepts
  // ---------------------------------------------------------------------

  /** The first `n` ranges all have a base, are aligned, and no two of them intersect. */
  predicate PrefixWellFormed(numbers: seq<Option<int>>, widths: seq<int>, n: nat)
    requires n <= |numbers| == |widths|
    requires forall k :: 0 <= k < |widths| ==> widths[k] >= 1
  {
    (forall k :: 0 <= k < n ==> numbers[k].Some? && Aligned(numbers[k].value, widths[k])) &&
    (forall j, k :: 0 <= j < k < n && numbers[j].Some? && numbers[k].Some? ==>
      !Intersect(numbers[k].value, LastAddr(numbers[k].value, widths[k]), numbers[j].value, LastAddr(numbers[j].value, widths[j])))
  }

  /** Every range has a base, is aligned to its size, and no two ranges share an address. */
  predicate RangesWellFormed(numbers: seq<Option<int>>, widths: seq<int>)
    requires |numbers| == |widths|
    requires forall k :: 0 <= k < |widths| ==> widths[k] >= 1
  {
    PrefixWellFormed(numbers, widths, |numbers|)
  }

  /** `bases` and `ends` hold exactly the first `i` ranges. */
  predicate Accumulated(numbers: seq<Option<int>>, widths: seq<int>, i: nat, bases: seq<int>, ends: seq<int>)
    requires i <= |numbers| == |widths|
    requires forall k :: 0 <= k < |widths| ==> widths[k] >= 1
  {
    |bases| == i && |ends| == i &&
    forall k :: 0 <= k < i ==> numbers[k].Some? && bases[k] == numbers[k].value && ends[k] == LastAddr(bases[k], widths[k])
  }

  lemma {:induction false} RangeCheckFromAccepts(test: OverlapTest, numbers: seq<Option<int>>, widths: seq<int>, i: nat, bases: seq<int>, ends: seq<int>)
    requires i <= |numbers| == |widths|
    requires forall k :: 0 <= k < |widths| ==> widths[k] >= 1
    requires Accumulated(numbers, widths, i, bases, ends) && PrefixWellFormed(numbers, widths, i)
    ensures RangeCheckFrom(test, numbers, widths, i, bases, ends) == ReturnsNone <==> RangesWellFormed(numbers, widths)
    decreases |numbers| - i
  {
    if i < |numbers| {
      match numbers[i]
      case None =>
        BadRangeNotWellFormed(numbers, widths, i);
      case Some(b) =>
        var e := LastAddr(b, widths[i]);
        if !Aligned(b, widths[i]) {
          BadRangeNotWellFormed(numbers, widths, i);
        } else if OverlapsAny(test, b, e, bases, ends) {
          OverlapNotWellFormed(test, numbers, widths, i, bases, ends);
        } else {
          PrefixExtends(test, numbers, widths, i, bases, ends);
          RangeCheckFromAccepts(test, numbers, widths, i + 1, bases + [b], ends + [e]);
        }
    }
  }

  /** A range without a base, or not aligned to its size, spoils the whole list. */
  lemma BadRangeNotWellFormed(numbers: seq<Option<int>>, widths: seq<int>, i: nat)
    requires i < |numbers| == |widths|
    requires forall k :: 0 <= k < |widths| ==> widths[k] >= 1
    requires numbers[i].None? || !Aligned(numbers[i].value, widths[i])
    ensures !RangesWellFormed(numbers, widths)
  {
  }

  /** A range that overlaps an earlier one spoils the whole list. */
  lemma OverlapNotWellFormed(test: OverlapTest, numbers: seq<Option<int>>, widths: seq<int>, i: nat, bases: seq<int>, ends: seq<int>)
    requires i < |numbers| == |widths|
    requires forall k :: 0 <= k < |widths| ==> widths[k] >= 1
    requires Accumulated(numbers, widths, i, bases, ends) && numbers[i].Some?
    requires OverlapsAny(test, numbers[i].value, LastAddr(numbers[i].value, widths[i]), bases, ends)
    ensures !RangesWellFormed(numbers, widths)
  {
    var b := numbers[i].value;
    var e := LastAddr(b, widths[i]);
    var j :| 0 <= j < |bases| && OverlapsBy(test, b, e, bases[j], ends[j]);
    OverlapsByIsIntersection(test, b, e, bases[j], ends[j]);
    assert numbers[j].Some? && Intersect(numbers[i].value, LastAddr(numbers[i].value, widths[i]), numbers[j].value, LastAddr(numbers[j].value, widths[j]));
  }

  /** An aligned range that overlaps none before it extends the well-formed prefix and the accumulated lists. */
  lemma PrefixExtends(test: OverlapTest, numbers: seq<Option<int>>, widths: seq<int>, i: nat, bases: seq<int>, ends: seq<int>)
    requires i < |numbers| == |widths|
    requires forall k :: 0 <= k < |widths| ==> widths[k] >= 1
    requires Accumulated(numbers, widths, i, bases, ends) && PrefixWellFormed(numbers, widths, i)
    requires numbers[i].Some? && Aligned(numbers[i].value, widths[i])
    requires !OverlapsAny(test, numbers[i].value, LastAddr(numbers[i].value, widths[i]), bases, ends)
    ensures var b := numbers[i].value; var e := LastAddr(b, widths[i]);
      Accumulated(numbers, widths, i + 1, bases + [b], ends + [e]) && PrefixWellFormed(numbers, widths, i + 1)
  {
    var b := numbers[i].value;
    var e := LastAddr(b, widths[i]);
    forall j | 0 <= j < i
      ensures !Intersect(b, e, bases[j], ends[j])
    {
      OverlapsByIsIntersection(test, b, e, bases[j], ends[j]);
    }
  }

  /**
   * The range loop falls off the end exactly when the ranges are well
   * formed; it never returns `True`.
   */
  lemma RangeCheckAccepts(test: OverlapTest, numbers: seq<Option<int>>, widths: seq<int>)
    requires |numbers| == |widths|
    requires forall k :: 0 <= k < |widths| ==> widths[k] >= 1
    ensures RangeCheck(test, numbers, widths) == ReturnsNone <==> RangesWellFormed(numbers, widths)
  {
    RangeCheckFromAccepts(test, numbers, widths, 0, [], []);
  }

  lemma {:induction false} RangeChecksAgreeFrom(numbers: seq<Option<int>>, widths: seq<int>, i: nat, bases: seq<int>, ends: seq<int>)
    requires i <= |numbers| == |widths| && |bases| == |ends|
    requires forall k :: 0 <= k < |widths| ==> widths[k] >= 1
    requires forall k :: 0 <= k < |bases| ==> bases[k] <= ends[k]
    ensures RangeCheckFrom(Inclusive, numbers, widths, i, bases, ends) == RangeCheckFrom(StrictOrShared, numbers, widths, i, bases, ends)
    decreases |numbers| - i
  {
    if i < |numbers| && numbers[i].Some? {
      var b := numbers[i].value;
      var e := LastAddr(b, widths[i]);
      forall j | 0 <= j < |bases|
        ensures OverlapsBy(Inclusive, b, e, bases[j], ends[j]) <==> OverlapsBy(StrictOrShared, b, e, bases[j], ends[j])
      {
        OverlapsByIsIntersection(Inclusive, b, e, bases[j], ends[j]);
        OverlapsByIsIntersection(StrictOrShared, b, e, bases[j], ends[j]);
      }
      RangeChecksAgreeFrom(numbers, widths, i + 1, bases + [b], ends + [e]);
    }
  }

  /** The two checkers' range loops reach the same verdict on every bus. */
  lemma RangeChecksAgree(numbers: seq<Option<int>>, widths: seq<int>)
    requires |numbers| == |widths|
    requires forall k :: 0 <= k < |widths| ==> widths[k] >= 1
    ensures RangeCheck(Inclusive, numbers, widths) == RangeCheck(StrictOrShared, numbers, widths)
  {
    RangeChecksAgreeFrom(numbers, widths, 0, [], []);
  }
}
