// The property parsers of the crossbar configuration: one parser per CSV
// property, each reading the property's text, checking it against the
// rules of the AXI protocol in use and storing it in the configuration,
// or keeping the default when the value is out of range. Scalar
// properties go through `int()`, which raises `ValueError` on a value
// that is not an integer; list properties append one entry per
// interface (or per master and range, or per master and slave).
//
// Each parser is a method on a `Configuration` proved equal to a
// function on `Settings`; the properties the parsers promise are stated
// about those functions.
module ParseProperties {
  import opened Wrappers
  import opened Builtins
  import opened Configuration
  import opened PropertyLists

  /** The configuration after a parser, and how the parser ended. */
  datatype Outcome = Outcome(settings: Settings, status: Status)

  /**
   * The configuration field a parser shared by several properties writes
   * to, chosen by the property name; `Unmatched` when the name matches
   * none of the parser's cases, so that nothing is stored.
   */
  datatype Field = NumSI | NumMI
                 | IdWidth | AwuserWidth | AruserWidth | WuserWidth | RuserWidth | BuserWidth | AddrRanges
                 | SiReadAcceptance | SiWriteAcceptance | MiReadIssuing | MiWriteIssuing
                 | ReadConnectivity | WriteConnectivity
                 | Unmatched

  /** The property names the parsers match on. */
  function ImplField(name: string): Field
  {
    match name
    case "NUM_SI" => NumSI
    case "NUM_MI" => NumMI
    case "ID_WIDTH" => IdWidth
    case "AWUSER_WIDTH" => AwuserWidth
    case "ARUSER_WIDTH" => AruserWidth
    case "WUSER_WIDTH" => WuserWidth
    case "RUSER_WIDTH" => RuserWidth
    case "BUSER_WIDTH" => BuserWidth
    case "ADDR_RANGES" => AddrRanges
    case "SI_READ_ACCEPTANCE" => SiReadAcceptance
    case "SI_WRITE_ACCEPTANCE" => SiWriteAcceptance
    case "MI_READ_ISSUING" => MiReadIssuing
    case "MI_WRITE_ISSUING" => MiWriteIssuing
    case "READ_CONNECTIVITY" => ReadConnectivity
    case "WRITE_CONNECTIVITY" => WriteConnectivity
    case _ => Unmatched
  }

  /** `int(value)` succeeds and the number lies in `lo..hi`. */
  predicate Accepts(value: string, lo: int, hi: int)
  {
    ParseInt(value).Some? && lo <= ParseInt(value).value <= hi
  }

  /** How a parser that starts with `int(value)` ends. */
  function IntStatus(value: string): Status
  {
    if ParseInt(value).Some? then Ok else Raised(ValueError)
  }

  // ---------------------------------------------------------------------
  // Scalar properties
  // ---------------------------------------------------------------------

  /** The interface count fields, as `Settings` selectors. */
  function WithCount(s: Settings, f: Field, v: nat): Settings
  {
    match f
    case NumSI => s.(numSI := v)
    case NumMI => s.(numMI := v)
    case _ => s
  }

  /** `parse_Interfaces`: NUM_SI and NUM_MI are accepted in 0..16; otherwise the field keeps its value. */
  function Interfaces(s: Settings, f: Field, value: string): (o: Outcome)
    ensures o.status == IntStatus(value)
    ensures o.settings.(numSI := s.numSI, numMI := s.numMI) == s
    ensures o.settings.numSI == if f == NumSI && Accepts(value, 0, 16) then ParseInt(value).value else s.numSI
    ensures o.settings.numMI == if f == NumMI && Accepts(value, 0, 16) then ParseInt(value).value else s.numMI
  {
    match ParseInt(value)
    case None => Outcome(s, Raised(ValueError))
    case Some(v) =>
      Outcome(if 0 <= v <= 16 then WithCount(s, f, v) else s, Ok)
  }

  /** `parse_STRATEGY`: accepted in 0..2. */
  function Strategy(s: Settings, value: string): (o: Outcome)
    ensures o.status == IntStatus(value)
    ensures o.settings.(strategy := s.strategy) == s
    ensures o.settings.strategy == if Accepts(value, 0, 2) then ParseInt(value).value else s.strategy
  {
    match ParseInt(value)
    case None => Outcome(s, Raised(ValueError))
    case Some(v) => Outcome(if 0 <= v <= 2 then s.(strategy := v) else s, Ok)
  }

  /**
   * `parse_R_REGISTER`: forced to 0 when STRATEGY is 2, otherwise
   * accepted in 0..1; the value is read with `int()` in every case.
   */
  function RRegister(s: Settings, value: string): (o: Outcome)
    ensures o.status == IntStatus(value)
    ensures o.settings.(rRegister := s.rRegister) == s
    ensures o.status.Ok? && s.strategy == 2 ==> o.settings.rRegister == 0
    ensures s.strategy != 2 ==> o.settings.rRegister == if Accepts(value, 0, 1) then ParseInt(value).value else s.rRegister
  {
    match ParseInt(value)
    case None => Outcome(s, Raised(ValueError))
    case Some(v) =>
      if s.strategy == 2 then Outcome(s.(rRegister := 0), Ok)
      else Outcome(if 0 <= v <= 1 then s.(rRegister := v) else s, Ok)
  }

  /** The protocols a parsed configuration may name. */
  predicate IsProtocol(value: string)
  {
    value == "AXI4" || value == "AXI4LITE" || value == "AXI3"
  }

  /** `parse_PROTOCOL`: the value is stored exactly when it names AXI4, AXI4LITE or AXI3. */
  function Protocol(s: Settings, value: string): (t: Settings)
    ensures t.(protocol := s.protocol) == s
    ensures IsProtocol(value) ==> t.protocol == value
    ensures !IsProtocol(value) ==> t.protocol == s.protocol
  {
    if value == "AXI4" || value == "AXI4LITE" || value == "AXI3" then s.(protocol := value) else s
  }

  /** `parse_ADDR_WIDTH`: 1..64 for AXI4LITE, 12..64 for AXI4 and AXI3; any other protocol keeps the width. */
  function AddrWidth(s: Settings, value: string): (o: Outcome)
    ensures o.status == IntStatus(value)
    ensures o.settings.(addrWidth := s.addrWidth) == s
    ensures o.settings.addrWidth != s.addrWidth ==> AddrWidthAccepted(s.protocol, o.settings.addrWidth)
    ensures ParseInt(value).Some? && AddrWidthAccepted(s.protocol, ParseInt(value).value) ==> o.settings.addrWidth == ParseInt(value).value
    ensures !(ParseInt(value).Some? && AddrWidthAccepted(s.protocol, ParseInt(value).value)) ==> o.settings == s
  {
    match ParseInt(value)
    case None => Outcome(s, Raised(ValueError))
    case Some(v) =>
      if s.protocol == "AXI4LITE" && 1 <= v <= 64 then Outcome(s.(addrWidth := v), Ok)
      else if (s.protocol == "AXI4" || s.protocol == "AXI3") && 12 <= v <= 64 then Outcome(s.(addrWidth := v), Ok)
      else Outcome(s, Ok)
  }

  /** `parse_DATA_WIDTH`: 32 or 64 for AXI4LITE, a power of two from 32 to 1024 for AXI4 and AXI3. */
  function DataWidth(s: Settings, value: string): (o: Outcome)
    ensures o.status == IntStatus(value)
    ensures o.settings.(dataWidth := s.dataWidth) == s
    ensures o.settings.dataWidth != s.dataWidth ==> DataWidthAccepted(s.protocol, o.settings.dataWidth)
    ensures ParseInt(value).Some? && DataWidthAccepted(s.protocol, ParseInt(value).value) ==> o.settings.dataWidth == ParseInt(value).value
    ensures !(ParseInt(value).Some? && DataWidthAccepted(s.protocol, ParseInt(value).value)) ==> o.settings == s
  {
    match ParseInt(value)
    case None => Outcome(s, Raised(ValueError))
    case Some(v) => Outcome(if DataWidthAccepted(s.protocol, v) then s.(dataWidth := v) else s, Ok)
  }

  /** The scalar width fields, as `Settings` selectors. */
  function WithWidth(s: Settings, f: Field, v: nat): Settings
  {
    match f
    case IdWidth => s.(idWidth := v)
    case AwuserWidth => s.(awuserWidth := v)
    case AruserWidth => s.(aruserWidth := v)
    case WuserWidth => s.(wuserWidth := v)
    case RuserWidth => s.(ruserWidth := v)
    case BuserWidth => s.(buserWidth := v)
    case AddrRanges => s.(addrRanges := v)
    case _ => s
  }

  /**
   * `parse_IDWidth_UsersWidth_AddrRanges`: the named width is accepted in
   * `lo..hi`; every other field is kept.
   */
  function Widths(s: Settings, f: Field, value: string, lo: nat, hi: int): (o: Outcome)
    ensures o.status == IntStatus(value)
    ensures o.settings.(idWidth := s.idWidth, awuserWidth := s.awuserWidth, aruserWidth := s.aruserWidth, wuserWidth := s.wuserWidth,
                        ruserWidth := s.ruserWidth, buserWidth := s.buserWidth, addrRanges := s.addrRanges) == s
    ensures o.settings != s ==> Accepts(value, lo, hi)
    ensures o.settings.idWidth == if f == IdWidth && Accepts(value, lo, hi) then ParseInt(value).value else s.idWidth
    ensures o.settings.awuserWidth == if f == AwuserWidth && Accepts(value, lo, hi) then ParseInt(value).value else s.awuserWidth
    ensures o.settings.aruserWidth == if f == AruserWidth && Accepts(value, lo, hi) then ParseInt(value).value else s.aruserWidth
    ensures o.settings.wuserWidth == if f == WuserWidth && Accepts(value, lo, hi) then ParseInt(value).value else s.wuserWidth
    ensures o.settings.ruserWidth == if f == RuserWidth && Accepts(value, lo, hi) then ParseInt(value).value else s.ruserWidth
    ensures o.settings.buserWidth == if f == BuserWidth && Accepts(value, lo, hi) then ParseInt(value).value else s.buserWidth
    ensures o.settings.addrRanges == if f == AddrRanges && Accepts(value, lo, hi) then ParseInt(value).value else s.addrRanges
  {
    match ParseInt(value)
    case None => Outcome(s, Raised(ValueError))
    case Some(v) => Outcome(if lo <= v <= hi then WithWidth(s, f, v) else s, Ok)
  }

  /**
   * `parse_CONNECTIVITY_MODE`: SASD when STRATEGY or R_REGISTER is 1,
   * SAMD when STRATEGY is 2, and otherwise the value when it is SASD or
   * SAMD.
   */
  function ConnectivityMode(s: Settings, value: string): (t: Settings)
    ensures t.(connectivityMode := s.connectivityMode) == s
    ensures s.strategy == 1 || s.rRegister == 1 ==> t.connectivityMode == "SASD"
    ensures !(s.strategy == 1 || s.rRegister == 1) && s.strategy == 2 ==> t.connectivityMode == "SAMD"
    ensures s.strategy != 1 && s.strategy != 2 && s.rRegister != 1 ==>
      t.connectivityMode == if value == "SASD" || value == "SAMD" then value else s.connectivityMode
  {
    if s.strategy == 1 || s.rRegister == 1 then s.(connectivityMode := "SASD")
    else if s.strategy == 2 then s.(connectivityMode := "SAMD")
    else if value == "SASD" || value == "SAMD" then s.(connectivityMode := value)
    else s
  }

  /** The two connectivity modes are the only ones a parsed SASD/SAMD configuration can hold once the mode was parsed. */
  lemma ConnectivityModeIsAMode(s: Settings, value: string)
    requires s.connectivityMode == "SASD" || s.connectivityMode == "SAMD"
    ensures ConnectivityMode(s, value).connectivityMode == "SASD" || ConnectivityMode(s, value).connectivityMode == "SAMD"
  {
  }

  // ---------------------------------------------------------------------
  // Per-interface lists
  // ---------------------------------------------------------------------

  /** The list fields the shared list parsers append to. */
  function ListOf(s: Settings, f: Field): seq<int>
  {
    match f
    case SiReadAcceptance => s.siReadAcceptance
    case SiWriteAcceptance => s.siWriteAcceptance
    case MiReadIssuing => s.miReadIssuing
    case MiWriteIssuing => s.miWriteIssuing
    case ReadConnectivity => s.readConnectivity
    case WriteConnectivity => s.writeConnectivity
    case _ => []
  }

  function WithList(s: Settings, f: Field, l: seq<int>): Settings
  {
    match f
    case SiReadAcceptance => s.(siReadAcceptance := l)
    case SiWriteAcceptance => s.(siWriteAcceptance := l)
    case MiReadIssuing => s.(miReadIssuing := l)
    case MiWriteIssuing => s.(miWriteIssuing := l)
    case ReadConnectivity => s.(readConnectivity := l)
    case WriteConnectivity => s.(writeConnectivity := l)
    case _ => s
  }

  /** `parse_Slave_Priority`: one priority per slave interface, 0..16, default 0. */
  function SlavePriority(s: Settings, value: string): Outcome
  {
    var g := PerInterface(s.slavePriorities, Split(value), s.numSI, 0, 16, 0);
    Outcome(s.(slavePriorities := g.list), g.status)
  }

  /**
   * `parse_Acceptance`: in SASD mode one 1 per slave interface whatever
   * the values say; otherwise one acceptance per slave interface, 1..32,
   * default 2.
   */
  function Acceptance(s: Settings, f: Field, value: string): Outcome
  {
    var g :=
      if s.connectivityMode == "SASD" then Grown(ListOf(s, f) + Repeat(1, s.numSI), Ok)
      else PerInterface(ListOf(s, f), Split(value), s.numSI, 1, 32, 2);
    Outcome(WithList(s, f, g.list), g.status)
  }

  /** In SASD mode the acceptance parser ignores the values and appends a 1 per slave interface. */
  lemma AcceptanceInSasd(s: Settings, value: string)
    requires s.connectivityMode == "SASD"
    ensures Acceptance(s, SiReadAcceptance, value) == Outcome(s.(siReadAcceptance := s.siReadAcceptance + Repeat(1, s.numSI)), Ok)
    ensures Acceptance(s, SiWriteAcceptance, value) == Outcome(s.(siWriteAcceptance := s.siWriteAcceptance + Repeat(1, s.numSI)), Ok)
  {
  }

  /**
   * `parse_THREAD_ID_WIDTH`: the number of available thread-ID bits is
   * forced to 0, so the parser appends a 0 per slave interface whatever
   * the values say; computing `log2(NUM_SI)` first raises `ValueError`
   * when there is no slave interface.
   */
  function ThreadIdWidth(s: Settings, value: string): (o: Outcome)
    ensures o.status == Raised(ValueError) <==> s.numSI == 0
    ensures o.settings.(threadIdWidth := s.threadIdWidth) == s
    ensures o.status.Ok? ==> o.settings.threadIdWidth == s.threadIdWidth + Repeat(0, s.numSI)
    ensures o.status.Raised? ==> o.settings == s
  {
    if s.numSI == 0 then Outcome(s, Raised(ValueError))
    else Outcome(s.(threadIdWidth := s.threadIdWidth + Repeat(0, s.numSI)), Ok)
  }

  /** `parse_SINGLE_THREAD`: one flag per slave interface, 0..1, default 0. */
  function SingleThread(s: Settings, value: string): Outcome
  {
    var g := PerInterface(s.singleThread, Split(value), s.numSI, 0, 1, 0);
    Outcome(s.(singleThread := g.list), g.status)
  }

  /** A lower-case hexadecimal digit, as the format checks test it (character codes 48..57 and 97..102). */
  predicate IsLowerHex(c: char)
  {
    '0' <= c <= '9' || 'a' <= c <= 'f'
  }

  /** Every character of `w` from index `from` on is a lower-case hexadecimal digit. */
  predicate LowerHexFrom(w: string, from: nat)
  {
    forall k :: from <= k < |w| ==> IsLowerHex(w[k])
  }

  /** `0x` followed by exactly `digits` lower-case hexadecimal digits. */
  predicate IsHexWord(w: string, digits: nat)
  {
    |w| == digits + 2 && w[0] == '0' && w[1] == 'x' && LowerHexFrom(w, 2)
  }

  /** A well-formed base ID: `0x` and eight lower-case hexadecimal digits. */
  predicate IsBaseId(w: string)
  {
    IsHexWord(w, 8)
  }

  /** The default base ID. */
  const DEFAULT_BASE_ID: string := "0x00000000"

  /**
   * The fixed-width format check: the property is not empty, there is one
   * value per interface and every value is `0x` and `digits` lower-case
   * hexadecimal digits.
   */
  predicate HexWordsWellFormed(values: seq<string>, n: nat, text: string, digits: nat)
  {
    |values| == n && text != "" && forall i :: 0 <= i < |values| ==> IsHexWord(values[i], digits)
  }

  /**
   * The fixed-width format check loop: it stops at the first value that
   * does not have the right length or does not start with `0x`, and a
   * non-hexadecimal digit ends the scan of that value and then the check.
   */
  method CheckHexWords(values: seq<string>, n: nat, text: string, digits: nat) returns (correct: bool)
    ensures correct <==> HexWordsWellFormed(values, n, text, digits)
  {
    correct := true;
    if |values| != n || text == "" {
      correct := false;
    }
    var i := 0;
    while i < n
      invariant 0 <= i <= n
      invariant correct ==> |values| == n && text != "" && forall k :: 0 <= k < i ==> IsHexWord(values[k], digits)
      invariant !correct ==> !HexWordsWellFormed(values, n, text, digits)
    {
      if !correct {
        break;
      }
      var w := values[i];
      if |w| != digits + 2 || w[0] != '0' || w[1] != 'x' {
        correct := false;
        break;
      }
      var j := 0;
      while j < digits
        invariant 0 <= j <= digits && correct
        invariant forall k :: 2 <= k < j + 2 ==> IsLowerHex(w[k])
      {
        if IsLowerHex(w[j + 2]) {
          j := j + 1;
          continue;
        } else {
          correct := false;
          break;
        }
      }
      if !correct {
        assert !IsHexWord(values[i], digits);
      }
      i := i + 1;
    }
  }

  /**
   * `parse_BASE_ID`: all or nothing. With a well-formed base ID per slave
   * interface the values are appended; otherwise a default per slave
   * interface.
   */
  function BaseId(s: Settings, value: string): (t: Settings)
    ensures t.(baseId := s.baseId) == s
  {
    var words := Split(value);
    if HexWordsWellFormed(words, s.numSI, value, 8) then s.(baseId := s.baseId + words)
    else s.(baseId := s.baseId + Repeat(DEFAULT_BASE_ID, s.numSI))
  }

  /**
   * BASE_ID always grows by exactly one well-formed base ID per slave
   * interface: the given values when they all are well-formed, the
   * default otherwise.
   */
  lemma BaseIdAllOrNothing(s: Settings, value: string)
    ensures |BaseId(s, value).baseId| == |s.baseId| + s.numSI
    ensures BaseId(s, value).baseId[..|s.baseId|] == s.baseId
    ensures forall k :: |s.baseId| <= k < |BaseId(s, value).baseId| ==> IsBaseId(BaseId(s, value).baseId[k])
    ensures HexWordsWellFormed(Split(value), s.numSI, value, 8) ==> BaseId(s, value).baseId == s.baseId + Split(value)
    ensures !HexWordsWellFormed(Split(value), s.numSI, value, 8) ==>
      forall k :: |s.baseId| <= k < |BaseId(s, value).baseId| ==> BaseId(s, value).baseId[k] == DEFAULT_BASE_ID
  {
    var t := BaseId(s, value);
    assert t.baseId[..|s.baseId|] == s.baseId;
    assert IsBaseId(DEFAULT_BASE_ID);
    if HexWordsWellFormed(Split(value), s.numSI, value, 8) {
      forall k | |s.baseId| <= k < |t.baseId|
        ensures IsBaseId(t.baseId[k])
      {
        assert t.baseId[k] == Split(value)[k - |s.baseId|];
      }
    }
  }

  /** `parse_Issuing`: one 1 per master interface under AXI3 and AXI4LITE; otherwise 1..32, default 4. */
  function Issuing(s: Settings, f: Field, value: string): Outcome
  {
    var g :=
      if s.protocol == "AXI3" || s.protocol == "AXI4LITE" then Grown(ListOf(s, f) + Repeat(1, s.numMI), Ok)
      else PerInterface(ListOf(s, f), Split(value), s.numMI, 1, 32, 4);
    Outcome(WithList(s, f, g.list), g.status)
  }

  /** Under AXI3 and AXI4LITE the issuing parser ignores the values and appends a 1 per master interface. */
  lemma IssuingSingleTransaction(s: Settings, value: string)
    requires s.protocol == "AXI3" || s.protocol == "AXI4LITE"
    ensures Issuing(s, MiReadIssuing, value) == Outcome(s.(miReadIssuing := s.miReadIssuing + Repeat(1, s.numMI)), Ok)
    ensures Issuing(s, MiWriteIssuing, value) == Outcome(s.(miWriteIssuing := s.miWriteIssuing + Repeat(1, s.numMI)), Ok)
  {
  }

  /** `parse_SECURE`: one flag per master interface, 0..1, default 0. */
  function Secure(s: Settings, value: string): Outcome
  {
    var g := PerInterface(s.secure, Split(value), s.numMI, 0, 1, 0);
    Outcome(s.(secure := g.list), g.status)
  }

  // ---------------------------------------------------------------------
  // Per-range lists
  // ---------------------------------------------------------------------

  /**
   * The RANGE_BASE_ADDR format check from value `i` on, with `correct`
   * the verdict so far: `Some(verdict)`, or `None` for the `IndexError`
   * raised by reading the second character of a one-character value
   * (or the first of an empty one). A value not starting with `0`, not
   * followed by `x` or `X`, or longer than 18 characters ends the check;
   * a value with a digit other than a lower-case hexadecimal one only
   * clears the verdict, and the check goes on with the next value.
   */
  function AddrFormat(values: seq<string>, i: nat, correct: bool): Option<bool>
    requires i <= |values|
    decreases |values| - i
  {
    if i == |values| then Some(correct)
    else
      var w := values[i];
      if |w| == 0 then None
      else if w[0] != '0' then Some(false)
      else if |w| < 2 then None
      else if !(w[1] == 'x' || w[1] == 'X') || |w| > 18 then Some(false)
      else AddrFormat(values, i + 1, correct && LowerHexFrom(w, 2))
  }

  /** A well-formed range base address: `0x` or `0X`, then at most 16 lower-case hexadecimal digits. */
  predicate IsRangeBaseAddr(w: string)
  {
    2 <= |w| <= 18 && w[0] == '0' && (w[1] == 'x' || w[1] == 'X') && LowerHexFrom(w, 2)
  }

  /** When the format check returns, it accepts exactly when every value from `i` on is well-formed (and the verdict so far holds). */
  lemma {:induction false} AddrFormatAccepts(values: seq<string>, i: nat, correct: bool)
    requires i <= |values|
    requires AddrFormat(values, i, correct).Some?
    ensures AddrFormat(values, i, correct) == Some(correct && forall k :: i <= k < |values| ==> IsRangeBaseAddr(values[k]))
    decreases |values| - i
  {
    if i < |values| {
      var w := values[i];
      if w[0] == '0' && (w[1] == 'x' || w[1] == 'X') && |w| <= 18 {
        AddrFormatAccepts(values, i + 1, correct && LowerHexFrom(w, 2));
      }
    }
  }

  /** When every value is well-formed the check never raises. */
  lemma {:induction false} AddrFormatOfWellFormed(values: seq<string>, i: nat, correct: bool)
    requires i <= |values|
    requires forall k :: i <= k < |values| ==> IsRangeBaseAddr(values[k])
    ensures AddrFormat(values, i, correct) == Some(correct)
    decreases |values| - i
  {
    if i < |values| {
      AddrFormatOfWellFormed(values, i + 1, correct && LowerHexFrom(values[i], 2));
    }
  }

  /**
   * The loop of `parse_RANGE_BASE_ADDR` that checks the format; `None` is
   * the `IndexError` the check raises.
   */
  method CheckRangeBaseAddrs(values: seq<string>) returns (verdict: Option<bool>)
    ensures verdict == AddrFormat(values, 0, true)
  {
    var correct := true;
    var i := 0;
    while i < |values|
      invariant 0 <= i <= |values|
      invariant AddrFormat(values, i, correct) == AddrFormat(values, 0, true)
    {
      var w := values[i];
      if |w| == 0 {
        return None;
      }
      if w[0] != '0' {
        correct := false;
        break;
      }
      if |w| < 2 {
        return None;
      }
      if !(w[1] == 'x' || w[1] == 'X') || |w| > 18 {
        correct := false;
        break;
      }
      ghost var before := correct;
      var j := 0;
      while j < |w| - 2
        invariant 0 <= j <= |w| - 2
        invariant correct == (before && forall k :: 2 <= k < j + 2 ==> IsLowerHex(w[k]))
      {
        if !IsLowerHex(w[j + 2]) {
          correct := false;
          break;
        }
        j := j + 1;
      }
      assert correct == (before && LowerHexFrom(w, 2));
      i := i + 1;
    }
    verdict := Some(correct);
  }

  /**
   * `parse_RANGE_BASE_ADDR`: with one value per master and range, and
   * every value well-formed, the values are appended in order; a wrong
   * count or format appends nothing (it only logs an error); the format
   * check may raise `IndexError`.
   */
  function RangeBaseAddr(s: Settings, value: string): Outcome
  {
    var words := Split(value);
    if |words| != s.numMI * s.addrRanges then Outcome(s, Ok)
    else match AddrFormat(words, 0, true)
      case None => Outcome(s, Raised(IndexError))
      case Some(correct) => Outcome(if correct then s.(baseAddr := s.baseAddr + words) else s, Ok)
  }

  /**
   * RANGE_BASE_ADDR is all or nothing: it either appends one well-formed
   * address per master and range, or leaves the configuration as it was.
   */
  lemma RangeBaseAddrAllOrNothing(s: Settings, value: string)
    ensures RangeBaseAddr(s, value).settings == s ||
      (RangeBaseAddr(s, value).settings == s.(baseAddr := s.baseAddr + Split(value)) &&
       |Split(value)| == s.numMI * s.addrRanges &&
       forall k :: 0 <= k < |Split(value)| ==> IsRangeBaseAddr(Split(value)[k]))
    ensures |Split(value)| == s.numMI * s.addrRanges && (forall k :: 0 <= k < |Split(value)| ==> IsRangeBaseAddr(Split(value)[k])) ==>
      RangeBaseAddr(s, value) == Outcome(s.(baseAddr := s.baseAddr + Split(value)), Ok)
  {
    var words := Split(value);
    if |words| == s.numMI * s.addrRanges {
      if AddrFormat(words, 0, true).Some? {
        AddrFormatAccepts(words, 0, true);
      }
      if forall k :: 0 <= k < |words| ==> IsRangeBaseAddr(words[k]) {
        AddrFormatOfWellFormed(words, 0, true);
      }
    }
  }

  /**
   * RANGE_BASE_ADDR as its error message intends it: a value that is not
   * well-formed is a format error, whatever its length, so the parser
   * never raises and appends either every value or none.
   */
  function RangeBaseAddrIntended(s: Settings, value: string): (t: Settings)
    ensures t == s || (t == s.(baseAddr := s.baseAddr + Split(value)) && |Split(value)| == s.numMI * s.addrRanges)
    ensures t != s ==> forall k :: 0 <= k < |Split(value)| ==> IsRangeBaseAddr(Split(value)[k])
  {
    var words := Split(value);
    if |words| == s.numMI * s.addrRanges && forall k :: 0 <= k < |words| ==> IsRangeBaseAddr(words[k]) then
      s.(baseAddr := s.baseAddr + words)
    else s
  }

  /**
   * The parser as written differs from the intended one only by raising:
   * whenever it returns, it stores what the intended parser stores, and
   * when it raises, the intended parser rejects the values.
   */
  lemma RangeBaseAddrMatchesIntended(s: Settings, value: string)
    ensures RangeBaseAddr(s, value).status.Ok? ==> RangeBaseAddr(s, value).settings == RangeBaseAddrIntended(s, value)
    ensures RangeBaseAddr(s, value).status.Raised? ==> RangeBaseAddr(s, value).settings == s && RangeBaseAddrIntended(s, value) == s
  {
    var words := Split(value);
    if |words| == s.numMI * s.addrRanges {
      if AddrFormat(words, 0, true).Some? {
        AddrFormatAccepts(words, 0, true);
      } else if forall k :: 0 <= k < |words| ==> IsRangeBaseAddr(words[k]) {
        AddrFormatOfWellFormed(words, 0, true);
      }
    }
  }

  /** The one-character value "0" for a single range: the parser as written raises `IndexError` instead of reporting a format error. */
  lemma RangeBaseAddrRaisesOnShortValue(s: Settings)
    requires s.numMI == 1 && s.addrRanges == 1
    ensures RangeBaseAddr(s, "0").status == Raised(IndexError)
    ensures RangeBaseAddrIntended(s, "0") == s
  {
    var w := "0";
    assert !IsWhite(w[0]) && w[1..] == [];
    assert WordLength(w[1..]) == 0;
    assert WordLength(w) == 1;
    assert w[..1] == w && w[1..] == [];
    assert Split(w) == [w] + Split(w[1..]);
    assert Split(w) == [w];
    assert !IsRangeBaseAddr("0");
  }

  /**
   * `parse_RANGE_ADDR_WIDTH`: one width per master and range, in 1..64
   * for AXI4LITE and 12..64 otherwise, and never above ADDR_WIDTH; the
   * default is 12 for a master's first range and 0 for the others.
   */
  function RangeAddrWidth(s: Settings, value: string): Outcome
  {
    var lo := if s.protocol == "AXI4LITE" then 1 else 12;
    var hi := if s.addrWidth < 64 then s.addrWidth else 64;
    var g := PerGrid(s.rangeAddrWidth, Split(value), s.numMI, s.addrRanges, lo, hi, 12, 0);
    Outcome(s.(rangeAddrWidth := g.list), g.status)
  }

  /** A range width is kept exactly when it lies in the protocol's range and is at most ADDR_WIDTH. */
  lemma RangeAddrWidthBound(s: Settings, number: int)
    ensures var lo := if s.protocol == "AXI4LITE" then 1 else 12;
            var hi := if s.addrWidth < 64 then s.addrWidth else 64;
            (lo <= number <= hi) <==> (lo <= number <= 64 && number <= s.addrWidth)
  {
  }

  /** `parse_Connectivity`: one flag per master and slave, 0..1, default 1. */
  function Connectivity(s: Settings, f: Field, value: string): Outcome
  {
    var g := PerGrid(ListOf(s, f), Split(value), s.numMI, s.numSI, 0, 1, 1, 1);
    Outcome(WithList(s, f, g.list), g.status)
  }

  // ---------------------------------------------------------------------
  // The parsers, on a configuration object
  // ---------------------------------------------------------------------

  /** Stores `l` in the list field `f`. */
  method StoreList(config: Configuration, f: Field, l: seq<int>)
    modifies config
    ensures config.Snapshot() == WithList(old(config.Snapshot()), f, l)
  {
    match f
    case SiReadAcceptance => StoreSiReadAcceptance(config, l);
    case SiWriteAcceptance => StoreSiWriteAcceptance(config, l);
    case MiReadIssuing => StoreMiReadIssuing(config, l);
    case MiWriteIssuing => StoreMiWriteIssuing(config, l);
    case ReadConnectivity => StoreReadConnectivity(config, l);
    case WriteConnectivity => StoreWriteConnectivity(config, l);
    case _ =>
  }

  method StoreSiReadAcceptance(config: Configuration, l: seq<int>)
    modifies config
    ensures config.Snapshot() == old(config.Snapshot()).(siReadAcceptance := l)
  {
    config.siReadAcceptance := l;
  }

  method StoreSiWriteAcceptance(config: Configuration, l: seq<int>)
    modifies config
    ensures config.Snapshot() == old(config.Snapshot()).(siWriteAcceptance := l)
  {
    config.siWriteAcceptance := l;
  }

  method StoreMiReadIssuing(config: Configuration, l: seq<int>)
    modifies config
    ensures config.Snapshot() == old(config.Snapshot()).(miReadIssuing := l)
  {
    config.miReadIssuing := l;
  }

  method StoreMiWriteIssuing(config: Configuration, l: seq<int>)
    modifies config
    ensures config.Snapshot() == old(config.Snapshot()).(miWriteIssuing := l)
  {
    config.miWriteIssuing := l;
  }

  method StoreReadConnectivity(config: Configuration, l: seq<int>)
    modifies config
    ensures config.Snapshot() == old(config.Snapshot()).(readConnectivity := l)
  {
    config.readConnectivity := l;
  }

  method StoreWriteConnectivity(config: Configuration, l: seq<int>)
    modifies config
    ensures config.Snapshot() == old(config.Snapshot()).(writeConnectivity := l)
  {
    config.writeConnectivity := l;
  }

  /** Stores `v` in the scalar width field `f`. */
  method StoreWidth(config: Configuration, f: Field, v: nat)
    modifies config
    ensures config.Snapshot() == WithWidth(old(config.Snapshot()), f, v)
  {
    match f
    case IdWidth => StoreIdWidth(config, v);
    case AwuserWidth => StoreAwuserWidth(config, v);
    case AruserWidth => StoreAruserWidth(config, v);
    case WuserWidth => StoreWuserWidth(config, v);
    case RuserWidth => StoreRuserWidth(config, v);
    case BuserWidth => StoreBuserWidth(config, v);
    case AddrRanges => StoreAddrRanges(config, v);
    case _ =>
  }

  method StoreIdWidth(config: Configuration, v: int)
    modifies config
    ensures config.Snapshot() == old(config.Snapshot()).(idWidth := v)
  {
    config.idWidth := v;
  }

  method StoreAwuserWidth(config: Configuration, v: int)
    modifies config
    ensures config.Snapshot() == old(config.Snapshot()).(awuserWidth := v)
  {
    config.awuserWidth := v;
  }

  method StoreAruserWidth(config: Configuration, v: int)
    modifies config
    ensures config.Snapshot() == old(config.Snapshot()).(aruserWidth := v)
  {
    config.aruserWidth := v;
  }

  method StoreWuserWidth(config: Configuration, v: int)
    modifies config
    ensures config.Snapshot() == old(config.Snapshot()).(wuserWidth := v)
  {
    config.wuserWidth := v;
  }

  method StoreRuserWidth(config: Configuration, v: int)
    modifies config
    ensures config.Snapshot() == old(config.Snapshot()).(ruserWidth := v)
  {
    config.ruserWidth := v;
  }

  method StoreBuserWidth(config: Configuration, v: int)
    modifies config
    ensures config.Snapshot() == old(config.Snapshot()).(buserWidth := v)
  {
    config.buserWidth := v;
  }

  method StoreAddrRanges(config: Configuration, v: nat)
    modifies config
    ensures config.Snapshot() == old(config.Snapshot()).(addrRanges := v)
  {
    config.addrRanges := v;
  }

  /** Stores `v` in the interface count `f`. */
  method StoreCount(config: Configuration, f: Field, v: nat)
    modifies config
    ensures config.Snapshot() == WithCount(old(config.Snapshot()), f, v)
  {
    if f == NumSI {
      config.numSI := v;
    } else if f == NumMI {
      config.numMI := v;
    }
  }

  method ParseInterfaces(config: Configuration, name: string, value: string) returns (status: Status)
    modifies config
    ensures Outcome(config.Snapshot(), status) == Interfaces(old(config.Snapshot()), ImplField(name), value)
  {
    var parsed := ParseInt(value);
    if parsed.None? {
      return Raised(ValueError);
    }
    var v := parsed.value;
    if 0 <= v <= 16 {
      StoreCount(config, ImplField(name), v);
    }
    status := Ok;
  }

  method ParseStrategy(config: Configuration, value: string) returns (status: Status)
    modifies config
    ensures Outcome(config.Snapshot(), status) == Strategy(old(config.Snapshot()), value)
  {
    var parsed := ParseInt(value);
    if parsed.None? {
      return Raised(ValueError);
    }
    if 0 <= parsed.value <= 2 {
      config.strategy := parsed.value;
    }
    status := Ok;
  }

  method ParseRRegister(config: Configuration, value: string) returns (status: Status)
    modifies config
    ensures Outcome(config.Snapshot(), status) == RRegister(old(config.Snapshot()), value)
  {
    var parsed := ParseInt(value);
    if parsed.None? {
      return Raised(ValueError);
    }
    if config.strategy == 2 {
      config.rRegister := 0;
    } else if 0 <= parsed.value <= 1 {
      config.rRegister := parsed.value;
    }
    status := Ok;
  }

  method ParseProtocol(config: Configuration, value: string)
    modifies config
    ensures config.Snapshot() == Protocol(old(config.Snapshot()), value)
  {
    if value == "AXI4" || value == "AXI4LITE" || value == "AXI3" {
      config.protocol := value;
    }
  }

  method ParseAddrWidth(config: Configuration, value: string) returns (status: Status)
    modifies config
    ensures Outcome(config.Snapshot(), status) == AddrWidth(old(config.Snapshot()), value)
  {
    var parsed := ParseInt(value);
    if parsed.None? {
      return Raised(ValueError);
    }
    var v := parsed.value;
    if config.protocol == "AXI4LITE" && 1 <= v <= 64 {
      config.addrWidth := v;
    } else if (config.protocol == "AXI4" || config.protocol == "AXI3") && 12 <= v <= 64 {
      config.addrWidth := v;
    }
    status := Ok;
  }

  method ParseDataWidth(config: Configuration, value: string) returns (status: Status)
    modifies config
    ensures Outcome(config.Snapshot(), status) == DataWidth(old(config.Snapshot()), value)
  {
    var parsed := ParseInt(value);
    if parsed.None? {
      return Raised(ValueError);
    }
    var v := parsed.value;
    var found := SearchDataWidth(v);
    if config.protocol == "AXI4LITE" && (v == 32 || v == 64) {
      config.dataWidth := v;
    } else if (config.protocol == "AXI4" || config.protocol == "AXI3") && found {
      config.dataWidth := v;
    }
    status := Ok;
  }

  method ParseWidths(config: Configuration, name: string, value: string, lo: nat, hi: int) returns (status: Status)
    modifies config
    ensures Outcome(config.Snapshot(), status) == Widths(old(config.Snapshot()), ImplField(name), value, lo, hi)
  {
    var parsed := ParseInt(value);
    if parsed.None? {
      return Raised(ValueError);
    }
    var v := parsed.value;
    if lo <= v <= hi {
      StoreWidth(config, ImplField(name), v);
    }
    status := Ok;
  }

  method ParseConnectivityMode(config: Configuration, value: string)
    modifies config
    ensures config.Snapshot() == ConnectivityMode(old(config.Snapshot()), value)
  {
    if config.strategy == 1 || config.rRegister == 1 {
      config.connectivityMode := "SASD";
    } else if config.strategy == 2 {
      config.connectivityMode := "SAMD";
    } else if value == "SASD" || value == "SAMD" {
      config.connectivityMode := value;
    }
  }

  method ParseSlavePriority(config: Configuration, value: string) returns (status: Status)
    modifies config
    ensures Outcome(config.Snapshot(), status) == SlavePriority(old(config.Snapshot()), value)
  {
    var g := AppendPerInterface(config.slavePriorities, Split(value), config.numSI, 0, 16, 0);
    config.slavePriorities := g.list;
    status := g.status;
  }

  method ParseAcceptance(config: Configuration, name: string, value: string) returns (status: Status)
    modifies config
    ensures Outcome(config.Snapshot(), status) == Acceptance(old(config.Snapshot()), ImplField(name), value)
  {
    var f := ImplField(name);
    var list := ListOf(config.Snapshot(), f);
    var g;
    if config.connectivityMode == "SASD" {
      var grown := AppendRepeat(list, 1, config.numSI);
      g := Grown(grown, Ok);
    } else {
      g := AppendPerInterface(list, Split(value), config.numSI, 1, 32, 2);
    }
    StoreList(config, f, g.list);
    status := g.status;
  }

  method ParseThreadIdWidth(config: Configuration, value: string) returns (status: Status)
    modifies config
    ensures Outcome(config.Snapshot(), status) == ThreadIdWidth(old(config.Snapshot()), value)
  {
    if config.numSI == 0 {
      return Raised(ValueError);
    }
    config.threadIdWidth := AppendRepeat(config.threadIdWidth, 0, config.numSI);
    status := Ok;
  }

  method ParseSingleThread(config: Configuration, value: string) returns (status: Status)
    modifies config
    ensures Outcome(config.Snapshot(), status) == SingleThread(old(config.Snapshot()), value)
  {
    var g := AppendPerInterface(config.singleThread, Split(value), config.numSI, 0, 1, 0);
    config.singleThread := g.list;
    status := g.status;
  }

  method ParseBaseId(config: Configuration, value: string)
    modifies config
    ensures config.Snapshot() == BaseId(old(config.Snapshot()), value)
  {
    var words := Split(value);
    var correct := CheckHexWords(words, config.numSI, value, 8);
    if |words| == config.numSI && correct {
      config.baseId := AppendAll(config.baseId, words, config.numSI);
      assert words[..config.numSI] == words;
    } else {
      config.baseId := AppendRepeat(config.baseId, DEFAULT_BASE_ID, config.numSI);
    }
  }

  method ParseIssuing(config: Configuration, name: string, value: string) returns (status: Status)
    modifies config
    ensures Outcome(config.Snapshot(), status) == Issuing(old(config.Snapshot()), ImplField(name), value)
  {
    var f := ImplField(name);
    var list := ListOf(config.Snapshot(), f);
    var g;
    if config.protocol == "AXI3" || config.protocol == "AXI4LITE" {
      var grown := AppendRepeat(list, 1, config.numMI);
      g := Grown(grown, Ok);
    } else {
      g := AppendPerInterface(list, Split(value), config.numMI, 1, 32, 4);
    }
    StoreList(config, f, g.list);
    status := g.status;
  }

  method ParseSecure(config: Configuration, value: string) returns (status: Status)
    modifies config
    ensures Outcome(config.Snapshot(), status) == Secure(old(config.Snapshot()), value)
  {
    var g := AppendPerInterface(config.secure, Split(value), config.numMI, 0, 1, 0);
    config.secure := g.list;
    status := g.status;
  }

  method ParseRangeBaseAddr(config: Configuration, value: string) returns (status: Status)
    modifies config
    ensures Outcome(config.Snapshot(), status) == RangeBaseAddr(old(config.Snapshot()), value)
  {
    var words := Split(value);
    var count := config.numMI * config.addrRanges;
    if |words| == count {
      var verdict := CheckRangeBaseAddrs(words);
      if verdict.None? {
        return Raised(IndexError);
      }
      if verdict.value {
        config.baseAddr := AppendAll(config.baseAddr, words, count);
        assert words[..count] == words;
      }
    }
    status := Ok;
  }

  method ParseRangeAddrWidth(config: Configuration, value: string) returns (status: Status)
    modifies config
    ensures Outcome(config.Snapshot(), status) == RangeAddrWidth(old(config.Snapshot()), value)
  {
    var lo := if config.protocol == "AXI4LITE" then 1 else 12;
    var hi := if config.addrWidth < 64 then config.addrWidth else 64;
    var g := AppendPerGrid(config.rangeAddrWidth, Split(value), config.numMI, config.addrRanges, lo, hi, 12, 0);
    config.rangeAddrWidth := g.list;
    status := g.status;
  }

  method ParseConnectivity(config: Configuration, name: string, value: string) returns (status: Status)
    modifies config
    ensures Outcome(config.Snapshot(), status) == Connectivity(old(config.Snapshot()), ImplField(name), value)
  {
    var f := ImplField(name);
    var g := AppendPerGrid(ListOf(config.Snapshot(), f), Split(value), config.numMI, config.numSI, 0, 1, 1, 1);
    StoreList(config, f, g.list);
    status := g.status;
  }
}
