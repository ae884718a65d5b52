// The tinyIO `scanf` (`c_scanf`): a format-directed reader over the UART
// with a one-character pushback slot. Characters are C `char`s, which
// are unsigned on RISC-V. The UART is the sequence of characters it has
// yet to deliver; when that runs out the real scanner waits forever, and
// the model reports `Blocked`.
module Scan {
  import opened Uint32
  import opened Wrappers

  /** `c_isspace`: the six white-space characters of the "C" locale. */
  function IsSpace(c: char): (r: bool)
    ensures r <==> c in " \t\n\r\U{0B}\U{0C}"
  {
    match c
    case ' ' => true
    case '\U{0C}' => true
    case '\n' => true
    case '\r' => true
    case '\t' => true
    case '\U{0B}' => true
    case _ => false
  }

  /** `c_isdigit`: the ten decimal digits. */
  function IsDigit(c: char): (r: bool)
    ensures r <==> c in "0123456789"
  {
    '0' <= c <= '9'
  }

  /** `c - '0'` for a digit. */
  function DigitValue(c: char): (v: nat)
    requires IsDigit(c)
    ensures v < 10
  {
    c as int - '0' as int
  }

  /**
   * The scanner's input: the pushback slot `backch` ('\0' when empty) and
   * the characters the UART has yet to deliver.
   */
  datatype Reader = Reader(backch: char, pending: seq<char>)

  /** How many characters the reader can still hand out. */
  function Size(r: Reader): nat
  {
    |r.pending| + if r.backch == '\0' then 0 else 1
  }

  /**
   * `c_getch`: the pushed-back character first, emptying the slot, and
   * otherwise the next UART character; None while the UART has none.
   */
  function Take(r: Reader): (t: Option<(char, Reader)>)
    ensures t.None? <==> r.backch == '\0' && |r.pending| == 0
    ensures t.Some? ==> t.value.1.backch == '\0' && Size(t.value.1) + 1 == Size(r)
  {
    if r.backch != '\0' then Some((r.backch, Reader('\0', r.pending)))
    else if |r.pending| == 0 then None
    else Some((r.pending[0], Reader('\0', r.pending[1..])))
  }

  /** A character pushed back is the next one taken, unless it is '\0', which empties the slot and is lost. */
  lemma TakeAfterPushBack(r: Reader, b: char)
    ensures b != '\0' ==> Take(Reader(b, r.pending)) == Some((b, Reader('\0', r.pending)))
    ensures b == '\0' ==> Take(Reader(b, r.pending)) == Take(Reader('\0', r.pending))
  {
  }

  /** The scanner's current character `charBuf` and the reader behind it. */
  datatype Cursor = Cursor(cur: char, rd: Reader)

  /** `NEXTCHAR`: the next character becomes the current one. */
  function Next(c: Cursor): (n: Option<Cursor>)
    ensures n.Some? ==> Size(n.value.rd) < Size(c.rd)
  {
    match Take(c.rd)
    case None => None
    case Some((ch, rd)) => Some(Cursor(ch, rd))
  }

  /** The white-space loop of `%c`. */
  function AfterSpaces(c: Cursor): Option<Cursor>
    decreases Size(c.rd)
  {
    if !IsSpace(c.cur) then Some(c)
    else match Next(c)
      case None => None
      case Some(n) => AfterSpaces(n)
  }

  /** The loop of `%d`/`%u` that passes over non-digits, a '-' among them setting the sign to -1. */
  function AfterSign(c: Cursor, sign: int): Option<(Cursor, int)>
    decreases Size(c.rd)
  {
    if IsDigit(c.cur) then Some((c, sign))
    else match Next(c)
      case None => None
      case Some(n) => AfterSign(n, if c.cur == '-' then -1 else sign)
  }

  /** The digit loop of `%d`/`%u`: at most `len` digits when a width is given, `len` counting down as an `unsigned`. */
  function DigitsRead(c: Cursor, lenEn: bool, len: U32, value: int): Option<(Cursor, int)>
    decreases Size(c.rd)
  {
    if IsDigit(c.cur) && (!lenEn || len > 0) then
      match Next(c)
      case None => None
      case Some(n) => DigitsRead(n, lenEn, Wrap(len - 1), value * 10 + DigitValue(c.cur))
    else Some((c, value))
  }

  /** The character loop of `%s` and `%[`: up to a new-line or, when a width is given, `len` characters. */
  function StringRead(c: Cursor, lenEn: bool, len: U32, acc: seq<char>): Option<(Cursor, seq<char>)>
    decreases Size(c.rd)
  {
    if c.cur != '\n' && (!lenEn || len > 0) then
      match Next(c)
      case None => None
      case Some(n) => StringRead(n, lenEn, if lenEn then Wrap(len - 1) else len, acc + [c.cur])
    else Some((c, acc))
  }

  /** The format character at k; the terminating '\0' sits at |fmt|. */
  function FmtAt(fmt: seq<char>, k: nat): char
    requires k <= |fmt|
  {
    if k < |fmt| then fmt[k] else '\0'
  }

  /** A conversion specification: `save` is false after '*', `lenEn` says a width was given, `conv` indexes the conversion character. */
  datatype Directive = Directive(save: bool, lenEn: bool, len: U32, conv: nat)

  /** The width digits from k on: where they end and their value, accumulated as an `unsigned`. */
  function Width(fmt: seq<char>, k: nat, len: U32): (w: (nat, U32))
    requires k <= |fmt|
    ensures k <= w.0 <= |fmt| && !IsDigit(FmtAt(fmt, w.0))
    ensures forall j :: k <= j < w.0 ==> IsDigit(fmt[j])
    decreases |fmt| - k
  {
    if IsDigit(FmtAt(fmt, k)) then Width(fmt, k + 1, Wrap(len * 10 + DigitValue(fmt[k]))) else (k, len)
  }

  /** The '[' loop: the index of the closing ']', or None when the scan runs past the terminator. */
  function CloseBracket(fmt: seq<char>, k: nat): (e: Option<nat>)
    requires k <= |fmt|
    ensures e.Some? ==> k <= e.value < |fmt| && fmt[e.value] == ']'
    ensures e.None? ==> ']' !in fmt[k..]
    decreases |fmt| - k
  {
    if FmtAt(fmt, k) == ']' then Some(k)
    else if k == |fmt| then None
    else CloseBracket(fmt, k + 1)
  }

  /** The conversion specification after the '%' at k - 1; None when it runs past the terminator. */
  function DirectiveAt(fmt: seq<char>, k: nat): (d: Option<Directive>)
    requires k <= |fmt|
    ensures d.Some? ==> k <= d.value.conv <= |fmt|
    ensures d.Some? ==> (d.value.save <==> FmtAt(fmt, k) != '*')
    ensures d.None? ==> ']' !in fmt[k..]
  {
    var k1 := if FmtAt(fmt, k) == '*' then k + 1 else k;
    var w := Width(fmt, k1, 0);
    if FmtAt(fmt, w.0) == '[' then
      match CloseBracket(fmt, w.0)
      case None => None
      case Some(e) => Some(Directive(k1 == k, w.0 > k1, w.1, e))
    else Some(Directive(k1 == k, w.0 > k1, w.1, w.0))
  }

  /**
   * The `int` that `%d`/`%u` stores through `*(int*)`: the `long` result
   * converted to a 32-bit `int`, which keeps its low 32 bits read as two's
   * complement, as GCC does on RISC-V.
   */
  function StoredInt(x: int): int
  {
    if Wrap(x) < 0x8000_0000 then Wrap(x) else Wrap(x) - MODULUS
  }

  /** The stored `int` is in range, agrees with the `long` modulo 2^32, and is the `long` itself when that fits. */
  lemma StoredIntIsLow32(x: int)
    ensures -0x8000_0000 <= StoredInt(x) < 0x8000_0000
    ensures (x - StoredInt(x)) % MODULUS == 0
    ensures -0x8000_0000 <= x < 0x8000_0000 ==> StoredInt(x) == x
  {
  }

  /** What a conversion hands back through its argument pointer. */
  datatype Value = CharValue(ch: char) | IntValue(i: int) | StrValue(s: seq<char>)

  /** A conversion's effect: where the cursor ends and the value read, None for a conversion character the scanner does not know. */
  datatype Step = Step(c: Cursor, value: Option<Value>)

  /** The `switch` on the conversion character; None when the UART runs dry. */
  function Convert(d: Directive, conv: char, c: Cursor): (r: Option<Step>)
    ensures r.Some? ==> (r.value.value.Some? <==> conv in "cuds]")
  {
    if conv == 'c' then
      match AfterSpaces(c)
      case None => None
      case Some(c1) =>
        match Next(c1)
        case None => None
        case Some(c2) => Some(Step(c2, Some(CharValue(c1.cur))))
    else if conv == 'u' || conv == 'd' then
      match AfterSign(c, 1)
      case None => None
      case Some((c1, sign)) =>
        match DigitsRead(c1, d.lenEn, d.len, 0)
        case None => None
        case Some((c2, v)) => Some(Step(c2, Some(IntValue(StoredInt(v * sign)))))
    else if conv == ']' || conv == 's' then
      match StringRead(c, d.lenEn, d.len, [])
      case None => None
      case Some((c2, str)) => Some(Step(c2, Some(StrValue(str))))
    else Some(Step(c, None))
  }

  /** After every conversion but c, u and d the current character goes back into the pushback slot. */
  function PushedBack(conv: char, c: Cursor): Cursor
  {
    if conv in "cud" then c else Cursor(c.cur, Reader(c.cur, c.rd.pending))
  }

  /** A call's outcome: the count returned, the values stored and the reader left; waiting forever on the UART; or reading past the format's terminator. */
  datatype Outcome = Done(count: nat, stored: seq<Value>, rest: Reader) | Blocked | Overrun

  /** The format loop from index pf on. */
  function ScanLoop(fmt: seq<char>, pf: nat, c: Cursor, count: nat, stored: seq<Value>): Outcome
    requires pf <= |fmt|
    decreases |fmt| - pf
  {
    if FmtAt(fmt, pf) == '\0' then Done(count, stored, c.rd)
    else if fmt[pf] != '%' then ScanLoop(fmt, pf + 1, c, count, stored)
    else
      match DirectiveAt(fmt, pf + 1)
      case None => Overrun
      case Some(d) =>
        var conv := FmtAt(fmt, d.conv);
        match Convert(d, conv, c)
        case None => Blocked
        case Some(st) =>
          if d.conv == |fmt| then Overrun
          else
            var count' := if st.value.Some? then count + 1 else count;
            var stored' := if d.save && st.value.Some? then stored + [st.value.value] else stored;
            ScanLoop(fmt, d.conv + 1, PushedBack(conv, st.c), count', stored')
  }

  /** `c_scanf`: one character is taken before the format is looked at, even when the format pointer is NULL. */
  function Scanned(format: Option<seq<char>>, rd: Reader): Outcome
  {
    match Take(rd)
    case None => Blocked
    case Some((ch, rd1)) =>
      if format.None? then Done(0, [], rd1)
      else ScanLoop(format.value, 0, Cursor(ch, rd1), 0, [])
  }

  /** The conversions the format requests from pf on, and how many of them are not suppressed by '*'; read from the format alone. */
  function Conversions(fmt: seq<char>, pf: nat): (n: (nat, nat))
    requires pf <= |fmt|
    ensures n.1 <= n.0
    decreases |fmt| - pf
  {
    if FmtAt(fmt, pf) == '\0' then (0, 0)
    else if fmt[pf] != '%' then Conversions(fmt, pf + 1)
    else
      match DirectiveAt(fmt, pf + 1)
      case None => (0, 0)
      case Some(d) =>
        if d.conv == |fmt| then (0, 0)
        else
          var rest := Conversions(fmt, d.conv + 1);
          if fmt[d.conv] in "cuds]" then (rest.0 + 1, rest.1 + if d.save then 1 else 0) else rest
  }

  /** One conversion of the format loop that neither blocks nor overruns, and what it adds to the count of conversions. */
  lemma PercentStep(fmt: seq<char>, pf: nat, c: Cursor, count: nat, stored: seq<Value>) returns (d: Directive, st: Step)
    requires pf < |fmt| && fmt[pf] == '%' && FmtAt(fmt, pf) != '\0'
    requires ScanLoop(fmt, pf, c, count, stored).Done?
    ensures DirectiveAt(fmt, pf + 1) == Some(d) && pf < d.conv < |fmt|
    ensures Convert(d, fmt[d.conv], c) == Some(st) && (st.value.Some? <==> fmt[d.conv] in "cuds]")
    ensures ScanLoop(fmt, pf, c, count, stored)
         == ScanLoop(fmt, d.conv + 1, PushedBack(fmt[d.conv], st.c),
                     if st.value.Some? then count + 1 else count,
                     if d.save && st.value.Some? then stored + [st.value.value] else stored)
    ensures Conversions(fmt, pf)
         == if st.value.Some? then (Conversions(fmt, d.conv + 1).0 + 1, Conversions(fmt, d.conv + 1).1 + if d.save then 1 else 0)
            else Conversions(fmt, d.conv + 1)
  {
    d := DirectiveAt(fmt, pf + 1).value;
    st := Convert(d, FmtAt(fmt, d.conv), c).value;
  }

  /** The count grows by one for every conversion, suppressed or not, and a value is stored for each one not suppressed, whatever the input. */
  lemma {:induction false} LoopCounts(fmt: seq<char>, pf: nat, c: Cursor, count: nat, stored: seq<Value>)
    requires pf <= |fmt| && ScanLoop(fmt, pf, c, count, stored).Done?
    ensures ScanLoop(fmt, pf, c, count, stored).count == count + Conversions(fmt, pf).0
    ensures |ScanLoop(fmt, pf, c, count, stored).stored| == |stored| + Conversions(fmt, pf).1
    ensures ScanLoop(fmt, pf, c, count, stored).stored[..|stored|] == stored
    decreases |fmt| - pf
  {
    if FmtAt(fmt, pf) == '\0' {
    } else if fmt[pf] != '%' {
      LoopCounts(fmt, pf + 1, c, count, stored);
    } else {
      var d, st := PercentStep(fmt, pf, c, count, stored);
      var count' := if st.value.Some? then count + 1 else count;
      var stored' := if d.save && st.value.Some? then stored + [st.value.value] else stored;
      LoopCounts(fmt, d.conv + 1, PushedBack(fmt[d.conv], st.c), count', stored');
      assert stored'[..|stored|] == stored;
    }
  }

  /** `c_scanf` returns the number of conversions in the format, and stores one value per conversion without '*'. */
  lemma ScanCounts(fmt: seq<char>, rd: Reader)
    requires Scanned(Some(fmt), rd).Done?
    ensures Scanned(Some(fmt), rd).count == Conversions(fmt, 0).0
    ensures |Scanned(Some(fmt), rd).stored| == Conversions(fmt, 0).1
  {
    var (ch, rd1) := Take(rd).value;
    LoopCounts(fmt, 0, Cursor(ch, rd1), 0, []);
  }

  /** Characters of the format outside conversions consume no input. */
  lemma {:induction false} LiteralsConsumeNothing(fmt: seq<char>, pf: nat, c: Cursor, count: nat, stored: seq<Value>)
    requires pf <= |fmt| && '%' !in fmt[pf..]
    ensures ScanLoop(fmt, pf, c, count, stored) == Done(count, stored, c.rd)
    decreases |fmt| - pf
  {
    if FmtAt(fmt, pf) != '\0' {
      assert fmt[pf] == fmt[pf..][0];
      assert fmt[pf + 1..] == fmt[pf..][1..];
      LiteralsConsumeNothing(fmt, pf + 1, c, count, stored);
    }
  }

  /** A format without '%' returns 0 after taking exactly the one character read before the loop. */
  lemma LiteralFormat(fmt: seq<char>, rd: Reader)
    requires '%' !in fmt
    ensures Take(rd).None? ==> Scanned(Some(fmt), rd) == Blocked
    ensures Take(rd).Some? ==> Scanned(Some(fmt), rd) == Done(0, [], Take(rd).value.1)
  {
    if Take(rd).Some? {
      var (ch, rd1) := Take(rd).value;
      assert fmt[0..] == fmt;
      LiteralsConsumeNothing(fmt, 0, Cursor(ch, rd1), 0, []);
    }
  }

  /** A format that ends right after '%' reads past its terminator. */
  lemma TrailingPercent(rd: Reader)
    requires Take(rd).Some?
    ensures Scanned(Some("%"), rd) == Overrun
  {
  }

  /** `%c` stores a character that is not white space. */
  lemma {:induction false} AfterSpacesNotSpace(c: Cursor)
    requires AfterSpaces(c).Some?
    ensures !IsSpace(AfterSpaces(c).value.cur)
    decreases Size(c.rd)
  {
    if IsSpace(c.cur) {
      AfterSpacesNotSpace(Next(c).value);
    }
  }

  /** The sign loop stops on a digit, and the sign stays 1 or -1. */
  lemma {:induction false} AfterSignDigit(c: Cursor, sign: int)
    requires sign == 1 || sign == -1
    requires AfterSign(c, sign).Some?
    ensures IsDigit(AfterSign(c, sign).value.0.cur)
    ensures AfterSign(c, sign).value.1 == 1 || AfterSign(c, sign).value.1 == -1
    decreases Size(c.rd)
  {
    if !IsDigit(c.cur) {
      AfterSignDigit(Next(c).value, if c.cur == '-' then -1 else sign);
    }
  }

  /** A '-' among the skipped characters makes the number negative. */
  lemma MinusBeforeDigits(rest: seq<char>, ds: seq<char>)
    requires |ds| > 0 && IsDigit(ds[0])
    ensures AfterSign(Cursor('-', Reader('\0', ds + rest)), 1) == Some((Cursor(ds[0], Reader('\0', ds[1..] + rest)), -1))
  {
    assert (ds + rest)[1..] == ds[1..] + rest;
  }

  /** The decimal value of a digit string, continuing from `value`. */
  function Decimal(value: int, ds: seq<char>): int
    requires forall j :: 0 <= j < |ds| ==> IsDigit(ds[j])
    decreases |ds|
  {
    if |ds| == 0 then value else Decimal(value * 10 + DigitValue(ds[0]), ds[1..])
  }

  /** One turn of the digit loop without a width. */
  lemma DigitsStep(c: Cursor, len: U32, value: int)
    requires IsDigit(c.cur) && Next(c).Some?
    ensures DigitsRead(c, false, len, value) == DigitsRead(Next(c).value, false, Wrap(len - 1), value * 10 + DigitValue(c.cur))
  {
  }

  /** Without a width, the digit loop reads a whole digit string and yields its decimal value, stopping on the first non-digit. */
  lemma {:induction false} DigitsDecimal(d0: char, ds: seq<char>, x: char, rest: seq<char>, len: U32, value: int)
    requires IsDigit(d0) && !IsDigit(x)
    requires forall j :: 0 <= j < |ds| ==> IsDigit(ds[j])
    ensures DigitsRead(Cursor(d0, Reader('\0', ds + [x] + rest)), false, len, value)
         == Some((Cursor(x, Reader('\0', rest)), Decimal(value, [d0] + ds)))
    decreases |ds|
  {
    var c := Cursor(d0, Reader('\0', ds + [x] + rest));
    var v' := value * 10 + DigitValue(d0);
    assert ([d0] + ds)[1..] == ds;
    assert Decimal(value, [d0] + ds) == Decimal(v', ds);
    if |ds| == 0 {
      var n := Cursor(x, Reader('\0', rest));
      assert Next(c) == Some(n);
      DigitsStep(c, len, value);
    } else {
      var n := Cursor(ds[0], Reader('\0', ds[1..] + [x] + rest));
      assert (ds + [x] + rest)[1..] == ds[1..] + [x] + rest;
      assert Next(c) == Some(n);
      DigitsStep(c, len, value);
      DigitsDecimal(ds[0], ds[1..], x, rest, Wrap(len - 1), v');
      assert [ds[0]] + ds[1..] == ds;
    }
  }

  /** With a width, the digit loop takes at most `len` characters. */
  lemma {:induction false} DigitsWithinWidth(c: Cursor, len: U32, value: int)
    requires DigitsRead(c, true, len, value).Some?
    ensures Size(DigitsRead(c, true, len, value).value.0.rd) + len >= Size(c.rd)
    decreases Size(c.rd)
  {
    if IsDigit(c.cur) && len > 0 {
      DigitsWithinWidth(Next(c).value, Wrap(len - 1), value * 10 + DigitValue(c.cur));
    }
  }

  /**
   * The string loop appends no new-line, appends at most `len` characters
   * when a width is given, and stops on a new-line or an exhausted width.
   */
  lemma {:induction false} StringShape(c: Cursor, lenEn: bool, len: U32, acc: seq<char>)
    requires StringRead(c, lenEn, len, acc).Some?
    ensures var (c', str) := StringRead(c, lenEn, len, acc).value;
      |acc| <= |str| && str[..|acc|] == acc && '\n' !in str[|acc|..] &&
      (lenEn ==> |str| <= |acc| + len) &&
      (c'.cur == '\n' || (lenEn && |str| == |acc| + len))
    decreases Size(c.rd)
  {
    if c.cur != '\n' && (!lenEn || len > 0) {
      var n := Next(c).value;
      var len' := if lenEn then Wrap(len - 1) else len;
      StringShape(n, lenEn, len', acc + [c.cur]);
      var (c', str) := StringRead(c, lenEn, len, acc).value;
      assert str[..|acc| + 1][..|acc|] == (acc + [c.cur])[..|acc|];
      assert str[|acc|..] == [c.cur] + str[|acc| + 1..];
    }
  }

  /** The scanner's global state: the pushback slot `backch` and the UART behind `_getchar`. */
  class Console {
    var backch: char
    var pending: seq<char>

    /** The state as a reader value. */
    function State(): Reader
      reads this
    {
      Reader(backch, pending)
    }

    /** `char backch = 0`: the slot starts empty. */
    constructor (input: seq<char>)
      ensures backch == '\0' && pending == input
    {
      backch := '\0';
      pending := input;
    }

    /** `c_getch`: the pushed-back character first, clearing the slot, else the next UART character; None where the UART would be polled forever. */
    method GetCh() returns (ch: Option<char>)
      modifies this
      ensures old(backch) != '\0' ==> ch == Some(old(backch)) && backch == '\0' && pending == old(pending)
      ensures old(backch) == '\0' && |old(pending)| > 0 ==> ch == Some(old(pending)[0]) && backch == '\0' && pending == old(pending)[1..]
      ensures old(backch) == '\0' && |old(pending)| == 0 ==> ch.None? && backch == '\0' && pending == old(pending)
      ensures Take(old(State())) == if ch.None? then None else Some((ch.value, State()))
    {
      if backch == '\0' {
        if |pending| == 0 {
          return None;
        }
        ch := Some(pending[0]);
        pending := pending[1..];
      } else {
        var tmp := backch;
        backch := '\0';
        ch := Some(tmp);
      }
    }

    /** `c_getbackch`: b goes into the slot; the result says whether a character was there and is now lost. */
    method GetBackCh(b: char) returns (overwrote: bool)
      modifies this
      ensures backch == b && pending == old(pending)
      ensures overwrote <==> old(backch) != '\0'
    {
      var tmp := backch;
      backch := b;
      overwrote := tmp != '\0';
    }

    /** The white-space loop of `%c`. */
    method SkipSpaces(cur: char) returns (ok: bool, next: char)
      modifies this
      ensures AfterSpaces(Cursor(cur, old(State()))) == if ok then Some(Cursor(next, State())) else None
    {
      next := cur;
      while IsSpace(next)
        invariant AfterSpaces(Cursor(cur, old(State()))) == AfterSpaces(Cursor(next, State()))
        decreases Size(State())
      {
        var n := GetCh();
        if n.None? {
          return false, next;
        }
        next := n.value;
      }
      return true, next;
    }

    /** The non-digit loop of `%d` and `%u`. */
    method SkipToDigit(cur: char) returns (ok: bool, next: char, sign: int)
      modifies this
      ensures AfterSign(Cursor(cur, old(State())), 1) == if ok then Some((Cursor(next, State()), sign)) else None
    {
      next := cur;
      sign := 1;
      while !IsDigit(next)
        invariant AfterSign(Cursor(cur, old(State())), 1) == AfterSign(Cursor(next, State()), sign)
        decreases Size(State())
      {
        if next == '+' || next == '-' {
          if next == '-' {
            sign := -1;
          }
        }
        var n := GetCh();
        if n.None? {
          return false, next, sign;
        }
        next := n.value;
      }
      return true, next, sign;
    }

    /** The digit loop of `%d` and `%u`. */
    method ReadDigits(cur: char, lenEn: bool, len0: U32) returns (ok: bool, next: char, value: int)
      modifies this
      ensures DigitsRead(Cursor(cur, old(State())), lenEn, len0, 0) == if ok then Some((Cursor(next, State()), value)) else None
    {
      next := cur;
      value := 0;
      var len := len0;
      while IsDigit(next) && (!lenEn || len > 0)
        invariant DigitsRead(Cursor(cur, old(State())), lenEn, len0, 0) == DigitsRead(Cursor(next, State()), lenEn, len, value)
        decreases Size(State())
      {
        value := value * 10;
        value := value + DigitValue(next);
        var n := GetCh();
        if n.None? {
          return false, next, value;
        }
        next := n.value;
        len := Wrap(len as int - 1);
      }
      return true, next, value;
    }

    /** The character loop of `%s` and `%[`. */
    method ReadString(cur: char, lenEn: bool, len0: U32) returns (ok: bool, next: char, str: seq<char>)
      modifies this
      ensures StringRead(Cursor(cur, old(State())), lenEn, len0, []) == if ok then Some((Cursor(next, State()), str)) else None
    {
      next := cur;
      str := [];
      var len := len0;
      while next != '\n' && (!lenEn || len > 0)
        invariant StringRead(Cursor(cur, old(State())), lenEn, len0, []) == StringRead(Cursor(next, State()), lenEn, len, str)
        decreases Size(State())
      {
        str := str + [next];
        var n := GetCh();
        if n.None? {
          return false, next, str;
        }
        next := n.value;
        if lenEn {
          len := Wrap(len as int - 1);
        }
      }
      return true, next, str;
    }

    /** The `switch` on the conversion character. */
    method ReadConversion(d: Directive, conv: char, cur: char) returns (ok: bool, next: char, value: Option<Value>)
      modifies this
      ensures Convert(d, conv, Cursor(cur, old(State()))) == if ok then Some(Step(Cursor(next, State()), value)) else None
    {
      next := cur;
      value := None;
      ok := true;
      if conv == 'c' {
        var c1;
        ok, c1 := SkipSpaces(cur);
        if !ok {
          return;
        }
        var n := GetCh();
        if n.None? {
          return false, next, value;
        }
        value := Some(CharValue(c1));
        next := n.value;
      } else if conv == 'u' || conv == 'd' {
        var c1, sign, v;
        ok, c1, sign := SkipToDigit(cur);
        if !ok {
          return;
        }
        ok, next, v := ReadDigits(c1, d.lenEn, d.len);
        value := Some(IntValue(StoredInt(v * sign)));
      } else if conv == ']' || conv == 's' {
        var str;
        ok, next, str := ReadString(cur, d.lenEn, d.len);
        value := Some(StrValue(str));
      }
    }

    /** One '%' of the format: parse the specification, convert, push back, and count; None when the loop goes on. */
    method ScanDirective(fmt: seq<char>, pf: nat, cur: char, count: nat, stored: seq<Value>)
      returns (stop: Option<Outcome>, pf': nat, cur': char, count': nat, stored': seq<Value>)
      requires pf < |fmt| && fmt[pf] == '%'
      modifies this
      ensures stop.Some? ==> stop.value == ScanLoop(fmt, pf, Cursor(cur, old(State())), count, stored) && !stop.value.Done?
      ensures stop.None? ==> pf < pf' <= |fmt|
      ensures stop.None? ==> ScanLoop(fmt, pf, Cursor(cur, old(State())), count, stored) == ScanLoop(fmt, pf', Cursor(cur', State()), count', stored')
    {
      pf', cur', count', stored' := pf, cur, count, stored;
      var d := ParseDirective(fmt, pf + 1);
      if d.None? {
        return Some(Overrun), pf', cur', count', stored';
      }
      var conv := FmtAt(fmt, d.value.conv);
      var ok, value;
      ok, cur', value := ReadConversion(d.value, conv, cur);
      if !ok {
        return Some(Blocked), pf', cur', count', stored';
      }
      if conv != 'c' && conv != 'u' && conv != 'd' {
        var _ := GetBackCh(cur');
      }
      if value.Some? {
        if d.value.save {
          stored' := stored' + [value.value];
        }
        count' := count' + 1;
      }
      if d.value.conv == |fmt| {
        return Some(Overrun), pf', cur', count', stored';
      }
      return None, d.value.conv + 1, cur', count', stored';
    }

    /**
     * `c_scanf`: take one character, then walk the format; each '%'
     * conversion reads from the current character on, and every one but
     * c, u and d pushes its last character back.
     */
    method Scanf(format: Option<seq<char>>) returns (outcome: Outcome)
      modifies this
      ensures outcome == Scanned(format, old(State()))
      ensures outcome.Done? ==> outcome.rest == State()
    {
      var first := GetCh();
      if first.None? {
        return Blocked;
      }
      if format.None? {
        return Done(0, [], State());
      }
      var fmt := format.value;
      var cur := first.value;
      var count := 0;
      var stored: seq<Value> := [];
      var pf := 0;
      while FmtAt(fmt, pf) != '\0'
        invariant pf <= |fmt|
        invariant ScanLoop(fmt, pf, Cursor(cur, State()), count, stored) == Scanned(format, old(State()))
        decreases |fmt| - pf
      {
        if fmt[pf] == '%' {
          var stop;
          stop, pf, cur, count, stored := ScanDirective(fmt, pf, cur, count, stored);
          if stop.Some? {
            return stop.value;
          }
        } else {
          pf := pf + 1;
        }
      }
      return Done(count, stored, State());
    }
  }

  /** The width digits of a conversion specification, accumulated as an `unsigned`. */
  method ScanWidth(fmt: seq<char>, start: nat) returns (pf: nat, len: U32)
    requires start <= |fmt|
    ensures (pf, len) == Width(fmt, start, 0)
  {
    pf := start;
    len := 0;
    while IsDigit(FmtAt(fmt, pf))
      invariant start <= pf <= |fmt|
      invariant Width(fmt, start, 0) == Width(fmt, pf, len)
      decreases |fmt| - pf
    {
      len := Wrap(len * 10 + DigitValue(fmt[pf]));
      pf := pf + 1;
    }
  }

  /** The '[' loop: it passes over the set, which is collected but never used, up to the closing ']'. */
  method ScanSet(fmt: seq<char>, open: nat) returns (close: Option<nat>)
    requires open <= |fmt|
    ensures close == CloseBracket(fmt, open)
  {
    var pf := open;
    while FmtAt(fmt, pf) != ']'
      invariant open <= pf <= |fmt|
      invariant CloseBracket(fmt, open) == CloseBracket(fmt, pf)
      decreases |fmt| - pf
    {
      if pf == |fmt| {
        return None;
      }
      pf := pf + 1;
    }
    return Some(pf);
  }

  /** The conversion specification after a '%': the '*' flag, the width digits and a '[' set, without touching the input. */
  method ParseDirective(fmt: seq<char>, k: nat) returns (d: Option<Directive>)
    requires k <= |fmt|
    ensures d == DirectiveAt(fmt, k)
  {
    var pf := k;
    var save := true;
    if FmtAt(fmt, pf) == '*' {
      save := false;
      pf := pf + 1;
    }
    var start := pf;
    var len;
    pf, len := ScanWidth(fmt, start);
    var lenEn := pf > start;
    if FmtAt(fmt, pf) == '[' {
      var close := ScanSet(fmt, pf);
      if close.None? {
        return None;
      }
      pf := close.value;
    }
    return Some(Directive(save, lenEn, len, pf));
  }
}
