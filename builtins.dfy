// The pieces of Python's built-in behaviour the configuration scripts
// rely on: `str.split()`, `str.strip()`, `int(s)`, `int(s, 16)`, `str(n)`
// for a natural number, the substring test `sub in s`, and the exceptions
// a script raises (and never catches). White space and digits are the
// ASCII ones.
module Builtins {
  import opened Wrappers

  /** An exception a script raises; none of the modelled scripts catches one. */
  datatype Exception = ValueError | IndexError | AssertionError

  /** How a call ends: it returns, or it raises. */
  datatype Status = Ok | Raised(error: Exception)

  /** The characters `str.split()` and `str.strip()` treat as white space (the ASCII ones). */
  predicate IsWhite(c: char)
  {
    c == ' ' || c == '\t' || c == '\n' || c == '\r' || c == '\U{0B}' || c == '\U{0C}' || '\U{1C}' <= c <= '\U{1F}'
  }

  /** The length of the run of non-white characters that starts `s`. */
  function WordLength(s: string): (n: nat)
    ensures n <= |s|
    ensures forall i :: 0 <= i < n ==> !IsWhite(s[i])
    ensures n < |s| ==> IsWhite(s[n])
  {
    if s == [] || IsWhite(s[0]) then 0 else 1 + WordLength(s[1..])
  }

  /** `s.split()`: the maximal runs of non-white characters of `s`, in order. */
  function Split(s: string): (words: seq<string>)
    ensures forall w :: w in words ==> w != [] && forall c :: c in w ==> !IsWhite(c)
    decreases |s|
  {
    if s == [] then []
    else if IsWhite(s[0]) then Split(s[1..])
    else
      var n := WordLength(s);
      [s[..n]] + Split(s[n..])
  }

  /** The characters of `s` that are not white space, in order. */
  function NonWhite(s: string): string
  {
    if s == [] then [] else (if IsWhite(s[0]) then [] else [s[0]]) + NonWhite(s[1..])
  }

  /** The words joined without separators. */
  function Concat(words: seq<string>): string
  {
    if words == [] then [] else words[0] + Concat(words[1..])
  }

  lemma {:induction false} NonWhiteAppend(a: string, b: string)
    ensures NonWhite(a + b) == NonWhite(a) + NonWhite(b)
    decreases |a|
  {
    if a == [] {
      assert a + b == b;
    } else {
      assert (a + b)[0] == a[0];
      assert (a + b)[1..] == a[1..] + b;
      NonWhiteAppend(a[1..], b);
    }
  }

  lemma {:induction false} NonWhiteOfWord(s: string)
    requires forall i :: 0 <= i < |s| ==> !IsWhite(s[i])
    ensures NonWhite(s) == s
    decreases |s|
  {
    if s != [] {
      NonWhiteOfWord(s[1..]);
    }
  }

  /** Splitting loses only the white space: the words, joined, are the non-white characters of `s`. */
  lemma {:induction false} SplitKeepsText(s: string)
    ensures Concat(Split(s)) == NonWhite(s)
    decreases |s|
  {
    if s == [] {
    } else if IsWhite(s[0]) {
      SplitKeepsText(s[1..]);
    } else {
      var n := WordLength(s);
      assert s == s[..n] + s[n..];
      NonWhiteAppend(s[..n], s[n..]);
      NonWhiteOfWord(s[..n]);
      SplitKeepsText(s[n..]);
    }
  }

  /** The words written out, each followed by one space. */
  function Spaced(words: seq<string>): string
  {
    if words == [] then [] else words[0] + [' '] + Spaced(words[1..])
  }

  /** The first word of `w + ' ' + rest` is `w` itself, when `w` is non-empty and holds no white space. */
  lemma WordLengthOfSpaced(w: string, rest: string)
    requires w != [] && forall c :: c in w ==> !IsWhite(c)
    ensures WordLength(w + [' '] + rest) == |w|
  {
    var s := w + [' '] + rest;
    var n := WordLength(s);
    assert IsWhite(s[|w|]);
  }

  /**
   * Splitting is maximal: non-empty words without white space, written out
   * with spaces between them, split back into exactly those words.
   */
  lemma {:induction false} SplitSpacedRoundTrip(words: seq<string>)
    requires forall w :: w in words ==> w != [] && forall c :: c in w ==> !IsWhite(c)
    ensures Split(Spaced(words)) == words
    decreases |words|
  {
    if words != [] {
      var w, rest := words[0], Spaced(words[1..]);
      var s := w + [' '] + rest;
      assert words[0] in words;
      WordLengthOfSpaced(w, rest);
      assert s[0] == w[0] && w[0] in w;
      assert s[..|w|] == w;
      assert s[|w|..] == [' '] + rest;
      assert ([' '] + rest)[1..] == rest;
      assert forall v :: v in words[1..] ==> v in words;
      SplitSpacedRoundTrip(words[1..]);
    }
  }

  /** `s.lstrip()`. */
  function TrimStart(s: string): (t: string)
    ensures t == [] || !IsWhite(t[0])
    ensures NonWhite(t) == NonWhite(s)
  {
    if s != [] && IsWhite(s[0]) then TrimStart(s[1..]) else s
  }

  /** `s.rstrip()`. */
  function TrimEnd(s: string): (t: string)
    ensures t == [] || !IsWhite(t[|t| - 1])
    ensures |t| <= |s| && t == s[..|t|]
  {
    if s != [] && IsWhite(s[|s| - 1]) then TrimEnd(s[..|s| - 1]) else s
  }

  /** `s.strip()`. */
  function Strip(s: string): string
  {
    TrimEnd(TrimStart(s))
  }

  /** The value of a digit in bases up to 16, either case. */
  function DigitValue(c: char): (d: Option<nat>)
    ensures d.Some? ==> d.value < 16
  {
    if '0' <= c <= '9' then Some(c as int - '0' as int)
    else if 'a' <= c <= 'f' then Some(c as int - 'a' as int + 10)
    else if 'A' <= c <= 'F' then Some(c as int - 'A' as int + 10)
    else None
  }

  /** Every character of `ds` is a digit of `base`. */
  predicate AllDigits(ds: string, base: nat)
  {
    forall i :: 0 <= i < |ds| ==> DigitValue(ds[i]).Some? && DigitValue(ds[i]).value < base
  }

  /** The number the digits `ds` denote in `base`, most significant first. */
  function Value(ds: string, base: nat): nat
    requires AllDigits(ds, base)
  {
    if ds == [] then 0 else Value(ds[..|ds| - 1], base) * base + DigitValue(ds[|ds| - 1]).value
  }

  /** A non-empty run of digits of `base`, or nothing. */
  function Unsigned(ds: string, base: nat): (r: Option<int>)
    ensures r.Some? <==> ds != [] && AllDigits(ds, base)
    ensures r.Some? ==> r.value >= 0
  {
    if ds != [] && AllDigits(ds, base) then Some(Value(ds, base)) else None
  }

  /** An optional sign followed by the magnitude. */
  function Signed(s: string, base: nat, hexPrefix: bool): Option<int>
  {
    if s != [] && s[0] == '-' then
      match Magnitude(s[1..], base, hexPrefix)
      case Some(m) => Some(-m)
      case None => None
    else if s != [] && s[0] == '+' then Magnitude(s[1..], base, hexPrefix)
    else Magnitude(s, base, hexPrefix)
  }

  /** The digits after the sign; in base 16 an optional `0x` or `0X` comes first. */
  function Magnitude(s: string, base: nat, hexPrefix: bool): Option<int>
  {
    if hexPrefix && |s| >= 2 && s[0] == '0' && (s[1] == 'x' || s[1] == 'X') then Unsigned(s[2..], base)
    else Unsigned(s, base)
  }

  /** `int(s)`: `None` is the `ValueError` Python raises. */
  function ParseInt(s: string): Option<int>
  {
    Signed(Strip(s), 10, false)
  }

  /** `int(s, 16)`: `None` is the `ValueError` Python raises. */
  function ParseHex(s: string): Option<int>
  {
    Signed(Strip(s), 16, true)
  }

  /** The digit character for `d`. */
  function DigitChar(d: nat): (c: char)
    requires d < 10
    ensures DigitValue(c) == Some(d)
  {
    ('0' as int + d) as char
  }

  /** `str(n)` for a natural number: its decimal digits, no leading zero. */
  function NatToString(n: nat): (s: string)
    ensures s != [] && AllDigits(s, 10)
    ensures |s| > 1 ==> s[0] != '0'
  {
    if n < 10 then [DigitChar(n)] else NatToString(n / 10) + [DigitChar(n % 10)]
  }

  lemma {:induction false} NatToStringValue(n: nat)
    ensures Value(NatToString(n), 10) == n
  {
    var s := NatToString(n);
    if n < 10 {
      assert s[..0] == [];
    } else {
      NatToStringValue(n / 10);
      assert s[..|s| - 1] == NatToString(n / 10);
    }
  }

  /** `int(str(n)) == n`: the decimal text of a natural number reads back as that number. */
  lemma ParseNatToString(n: nat)
    ensures ParseInt(NatToString(n)) == Some(n)
  {
    ParseDigits(NatToString(n));
    NatToStringValue(n);
  }

  /** A non-empty run of decimal digits reads back as its value. */
  lemma ParseDigits(s: string)
    requires s != [] && AllDigits(s, 10)
    ensures ParseInt(s) == Some(Value(s, 10))
  {
    assert DigitValue(s[0]).Some? && DigitValue(s[|s| - 1]).Some?;
    assert TrimStart(s) == s;
    assert Strip(s) == s;
  }

  /** `sub in s` for strings. */
  predicate Contains(s: string, sub: string)
    decreases |s|
  {
    |sub| <= |s| && (s[..|sub|] == sub || Contains(s[1..], sub))
  }

  /** `s.endswith(suffix)`. */
  predicate EndsWith(s: string, suffix: string)
  {
    |suffix| <= |s| && s[|s| - |suffix|..] == suffix
  }

  /** `s[-3:]`: the last three characters, or all of a shorter string. */
  function LastThree(s: string): (t: string)
    ensures |t| == if |s| < 3 then |s| else 3
  {
    if |s| >= 3 then [s[|s| - 3], s[|s| - 2], s[|s| - 1]] else s
  }

  /** Comparing the last three characters with a three-letter word is a suffix test. */
  lemma LastThreeIsSuffix(s: string, word: string)
    requires |word| == 3
    ensures LastThree(s) == word <==> EndsWith(s, word)
  {
    if |s| >= 3 {
      assert LastThree(s) == s[|s| - 3..];
    }
  }

  /** `1 << n`. */
  function Pow2(n: nat): (p: nat)
    ensures p >= 1
  {
    if n == 0 then 1 else 2 * Pow2(n - 1)
  }
}
