// The list-building loops shared by the per-interface property parsers:
// read one number per value with `int()`, keep it when it lies in the
// admitted range and append the property's default otherwise; append
// only defaults when the number of values is wrong. A value `int()`
// rejects raises `ValueError` and ends the loop, after the entries read
// so far have been appended.
module PropertyLists {
  import opened Wrappers
  import opened Builtins

  /** `int(v)` for every value `v`, in order; `None` stands for the `ValueError` it raises. */
  function Parsed(values: seq<string>): (numbers: seq<Option<int>>)
    ensures |numbers| == |values| && forall i :: 0 <= i < |values| ==> numbers[i] == ParseInt(values[i])
  {
    seq(|values|, i requires 0 <= i < |values| => ParseInt(values[i]))
  }

  /** `int()` accepts every value. */
  predicate AllInts(numbers: seq<Option<int>>)
  {
    forall i :: 0 <= i < |numbers| ==> numbers[i].Some?
  }

  /** The entry kept for one number: the number when it lies in `lo..hi`, the default otherwise. */
  function Clamp(number: int, lo: int, hi: int, dflt: int): (e: int)
    ensures lo <= number <= hi ==> e == number
    ensures !(lo <= number <= hi) ==> e == dflt
  {
    if lo <= number <= hi then number else dflt
  }

  /** `[x] * n`. */
  function Repeat<T>(x: T, n: nat): (r: seq<T>)
    ensures |r| == n && forall i :: 0 <= i < n ==> r[i] == x
  {
    seq(n, _ => x)
  }

  /** The default of the entry at flat index `k` of a row-major grid with `cols` columns: `first` in column 0, `rest` elsewhere. */
  function Default<T>(k: nat, cols: nat, first: T, rest: T): T
  {
    if cols > 0 && k % cols == 0 then first else rest
  }

  /**
   * The entries a row-major grid loop appends for the values from index
   * `start` on, up to the first one `int()` rejects: each parsed number
   * clamped to `lo..hi` with the default of its column.
   */
  function GridFrom(numbers: seq<Option<int>>, start: nat, cols: nat, lo: int, hi: int, first: int, rest: int): (e: seq<int>)
    requires start <= |numbers|
    ensures |e| <= |numbers| - start
    decreases |numbers| - start
  {
    if start == |numbers| then []
    else match numbers[start]
      case None => []
      case Some(n) => [Clamp(n, lo, hi, Default(start, cols, first, rest))] + GridFrom(numbers, start + 1, cols, lo, hi, first, rest)
  }

  /** The entries of the whole grid. */
  function GridEntries(numbers: seq<Option<int>>, cols: nat, lo: int, hi: int, first: int, rest: int): seq<int>
  {
    GridFrom(numbers, 0, cols, lo, hi, first, rest)
  }

  /**
   * Entry `k` comes from value `start + k`, which `int()` reads: the
   * number itself when it lies in `lo..hi`, the column's default
   * otherwise; and there are as many entries as values exactly when
   * `int()` reads every value.
   */
  lemma {:induction false} GridFromEntries(numbers: seq<Option<int>>, start: nat, cols: nat, lo: int, hi: int, first: int, rest: int, k: nat)
    requires start <= |numbers|
    requires k < |GridFrom(numbers, start, cols, lo, hi, first, rest)|
    ensures numbers[start + k].Some?
    ensures GridFrom(numbers, start, cols, lo, hi, first, rest)[k]
         == Clamp(numbers[start + k].value, lo, hi, Default(start + k, cols, first, rest))
    decreases k
  {
    if k > 0 {
      GridFromEntries(numbers, start + 1, cols, lo, hi, first, rest, k - 1);
    }
  }

  lemma {:induction false} GridFromCount(numbers: seq<Option<int>>, start: nat, cols: nat, lo: int, hi: int, first: int, rest: int)
    requires start <= |numbers|
    ensures |GridFrom(numbers, start, cols, lo, hi, first, rest)| == |numbers| - start
        <==> forall i :: start <= i < |numbers| ==> numbers[i].Some?
    decreases |numbers| - start
  {
    if start < |numbers| && numbers[start].Some? {
      GridFromCount(numbers, start + 1, cols, lo, hi, first, rest);
    }
  }

  /** The same for a one-dimensional loop whose default is the same everywhere. */
  function EntriesFrom(numbers: seq<Option<int>>, start: nat, lo: int, hi: int, dflt: int): (e: seq<int>)
    requires start <= |numbers|
    ensures |e| <= |numbers| - start
    decreases |numbers| - start
  {
    if start == |numbers| then []
    else match numbers[start]
      case None => []
      case Some(n) => [Clamp(n, lo, hi, dflt)] + EntriesFrom(numbers, start + 1, lo, hi, dflt)
  }

  function Entries(numbers: seq<Option<int>>, lo: int, hi: int, dflt: int): seq<int>
  {
    EntriesFrom(numbers, 0, lo, hi, dflt)
  }

  /** Entry `k` is the number of value `start + k` when it lies in `lo..hi`, the default otherwise. */
  lemma {:induction false} EntriesFromEntries(numbers: seq<Option<int>>, start: nat, lo: int, hi: int, dflt: int, k: nat)
    requires start <= |numbers|
    requires k < |EntriesFrom(numbers, start, lo, hi, dflt)|
    ensures numbers[start + k].Some?
    ensures EntriesFrom(numbers, start, lo, hi, dflt)[k] == Clamp(numbers[start + k].value, lo, hi, dflt)
    decreases k
  {
    if k > 0 {
      EntriesFromEntries(numbers, start + 1, lo, hi, dflt, k - 1);
    }
  }

  /** One entry per value exactly when `int()` accepts every value. */
  lemma {:induction false} EntriesFromCount(numbers: seq<Option<int>>, start: nat, lo: int, hi: int, dflt: int)
    requires start <= |numbers|
    ensures |EntriesFrom(numbers, start, lo, hi, dflt)| == |numbers| - start
        <==> forall i :: start <= i < |numbers| ==> numbers[i].Some?
    decreases |numbers| - start
  {
    if start < |numbers| && numbers[start].Some? {
      EntriesFromCount(numbers, start + 1, lo, hi, dflt);
    }
  }

  /** The defaults of a `rows` x `cols` grid. */
  function GridDefaults<T>(rows: nat, cols: nat, first: T, rest: T): (r: seq<T>)
    ensures |r| == rows * cols
  {
    seq(rows * cols, k requires 0 <= k < rows * cols => Default(k, cols, first, rest))
  }

  /** `x % d == r` whenever `x == d * q + r` with `0 <= r < d`. */
  lemma ModOfMultiplePlus(x: int, d: int, q: int, r: int)
    requires d > 0 && 0 <= r < d && x == d * q + r
    ensures x % d == r
  {
    var q', r' := x / d, x % d;
    assert d * (q - q') == r' - r;
    if q > q' {
      AtLeastOnce(q - q', d);
    } else if q < q' {
      AtLeastOnce(q' - q, d);
    }
  }

  lemma {:induction false} AtLeastOnce(a: int, d: int)
    requires a >= 1 && d > 0
    ensures a * d >= d
    decreases a
  {
    if a > 1 {
      AtLeastOnce(a - 1, d);
      assert a * d == (a - 1) * d + d;
    }
  }

  lemma GridBound(i: nat, j: nat, rows: nat, cols: nat)
    requires i < rows && j < cols
    ensures cols * i + j < rows * cols
  {
    assert cols * i + j < cols * i + cols == cols * (i + 1);
    assert cols * (i + 1) <= cols * rows;
  }

  /** Row `i` of a `rows` x `cols` grid ends where row `i + 1` starts, inside the grid; the last row ends at its end. */
  lemma NextRow(i: nat, rows: nat, cols: nat)
    requires i <= rows
    ensures cols * (i + 1) == cols * i + cols
    ensures i < rows ==> cols * i + cols <= rows * cols
    ensures i == rows ==> cols * i == rows * cols
  {
    if i < rows {
      assert cols * (i + 1) <= cols * rows;
    }
  }

  /**
   * The inner loop over row `row` of a grid with `cols` columns, whose
   * values start at `from`: `number = int(values[from + j])`, append the
   * number or the default of column `j`. It stops at the first value
   * `int()` rejects.
   */
  method AppendRow(list: seq<int>, numbers: seq<Option<int>>, from: nat, cols: nat, lo: int, hi: int, first: int, rest: int,
                   ghost row: nat)
      returns (grown: seq<int>, ok: bool)
    requires from == cols * row && from + cols <= |numbers|
    ensures ok ==> forall k :: from <= k < from + cols ==> numbers[k].Some?
    ensures ok ==>
      grown + GridFrom(numbers, from + cols, cols, lo, hi, first, rest) == list + GridFrom(numbers, from, cols, lo, hi, first, rest)
    ensures !ok ==> !AllInts(numbers)
    ensures !ok ==> grown == list + GridFrom(numbers, from, cols, lo, hi, first, rest)
  {
    grown := list;
    var j := 0;
    while j < cols
      invariant 0 <= j <= cols
      invariant forall k :: from <= k < from + j ==> numbers[k].Some?
      invariant grown + GridFrom(numbers, from + j, cols, lo, hi, first, rest) == list + GridFrom(numbers, from, cols, lo, hi, first, rest)
    {
      var number := numbers[from + j];
      if number.None? {
        return grown, false;
      }
      ModOfMultiplePlus(from + j, cols, row, j);
      var entry := Clamp(number.value, lo, hi, if j == 0 then first else rest);
      assert GridFrom(numbers, from + j, cols, lo, hi, first, rest) == [entry] + GridFrom(numbers, from + j + 1, cols, lo, hi, first, rest);
      grown := grown + [entry];
      j := j + 1;
    }
    ok := true;
  }

  /**
   * The loop over one value per interface: `for i in range(len(numbers))`,
   * `number = int(values[i])`, append the number or the default.
   */
  method AppendEntries(list: seq<int>, numbers: seq<Option<int>>, lo: int, hi: int, dflt: int) returns (grown: seq<int>, status: Status)
    ensures grown == list + Entries(numbers, lo, hi, dflt)
    ensures status == if AllInts(numbers) then Ok else Raised(ValueError)
  {
    grown := list;
    var i := 0;
    while i < |numbers|
      invariant 0 <= i <= |numbers|
      invariant forall k :: 0 <= k < i ==> numbers[k].Some?
      invariant grown + EntriesFrom(numbers, i, lo, hi, dflt) == list + Entries(numbers, lo, hi, dflt)
    {
      var number := numbers[i];
      if number.None? {
        return grown, Raised(ValueError);
      }
      var entry := Clamp(number.value, lo, hi, dflt);
      assert EntriesFrom(numbers, i, lo, hi, dflt) == [entry] + EntriesFrom(numbers, i + 1, lo, hi, dflt);
      grown := grown + [entry];
      i := i + 1;
    }
    status := Ok;
  }

  /** `for i in range(n): append(x)`. */
  method AppendRepeat<T>(list: seq<T>, x: T, n: nat) returns (grown: seq<T>)
    ensures grown == list + Repeat(x, n)
  {
    grown := list;
    var i := 0;
    while i < n
      invariant 0 <= i <= n
      invariant grown == list + Repeat(x, i)
    {
      grown := grown + [x];
      i := i + 1;
    }
  }

  /**
   * The nested loop over a `rows` x `cols` grid of values:
   * `number = int(values[cols * i + j])`, append the number or the
   * default of column `j`.
   */
  method AppendGrid(list: seq<int>, numbers: seq<Option<int>>, rows: nat, cols: nat, lo: int, hi: int, first: int, rest: int)
      returns (grown: seq<int>, status: Status)
    requires |numbers| == rows * cols
    ensures grown == list + GridEntries(numbers, cols, lo, hi, first, rest)
    ensures status == if AllInts(numbers) then Ok else Raised(ValueError)
  {
    grown := list;
    var i, from := 0, 0;
    while i < rows
      invariant 0 <= i <= rows && from == cols * i && from <= |numbers|
      invariant forall k :: 0 <= k < from ==> numbers[k].Some?
      invariant grown + GridFrom(numbers, from, cols, lo, hi, first, rest) == list + GridEntries(numbers, cols, lo, hi, first, rest)
    {
      NextRow(i, rows, cols);
      var ok;
      grown, ok := AppendRow(grown, numbers, from, cols, lo, hi, first, rest, i);
      if !ok {
        return grown, Raised(ValueError);
      }
      i, from := i + 1, from + cols;
    }
    NextRow(i, rows, cols);
    status := Ok;
  }

  /** The nested loop that appends the defaults of a `rows` x `cols` grid. */
  method AppendGridDefaults<T>(list: seq<T>, rows: nat, cols: nat, first: T, rest: T) returns (grown: seq<T>)
    ensures grown == list + GridDefaults(rows, cols, first, rest)
  {
    ghost var all := GridDefaults(rows, cols, first, rest);
    grown := list;
    var i := 0;
    while i < rows
      invariant 0 <= i <= rows
      invariant cols * i <= rows * cols
      invariant grown == list + all[..cols * i]
    {
      var j := 0;
      while j < cols
        invariant 0 <= j <= cols
        invariant cols * i + j <= rows * cols
        invariant grown == list + all[..cols * i + j]
      {
        GridBound(i, j, rows, cols);
        ModOfMultiplePlus(cols * i + j, cols, i, j);
        grown := grown + [if j == 0 then first else rest];
        j := j + 1;
      }
      assert cols * i + cols == cols * (i + 1);
      i := i + 1;
    }
    assert all[..cols * i] == all;
  }

  /** `for i in range(n): append(values[i])`. */
  method AppendAll<T>(list: seq<T>, values: seq<T>, n: nat) returns (grown: seq<T>)
    requires n <= |values|
    ensures grown == list + values[..n]
  {
    grown := list;
    var i := 0;
    while i < n
      invariant 0 <= i <= n
      invariant grown == list + values[..i]
    {
      assert values[..i + 1] == values[..i] + [values[i]];
      grown := grown + [values[i]];
      i := i + 1;
    }
  }

  /** Entry `k` of the entries is the clamped number of value `k`, and there is one entry per value exactly when `int()` reads them all. */
  lemma EntriesShape(numbers: seq<Option<int>>, lo: int, hi: int, dflt: int)
    ensures |Entries(numbers, lo, hi, dflt)| <= |numbers|
    ensures |Entries(numbers, lo, hi, dflt)| == |numbers| <==> AllInts(numbers)
    ensures forall k :: 0 <= k < |Entries(numbers, lo, hi, dflt)| ==>
      numbers[k].Some? && Entries(numbers, lo, hi, dflt)[k] == Clamp(numbers[k].value, lo, hi, dflt)
  {
    EntriesFromCount(numbers, 0, lo, hi, dflt);
    forall k | 0 <= k < |Entries(numbers, lo, hi, dflt)|
      ensures numbers[k].Some? && Entries(numbers, lo, hi, dflt)[k] == Clamp(numbers[k].value, lo, hi, dflt)
    {
      EntriesFromEntries(numbers, 0, lo, hi, dflt, k);
    }
  }

  /**
   * The grid entry of row `i`, column `j`, when the loop got that far, is
   * the clamped number of value `cols * i + j` with default `first` in
   * column 0 and `rest` elsewhere; there is one entry per value exactly
   * when `int()` reads them all.
   */
  lemma GridShape(numbers: seq<Option<int>>, cols: nat, lo: int, hi: int, first: int, rest: int, i: nat, j: nat)
    requires j < cols
    ensures |GridEntries(numbers, cols, lo, hi, first, rest)| == |numbers| <==> AllInts(numbers)
    ensures cols * i + j < |GridEntries(numbers, cols, lo, hi, first, rest)| ==>
      numbers[cols * i + j].Some? &&
      GridEntries(numbers, cols, lo, hi, first, rest)[cols * i + j]
        == Clamp(numbers[cols * i + j].value, lo, hi, if j == 0 then first else rest)
  {
    GridFromCount(numbers, 0, cols, lo, hi, first, rest);
    if cols * i + j < |GridEntries(numbers, cols, lo, hi, first, rest)| {
      GridFromEntries(numbers, 0, cols, lo, hi, first, rest, cols * i + j);
      ModOfMultiplePlus(cols * i + j, cols, i, j);
    }
  }

  /** In the default grid, column 0 of every row holds `first` and every other column `rest`. */
  lemma GridDefaultsShape<T>(rows: nat, cols: nat, first: T, rest: T, i: nat, j: nat)
    requires i < rows && j < cols
    ensures cols * i + j < |GridDefaults(rows, cols, first, rest)|
    ensures GridDefaults(rows, cols, first, rest)[cols * i + j] == if j == 0 then first else rest
  {
    GridBound(i, j, rows, cols);
    ModOfMultiplePlus(cols * i + j, cols, i, j);
  }

  /** A list after a loop that appends to it, and how the loop ended. */
  datatype Grown = Grown(list: seq<int>, status: Status)

  /**
   * The per-interface pattern: with exactly `n` values, append each
   * value's clamped number (raising `ValueError` at the first value
   * `int()` rejects); with any other number of values, append `n`
   * defaults.
   */
  function PerInterface(list: seq<int>, words: seq<string>, n: nat, lo: int, hi: int, dflt: int): Grown
  {
    if |words| == n then
      Grown(list + Entries(Parsed(words), lo, hi, dflt), if AllInts(Parsed(words)) then Ok else Raised(ValueError))
    else
      Grown(list + Repeat(dflt, n), Ok)
  }

  /** Each entry after `list` is the clamped number of the value at its position among `words`. */
  predicate AppendedClamped(list: seq<int>, words: seq<string>, grown: seq<int>, lo: int, hi: int, dflt: int)
  {
    forall k :: |list| <= k < |grown| ==>
      k - |list| < |words| && ParseInt(words[k - |list|]).Some? && grown[k] == Clamp(ParseInt(words[k - |list|]).value, lo, hi, dflt)
  }

  /**
   * What a per-interface parser promises: the old list is kept as a
   * prefix; on success exactly `n` entries are appended; each appended
   * entry is the number read from the matching value when it lies in
   * `lo..hi` and the default otherwise; a wrong number of values yields
   * `n` defaults; `ValueError` is raised exactly when the number of
   * values is right and one of them is not an integer.
   */
  lemma PerInterfaceShape(list: seq<int>, words: seq<string>, n: nat, lo: int, hi: int, dflt: int)
    ensures var g := PerInterface(list, words, n, lo, hi, dflt);
      |list| <= |g.list| && g.list[..|list|] == list &&
      (g.status.Ok? ==> |g.list| == |list| + n) &&
      (g.status == Raised(ValueError) <==> |words| == n && exists i :: 0 <= i < |words| && ParseInt(words[i]).None?) &&
      (g.status.Ok? || g.status == Raised(ValueError)) &&
      (|words| != n ==> g.list == list + Repeat(dflt, n))
    ensures |words| == n ==> AppendedClamped(list, words, PerInterface(list, words, n, lo, hi, dflt).list, lo, hi, dflt)
  {
    PerInterfaceLength(list, words, n, lo, hi, dflt);
    PerInterfaceStatus(list, words, n, lo, hi, dflt);
    if |words| == n {
      PerInterfaceEntries(list, words, n, lo, hi, dflt);
    }
  }

  /** The old list is a prefix, and a run that succeeds appends `n` entries. */
  lemma PerInterfaceLength(list: seq<int>, words: seq<string>, n: nat, lo: int, hi: int, dflt: int)
    ensures var g := PerInterface(list, words, n, lo, hi, dflt);
      |list| <= |g.list| && g.list[..|list|] == list && (g.status.Ok? ==> |g.list| == |list| + n)
  {
    var g := PerInterface(list, words, n, lo, hi, dflt);
    assert g.list[..|list|] == list;
    if |words| == n {
      EntriesShape(Parsed(words), lo, hi, dflt);
    }
  }

  /** `ValueError` is raised exactly when the count is right and a value is not an integer. */
  lemma PerInterfaceStatus(list: seq<int>, words: seq<string>, n: nat, lo: int, hi: int, dflt: int)
    ensures var g := PerInterface(list, words, n, lo, hi, dflt);
      g.status == Raised(ValueError) <==> |words| == n && exists i :: 0 <= i < |words| && ParseInt(words[i]).None?
  {
    if |words| == n && !AllInts(Parsed(words)) {
      var numbers := Parsed(words);
      var i :| 0 <= i < |numbers| && numbers[i].None?;
      assert ParseInt(words[i]).None?;
    }
  }

  /** With the right count, each appended entry is the clamped number of its value. */
  lemma PerInterfaceEntries(list: seq<int>, words: seq<string>, n: nat, lo: int, hi: int, dflt: int)
    requires |words| == n
    ensures AppendedClamped(list, words, PerInterface(list, words, n, lo, hi, dflt).list, lo, hi, dflt)
  {
    var g := PerInterface(list, words, n, lo, hi, dflt);
    var numbers := Parsed(words);
    EntriesShape(numbers, lo, hi, dflt);
    forall k | |list| <= k < |g.list|
      ensures ParseInt(words[k - |list|]).Some? && g.list[k] == Clamp(ParseInt(words[k - |list|]).value, lo, hi, dflt)
    {
      assert g.list[k] == Entries(numbers, lo, hi, dflt)[k - |list|];
    }
  }

  /** The per-interface pattern as the parsers run it. */
  method AppendPerInterface(list: seq<int>, words: seq<string>, n: nat, lo: int, hi: int, dflt: int) returns (g: Grown)
    ensures g == PerInterface(list, words, n, lo, hi, dflt)
  {
    if |words| == n {
      var grown, status := AppendEntries(list, Parsed(words), lo, hi, dflt);
      g := Grown(grown, status);
    } else {
      var grown := AppendRepeat(list, dflt, n);
      g := Grown(grown, Ok);
    }
  }

  /**
   * The per-connection pattern over a `rows` x `cols` grid: with exactly
   * `rows * cols` values, append each value's clamped number, default
   * `first` in column 0 and `rest` elsewhere (raising `ValueError` at the
   * first value `int()` rejects); otherwise append the default grid.
   */
  function PerGrid(list: seq<int>, words: seq<string>, rows: nat, cols: nat, lo: int, hi: int, first: int, rest: int): Grown
  {
    if |words| == rows * cols then
      Grown(list + GridEntries(Parsed(words), cols, lo, hi, first, rest), if AllInts(Parsed(words)) then Ok else Raised(ValueError))
    else
      Grown(list + GridDefaults(rows, cols, first, rest), Ok)
  }

  /**
   * What a per-connection parser promises: the old list is kept; on
   * success exactly `rows * cols` entries are appended; entry `(i, j)` is
   * the number read from value `cols * i + j` when it lies in `lo..hi`,
   * and the column's default otherwise, or the column's default
   * outright when the number of values is wrong.
   */
  lemma PerGridShape(list: seq<int>, words: seq<string>, rows: nat, cols: nat, lo: int, hi: int, first: int, rest: int)
    ensures var g := PerGrid(list, words, rows, cols, lo, hi, first, rest);
      |list| <= |g.list| && g.list[..|list|] == list &&
      (g.status.Ok? ==> |g.list| == |list| + rows * cols) &&
      (g.status == Raised(ValueError) <==> |words| == rows * cols && exists k :: 0 <= k < |words| && ParseInt(words[k]).None?) &&
      (g.status.Ok? || g.status == Raised(ValueError))
  {
    var g := PerGrid(list, words, rows, cols, lo, hi, first, rest);
    assert g.list[..|list|] == list;
    if |words| == rows * cols {
      var numbers := Parsed(words);
      GridFromCount(numbers, 0, cols, lo, hi, first, rest);
      if !AllInts(numbers) {
        var k :| 0 <= k < |numbers| && numbers[k].None?;
        assert ParseInt(words[k]).None?;
      }
    }
  }

  /** Entry `(i, j)` of a per-connection list, when the loop got that far. */
  lemma PerGridEntry(list: seq<int>, words: seq<string>, rows: nat, cols: nat, lo: int, hi: int, first: int, rest: int, i: nat, j: nat)
    requires j < cols
    ensures var g := PerGrid(list, words, rows, cols, lo, hi, first, rest);
      |list| + cols * i + j < |g.list| ==>
        if |words| == rows * cols then
          ParseInt(words[cols * i + j]).Some? &&
          g.list[|list| + cols * i + j] == Clamp(ParseInt(words[cols * i + j]).value, lo, hi, if j == 0 then first else rest)
        else
          g.list[|list| + cols * i + j] == if j == 0 then first else rest
  {
    var g := PerGrid(list, words, rows, cols, lo, hi, first, rest);
    if |list| + cols * i + j < |g.list| {
      if |words| == rows * cols {
        var numbers := Parsed(words);
        GridShape(numbers, cols, lo, hi, first, rest, i, j);
        assert g.list[|list| + cols * i + j] == GridEntries(numbers, cols, lo, hi, first, rest)[cols * i + j];
      } else if i < rows {
        GridDefaultsShape(rows, cols, first, rest, i, j);
        assert g.list[|list| + cols * i + j] == GridDefaults(rows, cols, first, rest)[cols * i + j];
      } else {
        assert false;
      }
    }
  }

  /** The per-connection pattern as the parsers run it. */
  method AppendPerGrid(list: seq<int>, words: seq<string>, rows: nat, cols: nat, lo: int, hi: int, first: int, rest: int)
      returns (g: Grown)
    ensures g == PerGrid(list, words, rows, cols, lo, hi, first, rest)
  {
    if |words| == rows * cols {
      var grown, status := AppendGrid(list, Parsed(words), rows, cols, lo, hi, first, rest);
      g := Grown(grown, status);
    } else {
      var grown := AppendGridDefaults(list, rows, cols, first, rest);
      g := Grown(grown, Ok);
    }
  }
}
