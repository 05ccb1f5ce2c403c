/**
 * The JavaScript string built-ins the core relies on: `trim`, `split` on a
 * character and on the column regex `/\t+|\s{2,}/`, `toLowerCase`,
 * `includes`, `parseInt` and `Number.prototype.toString`.
 * Strings are sequences of Unicode scalar values.
 */
module Text {
  import opened Wrappers

  /**
   * JavaScript's WhiteSpace and LineTerminator characters: what `trim` removes
   * and `\s` matches (U+0009 to U+000D, space, U+00A0, U+1680, U+2000 to
   * U+200A, U+2028, U+2029, U+202F, U+205F, U+3000 and U+FEFF).
   */
  predicate IsSpace(c: char)
    ensures c == ' ' || c == '\t' || c == '\n' || c == '\r' ==> IsSpace(c)
    ensures IsSpace(c) ==> !('0' <= c <= '9') && !('a' <= c <= 'z') && !('A' <= c <= 'Z') && c != ','
  {
    var n := c as int;
    (9 <= n <= 13) || n == 32 || n == 0xA0 || n == 0x1680 || (0x2000 <= n <= 0x200A)
    || n == 0x2028 || n == 0x2029 || n == 0x202F || n == 0x205F || n == 0x3000 || n == 0xFEFF
  }

  /** The index of the first character at or after `i` that is not white space, or `|s|`. */
  function SkipSpaces(s: string, i: nat): (k: nat)
    requires i <= |s|
    ensures i <= k <= |s|
    ensures forall j :: i <= j < k ==> IsSpace(s[j])
    ensures k == |s| || !IsSpace(s[k])
    decreases |s| - i
  {
    if i < |s| && IsSpace(s[i]) then SkipSpaces(s, i + 1) else i
  }

  /** The index just after the last character before `j` that is not white space, or 0. */
  function BackSpaces(s: string, j: nat): (k: nat)
    requires j <= |s|
    ensures k <= j
    ensures forall i :: k <= i < j ==> IsSpace(s[i])
    ensures k == 0 || !IsSpace(s[k - 1])
  {
    if j > 0 && IsSpace(s[j - 1]) then BackSpaces(s, j - 1) else j
  }

  /** `String.prototype.trimStart`: the suffix left after dropping leading white space. */
  function TrimStart(s: string): (r: string)
    ensures |r| <= |s| && r == s[|s| - |r|..]
    ensures r == [] || !IsSpace(r[0])
    ensures forall i :: 0 <= i < |s| - |r| ==> IsSpace(s[i])
  {
    s[SkipSpaces(s, 0)..]
  }

  /** `String.prototype.trimEnd`: the prefix left after dropping trailing white space. */
  function TrimEnd(s: string): (r: string)
    ensures |r| <= |s| && r == s[..|r|]
    ensures r == [] || !IsSpace(r[|r| - 1])
    ensures forall i :: |r| <= i < |s| ==> IsSpace(s[i])
  {
    s[..BackSpaces(s, |s|)]
  }

  /** `String.prototype.trim`. */
  function Trim(s: string): (r: string)
    ensures |r| <= |s|
    ensures r == [] || (!IsSpace(r[0]) && !IsSpace(r[|r| - 1]))
    ensures r == [] <==> forall i :: 0 <= i < |s| ==> IsSpace(s[i])
  {
    var t := TrimStart(s);
    var r := TrimEnd(t);
    assert r == [] ==> forall i :: 0 <= i < |s| ==> IsSpace(s[i]) by {
      if r == [] {
        assert t == [];
      }
    }
    r
  }

  /**
   * What `trim` keeps: the slice `s[a..a + |Trim(s)|]`, with only white space
   * before it and after it.
   */
  lemma TrimSlice(s: string) returns (a: nat)
    ensures a + |Trim(s)| <= |s| && Trim(s) == s[a..a + |Trim(s)|]
    ensures forall i :: 0 <= i < a ==> IsSpace(s[i])
    ensures forall i :: a + |Trim(s)| <= i < |s| ==> IsSpace(s[i])
  {
    var t := TrimStart(s);
    var r := TrimEnd(t);
    a := |s| - |t|;
    forall i | a + |r| <= i < |s| ensures IsSpace(s[i]) {
      assert s[i] == t[i - a];
    }
  }

  /** Index of the first occurrence of `c` in `s`. */
  function IndexOf(s: string, c: char): (r: nat)
    requires c in s
    ensures r < |s| && s[r] == c && c !in s[..r]
  {
    if s[0] == c then 0 else 1 + IndexOf(s[1..], c)
  }

  /** The inverse of `Split`: the parts glued together with `sep` between them. */
  function Join(parts: seq<string>, sep: char): string
  {
    if parts == [] then ""
    else if |parts| == 1 then parts[0]
    else parts[0] + [sep] + Join(parts[1..], sep)
  }

  /** `String.prototype.split` on a one-character separator. */
  function Split(s: string, sep: char): (r: seq<string>)
    ensures |r| >= 1
    ensures forall k :: 0 <= k < |r| ==> sep !in r[k]
    ensures Join(r, sep) == s
    decreases |s|
  {
    if sep !in s then [s]
    else
      var i := IndexOf(s, sep);
      var rest := Split(s[i + 1..], sep);
      var r := [s[..i]] + rest;
      assert r[1..] == rest;
      assert s == s[..i] + [sep] + s[i + 1..];
      r
  }

  /** Length of the run of tab characters starting at `q`. */
  function TabRun(s: string, q: nat): (n: nat)
    requires q <= |s|
    ensures q + n <= |s|
    decreases |s| - q
  {
    if q < |s| && s[q] == '\t' then 1 + TabRun(s, q + 1) else 0
  }

  /** The tab run is maximal: tabs up to its end, and no tab right after it. */
  lemma {:induction false} TabRunMaximal(s: string, q: nat)
    requires q <= |s|
    ensures forall k :: q <= k < q + TabRun(s, q) ==> s[k] == '\t'
    ensures q + TabRun(s, q) == |s| || s[q + TabRun(s, q)] != '\t'
    decreases |s| - q
  {
    if q < |s| && s[q] == '\t' {
      TabRunMaximal(s, q + 1);
    }
  }

  /** Length of the run of white space starting at `q`. */
  function SpaceRun(s: string, q: nat): (n: nat)
    requires q <= |s|
    ensures q + n <= |s|
    decreases |s| - q
  {
    if q < |s| && IsSpace(s[q]) then 1 + SpaceRun(s, q + 1) else 0
  }

  /** The white-space run is maximal: white space up to its end, and none right after it. */
  lemma {:induction false} SpaceRunMaximal(s: string, q: nat)
    requires q <= |s|
    ensures forall k :: q <= k < q + SpaceRun(s, q) ==> IsSpace(s[k])
    ensures q + SpaceRun(s, q) == |s| || !IsSpace(s[q + SpaceRun(s, q)])
    decreases |s| - q
  {
    if q < |s| && IsSpace(s[q]) {
      SpaceRunMaximal(s, q + 1);
    }
  }

  /**
   * Length of the match of `/\t+|\s{2,}/` anchored at `q`, or 0 when there is none.
   * The first alternative wins whenever `s[q]` is a tab.
   */
  function SepAt(s: string, q: nat): (n: nat)
    requires q < |s|
    ensures q + n <= |s|
  {
    if s[q] == '\t' then TabRun(s, q)
    else if q + 1 < |s| && IsSpace(s[q]) && IsSpace(s[q + 1]) then SpaceRun(s, q)
    else 0
  }

  /** A separator starts at `q` exactly when there is a tab there or two white-space characters in a row. */
  lemma SepAtZero(s: string, q: nat)
    requires q < |s|
    ensures SepAt(s, q) == 0 <==> s[q] != '\t' && !(q + 1 < |s| && IsSpace(s[q]) && IsSpace(s[q + 1]))
  {
  }

  /** A column of a regex split: no tab and no two adjacent white-space characters. */
  predicate Unbroken(f: string) {
    forall k :: 0 <= k < |f| ==> f[k] != '\t' && (k + 1 < |f| ==> !(IsSpace(f[k]) && IsSpace(f[k + 1])))
  }

  /** A field that the scan crossed without finding a separator is unbroken. */
  lemma FieldUnbroken(s: string, p: nat, q: nat)
    requires p <= q <= |s|
    requires forall k :: p <= k < q ==> SepAt(s, k) == 0
    ensures Unbroken(s[p..q])
  {
    var f := s[p..q];
    forall k | 0 <= k < |f| ensures f[k] != '\t' && (k + 1 < |f| ==> !(IsSpace(f[k]) && IsSpace(f[k + 1]))) {
      assert f[k] == s[p + k];
      SepAtZero(s, p + k);
      if k + 1 < |f| {
        assert f[k + 1] == s[p + k + 1];
      }
    }
  }

  /** The split loop: the current field starts at `p`, the scan is at `q`. */
  function SplitFrom(s: string, p: nat, q: nat): (r: seq<string>)
    requires p <= q <= |s|
    ensures |r| >= 1
    decreases |s| - q
  {
    if q == |s| then [s[p..q]]
    else
      var n := SepAt(s, q);
      if n == 0 then SplitFrom(s, p, q + 1)
      else [s[p..q]] + SplitFrom(s, q + n, q + n)
  }

  /** Every field the split loop cuts is unbroken. */
  lemma {:induction false} SplitFromUnbroken(s: string, p: nat, q: nat)
    requires p <= q <= |s|
    requires forall k :: p <= k < q ==> SepAt(s, k) == 0
    ensures forall k :: 0 <= k < |SplitFrom(s, p, q)| ==> Unbroken(SplitFrom(s, p, q)[k])
    decreases |s| - q
  {
    if q == |s| {
      FieldUnbroken(s, p, q);
    } else {
      var n := SepAt(s, q);
      if n == 0 {
        SplitFromUnbroken(s, p, q + 1);
      } else {
        FieldUnbroken(s, p, q);
        SplitFromUnbroken(s, q + n, q + n);
        var rest := SplitFrom(s, q + n, q + n);
        assert forall k :: 1 <= k < 1 + |rest| ==> SplitFrom(s, p, q)[k] == rest[k - 1];
      }
    }
  }

  /** No separator of `/\t+|\s{2,}/` starts anywhere in `s[p..q]`. */
  predicate Clean(s: string, p: nat, q: nat)
    requires p <= q <= |s|
  {
    forall j :: p <= j < q ==> SepAt(s, j) == 0
  }

  /** Column `k` of `cols` is the separator-free slice `s[starts[k]..ends[k]]`. */
  predicate ColumnAt(s: string, cols: seq<string>, starts: seq<nat>, ends: seq<nat>, k: nat)
    requires |starts| == |ends| == |cols| && k < |cols|
  {
    starts[k] <= ends[k] <= |s| && cols[k] == s[starts[k]..ends[k]] && Clean(s, starts[k], ends[k])
  }

  /** After column `k` comes a separator whose greedy match ends where column `k + 1` starts. */
  predicate GapAt(s: string, starts: seq<nat>, ends: seq<nat>, k: nat)
    requires |starts| == |ends| && k + 1 < |ends|
  {
    ends[k] < |s| && SepAt(s, ends[k]) > 0 && starts[k + 1] == ends[k] + SepAt(s, ends[k])
  }

  /**
   * `cols` are the pieces of `s` that the regex split cuts: column `k` is
   * `s[starts[k]..ends[k]]`, the last ends at the end of `s`, no separator
   * starts inside a column, and each column but the last is followed by a
   * separator whose greedy match ends where the next column starts.
   */
  predicate CutAt(s: string, cols: seq<string>, starts: seq<nat>, ends: seq<nat>) {
    && |starts| == |ends| == |cols| > 0
    && ends[|ends| - 1] == |s|
    && (forall k :: 0 <= k < |ends| ==> ColumnAt(s, cols, starts, ends, k))
    && (forall k :: 0 <= k < |ends| - 1 ==> GapAt(s, starts, ends, k))
  }

  /** A separator-free field followed by a separator, put in front of the cuts of the rest. */
  lemma CutAtCons(s: string, p: nat, q: nat, rest: seq<string>, starts: seq<nat>, ends: seq<nat>)
    requires p <= q < |s| && SepAt(s, q) > 0 && Clean(s, p, q)
    requires CutAt(s, rest, starts, ends) && starts[0] == q + SepAt(s, q)
    ensures CutAt(s, [s[p..q]] + rest, [p] + starts, [q] + ends)
  {
    var cols, st, en := [s[p..q]] + rest, [p] + starts, [q] + ends;
    forall k | 0 <= k < |en|
      ensures ColumnAt(s, cols, st, en, k)
    {
      if k > 0 {
        assert cols[k] == rest[k - 1] && st[k] == starts[k - 1] && en[k] == ends[k - 1];
        assert ColumnAt(s, rest, starts, ends, k - 1);
      }
    }
    forall k | 0 <= k < |en| - 1
      ensures GapAt(s, st, en, k)
    {
      if k > 0 {
        assert st[k + 1] == starts[k] && en[k] == ends[k - 1];
        assert GapAt(s, starts, ends, k - 1);
      }
    }
    assert en[|en| - 1] == ends[|ends| - 1];
  }

  /** The cuts of the split loop, from a field start `p` with no separator crossed up to `q`. */
  lemma {:induction false} SplitFromSpans(s: string, p: nat, q: nat) returns (starts: seq<nat>, ends: seq<nat>)
    requires p <= q <= |s|
    requires forall k :: p <= k < q ==> SepAt(s, k) == 0
    ensures CutAt(s, SplitFrom(s, p, q), starts, ends)
    ensures starts[0] == p && q <= ends[0]
    decreases |s| - q
  {
    if q == |s| {
      starts, ends := [p], [q];
    } else {
      var n := SepAt(s, q);
      if n == 0 {
        starts, ends := SplitFromSpans(s, p, q + 1);
      } else {
        var st, en := SplitFromSpans(s, q + n, q + n);
        CutAtCons(s, p, q, SplitFrom(s, q + n, q + n), st, en);
        starts, ends := [p] + st, [q] + en;
      }
    }
  }

  /** `s.split(/\t+|\s{2,}/)`. */
  function SplitColumns(s: string): (r: seq<string>)
    ensures |r| >= 1
  {
    SplitFrom(s, 0, 0)
  }

  /**
   * The columns of `split(/\t+|\s{2,}/)` are the cuts of the whole line,
   * the first beginning at 0.
   */
  lemma SplitColumnsSpans(s: string) returns (starts: seq<nat>, ends: seq<nat>)
    ensures CutAt(s, SplitColumns(s), starts, ends) && starts[0] == 0
  {
    starts, ends := SplitFromSpans(s, 0, 0);
  }

  /** No column of the split contains a separator. */
  lemma SplitColumnsUnbroken(s: string)
    ensures forall k :: 0 <= k < |SplitColumns(s)| ==> Unbroken(SplitColumns(s)[k])
  {
    SplitFromUnbroken(s, 0, 0);
  }

  /** ASCII case mapping of one character. */
  function LowerChar(c: char): char {
    if 'A' <= c <= 'Z' then (c as int + 32) as char else c
  }

  /** `String.prototype.toLowerCase`, restricted to the ASCII letters. */
  function Lower(s: string): (r: string)
    ensures |r| == |s|
    ensures forall i :: 0 <= i < |s| ==> r[i] == LowerChar(s[i])
  {
    seq(|s|, i requires 0 <= i < |s| => LowerChar(s[i]))
  }

  /** Whether `sub` occurs in `s` starting at index `i`. */
  predicate OccursAt(s: string, sub: string, i: nat) {
    i + |sub| <= |s| && s[i..i + |sub|] == sub
  }

  /** `String.prototype.includes`: the empty string occurs everywhere, a longer string nowhere. */
  predicate Contains(s: string, sub: string)
    ensures |sub| == 0 ==> Contains(s, sub)
    ensures Contains(s, sub) ==> |sub| <= |s|
  {
    assert |sub| == 0 ==> OccursAt(s, sub, 0);
    exists i | 0 <= i <= |s| :: OccursAt(s, sub, i)
  }

  /** Whether `c` is a digit in base `radix` (10 or 16). */
  predicate IsDigit(c: char, radix: nat) {
    ('0' <= c <= '9') || (radix == 16 && (('a' <= c <= 'f') || ('A' <= c <= 'F')))
  }

  function DigitValue(c: char): nat {
    if '0' <= c <= '9' then c as int - '0' as int
    else if 'a' <= c <= 'f' then c as int - 'a' as int + 10
    else if 'A' <= c <= 'F' then c as int - 'A' as int + 10
    else 0
  }

  /** The number a string of digits denotes, most significant digit first. */
  function DigitsValue(d: string, radix: nat): nat
  {
    if d == [] then 0 else DigitsValue(d[..|d| - 1], radix) * radix + DigitValue(d[|d| - 1])
  }

  /**
   * Where the `parseInt` scan is: skipping leading white space, before the
   * `0x`/`0X` prefix once the sign is read, or inside the digits with the
   * value and the number of digits read so far.
   */
  datatype ScanPhase = Blank | Prefix(negative: bool) | Digits(negative: bool, radix: nat, value: nat, count: nat)

  function PhaseRank(phase: ScanPhase): nat {
    match phase
    case Blank => 2
    case Prefix(_) => 1
    case Digits(_, _, _, _) => 0
  }

  /**
   * The scan of `parseInt` from position `i` in `phase`: a number comes out
   * only when a digit was read before `i` or is read at or after it.
   */
  function ParseFrom(s: string, i: nat, phase: ScanPhase): (r: Option<int>)
    requires i <= |s|
    ensures r.Some? ==> (phase.Digits? && phase.count > 0) || exists k :: i <= k < |s| && IsDigit(s[k], 16)
    decreases |s| - i, PhaseRank(phase)
  {
    match phase
    case Blank =>
      if i < |s| && IsSpace(s[i]) then ParseFrom(s, i + 1, Blank)
      else if i < |s| && (s[i] == '-' || s[i] == '+') then ParseFrom(s, i + 1, Prefix(s[i] == '-'))
      else ParseFrom(s, i, Prefix(false))
    case Prefix(negative) =>
      if i + 1 < |s| && s[i] == '0' && (s[i + 1] == 'x' || s[i + 1] == 'X') then ParseFrom(s, i + 2, Digits(negative, 16, 0, 0))
      else ParseFrom(s, i, Digits(negative, 10, 0, 0))
    case Digits(negative, radix, value, count) =>
      if i < |s| && IsDigit(s[i], radix) then ParseFrom(s, i + 1, Digits(negative, radix, value * radix + DigitValue(s[i]), count + 1))
      else if count == 0 then None
      else
        var v: int := value;
        Some(if negative then -v else v)
  }

  /**
   * The global `parseInt(s)` with no radix: leading white space is skipped, one
   * sign is read, a `0x`/`0X` prefix selects base 16, and the longest run of
   * digits is read; `None` stands for `NaN` (no digit at all).
   */
  function ParseInt(s: string): (r: Option<int>)
    ensures r.Some? ==> exists k :: 0 <= k < |s| && IsDigit(s[k], 16)
  {
    ParseFrom(s, 0, Blank)
  }

  function DigitChar(d: nat): char
    requires d < 10
  {
    ('0' as int + d) as char
  }

  /** `String(n)` of a non-negative integer: its decimal digits without leading zeros. */
  function NatToString(n: nat): (r: string)
    ensures |r| >= 1
    ensures forall i :: 0 <= i < |r| ==> '0' <= r[i] <= '9'
    ensures r[0] == '0' ==> n == 0
    decreases n
  {
    if n < 10 then [DigitChar(n)] else NatToString(n / 10) + [DigitChar(n % 10)]
  }

  lemma {:induction false} NatToStringValue(n: nat)
    ensures DigitsValue(NatToString(n), 10) == n
    decreases n
  {
    var r := NatToString(n);
    if n >= 10 {
      NatToStringValue(n / 10);
      assert r[..|r| - 1] == NatToString(n / 10);
    }
  }

  /** Reading the rest of a run of decimal digits adds them to the value read so far. */
  lemma {:induction false} DigitsFrom(r: string, i: nat)
    requires i <= |r| && forall k :: 0 <= k < |r| ==> '0' <= r[k] <= '9'
    ensures ParseFrom(r, i, Digits(false, 10, DigitsValue(r[..i], 10), i)) ==
      if |r| == 0 then None else Some(DigitsValue(r, 10))
    decreases |r| - i
  {
    if i < |r| {
      assert IsDigit(r[i], 10);
      assert r[..i + 1][..i] == r[..i];
      DigitsFrom(r, i + 1);
    } else {
      assert r[..i] == r;
    }
  }

  /** `parseInt` of a run of decimal digits is the number they denote, leading zeros included. */
  lemma ParseIntDigits(r: string)
    requires |r| >= 1 && forall k :: 0 <= k < |r| ==> '0' <= r[k] <= '9'
    ensures ParseInt(r) == Some(DigitsValue(r, 10))
  {
    assert r[..0] == [] && !IsSpace(r[0]);
    assert ParseFrom(r, 0, Blank) == ParseFrom(r, 0, Prefix(false));
    assert ParseFrom(r, 0, Prefix(false)) == ParseFrom(r, 0, Digits(false, 10, 0, 0));
    DigitsFrom(r, 0);
  }

  /** `parseInt` reads back exactly the number `String(n)` printed. */
  lemma ParseIntNatToString(n: nat)
    ensures ParseInt(NatToString(n)) == Some(n)
  {
    ParseIntDigits(NatToString(n));
    NatToStringValue(n);
  }
}
