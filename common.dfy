/** Shared vocabulary of the model: optional values, the rounding used by the
    Python and JavaScript code, ASCII string helpers, sums over sequences and a
    stable insertion sort under a caller-supplied ordering. */
module Common {

  /** A value that may be absent: Python's None, JavaScript's null/undefined. */
  datatype Option<T> = None | Some(value: T) {
    function GetOr(default: T): (r: T)
      ensures Some? ==> r == value
      ensures None? ==> r == default
    {
      match this
      case Some(v) => v
      case None => default
    }
  }

  /** The outcome of an operation that can fail: a value, or why it failed
      (a raised validation error, an error response). */
  datatype Result<T, E> = Ok(value: T) | Err(error: E)

  // ---------------------------------------------------------------- rounding

  /** Round half up: JavaScript's `Math.round`, and the model of Python's
      `round` (whose ties-to-even rule is not modelled). */
  function Round(x: real): (r: int)
    ensures x - 1.0 / 2.0 < r as real <= x + 1.0 / 2.0
  {
    (x + 1.0 / 2.0).Floor
  }

  function Pow10(n: nat): (r: nat)
    ensures r >= 1
  {
    if n == 0 then 1 else 10 * Pow10(n - 1)
  }

  /** `round(x, places)`: the nearest multiple of 10^-places (see
      RoundToNearest). */
  function RoundTo(x: real, places: nat): real
  {
    RoundToUnit(x, Pow10(places) as real)
  }

  /** The nearest multiple of 1/p. */
  function RoundToUnit(x: real, p: real): real
    requires p >= 1.0
  {
    Round(x * p) as real / p
  }

  /** Rounding to a multiple of 1/p moves the value by at most 1/(2p). */
  lemma RoundToBounds(x: real, p: real)
    requires p >= 1.0
    ensures x - 1.0 / (2.0 * p) < RoundToUnit(x, p) <= x + 1.0 / (2.0 * p)
  {
    var k := Round(x * p);
    assert x * p - 1.0 / 2.0 < k as real <= x * p + 1.0 / 2.0;
    assert (x * p - 1.0 / 2.0) / p == x - 1.0 / (2.0 * p);
    assert (x * p + 1.0 / 2.0) / p == x + 1.0 / (2.0 * p);
  }

  /** Rounding a percentage keeps it a percentage: 0 and 100 are multiples
      of every 10^-places. */
  lemma RoundToPercent(x: real, places: nat)
    requires 0.0 <= x <= 100.0
    ensures 0.0 <= RoundTo(x, places) <= 100.0
  {
    PercentUnit(x, Pow10(places));
  }

  lemma PercentUnit(x: real, n: nat)
    requires n >= 1 && 0.0 <= x <= 100.0
    ensures 0.0 <= RoundToUnit(x, n as real) <= 100.0
  {
    PercentOfUnit(x, n as real, 100 * n);
  }

  /** The same with the unit as a real `p` and `100 p` as the integer `m`. */
  lemma PercentOfUnit(x: real, p: real, m: int)
    requires p >= 1.0 && 0.0 <= x <= 100.0 && 100.0 * p == m as real
    ensures 0.0 <= RoundToUnit(x, p) <= 100.0
  {
    ScaleUp(x, 100.0, p);
    RoundWithin(x * p, m);
    QuotientRange(Round(x * p) as real, p, 100.0);
  }

  /** Rounding never turns a non-negative value negative. */
  lemma RoundToNonNegative(x: real, places: nat)
    requires x >= 0.0
    ensures RoundTo(x, places) >= 0.0
  {
    var p := Pow10(places) as real;
    ScaleUp(0.0, x, p);
    var k := Round(x * p);
    assert k >= 0;
    QuotientRange(k as real, p, k as real);
  }

  /** Rounding a value in [0, n] gives an integer in [0, n]. */
  lemma RoundWithin(y: real, n: int)
    requires 0.0 <= y <= n as real
    ensures 0 <= Round(y) <= n
  {
  }

  lemma ScaleUp(x: real, y: real, p: real)
    requires 0.0 <= x <= y && p >= 0.0
    ensures 0.0 <= x * p <= y * p
  {
    assert (y - x) * p >= 0.0;
  }

  lemma QuotientRange(k: real, p: real, hi: real)
    requires p > 0.0 && 0.0 <= k <= hi * p
    ensures 0.0 <= k / p <= hi
  {
    assert (k / p) * p == k;
    assert (hi - k / p) * p == hi * p - k;
  }

  /** Integer ceiling, `Math.ceil`. */
  function Ceil(x: real): (r: int)
    ensures x <= r as real < x + 1.0
  {
    if x.Floor as real == x then x.Floor else x.Floor + 1
  }

  function Min(a: real, b: real): (r: real)
    ensures r <= a && r <= b && (r == a || r == b)
  {
    if a <= b then a else b
  }

  function Max(a: real, b: real): (r: real)
    ensures r >= a && r >= b && (r == a || r == b)
  {
    if a >= b then a else b
  }

  // ------------------------------------------------------------------ strings

  predicate IsUpper(c: char) { 'A' <= c <= 'Z' }

  function LowerChar(c: char): (r: char)
    ensures !IsUpper(r)
    ensures !IsUpper(c) ==> r == c
  {
    if IsUpper(c) then (c as int - 'A' as int + 'a' as int) as char else c
  }

  /** ASCII `toLowerCase()` / `lower()`. */
  function Lower(s: string): (r: string)
    ensures |r| == |s|
    ensures forall i :: 0 <= i < |s| ==> r[i] == LowerChar(s[i])
  {
    if s == [] then [] else [LowerChar(s[0])] + Lower(s[1..])
  }

  /** A text whose letters are those of `t` up to case lower-cases to
      `t`. */
  lemma LowerLetters(s: string, t: string)
    requires |s| == |t| && forall i :: 0 <= i < |s| ==> LowerChar(s[i]) == t[i]
    ensures Lower(s) == t
  {
  }

  /** Lower-casing twice is lower-casing once. */
  lemma LowerIdempotent(s: string)
    ensures Lower(Lower(s)) == Lower(s)
  {
    assert forall i :: 0 <= i < |s| ==> Lower(Lower(s))[i] == LowerChar(LowerChar(s[i]));
  }

  function UpperChar(c: char): char
  {
    if 'a' <= c <= 'z' then (c as int - 'a' as int + 'A' as int) as char else c
  }

  /** ASCII `toUpperCase()` / `upper()`. */
  function Upper(s: string): (r: string)
    ensures |r| == |s|
    ensures forall i :: 0 <= i < |s| ==> r[i] == UpperChar(s[i])
  {
    if s == [] then [] else [UpperChar(s[0])] + Upper(s[1..])
  }

  predicate IsSpace(c: char) { c == ' ' || c == '\t' || c == '\n' || c == '\r' || c == '\U{000C}' || c == '\U{000B}' }

  function TrimStart(s: string): (r: string)
    ensures |r| <= |s| && r == s[|s| - |r|..]
    ensures r == [] || !IsSpace(r[0])
  {
    if s != [] && IsSpace(s[0]) then TrimStart(s[1..]) else s
  }

  function TrimEnd(s: string): (r: string)
    ensures |r| <= |s| && r == s[..|r|]
    ensures r == [] || !IsSpace(r[|r| - 1])
  {
    if s != [] && IsSpace(s[|s| - 1]) then TrimEnd(s[..|s| - 1]) else s
  }

  /** `trim()` / `strip()`: whitespace removed at both ends. */
  function Trim(s: string): (r: string)
    ensures |r| <= |s|
    ensures r == [] || (!IsSpace(r[0]) && !IsSpace(r[|r| - 1]))
  {
    var a := Lead(s, 0);
    s[a .. Trail(s, a, |s|)]
  }

  /** An optional text, trimmed when present. */
  function TrimmedOf(t: Option<string>): (r: Option<string>)
    ensures t.None? ==> r.None?
    ensures t.Some? ==> r == Some(Trim(t.value))
  {
    if t.None? then None else Some(Trim(t.value))
  }

  /** The index of the first non-whitespace character of `s` at or after
      `i` (`|s|` when there is none). */
  function Lead(s: string, i: nat): (k: nat)
    requires i <= |s|
    ensures i <= k <= |s| && (k == |s| || !IsSpace(s[k]))
    decreases |s| - i
  {
    if i < |s| && IsSpace(s[i]) then Lead(s, i + 1) else i
  }

  /** The end of `s[lo..j]` once its trailing whitespace is dropped. */
  function Trail(s: string, lo: nat, j: nat): (k: nat)
    requires lo <= j <= |s|
    ensures lo <= k <= j && (k == lo || !IsSpace(s[k - 1]))
    decreases j
  {
    if j > lo && IsSpace(s[j - 1]) then Trail(s, lo, j - 1) else j
  }

  /** Trimming twice is trimming once. */
  lemma TrimIdempotent(s: string)
    ensures Trim(Trim(s)) == Trim(s)
  {
    var t := Trim(s);
    if t != [] {
      assert TrimStart(t) == t;
      assert TrimEnd(t) == t;
    }
  }

  /** A text with no whitespace at either end is its own trim. */
  lemma TrimNoop(s: string)
    requires s == [] || (!IsSpace(s[0]) && !IsSpace(s[|s| - 1]))
    ensures Trim(s) == s
  {
    if s != [] {
      assert TrimStart(s) == s;
      assert TrimEnd(s) == s;
    }
  }

  predicate StartsWith(s: string, p: string) { |p| <= |s| && s[..|p|] == p }

  predicate EndsWith(s: string, p: string) { |p| <= |s| && s[|s| - |p|..] == p }

  /** A text that differs from `p` at some position within both does not
      start with `p`. */
  lemma DiffersAt(s: string, p: string, k: nat)
    requires k < |s| && k < |p| && s[k] != p[k]
    ensures !StartsWith(s, p)
  {
    if |p| <= |s| {
      assert s[..|p|][k] == s[k];
    }
  }

  /** `s.includes(sub)` / `sub in s`. */
  predicate Contains(s: string, sub: string)
    decreases |s|
  {
    StartsWith(s, sub) || (s != [] && Contains(s[1..], sub))
  }

  /** `s.split(sep)`: the pieces between separators, `[""]` for the empty string. */
  function Split(s: string, sep: char): (r: seq<string>)
    ensures |r| >= 1
  {
    if s == [] then [[]]
    else
      var rest := Split(s[1..], sep);
      if s[0] == sep then [[]] + rest else [[s[0]] + rest[0]] + rest[1..]
  }

  /** No piece of a split contains the separator. */
  lemma {:induction false} SplitPieces(s: string, sep: char)
    ensures forall i :: 0 <= i < |Split(s, sep)| ==> sep !in Split(s, sep)[i]
  {
    if s != [] {
      SplitPieces(s[1..], sep);
      var rest := Split(s[1..], sep);
      var r := Split(s, sep);
      forall i | 0 <= i < |r| ensures sep !in r[i] {
        if s[0] == sep {
          assert r[i] == if i == 0 then [] else rest[i - 1];
        } else if i == 0 {
          assert r[0] == [s[0]] + rest[0];
        } else {
          assert r[i] == rest[i];
        }
      }
    }
  }

  /** Python truthiness of a string: non-empty. */
  predicate NonBlank(s: string) { Trim(s) != [] }

  /** Decimal digits of `n`, most significant first (`str(n)`). */
  function Digits(n: nat): (r: string)
    ensures |r| >= 1
    ensures forall i :: 0 <= i < |r| ==> '0' <= r[i] <= '9'
  {
    if n < 10 then [('0' as int + n) as char] else Digits(n / 10) + [('0' as int + n % 10) as char]
  }

  function DigitValue(c: char): nat
  {
    if '0' <= c <= '9' then c as int - '0' as int else 0
  }

  /** Reads a run of decimal digits back as a number; leading zeros are allowed. */
  function ParseDigits(s: string): nat
  {
    if s == [] then 0 else ParseDigits(s[..|s| - 1]) * 10 + DigitValue(s[|s| - 1])
  }

  lemma {:induction false} ParseDigitsOfDigits(n: nat)
    ensures ParseDigits(Digits(n)) == n
  {
    if n >= 10 {
      var d := Digits(n);
      assert d[..|d| - 1] == Digits(n / 10);
      ParseDigitsOfDigits(n / 10);
    }
  }

  lemma DigitsInjective(a: nat, b: nat)
    requires Digits(a) == Digits(b)
    ensures a == b
  {
    ParseDigitsOfDigits(a);
    ParseDigitsOfDigits(b);
  }

  /** `n` copies of '0'. */
  function Zeros(n: nat): (r: string)
    ensures |r| == n && forall i :: 0 <= i < n ==> r[i] == '0'
  {
    if n == 0 then [] else Zeros(n - 1) + "0"
  }

  /** Python's `f"{s:0>width}"` on a digit string: left-padded with zeros. */
  function ZeroPad(s: string, width: nat): (r: string)
    ensures |r| == if |s| >= width then |s| else width
    ensures EndsWith(r, s)
  {
    if |s| >= width then s else Zeros(width - |s|) + s
  }

  /** Leading zeros do not change the value read. */
  lemma {:induction false} ParseLeadingZeros(k: nat, s: string)
    ensures ParseDigits(Zeros(k) + s) == ParseDigits(s)
  {
    if s == [] {
      ParseZeros(k);
      assert Zeros(k) + s == Zeros(k);
    } else {
      var t := Zeros(k) + s;
      assert t[..|t| - 1] == Zeros(k) + s[..|s| - 1];
      ParseLeadingZeros(k, s[..|s| - 1]);
    }
  }

  lemma {:induction false} ParseZeros(k: nat)
    ensures ParseDigits(Zeros(k)) == 0
  {
    if k > 0 {
      ParseZeros(k - 1);
      assert Zeros(k)[..k - 1] == Zeros(k - 1);
    }
  }

  /** Zero-padded decimal numerals are distinct for distinct numbers. */
  lemma PaddedDigitsInjective(a: nat, b: nat, width: nat)
    requires ZeroPad(Digits(a), width) == ZeroPad(Digits(b), width)
    ensures a == b
  {
    PaddedValue(a, width);
    PaddedValue(b, width);
  }

  lemma PaddedValue(n: nat, width: nat)
    ensures ParseDigits(ZeroPad(Digits(n), width)) == n
  {
    ParseDigitsOfDigits(n);
    if |Digits(n)| < width {
      ParseLeadingZeros(width - |Digits(n)|, Digits(n));
    }
  }

  /** A calendar instant broken into its fields, as `strftime` sees it. */
  datatype DateTime = DateTime(year: nat, month: nat, day: nat, hour: nat, minute: nat, second: nat)

  /** A table whose rows are unique: the model of a database uniqueness
      constraint (`unique`, `unique_together`, a one-to-one field). */
  class UniqueTable<K(==)> {
    var rows: seq<K>

    ghost predicate Valid()
      reads this
    {
      forall i, j :: 0 <= i < j < |rows| ==> rows[i] != rows[j]
    }

    constructor ()
      ensures Valid() && rows == []
    {
      rows := [];
    }

    /** An INSERT: refused (an integrity error) when the key is already present. */
    method Insert(k: K) returns (ok: bool)
      requires Valid()
      modifies this
      ensures Valid()
      ensures ok == (k !in old(rows))
      ensures rows == if ok then old(rows) + [k] else old(rows)
    {
      ok := k !in rows;
      if ok {
        rows := rows + [k];
      }
    }
  }

  // --------------------------------------------------------------------- sums

  /** Sum of a sequence, folded from the left as the source's loops and
      `reduce` calls do. */
  function Sum(xs: seq<real>): real
  {
    if xs == [] then 0.0 else Sum(xs[..|xs| - 1]) + xs[|xs| - 1]
  }

  lemma {:induction false} SumNonNegative(xs: seq<real>)
    requires forall i :: 0 <= i < |xs| ==> xs[i] >= 0.0
    ensures Sum(xs) >= 0.0
  {
    if xs != [] {
      SumNonNegative(xs[..|xs| - 1]);
    }
  }

  lemma {:induction false} SumAppend(xs: seq<real>, ys: seq<real>)
    ensures Sum(xs + ys) == Sum(xs) + Sum(ys)
    decreases |ys|
  {
    if ys != [] {
      assert (xs + ys)[..|xs + ys| - 1] == xs + ys[..|ys| - 1];
      SumAppend(xs, ys[..|ys| - 1]);
    } else {
      assert xs + ys == xs;
    }
  }

  /** Every element lies in [lo, hi], so the sum lies in [n·lo, n·hi]. */
  lemma {:induction false} SumBounds(xs: seq<real>, lo: real, hi: real)
    requires forall i :: 0 <= i < |xs| ==> lo <= xs[i] <= hi
    ensures |xs| as real * lo <= Sum(xs) <= |xs| as real * hi
  {
    if xs != [] {
      SumBounds(xs[..|xs| - 1], lo, hi);
      assert |xs| as real * lo == (|xs| - 1) as real * lo + lo;
      assert |xs| as real * hi == (|xs| - 1) as real * hi + hi;
    }
  }

  /** The non-null values, in order: what SQL aggregates and Python
      comprehensions with `if x is not None` keep. */
  function Present(xs: seq<Option<real>>): (r: seq<real>)
    ensures |r| <= |xs|
  {
    if xs == [] then []
    else
      var rest := Present(xs[..|xs| - 1]);
      assert xs == xs[..|xs| - 1] + [xs[|xs| - 1]];
      if xs[|xs| - 1].Some? then rest + [xs[|xs| - 1].value] else rest
  }

  /** Present keeps exactly the values that occur. */
  lemma {:induction false} PresentMembers(xs: seq<Option<real>>)
    ensures forall x :: x in Present(xs) <==> Some(x) in xs
  {
    if xs != [] {
      PresentMembers(xs[..|xs| - 1]);
      assert xs == xs[..|xs| - 1] + [xs[|xs| - 1]];
    }
  }

  /** SQL `AVG` over a nullable column: None when no value is present. */
  function Average(xs: seq<Option<real>>): (r: Option<real>)
    ensures r.None? <==> Present(xs) == []
  {
    var p := Present(xs);
    if p == [] then None else Some(Sum(p) / |p| as real)
  }

  /** The mean of values in [lo, hi] is in [lo, hi]. */
  lemma AverageBounds(xs: seq<Option<real>>, lo: real, hi: real)
    requires forall i :: 0 <= i < |xs| && xs[i].Some? ==> lo <= xs[i].value <= hi
    ensures Average(xs).Some? ==> lo <= Average(xs).value <= hi
  {
    var p := Present(xs);
    if p != [] {
      PresentBounds(xs, lo, hi);
      SumBounds(p, lo, hi);
      var n := |p| as real;
      var t := Sum(p);
      assert n * lo <= t <= n * hi;
      MeanBounds(t, n, lo, hi);
      assert Average(xs) == Some(t / n);
    }
  }

  lemma {:induction false} PresentBounds(xs: seq<Option<real>>, lo: real, hi: real)
    requires forall i :: 0 <= i < |xs| && xs[i].Some? ==> lo <= xs[i].value <= hi
    ensures forall i :: 0 <= i < |Present(xs)| ==> lo <= Present(xs)[i] <= hi
  {
    if xs != [] {
      PresentBounds(xs[..|xs| - 1], lo, hi);
    }
  }

  lemma MeanBounds(total: real, n: real, lo: real, hi: real)
    requires n > 0.0 && n * lo <= total <= n * hi
    ensures lo <= total / n <= hi
  {
    var q := total / n;
    assert q * n == total;
    assert (q - lo) * n == total - n * lo;
    assert (hi - q) * n == n * hi - total;
    NonNegativeFactor(q - lo, n);
    NonNegativeFactor(hi - q, n);
  }

  lemma NonNegativeFactor(x: real, y: real)
    requires y > 0.0 && x * y >= 0.0
    ensures x >= 0.0
  {
  }

  // -------------------------------------------------------------------- sorts

  /** `geq` is a total preorder: every pair is comparable and it is transitive. */
  ghost predicate TotalPreorder<T(!new)>(geq: (T, T) -> bool)
  {
    (forall a, b :: geq(a, b) || geq(b, a)) &&
    (forall a, b, c :: geq(a, b) && geq(b, c) ==> geq(a, c))
  }

  /** Every element is `geq` every later element. */
  ghost predicate SortedBy<T>(s: seq<T>, geq: (T, T) -> bool)
  {
    forall i, j :: 0 <= i < j < |s| ==> geq(s[i], s[j])
  }

  /** Insert `x` in front of the first element it is `geq` to, so that it lands
      before the elements that came after it in the input and tie with it. */
  function Insert<T>(x: T, s: seq<T>, geq: (T, T) -> bool): (r: seq<T>)
    ensures multiset(r) == multiset(s) + multiset{x}
    ensures |r| == |s| + 1
  {
    if s == [] then [x]
    else if geq(x, s[0]) then [x] + s
    else
      var t := Insert(x, s[1..], geq);
      assert s == [s[0]] + s[1..];
      [s[0]] + t
  }

  /** Stable sort with the greatest elements (under `geq`) first; the model of
      Python's `list.sort(key=..., reverse=True)` and of JavaScript's
      `Array.prototype.sort` with a comparator. */
  function SortBy<T>(s: seq<T>, geq: (T, T) -> bool): (r: seq<T>)
    ensures multiset(r) == multiset(s)
    ensures |r| == |s|
  {
    if s == [] then []
    else
      assert s == [s[0]] + s[1..];
      Insert(s[0], SortBy(s[1..], geq), geq)
  }

  lemma {:induction false} InsertSorted<T(!new)>(x: T, s: seq<T>, geq: (T, T) -> bool)
    requires TotalPreorder(geq)
    requires SortedBy(s, geq)
    ensures SortedBy(Insert(x, s, geq), geq)
  {
    if s == [] {
    } else if geq(x, s[0]) {
      forall z | z in s ensures geq(x, z) {
        var k :| 0 <= k < |s| && s[k] == z;
        if k > 0 { assert geq(s[0], s[k]); }
      }
      SortedCons(x, s, geq);
    } else {
      var t := Insert(x, s[1..], geq);
      InsertSorted(x, s[1..], geq);
      assert SortedBy(s[1..], geq) by {
        forall i, j | 0 <= i < j < |s[1..]| ensures geq(s[1..][i], s[1..][j]) {
          assert s[1..][i] == s[i + 1] && s[1..][j] == s[j + 1];
        }
      }
      forall z | z in t ensures geq(s[0], z) {
        assert z in multiset(s[1..]) + multiset{x};
        if z != x {
          assert z in s[1..];
          var k :| 0 <= k < |s[1..]| && s[1..][k] == z;
          assert geq(s[0], s[k + 1]);
        }
      }
      SortedCons(s[0], t, geq);
    }
  }

  /** An element `geq` every element of a sorted sequence can go in front. */
  lemma SortedCons<T>(y: T, t: seq<T>, geq: (T, T) -> bool)
    requires SortedBy(t, geq)
    requires forall z :: z in t ==> geq(y, z)
    ensures SortedBy([y] + t, geq)
  {
    var r := [y] + t;
    forall i, j | 0 <= i < j < |r| ensures geq(r[i], r[j]) {
      if i == 0 {
        assert r[j] == t[j - 1];
        assert t[j - 1] in t;
      } else {
        assert r[i] == t[i - 1] && r[j] == t[j - 1];
      }
    }
  }

  lemma {:induction false} SortBySorted<T(!new)>(s: seq<T>, geq: (T, T) -> bool)
    requires TotalPreorder(geq)
    ensures SortedBy(SortBy(s, geq), geq)
  {
    if s != [] {
      SortBySorted(s[1..], geq);
      InsertSorted(s[0], SortBy(s[1..], geq), geq);
    }
  }

  // ------------------------------------------------------------ list helpers

  /** `parts.join(sep)`. */
  function Join(parts: seq<string>, sep: string): (r: string)
    ensures parts == [] ==> r == ""
    ensures |parts| == 1 ==> r == parts[0]
  {
    if parts == [] then ""
    else if |parts| == 1 then parts[0]
    else parts[0] + sep + Join(parts[1..], sep)
  }

  /** `Array.isArray(data?.results) ? data.results : Array.isArray(data) ?
      data : []`: a paginated answer's `results`, else a bare list, else
      nothing. */
  function ListOf<T>(results: Option<seq<T>>, bare: Option<seq<T>>): (r: seq<T>)
    ensures results.Some? ==> r == results.value
    ensures results.None? && bare.Some? ==> r == bare.value
    ensures results.None? && bare.None? ==> r == []
  {
    if results.Some? then results.value else bare.GetOr([])
  }

  /** `s.filter(p)`: the elements satisfying `p`, in their order. */
  function Filter<T(==,!new)>(s: seq<T>, p: T -> bool): (r: seq<T>)
    ensures |r| <= |s|
    ensures forall x :: x in r <==> x in s && p(x)
  {
    if s == [] then []
    else (if p(s[0]) then [s[0]] else []) + Filter(s[1..], p)
  }

  /** `r` is obtained from `s` by deleting elements, keeping the order. */
  predicate IsSubsequence<T(==)>(r: seq<T>, s: seq<T>)
  {
    if s == [] then r == []
    else (r != [] && r[0] == s[0] && IsSubsequence(r[1..], s[1..])) || IsSubsequence(r, s[1..])
  }

  /** A filter never reorders. */
  lemma {:induction false} FilterIsSubsequence<T(!new)>(s: seq<T>, p: T -> bool)
    ensures IsSubsequence(Filter(s, p), s)
  {
    if s != [] {
      FilterIsSubsequence(s[1..], p);
      var r := Filter(s, p);
      if p(s[0]) {
        assert r[0] == s[0] && r[1..] == Filter(s[1..], p);
      } else {
        assert r == Filter(s[1..], p);
      }
    }
  }

  /** A predicate every element satisfies filters nothing out. */
  lemma {:induction false} FilterKeepsAll<T(!new)>(s: seq<T>, p: T -> bool)
    requires forall x :: x in s ==> p(x)
    ensures Filter(s, p) == s
  {
    if s != [] {
      FilterKeepsAll(s[1..], p);
    }
  }

  /** The number of elements satisfying `p`. */
  function Count<T(==,!new)>(s: seq<T>, p: T -> bool): (n: nat)
    ensures n <= |s|
  {
    |Filter(s, p)|
  }

  /** Two predicates that never hold together count at most the length. */
  lemma {:induction false} DisjointCounts<T(!new)>(s: seq<T>, p: T -> bool, q: T -> bool)
    requires forall x :: x in s ==> !(p(x) && q(x))
    ensures Count(s, p) + Count(s, q) <= |s|
  {
    if s != [] {
      DisjointCounts(s[1..], p, q);
    }
  }

  /** Filtering distributes over concatenation. */
  lemma {:induction false} FilterAppend<T(!new)>(s: seq<T>, t: seq<T>, p: T -> bool)
    ensures Filter(s + t, p) == Filter(s, p) + Filter(t, p)
  {
    if s != [] {
      assert (s + t)[1..] == s[1..] + t;
      FilterAppend(s[1..], t, p);
    } else {
      assert s + t == t;
    }
  }

  /** A predicate implied by another counts at least as many elements. */
  lemma {:induction false} CountMonotone<T(!new)>(s: seq<T>, p: T -> bool, q: T -> bool)
    requires forall x :: x in s && p(x) ==> q(x)
    ensures Count(s, p) <= Count(s, q)
  {
    if s != [] {
      CountMonotone(s[1..], p, q);
    }
  }
}
