/** Shared vocabulary of the model: optional values, the string operations the
    application relies on (trim, lower-case, substring search), decimal text of
    numbers as `parseInt`, `parseFloat` and `toString` treat it, `Math.round`,
    the special results of dividing by zero, and the three list updates every
    store and editor uses (filter by id, map by id, prepend). */
module Common {

  datatype Option<T> = None | Some(value: T) {
    /** `value ?? default` for a field a partial update may leave out. */
    function GetOr(default: T): T {
      if Some? then value else default
    }
  }

  // ---------------------------------------------------------------------------
  // Lists keyed by an id
  // ---------------------------------------------------------------------------

  /** `xs.filter(x => key(x) !== k)`: every element whose key is `k` is dropped. */
  function Without<T>(xs: seq<T>, key: T -> string, k: string): (r: seq<T>)
    ensures |r| <= |xs|
    ensures forall x :: x in r ==> x in xs && key(x) != k
    ensures forall x :: x in xs && key(x) != k ==> x in r
  {
    if xs == [] then []
    else if key(xs[0]) == k then Without(xs[1..], key, k)
    else [xs[0]] + Without(xs[1..], key, k)
  }

  /** Number of elements whose key is `k`. */
  function CountKey<T>(xs: seq<T>, key: T -> string, k: string): (n: nat)
    ensures n <= |xs|
    ensures n == 0 <==> forall x :: x in xs ==> key(x) != k
  {
    if xs == [] then 0
    else (if key(xs[0]) == k then 1 else 0) + CountKey(xs[1..], key, k)
  }

  /** `xs.map(f)`: one image per element, in order. */
  function MapSeq<T, U>(xs: seq<T>, f: T -> U): (r: seq<U>)
    ensures |r| == |xs| && forall i :: 0 <= i < |xs| ==> r[i] == f(xs[i])
  {
    seq(|xs|, i requires 0 <= i < |xs| => f(xs[i]))
  }

  /** `xs.map(x => key(x) === k ? f(x) : x)`. */
  function UpdateWhere<T>(xs: seq<T>, key: T -> string, k: string, f: T -> T): (r: seq<T>)
    ensures |r| == |xs|
    ensures forall i :: 0 <= i < |xs| && key(xs[i]) != k ==> r[i] == xs[i]
    ensures forall i :: 0 <= i < |xs| && key(xs[i]) == k ==> r[i] == f(xs[i])
  {
    if xs == [] then []
    else [if key(xs[0]) == k then f(xs[0]) else xs[0]] + UpdateWhere(xs[1..], key, k, f)
  }

  /** `a` is `b` with some elements left out, the rest in their original order. */
  predicate IsSubsequence<T(==)>(a: seq<T>, b: seq<T>)
    decreases |b|
  {
    if a == [] then true
    else if b == [] then false
    else if a[0] == b[0] then IsSubsequence(a[1..], b[1..])
    else IsSubsequence(a, b[1..])
  }

  /** No value occurs twice. */
  predicate NoDuplicates<T(==)>(xs: seq<T>) {
    forall i, j :: 0 <= i < j < |xs| ==> xs[i] != xs[j]
  }

  lemma {:induction false} WithoutIsSubsequence<T>(xs: seq<T>, key: T -> string, k: string)
    ensures IsSubsequence(Without(xs, key, k), xs)
  {
    if xs != [] {
      WithoutIsSubsequence(xs[1..], key, k);
      var rest := Without(xs[1..], key, k);
      if key(xs[0]) == k {
        SubsequenceOfTail(rest, xs);
      } else {
        assert Without(xs, key, k) == [xs[0]] + rest;
        assert ([xs[0]] + rest)[1..] == rest;
      }
    }
  }

  lemma {:induction false} SubsequenceOfTail<T>(a: seq<T>, b: seq<T>)
    requires b != [] && IsSubsequence(a, b[1..])
    ensures IsSubsequence(a, b)
    decreases |a| + |b|
  {
    if a != [] && a[0] == b[0] {
      // a[1..] is a subsequence of b[1..] because a is.
      SubsequenceDropHead(a, b[1..]);
    }
  }

  lemma {:induction false} SubsequenceDropHead<T>(a: seq<T>, b: seq<T>)
    requires a != [] && IsSubsequence(a, b)
    ensures IsSubsequence(a[1..], b)
    decreases |a| + |b|
  {
    if b == [] {
    } else if a[0] == b[0] {
      if a[1..] != [] {
        SubsequenceOfTail(a[1..], b);
      }
    } else {
      SubsequenceDropHead(a, b[1..]);
      if a[1..] != [] {
        SubsequenceOfTail(a[1..], b);
      }
    }
  }

  /** A subsequence of a duplicate-free list is duplicate-free. */
  lemma {:induction false} SubsequenceNoDuplicates(a: seq<string>, b: seq<string>)
    requires IsSubsequence(a, b) && NoDuplicates(b)
    ensures NoDuplicates(a)
    decreases |b|
  {
    if a != [] && b != [] {
      assert NoDuplicates(b[1..]) by {
        forall i, j | 0 <= i < j < |b[1..]| ensures b[1..][i] != b[1..][j] {
          assert b[1..][i] == b[i + 1] && b[1..][j] == b[j + 1];
        }
      }
      if a[0] == b[0] {
        SubsequenceNoDuplicates(a[1..], b[1..]);
        SubsequenceMembers(a[1..], b[1..]);
        forall j | 0 < j < |a| ensures a[0] != a[j] {
          assert a[j] == a[1..][j - 1];
          assert a[j] in b[1..];
          var k :| 0 <= k < |b[1..]| && b[1..][k] == a[j];
          assert b[k + 1] == a[j];
        }
      } else {
        SubsequenceNoDuplicates(a, b[1..]);
      }
    }
  }

  /** A subsequence only holds elements of the list. */
  lemma {:induction false} SubsequenceMembers(a: seq<string>, b: seq<string>)
    requires IsSubsequence(a, b)
    ensures forall x :: x in a ==> x in b
    decreases |b|
  {
    if a != [] && b != [] {
      if a[0] == b[0] {
        SubsequenceMembers(a[1..], b[1..]);
        forall x | x in a ensures x in b {
          if x != a[0] {
            assert x in a[1..];
          }
        }
      } else {
        SubsequenceMembers(a, b[1..]);
      }
    }
  }

  /** Removing by key exactly removes the matching elements: the length drops by their count. */
  lemma {:induction false} WithoutLength<T>(xs: seq<T>, key: T -> string, k: string)
    ensures |Without(xs, key, k)| == |xs| - CountKey(xs, key, k)
  {
    if xs != [] {
      WithoutLength(xs[1..], key, k);
    }
  }

  /** Filtering distributes over concatenation, so relative order is kept. */
  lemma {:induction false} WithoutAppend<T>(xs: seq<T>, ys: seq<T>, key: T -> string, k: string)
    ensures Without(xs + ys, key, k) == Without(xs, key, k) + Without(ys, key, k)
  {
    if xs == [] {
      assert xs + ys == ys;
    } else {
      assert (xs + ys)[1..] == xs[1..] + ys;
      WithoutAppend(xs[1..], ys, key, k);
    }
  }

  /** Filtering twice by the same key is filtering once. */
  lemma {:induction false} WithoutIdempotent<T>(xs: seq<T>, key: T -> string, k: string)
    ensures Without(Without(xs, key, k), key, k) == Without(xs, key, k)
  {
    if xs != [] {
      WithoutIdempotent(xs[1..], key, k);
      if key(xs[0]) != k {
        var rest := Without(xs[1..], key, k);
        assert ([xs[0]] + rest)[1..] == rest;
      }
    }
  }

  /** Removing a key that does not occur changes nothing. */
  lemma {:induction false} WithoutAbsent<T>(xs: seq<T>, key: T -> string, k: string)
    requires CountKey(xs, key, k) == 0
    ensures Without(xs, key, k) == xs
  {
    if xs != [] {
      assert key(xs[0]) != k by { assert xs[0] in xs; }
      WithoutAbsent(xs[1..], key, k);
      assert [xs[0]] + xs[1..] == xs;
    }
  }

  /** Mapping by key keeps every key when `f` does. */
  lemma UpdateWhereKeepsKeys<T>(xs: seq<T>, key: T -> string, k: string, f: T -> T)
    requires forall x :: key(f(x)) == key(x)
    ensures forall i :: 0 <= i < |xs| ==> key(UpdateWhere(xs, key, k, f)[i]) == key(xs[i])
  {
  }

  // ---------------------------------------------------------------------------
  // Strings
  // ---------------------------------------------------------------------------

  /** The white space `String.prototype.trim` removes (the common part of it). */
  predicate IsSpace(c: char) {
    c == ' ' || c == '\t' || c == '\n' || c == '\r' || c == '\U{000B}' || c == '\U{000C}'
    || c == '\U{00A0}' || c == '\U{2028}' || c == '\U{2029}' || c == '\U{FEFF}'
  }

  function TrimStart(s: string): (r: string)
    ensures |r| <= |s| && r == s[|s| - |r|..]
    ensures r != [] ==> !IsSpace(r[0])
    ensures forall i :: 0 <= i < |s| - |r| ==> IsSpace(s[i])
  {
    if s != [] && IsSpace(s[0]) then
      var r := TrimStart(s[1..]);
      assert s[1..][|s| - 1 - |r|..] == s[|s| - |r|..];
      assert forall i :: 1 <= i < |s| - |r| ==> s[i] == s[1..][i - 1];
      r
    else s
  }

  function TrimEnd(s: string): (r: string)
    ensures |r| <= |s| && r == s[..|r|]
    ensures r != [] ==> !IsSpace(r[|r| - 1])
    ensures forall i :: |r| <= i < |s| ==> IsSpace(s[i])
  {
    if s != [] && IsSpace(s[|s| - 1]) then
      var r := TrimEnd(s[..|s| - 1]);
      assert s[..|s| - 1][..|r|] == s[..|r|];
      assert forall i :: |r| <= i < |s| - 1 ==> s[i] == s[..|s| - 1][i];
      r
    else s
  }

  /** `s.trim()`. */
  function Trim(s: string): string {
    TrimEnd(TrimStart(s))
  }

  /** A string trims to "" exactly when it is white space only. */
  lemma TrimEmptyIff(s: string)
    ensures Trim(s) == [] <==> forall i :: 0 <= i < |s| ==> IsSpace(s[i])
  {
    var t := TrimStart(s);
    if Trim(s) == [] {
      forall i | 0 <= i < |s| ensures IsSpace(s[i]) {
        if i >= |s| - |t| {
          assert t[i - (|s| - |t|)] == s[i];
        }
      }
    } else {
      var r := Trim(s);
      assert r[0] == t[0] && !IsSpace(t[0]);
      assert s[|s| - |t|] == t[0];
    }
  }

  /** Trimming leaves no white space at either end, and is idempotent. */
  lemma TrimIdempotent(s: string)
    ensures Trim(Trim(s)) == Trim(s)
  {
    var r := Trim(s);
    if r != [] {
      assert TrimStart(r) == r;
      assert TrimEnd(r) == r;
    }
  }

  /** `toLowerCase` on the letters the application's texts use: ASCII and Polish. */
  function LowerChar(c: char): char {
    if 'A' <= c <= 'Z' then ((c as int) + 32) as char
    else if c == 'Ą' then 'ą'
    else if c == 'Ć' then 'ć'
    else if c == 'Ę' then 'ę'
    else if c == 'Ł' then 'ł'
    else if c == 'Ń' then 'ń'
    else if c == 'Ó' then 'ó'
    else if c == 'Ś' then 'ś'
    else if c == 'Ź' then 'ź'
    else if c == 'Ż' then 'ż'
    else c
  }

  function Lower(s: string): (r: string)
    ensures |r| == |s|
    ensures forall i :: 0 <= i < |s| ==> r[i] == LowerChar(s[i])
  {
    seq(|s|, i requires 0 <= i < |s| => LowerChar(s[i]))
  }

  /** `s.includes(sub)`. */
  predicate Includes(s: string, sub: string) {
    |sub| <= |s| && IncludesFrom(s, sub, 0)
  }

  predicate IncludesFrom(s: string, sub: string, from: nat)
    decreases |s| - from
  {
    if from + |sub| > |s| then false
    else if s[from..from + |sub|] == sub then true
    else IncludesFrom(s, sub, from + 1)
  }

  /** `sub` occurs in `s` starting at position `i`. */
  predicate OccursAt(s: string, sub: string, i: int) {
    0 <= i <= |s| - |sub| && s[i..i + |sub|] == sub
  }

  lemma {:induction false} IncludesFromIff(s: string, sub: string, from: nat)
    ensures IncludesFrom(s, sub, from) <==> exists i :: from <= i && OccursAt(s, sub, i)
    decreases |s| - from
  {
    if from + |sub| > |s| {
    } else if s[from..from + |sub|] == sub {
      assert OccursAt(s, sub, from);
    } else {
      IncludesFromIff(s, sub, from + 1);
      if exists i :: from <= i && OccursAt(s, sub, i) {
        var i :| from <= i && OccursAt(s, sub, i);
        assert i != from;
      }
    }
  }

  /** `s.includes(sub)` holds exactly when `sub` occurs at some position of `s`. */
  lemma IncludesIff(s: string, sub: string)
    ensures Includes(s, sub) <==> exists i :: OccursAt(s, sub, i)
  {
    IncludesFromIff(s, sub, 0);
  }

  /** Every string includes the empty string. */
  lemma IncludesEmpty(s: string)
    ensures Includes(s, "")
  {
    assert s[0..0] == "";
  }

  // ---------------------------------------------------------------------------
  // Decimal text of numbers
  // ---------------------------------------------------------------------------

  predicate IsDigit(c: char) {
    '0' <= c <= '9'
  }

  predicate AllDigits(s: string) {
    forall i :: 0 <= i < |s| ==> IsDigit(s[i])
  }

  function DigitChar(d: nat): (c: char)
    requires d < 10
    ensures IsDigit(c) && (c as int) - ('0' as int) == d
  {
    (('0' as int) + d) as char
  }

  /** Value of a string of decimal digits, most significant first. */
  function DigitsValue(s: string): nat
    requires AllDigits(s)
  {
    if s == [] then 0 else DigitsValue(s[..|s| - 1]) * 10 + ((s[|s| - 1] as int) - ('0' as int))
  }

  function Pow10(n: nat): (p: nat)
    ensures p >= 1
  {
    if n == 0 then 1 else 10 * Pow10(n - 1)
  }

  /** Decimal text of a natural number, without leading zeros. */
  function ShowNat(n: nat): (s: string)
    ensures s != [] && AllDigits(s) && DigitsValue(s) == n
    ensures s[0] != '0' || n == 0
  {
    if n < 10 then [DigitChar(n)]
    else
      var prefix := ShowNat(n / 10);
      var s := prefix + [DigitChar(n % 10)];
      assert s[..|s| - 1] == prefix;
      s
  }

  /** `String(i)` for an integer. */
  function ShowInt(i: int): (s: string)
    ensures s != [] && !IsSpace(s[0])
  {
    if i < 0 then "-" + ShowNat(-i) else ShowNat(i)
  }

  /** The small numeric ids of the fixed lists (`'1'` to `'19'`): the decimal
      text of their number. */
  function IdText(n: nat): (s: string)
    requires 1 <= n < 20
    ensures |s| == (if n < 10 then 1 else 2)
  {
    if n < 10 then [DigitChar(n)] else ['1', DigitChar(n - 10)]
  }

  lemma IdTextInjective(a: nat, b: nat)
    requires 1 <= a < 20 && 1 <= b < 20
    requires IdText(a) == IdText(b)
    ensures a == b
  {
    var s := IdText(a);
    assert s[|s| - 1] == IdText(b)[|s| - 1];
  }

  /** An id of a fixed list starts with a digit. */
  lemma IdTextStartsWithDigit(n: nat)
    requires 1 <= n < 20
    ensures IsDigit(IdText(n)[0])
  {
  }

  /** The longest prefix of `s` made of digits. */
  function LeadingDigits(s: string): (r: string)
    ensures |r| <= |s| && r == s[..|r|] && AllDigits(r)
    ensures |r| < |s| ==> !IsDigit(s[|r|])
  {
    if s != [] && IsDigit(s[0]) then [s[0]] + LeadingDigits(s[1..]) else []
  }

  /** An optional sign: (is it a minus, the rest). */
  function SplitSign(s: string): (bool, string) {
    if s != [] && s[0] == '-' then (true, s[1..])
    else if s != [] && s[0] == '+' then (false, s[1..])
    else (false, s)
  }

  /** `parseInt(s)` in base 10: leading white space, an optional sign, then as many
      digits as there are; `None` stands for `NaN` (no digit at all). */
  function ParseInt(s: string): Option<int> {
    var (negative, body) := SplitSign(TrimStart(s));
    var digits := LeadingDigits(body);
    if digits == [] then None
    else Some(if negative then -(DigitsValue(digits) as int) else DigitsValue(digits))
  }

  /** `parseFloat(s)` for plain decimal notation: leading white space, an optional
      sign, digits, an optional fraction; `None` stands for `NaN`. */
  function ParseFloat(s: string): Option<real> {
    var (negative, body) := SplitSign(TrimStart(s));
    var whole := LeadingDigits(body);
    var after := body[|whole|..];
    var fraction := if after != [] && after[0] == '.' then LeadingDigits(after[1..]) else [];
    if whole == [] && fraction == [] then None
    else
      var magnitude := (DigitsValue(whole) as real) + (DigitsValue(fraction) as real) / (Pow10(|fraction|) as real);
      Some(if negative then -magnitude else magnitude)
  }

  lemma LeadingDigitsOfDigits(s: string)
    requires AllDigits(s)
    ensures LeadingDigits(s) == s
  {
    if s != [] {
      LeadingDigitsOfDigits(s[1..]);
      assert [s[0]] + s[1..] == s;
    }
  }

  lemma TrimStartNoSpace(s: string)
    requires s != [] && !IsSpace(s[0])
    ensures TrimStart(s) == s
  {
  }

  /** `parseInt(String(i)) == i`: printing then parsing an integer is the identity. */
  lemma ParseIntShowInt(i: int)
    ensures ParseInt(ShowInt(i)) == Some(i)
  {
    var s := ShowInt(i);
    TrimStartNoSpace(s);
    var digits := ShowNat(if i < 0 then -i else i);
    LeadingDigitsOfDigits(digits);
    if i < 0 {
      assert SplitSign(s) == (true, digits);
    } else {
      assert SplitSign(s) == (false, digits);
    }
  }

  /** `parseFloat(String(i)) == i` for an integer. */
  lemma ParseFloatShowInt(i: int)
    ensures ParseFloat(ShowInt(i)) == Some(i as real)
  {
    var s := ShowInt(i);
    TrimStartNoSpace(s);
    var digits := ShowNat(if i < 0 then -i else i);
    LeadingDigitsOfDigits(digits);
    if i < 0 {
      assert SplitSign(s) == (true, digits);
    } else {
      assert SplitSign(s) == (false, digits);
    }
    assert digits[|digits|..] == [];
  }

  /** Decimal digits of a fraction in [0, 1), at most `fuel` of them. */
  function FractionDigits(f: real, fuel: nat): string
    requires 0.0 <= f < 1.0
    decreases fuel
  {
    if fuel == 0 || f == 0.0 then ""
    else
      var d := (10.0 * f).Floor;
      assert 0 <= d < 10;
      [DigitChar(d)] + FractionDigits(10.0 * f - d as real, fuel - 1)
  }

  /** `String(x)` for a number: the integral part, then the fraction if there is one
      (up to 17 digits, the precision of a JavaScript number). */
  function NumberText(x: real): string {
    if x < 0.0 then "-" + UnsignedText(-x) else UnsignedText(x)
  }

  function UnsignedText(x: real): string
    requires x >= 0.0
  {
    var whole := x.Floor;
    var f := x - whole as real;
    ShowNat(whole) + (if f == 0.0 then "" else "." + FractionDigits(f, 17))
  }

  /** For a whole number `String(x)` is the text of the integer. */
  lemma NumberTextWhole(i: int)
    ensures NumberText(i as real) == ShowInt(i)
  {
    var n: nat := if i < 0 then -i else i;
    assert (n as real).Floor == n;
    assert UnsignedText(n as real) == ShowNat(n);
    if i < 0 {
      assert -(i as real) == n as real;
    }
  }

  // ---------------------------------------------------------------------------
  // Rounding and division
  // ---------------------------------------------------------------------------

  lemma FloorDivReal(a: int, b: int)
    requires b > 0
    ensures ((a / b) as real) <= (a as real) / (b as real) < ((a / b) as real) + 1.0
  {
    var q, m := a / b, a % b;
    assert a == q * b + m && 0 <= m < b;
    assert (a as real) == (q as real) * (b as real) + (m as real);
    assert (a as real) / (b as real) == (q as real) + (m as real) / (b as real);
    assert 0.0 <= (m as real) / (b as real) < 1.0;
  }

  lemma ZeroProduct(a: real, b: real)
    requires a * b == 0.0 && b != 0.0
    ensures a == 0.0
  {
  }

  lemma HalfShift(x: real, y: real)
    requires y != 0.0
    ensures (2.0 * x + y) / (2.0 * y) == x / y + 0.5
  {
    var q := x / y;
    var num := 2.0 * x + y;
    var den := 2.0 * y;
    var r := num / den;
    assert q * y == x;
    assert r * den == num;
    assert (r - (q + 0.5)) * den == r * den - (q + 0.5) * den;
    assert (q + 0.5) * den == 2.0 * (q * y) + y;
    ZeroProduct(r - (q + 0.5), den);
  }

  /** A quotient of integers is one exactly when they are equal. */
  lemma QuotientOne(a: int, n: int)
    requires n > 0
    ensures (a as real) / (n as real) == 1.0 <==> a == n
  {
    var q := (a as real) / (n as real);
    assert q * (n as real) == a as real;
  }

  /** A quotient lies between the bounds its numerator does, scaled. */
  lemma QuotientBetween(sum: int, n: int, lo: int, hi: int)
    requires n > 0 && n * lo <= sum <= n * hi
    ensures (lo as real) <= (sum as real) / (n as real) <= (hi as real)
  {
    var q := (sum as real) / (n as real);
    assert q * (n as real) == sum as real;
    assert (lo as real) * (n as real) <= q * (n as real);
    assert q * (n as real) <= (hi as real) * (n as real);
  }

  /** Integer division against a bound: `a / b >= m` exactly when `a >= m * b`. */
  lemma DivAtLeast(a: int, b: int, m: int)
    requires b > 0
    ensures a / b >= m <==> a >= m * b
  {
    var q, r := a / b, a % b;
    assert a == q * b + r && 0 <= r < b;
    if q >= m {
      assert q * b >= m * b;
    } else {
      assert q * b <= (m - 1) * b;
    }
  }

  /** `Math.round(n / d)`, which rounds halves up: the integer `r` with
      r <= n/d + 1/2 < r + 1. */
  function RoundDiv(n: int, d: int): (r: int)
    requires d != 0
    ensures (r as real) <= (n as real) / (d as real) + 0.5 < (r as real) + 1.0
  {
    if d > 0 then
      FloorDivReal(2 * n + d, 2 * d);
      HalfShift(n as real, d as real);
      (2 * n + d) / (2 * d)
    else
      FloorDivReal(-2 * n - d, -2 * d);
      HalfShift(-(n as real), -(d as real));
      assert -(n as real) / -(d as real) == (n as real) / (d as real);
      (-2 * n - d) / (-2 * d)
  }

  /** A JavaScript number as arithmetic on integers produces it: a finite integer,
      or what a division by zero gives. */
  datatype JsNumber = Finite(value: int) | PosInfinity | NegInfinity | NaN

  /** `Math.round((part / whole) * 100)`. */
  function RoundedPercent(part: int, whole: int): (r: JsNumber)
    ensures whole != 0 ==> r.Finite? && (r.value as real) <= 100.0 * (part as real) / (whole as real) + 0.5 < (r.value as real) + 1.0
    ensures whole == 0 ==> (r == PosInfinity <==> part > 0) && (r == NegInfinity <==> part < 0) && (r == NaN <==> part == 0)
  {
    if whole != 0 then
      var q := RoundDiv(100 * part, whole);
      assert ((100 * part) as real) / (whole as real) == 100.0 * (part as real) / (whole as real);
      Finite(q)
    else if part > 0 then PosInfinity
    else if part < 0 then NegInfinity
    else NaN
  }

  /** `x > k` for a JavaScript number (false for NaN). */
  predicate Above(x: JsNumber, k: int) {
    match x
    case Finite(v) => v > k
    case PosInfinity => true
    case NegInfinity => false
    case NaN => false
  }

  /** `Math.min(x, k)` (NaN stays NaN). */
  function MinWith(x: JsNumber, k: int): (r: JsNumber)
    ensures r.Finite? ==> r.value <= k
    ensures x.Finite? ==> r.Finite? && (r.value == x.value || r.value == k)
    ensures x == PosInfinity ==> r == Finite(k)
    ensures x == NaN <==> r == NaN
  {
    match x
    case Finite(v) => Finite(if v < k then v else k)
    case PosInfinity => Finite(k)
    case NegInfinity => NegInfinity
    case NaN => NaN
  }
}
