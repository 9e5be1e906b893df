/**
  Vocabulary shared by the four document models: optional values, the errors
  their methods throw, and the JavaScript built-ins the models lean on
  (Array.prototype.findIndex and reduce, String.prototype.toLowerCase and trim,
  String(n) and padStart for decimal numbers).
*/
module Common {

  datatype Option<T> = None | Some(value: T)

  /** One constructor per distinct error a model method throws. */
  datatype Error =
    | ItemNotFound          // cart line id not present
    | ColorVariantNotFound  // no variant whose colour matches
    | SizeNotFound          // the variant has no entry for the size
    | InsufficientStock     // the stock adjustment would go below zero
    | CannotCancel          // the order is already shipped or delivered
    | NotDelivered          // a return was requested for an undelivered order
    | ReturnWindowExpired   // a return was requested too late

  /** The outcome of a method that either completes or throws. */
  datatype Outcome = Pass | Fail(error: Error)

  /** The value a throwing computation produces, or what it throws. */
  datatype Result<T> = Ok(value: T) | Err(error: Error)

  function Min(a: int, b: int): int
  {
    if a <= b then a else b
  }

  // ---------------------------------------------------------------------------
  // Array.prototype.findIndex and reduce
  // ---------------------------------------------------------------------------

  /** The index of the first element satisfying `p`, or -1 when there is none. */
  function FindIndex<T>(s: seq<T>, p: T -> bool): (k: int)
    ensures -1 <= k < |s|
    ensures k >= 0 ==> p(s[k])
    ensures forall j :: 0 <= j < |s| && (k < 0 || j < k) ==> !p(s[j])
    decreases |s|
  {
    if s == [] then -1
    else if p(s[0]) then 0
    else
      var k := FindIndex(s[1..], p);
      if k < 0 then -1 else k + 1
  }

  /** Two searches that test corresponding elements alike stop at the same index. */
  lemma FindIndexAlike<T, U>(s: seq<T>, p: T -> bool, t: seq<U>, q: U -> bool)
    requires |s| == |t|
    requires forall i :: 0 <= i < |s| ==> p(s[i]) == q(t[i])
    ensures FindIndex(s, p) == FindIndex(t, q)
  {
    var a, b := FindIndex(s, p), FindIndex(t, q);
    if a >= 0 {
      assert q(t[a]);
    }
    if b >= 0 {
      assert p(s[b]);
    }
  }

  /** A left-to-right reduce `(total, x) => total + f(x)` starting from 0. */
  function Sum<T>(s: seq<T>, f: T -> int): int
    decreases |s|
  {
    if s == [] then 0 else Sum(s[..|s| - 1], f) + f(s[|s| - 1])
  }

  lemma {:induction false} SumConcat<T>(a: seq<T>, b: seq<T>, f: T -> int)
    ensures Sum(a + b, f) == Sum(a, f) + Sum(b, f)
    decreases |b|
  {
    if b == [] {
      assert a + b == a;
    } else {
      var n := |b| - 1;
      assert (a + b)[..|a + b| - 1] == a + b[..n];
      SumConcat(a, b[..n], f);
    }
  }

  lemma SumSingleton<T>(x: T, f: T -> int)
    ensures Sum([x], f) == f(x)
  {
    assert [x][..0] == [];
  }

  /** Replacing one element changes the total by exactly the difference. */
  lemma {:induction false} SumUpdate<T>(s: seq<T>, k: nat, x: T, f: T -> int)
    requires k < |s|
    ensures Sum(s[k := x], f) == Sum(s, f) - f(s[k]) + f(x)
  {
    assert s == s[..k] + [s[k]] + s[k + 1..];
    assert s[k := x] == s[..k] + [x] + s[k + 1..];
    SumConcat(s[..k] + [s[k]], s[k + 1..], f);
    SumConcat(s[..k] + [x], s[k + 1..], f);
    SumConcat(s[..k], [s[k]], f);
    SumConcat(s[..k], [x], f);
    SumSingleton(s[k], f);
    SumSingleton(x, f);
  }

  /** Removing one element lowers the total by exactly that element's value. */
  lemma {:induction false} SumRemove<T>(s: seq<T>, k: nat, f: T -> int)
    requires k < |s|
    ensures Sum(s[..k] + s[k + 1..], f) == Sum(s, f) - f(s[k])
  {
    assert s == s[..k] + [s[k]] + s[k + 1..];
    SumConcat(s[..k] + [s[k]], s[k + 1..], f);
    SumConcat(s[..k], [s[k]], f);
    SumConcat(s[..k], s[k + 1..], f);
    SumSingleton(s[k], f);
  }

  /** A lower bound on every element bounds the total from below. */
  lemma {:induction false} SumAtLeast<T>(s: seq<T>, f: T -> int, lo: int)
    requires forall i :: 0 <= i < |s| ==> lo <= f(s[i])
    ensures lo * |s| <= Sum(s, f)
    decreases |s|
  {
    if s != [] {
      var n := |s| - 1;
      assert forall i :: 0 <= i < n ==> s[..n][i] == s[i];
      SumAtLeast(s[..n], f, lo);
      assert lo * |s| == lo * n + lo;
    }
  }

  /** With no negative element, the total is positive exactly when some element is. */
  lemma {:induction false} SumPositiveIff<T>(s: seq<T>, f: T -> int)
    requires forall i :: 0 <= i < |s| ==> f(s[i]) >= 0
    ensures Sum(s, f) >= 0
    ensures Sum(s, f) > 0 <==> exists i :: 0 <= i < |s| && f(s[i]) > 0
    decreases |s|
  {
    if s != [] {
      var n := |s| - 1;
      SumPositiveIff(s[..n], f);
      if Sum(s, f) > 0 {
        if f(s[n]) == 0 {
          var i :| 0 <= i < n && f(s[..n][i]) > 0;
          assert s[i] == s[..n][i];
        }
      } else {
        forall i | 0 <= i < |s| ensures f(s[i]) == 0 {
          if i < n { assert s[i] == s[..n][i]; }
        }
      }
    }
  }

  // ---------------------------------------------------------------------------
  // Characters and strings
  // ---------------------------------------------------------------------------

  /** String.prototype.toLowerCase on one character, for the ASCII range. */
  function LowerChar(c: char): char
  {
    if 'A' <= c <= 'Z' then (c as int + 32) as char else c
  }

  function Lower(s: string): string
  {
    seq(|s|, i requires 0 <= i < |s| => LowerChar(s[i]))
  }

  /** The characters JavaScript's trim and the regular expression class \s treat as white space. */
  predicate IsJsWhitespace(c: char)
  {
    || c == ' ' || c == '\t' || c == '\n' || c == '\r'
    || c == '\U{000B}' || c == '\U{000C}' || c == '\U{00A0}' || c == '\U{1680}'
    || ('\U{2000}' <= c <= '\U{200A}')
    || c == '\U{2028}' || c == '\U{2029}' || c == '\U{202F}' || c == '\U{205F}'
    || c == '\U{3000}' || c == '\U{FEFF}'
  }

  /** Drops the leading white space: what remains does not start with white space. */
  function TrimStart(s: string): (r: string)
    ensures |r| <= |s|
    ensures r != [] ==> !IsJsWhitespace(r[0])
    decreases |s|
  {
    if s != [] && IsJsWhitespace(s[0]) then TrimStart(s[1..]) else s
  }

  /** Drops the trailing white space: what remains does not end with white space. */
  function TrimEnd(s: string): (r: string)
    ensures |r| <= |s|
    ensures r != [] ==> !IsJsWhitespace(r[|r| - 1])
    decreases |s|
  {
    if s != [] && IsJsWhitespace(s[|s| - 1]) then TrimEnd(s[..|s| - 1]) else s
  }

  /** String.prototype.trim: strips white space at both ends and takes no argument. */
  function Trim(s: string): string
  {
    TrimEnd(TrimStart(s))
  }

  lemma {:induction false} TrimEndKeepsStart(s: string)
    requires s != [] && !IsJsWhitespace(s[0])
    ensures TrimEnd(s) != [] && TrimEnd(s)[0] == s[0]
    decreases |s|
  {
    if IsJsWhitespace(s[|s| - 1]) {
      TrimEndKeepsStart(s[..|s| - 1]);
    }
  }

  /** Trimming twice trims no more than trimming once. */
  lemma TrimIdempotent(s: string)
    ensures Trim(Trim(s)) == Trim(s)
  {
    var t := Trim(s);
    var u := TrimStart(s);
    if u != [] {
      TrimEndKeepsStart(u);
    }
    assert TrimStart(t) == t;
  }

  // ---------------------------------------------------------------------------
  // Decimal numbers: String(n), padStart and reading the digits back
  // ---------------------------------------------------------------------------

  predicate IsDigit(c: char)
  {
    '0' <= c <= '9'
  }

  predicate AllDigits(s: string)
  {
    forall i :: 0 <= i < |s| ==> IsDigit(s[i])
  }

  function DigitChar(d: nat): char
    requires d < 10
  {
    ('0' as int + d) as char
  }

  function DigitValue(c: char): nat
    requires IsDigit(c)
  {
    c as int - '0' as int
  }

  function Pow10(k: nat): nat
  {
    if k == 0 then 1 else 10 * Pow10(k - 1)
  }

  /** String(n) for a non-negative integer: its digits, without leading zeros. */
  function NatToString(n: nat): (s: string)
    ensures 1 <= |s| && AllDigits(s)
    decreases n
  {
    if n < 10 then [DigitChar(n)] else NatToString(n / 10) + [DigitChar(n % 10)]
  }

  /** The number a string of decimal digits denotes. */
  function DecimalValue(s: string): nat
    requires AllDigits(s)
    decreases |s|
  {
    if s == [] then 0 else 10 * DecimalValue(s[..|s| - 1]) + DigitValue(s[|s| - 1])
  }

  /** padStart(width, '0'): zeros in front up to the width; a longer string is unchanged. */
  function PadStart(s: string, width: nat): (r: string)
    ensures |r| == if |s| >= width then |s| else width
    ensures r[|r| - |s|..] == s
    ensures forall i :: 0 <= i < |r| - |s| ==> r[i] == '0'
  {
    if |s| >= width then s else seq(width - |s|, _ => '0') + s
  }

  /** Reading the digits back gives the number that was written. */
  lemma {:induction false} NatToStringRoundTrip(n: nat)
    ensures DecimalValue(NatToString(n)) == n
    decreases n
  {
    if n >= 10 {
      var s := NatToString(n / 10);
      var t := s + [DigitChar(n % 10)];
      assert t[..|t| - 1] == s;
      NatToStringRoundTrip(n / 10);
    }
  }

  /** A number below 10^k takes at most k digits. */
  lemma {:induction false} NatToStringLength(n: nat, k: nat)
    requires 1 <= k && n < Pow10(k)
    ensures |NatToString(n)| <= k
    decreases k
  {
    if n >= 10 {
      assert k > 1;
      NatToStringLength(n / 10, k - 1);
    }
  }

  /** Leading zeros do not change the value of a digit string. */
  lemma {:induction false} LeadingZerosValue(z: string, s: string)
    requires forall i :: 0 <= i < |z| ==> z[i] == '0'
    requires AllDigits(s)
    ensures AllDigits(z + s)
    ensures DecimalValue(z + s) == DecimalValue(s)
    decreases |s| + |z|
  {
    if s == [] {
      assert z + s == z;
      if z != [] {
        LeadingZerosValue(z[..|z| - 1], []);
        assert z[..|z| - 1] + [] == z[..|z| - 1];
      }
    } else {
      var n := |s| - 1;
      assert (z + s)[..|z + s| - 1] == z + s[..n];
      LeadingZerosValue(z, s[..n]);
    }
  }

  /** A padded number reads back as the number. */
  lemma PadStartValue(n: nat, width: nat)
    ensures AllDigits(PadStart(NatToString(n), width))
    ensures DecimalValue(PadStart(NatToString(n), width)) == n
  {
    var s := NatToString(n);
    var r := PadStart(s, width);
    NatToStringRoundTrip(n);
    if |s| < width {
      LeadingZerosValue(r[..|r| - |s|], s);
      assert r == r[..|r| - |s|] + s;
    }
  }

  /** String.prototype.substr(-2): the last two characters, or the whole of a shorter string. */
  function LastTwo(s: string): (r: string)
    ensures |r| == if |s| >= 2 then 2 else |s|
    ensures r == s[|s| - |r|..]
  {
    if |s| >= 2 then s[|s| - 2..] else s
  }

  lemma TwoDigitValue(a: nat, b: nat)
    requires a < 10 && b < 10
    ensures AllDigits([DigitChar(a), DigitChar(b)])
    ensures DecimalValue([DigitChar(a), DigitChar(b)]) == 10 * a + b
  {
    var t := [DigitChar(a), DigitChar(b)];
    assert t[..1] == [DigitChar(a)];
    assert t[..1][..0] == [];
    assert DigitValue(DigitChar(a)) == a && DigitValue(DigitChar(b)) == b;
    assert DecimalValue(t[..1]) == DecimalValue(t[..1][..0]) * 10 + a;
  }

  lemma ModHundred(n: nat)
    ensures n % 100 == 10 * ((n / 10) % 10) + n % 10
  {
    var a, b := n / 10, n % 10;
    var c, d := a / 10, a % 10;
    assert n == 10 * a + b;
    assert a == 10 * c + d;
    assert n == 100 * c + (10 * d + b);
    assert 0 <= 10 * d + b < 100;
  }

  lemma LastTwoOfTwoDigits(n: nat)
    requires 10 <= n < 100
    ensures LastTwo(NatToString(n)) == [DigitChar(n / 10), DigitChar(n % 10)]
  {
    var s := NatToString(n);
    assert s == NatToString(n / 10) + [DigitChar(n % 10)];
    assert NatToString(n / 10) == [DigitChar(n / 10)];
    assert |s| == 2;
    assert LastTwo(s) == s[0..];
  }

  lemma LastTwoOfLonger(n: nat)
    requires n >= 100
    ensures LastTwo(NatToString(n)) == [DigitChar((n / 10) % 10), DigitChar(n % 10)]
  {
    var a := n / 10;
    assert NatToString(n) == NatToString(a) + [DigitChar(n % 10)];
    assert NatToString(a) == NatToString(a / 10) + [DigitChar(a % 10)];
    assert NatToString(n) == NatToString(a / 10) + [DigitChar(a % 10), DigitChar(n % 10)];
  }

  /** The last two digits of a number of at least two digits denote it modulo 100. */
  lemma LastTwoDigits(n: nat)
    requires n >= 10
    ensures |LastTwo(NatToString(n))| == 2
    ensures AllDigits(LastTwo(NatToString(n)))
    ensures DecimalValue(LastTwo(NatToString(n))) == n % 100
  {
    if n >= 100 {
      LastTwoOfLonger(n);
      TwoDigitValue((n / 10) % 10, n % 10);
      ModHundred(n);
    } else {
      LastTwoOfTwoDigits(n);
      TwoDigitValue(n / 10, n % 10);
      assert n % 100 == n == 10 * (n / 10) + n % 10;
    }
  }

  /** A factor between 0 and hi scales c (non-negative) to between 0 and hi * c. */
  lemma ScaleBounds(a: real, hi: real, c: real)
    requires 0.0 <= a <= hi && 0.0 <= c
    ensures 0.0 <= a * c <= hi * c
  {
    assert hi * c - a * c == (hi - a) * c;
  }

  /** A total between 0 and hi * d, divided by a positive d, lies between 0 and hi. */
  lemma QuotientBounds(total: real, hi: real, d: real)
    requires 0.0 < d && 0.0 <= total <= hi * d
    ensures 0.0 <= total / d <= hi
  {
    assert (total / d) * d == total;
  }
}
