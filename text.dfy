/**
 * ASCII text helpers standing for the JavaScript string operations the
 * importer and the route use: `toUpperCase`, `substring(0, n)`,
 * `slice(-n)`, regex character stripping and `Number.prototype.toString`.
 */
module Text {

  /** `toUpperCase` on one character, restricted to ASCII. */
  function UpperChar(c: char): char
  {
    if 'a' <= c <= 'z' then (c as int - 32) as char else c
  }

  /** `s.toUpperCase()` for ASCII strings. */
  function Upper(s: string): (r: string)
    ensures |r| == |s|
    ensures forall i {:trigger r[i]} :: 0 <= i < |s| ==> r[i] == UpperChar(s[i])
  {
    seq(|s|, i requires 0 <= i < |s| => UpperChar(s[i]))
  }

  /** Case-insensitive equality, as a case-insensitive match without wildcards compares names. */
  predicate SameIgnoringCase(a: string, b: string)
  {
    Upper(a) == Upper(b)
  }

  predicate IsUpperLetter(c: char)
  {
    'A' <= c <= 'Z'
  }

  predicate IsDigit(c: char)
  {
    '0' <= c <= '9'
  }

  predicate IsUpperAlnum(c: char)
  {
    IsUpperLetter(c) || IsDigit(c)
  }

  /** `s.replace(/[^...]/g, "")`: keeps, in order, the characters `keep` accepts. */
  function Filter(s: string, keep: char -> bool): (r: string)
    ensures |r| <= |s|
    ensures forall i :: 0 <= i < |r| ==> keep(r[i])
    ensures forall c :: c in r ==> c in s
  {
    if s == [] then []
    else (if keep(s[0]) then [s[0]] else []) + Filter(s[1..], keep)
  }

  /** Exactly the characters of `s` that `keep` accepts survive the filter. */
  lemma {:induction false} FilterMembers(s: string, keep: char -> bool)
    ensures forall c :: c in Filter(s, keep) <==> c in s && keep(c)
  {
    if s != [] {
      FilterMembers(s[1..], keep);
      assert forall c :: c in s <==> c == s[0] || c in s[1..];
    }
  }

  /** Filtering keeps the order of the kept characters: it distributes over concatenation. */
  lemma {:induction false} FilterAppend(s: string, t: string, keep: char -> bool)
    ensures Filter(s + t, keep) == Filter(s, keep) + Filter(t, keep)
  {
    if s != [] {
      assert (s + t)[1..] == s[1..] + t;
      FilterAppend(s[1..], t, keep);
    } else {
      assert s + t == t;
    }
  }

  /** `s.substring(0, n)`. */
  function Prefix(s: string, n: nat): (r: string)
    ensures |r| == if |s| < n then |s| else n
    ensures r <= s
  {
    if |s| < n then s else s[..n]
  }

  /** `s.slice(-n)` for n > 0: the last n characters, or all of them if there are fewer. */
  function Suffix(s: string, n: nat): (r: string)
    ensures |r| == if |s| < n then |s| else n
  {
    if |s| < n then s else s[|s| - n..]
  }

  /** The suffix is the tail of `s`: `s` is some prefix followed by it. */
  lemma SuffixIsTail(s: string, n: nat)
    ensures Suffix(s, n) == s[|s| - |Suffix(s, n)|..]
    ensures s == s[..|s| - |Suffix(s, n)|] + Suffix(s, n)
  {
  }

  function DigitChar(d: nat): char
    requires d < 10
  {
    ('0' as int + d) as char
  }

  function DigitOf(c: char): nat
    requires IsDigit(c)
  {
    c as int - '0' as int
  }

  predicate AllDigits(s: string)
  {
    forall i :: 0 <= i < |s| ==> IsDigit(s[i])
  }

  /** `n.toString()` for a natural number: its decimal digits, without leading zeros. */
  function DecimalString(n: nat): (r: string)
    ensures 1 <= |r|
    ensures AllDigits(r)
  {
    if n < 10 then [DigitChar(n)] else DecimalString(n / 10) + [DigitChar(n % 10)]
  }

  /** The number a string of decimal digits denotes. */
  function DecimalValue(s: string): nat
    requires AllDigits(s)
  {
    if s == [] then 0 else 10 * DecimalValue(s[..|s| - 1]) + DigitOf(s[|s| - 1])
  }

  function Pow10(k: nat): (r: nat)
    ensures r >= 1
  {
    if k == 0 then 1 else 10 * Pow10(k - 1)
  }

  /** Reading the decimal digits back gives the number: `DecimalValue` inverts `DecimalString`. */
  lemma {:induction false} DecimalRoundTrip(n: nat)
    ensures DecimalValue(DecimalString(n)) == n
  {
    var s := DecimalString(n);
    if n >= 10 {
      DecimalRoundTrip(n / 10);
      assert s[..|s| - 1] == DecimalString(n / 10);
    }
  }

  /** A number below 10^k has at most k decimal digits (for k >= 1). */
  lemma {:induction false} DecimalLength(n: nat, k: nat)
    requires 1 <= k && n < Pow10(k)
    ensures |DecimalString(n)| <= k
  {
    if n >= 10 {
      assert k >= 2;
      DecimalLength(n / 10, k - 1);
    }
  }

  /** A number at least 10^(k-1) has at least k decimal digits. */
  lemma {:induction false} DecimalLengthAtLeast(n: nat, k: nat)
    requires 1 <= k && Pow10(k - 1) <= n
    ensures |DecimalString(n)| >= k
  {
    if k >= 2 {
      assert n >= 10;
      DecimalLengthAtLeast(n / 10, k - 1);
    }
  }

  lemma {:induction false} MulAtLeast(m: nat, x: nat)
    requires x >= 1
    ensures m * x >= m
  {
    if x > 1 {
      MulAtLeast(m, x - 1);
      assert m * x == m * (x - 1) + m;
    }
  }

  /** Euclidean remainder is determined by any decomposition with a remainder in range. */
  lemma ModUnique(n: int, m: int, q: int, r: int)
    requires m > 0 && n == m * q + r && 0 <= r < m
    ensures n % m == r
  {
    var q', r' := n / m, n % m;
    assert m * q' + r' == m * q + r;
    if q > q' {
      assert m * q - m * q' == m * (q - q');
      MulAtLeast(m, q - q');
    } else if q < q' {
      assert m * q' - m * q == m * (q' - q);
      MulAtLeast(m, q' - q);
    }
  }

  lemma ModStep(n: nat, p: nat)
    requires p >= 1
    ensures 10 * ((n / 10) % p) + n % 10 == n % (10 * p)
  {
    var q := n / 10;
    var d := n % 10;
    var a := q / p;
    var b := q % p;
    assert n == 10 * q + d;
    assert q == p * a + b;
    assert n == (10 * p) * a + (10 * b + d) by {
      calc {
        n;
        10 * q + d;
        10 * (p * a + b) + d;
        (10 * p) * a + (10 * b + d);
      }
    }
    ModUnique(n, 10 * p, a, 10 * b + d);
  }

  lemma DecimalValueSnoc(v: string, c: char)
    requires AllDigits(v) && IsDigit(c)
    ensures AllDigits(v + [c])
    ensures DecimalValue(v + [c]) == 10 * DecimalValue(v) + DigitOf(c)
  {
    assert (v + [c])[..|v|] == v;
  }

  /** A suffix of a digit string is a digit string. */
  lemma SuffixDigits(s: string, k: nat)
    requires AllDigits(s)
    ensures AllDigits(Suffix(s, k))
  {
    var u := Suffix(s, k);
    forall i | 0 <= i < |u| ensures IsDigit(u[i]) {
      assert u[i] == s[|s| - |u| + i];
    }
  }

  /** Taking the last k characters after appending one is appending it to the last k - 1. */
  lemma SuffixSnoc(t: string, c: char, k: nat)
    requires k >= 1
    ensures Suffix(t + [c], k) == Suffix(t, k - 1) + [c]
  {
    var w := t + [c];
    if |t| < k - 1 {
      assert Suffix(w, k) == w;
    } else {
      assert Suffix(w, k) == w[|w| - k..];
      assert Suffix(t, k - 1) == t[|t| - (k - 1)..];
      assert w[|w| - k..] == t[|t| - (k - 1)..] + [c];
    }
  }

  /** The last k digits of `n.toString()` read as the number n mod 10^k. */
  lemma {:induction false} SuffixValue(n: nat, k: nat)
    ensures AllDigits(Suffix(DecimalString(n), k))
    ensures DecimalValue(Suffix(DecimalString(n), k)) == n % Pow10(k)
  {
    SuffixDigits(DecimalString(n), k);
    if k == 0 {
      SuffixNoDigits(n);
    } else if n < 10 {
      SuffixOneDigit(n, k);
    } else {
      SuffixValue(n / 10, k - 1);
      SuffixDigitStep(n, k);
    }
  }

  lemma SuffixNoDigits(n: nat)
    ensures AllDigits(Suffix(DecimalString(n), 0))
    ensures DecimalValue(Suffix(DecimalString(n), 0)) == n % Pow10(0)
  {
    assert Suffix(DecimalString(n), 0) == [];
    assert Pow10(0) == 1;
  }

  lemma SuffixOneDigit(n: nat, k: nat)
    requires k >= 1 && n < 10
    ensures AllDigits(Suffix(DecimalString(n), k))
    ensures DecimalValue(Suffix(DecimalString(n), k)) == n % Pow10(k)
  {
    assert Suffix(DecimalString(n), k) == DecimalString(n);
    DecimalRoundTrip(n);
    var p := Pow10(k);
    assert p == 10 * Pow10(k - 1);
    ModUnique(n, p, 0, n);
  }

  lemma {:induction false} SuffixDigitStep(n: nat, k: nat)
    requires k >= 1 && n >= 10
    requires AllDigits(Suffix(DecimalString(n / 10), k - 1))
    requires DecimalValue(Suffix(DecimalString(n / 10), k - 1)) == (n / 10) % Pow10(k - 1)
    ensures AllDigits(Suffix(DecimalString(n), k))
    ensures DecimalValue(Suffix(DecimalString(n), k)) == n % Pow10(k)
  {
    var t := DecimalString(n / 10);
    var c := DigitChar(n % 10);
    assert DecimalString(n) == t + [c];
    var v := Suffix(t, k - 1);
    SuffixSnoc(t, c, k);
    DecimalValueSnoc(v, c);
    var p := Pow10(k - 1);
    var x := DecimalValue(v);
    assert x == (n / 10) % p;
    assert DigitOf(c) == n % 10;
    ModStep(n, p);
    assert Pow10(k) == 10 * p;
  }
}
