/** `generateSKU`: the product identifier built from brand, model, section and the clock. */
module Sku {
  import opened Text

  /** First three characters of the brand, upper-cased, letters only. */
  function BrandCode(brand: string): (r: string)
    ensures |r| <= 3
    ensures forall i :: 0 <= i < |r| ==> IsUpperLetter(r[i])
  {
    Filter(Upper(Prefix(brand, 3)), IsUpperLetter)
  }

  /** First four characters of the model, upper-cased, letters and digits only. */
  function ModelCode(model: string): (r: string)
    ensures |r| <= 4
    ensures forall i :: 0 <= i < |r| ==> IsUpperAlnum(r[i])
  {
    Filter(Upper(Prefix(model, 4)), IsUpperAlnum)
  }

  /** `Date.now().toString().slice(-6)`. */
  function TimestampTail(now: nat): (r: string)
    ensures |r| <= 6
    ensures AllDigits(r)
  {
    var d := DecimalString(now);
    SuffixDigits(d, 6);
    Suffix(d, 6)
  }

  /** `BRAND-MODEL-SECTION-TIMESTAMP`: three dashes, the upper-cased section, and at most 13 characters besides. */
  function GenerateSku(brand: string, model: string, section: string, now: nat): (r: string)
    ensures |section| + 3 <= |r| <= |section| + 16
  {
    BrandCode(brand) + "-" + ModelCode(model) + "-" + Upper(section) + "-" + TimestampTail(now)
  }

  /** The tail is the clock reading modulo 10^6, and has exactly six digits once the clock reads 100000 or more. */
  lemma TimestampTailValue(now: nat)
    ensures DecimalValue(TimestampTail(now)) == now % 1000000
    ensures now >= 100000 ==> |TimestampTail(now)| == 6
  {
    SuffixValue(now, 6);
    assert Pow10(6) == 1000000;
    if now >= 100000 {
      assert Pow10(5) == 100000;
      DecimalLengthAtLeast(now, 6);
    }
  }

  /** Position of the first dash of s (|s| when there is none). */
  function FirstDash(s: string): (i: nat)
    ensures i <= |s|
  {
    if s == [] || s[0] == '-' then 0 else 1 + FirstDash(s[1..])
  }

  /** Position of the last dash of s (-1 when there is none). */
  function LastDash(s: string): (i: int)
    ensures -1 <= i < |s|
  {
    if s == [] then -1
    else if s[|s| - 1] == '-' then |s| - 1
    else LastDash(s[..|s| - 1])
  }

  lemma {:induction false} FirstDashAfter(a: string, r: string)
    requires '-' !in a
    ensures FirstDash(a + "-" + r) == |a|
  {
    if a != [] {
      assert (a + "-" + r)[1..] == a[1..] + "-" + r;
      FirstDashAfter(a[1..], r);
    }
  }

  lemma {:induction false} LastDashBefore(h: string, t: string)
    requires '-' !in t
    ensures LastDash(h + "-" + t) == |h|
  {
    var s := h + "-" + t;
    if t != [] {
      assert s[..|s| - 1] == h + "-" + t[..|t| - 1];
      assert s[|s| - 1] == t[|t| - 1];
      LastDashBefore(h, t[..|t| - 1]);
    } else {
      assert s[|s| - 1] == '-';
    }
  }

  /** Splitting at the first dash: the dash-free head is recovered. */
  lemma SplitAtFirstDash(a1: string, r1: string, a2: string, r2: string)
    requires '-' !in a1 && '-' !in a2
    requires a1 + "-" + r1 == a2 + "-" + r2
    ensures a1 == a2 && r1 == r2
  {
    var s := a1 + "-" + r1;
    FirstDashAfter(a1, r1);
    FirstDashAfter(a2, r2);
    assert a1 == s[..|a1|] == a2;
    assert r1 == s[|a1| + 1..] == r2;
  }

  /** Splitting at the last dash: the dash-free tail is recovered. */
  lemma SplitAtLastDash(h1: string, t1: string, h2: string, t2: string)
    requires '-' !in t1 && '-' !in t2
    requires h1 + "-" + t1 == h2 + "-" + t2
    ensures h1 == h2 && t1 == t2
  {
    var s := h1 + "-" + t1;
    LastDashBefore(h1, t1);
    LastDashBefore(h2, t2);
    assert h1 == s[..|h1|] == h2;
    assert t1 == s[|h1| + 1..] == t2;
  }

  lemma CodesHaveNoDash(brand: string, model: string, now: nat)
    ensures '-' !in BrandCode(brand)
    ensures '-' !in ModelCode(model)
    ensures '-' !in TimestampTail(now)
  {
  }

  /**
   * A SKU determines its four parts: two rows get the same SKU exactly when
   * their brand codes, model codes, upper-cased sections and clock tails agree.
   */
  lemma SkuDeterminesParts(b1: string, m1: string, s1: string, n1: nat, b2: string, m2: string, s2: string, n2: nat)
    ensures GenerateSku(b1, m1, s1, n1) == GenerateSku(b2, m2, s2, n2) <==>
      BrandCode(b1) == BrandCode(b2) && ModelCode(m1) == ModelCode(m2) &&
      Upper(s1) == Upper(s2) && TimestampTail(n1) == TimestampTail(n2)
  {
    CodesHaveNoDash(b1, m1, n1);
    CodesHaveNoDash(b2, m2, n2);
    FourPartsDetermined(BrandCode(b1), ModelCode(m1), Upper(s1), TimestampTail(n1),
                        BrandCode(b2), ModelCode(m2), Upper(s2), TimestampTail(n2));
  }

  /**
   * Reading a SKU back: the first dash ends the brand code, the next dash
   * ends the model code, the last dash starts the clock tail, and the
   * upper-cased section lies between the second and the last dash.
   */
  lemma SkuLayout(brand: string, model: string, section: string, now: nat)
    ensures var r, b, m, t := GenerateSku(brand, model, section, now), BrandCode(brand), ModelCode(model), TimestampTail(now);
      && |r| == |b| + |m| + |Upper(section)| + |t| + 3
      && FirstDash(r) == |b| && r[..|b|] == b
      && FirstDash(r[|b| + 1..]) == |m| && r[|b| + 1..|b| + 1 + |m|] == m
      && LastDash(r) == |r| - |t| - 1 && r[|r| - |t|..] == t
      && r[|b| + |m| + 2..|r| - |t| - 1] == Upper(section)
  {
    CodesHaveNoDash(brand, model, now);
    FourPartsLayout(BrandCode(brand), ModelCode(model), Upper(section), TimestampTail(now));
  }

  lemma FourPartsLayout(b: string, m: string, u: string, t: string)
    requires '-' !in b && '-' !in m && '-' !in t
    ensures var r := b + "-" + m + "-" + u + "-" + t;
      && |r| == |b| + |m| + |u| + |t| + 3
      && FirstDash(r) == |b| && r[..|b|] == b
      && FirstDash(r[|b| + 1..]) == |m| && r[|b| + 1..|b| + 1 + |m|] == m
      && LastDash(r) == |r| - |t| - 1 && r[|r| - |t|..] == t
      && r[|b| + |m| + 2..|r| - |t| - 1] == u
  {
    var r := b + "-" + m + "-" + u + "-" + t;
    assert r == b + "-" + (m + "-" + u + "-" + t);
    FirstDashAfter(b, m + "-" + u + "-" + t);
    assert r[|b| + 1..] == m + "-" + (u + "-" + t);
    FirstDashAfter(m, u + "-" + t);
    assert r == (b + "-" + m + "-" + u) + "-" + t;
    LastDashBefore(b + "-" + m + "-" + u, t);
  }

  lemma FourPartsDetermined(a1: string, b1: string, c1: string, d1: string, a2: string, b2: string, c2: string, d2: string)
    requires '-' !in a1 && '-' !in b1 && '-' !in d1
    requires '-' !in a2 && '-' !in b2 && '-' !in d2
    ensures a1 + "-" + b1 + "-" + c1 + "-" + d1 == a2 + "-" + b2 + "-" + c2 + "-" + d2 <==>
      a1 == a2 && b1 == b2 && c1 == c2 && d1 == d2
  {
    if a1 + "-" + b1 + "-" + c1 + "-" + d1 == a2 + "-" + b2 + "-" + c2 + "-" + d2 {
      var q1, q2 := c1 + "-" + d1, c2 + "-" + d2;
      var r1, r2 := b1 + "-" + q1, b2 + "-" + q2;
      assert a1 + "-" + b1 + "-" + c1 + "-" + d1 == a1 + "-" + r1;
      assert a2 + "-" + b2 + "-" + c2 + "-" + d2 == a2 + "-" + r2;
      SplitAtFirstDash(a1, r1, a2, r2);
      SplitAtFirstDash(b1, q1, b2, q2);
      SplitAtLastDash(c1, d1, c2, d2);
    }
  }

  lemma CanonBrandCode()
    ensures BrandCode("Canon") == "CAN"
  {
    assert Prefix("Canon", 3) == "Can";
    var u := Upper("Can");
    assert u[0] == 'C' && u[1] == 'A' && u[2] == 'N';
    assert u == "CAN";
    assert Filter("N", IsUpperLetter) == "N";
    assert Filter("AN", IsUpperLetter) == "AN";
    assert Filter("CAN", IsUpperLetter) == "CAN";
  }

  lemma AeOneModelCode()
    ensures ModelCode("AE-1") == "AE1"
  {
    assert Prefix("AE-1", 4) == "AE-1";
    var u := Upper("AE-1");
    assert u[0] == 'A' && u[1] == 'E' && u[2] == '-' && u[3] == '1';
    assert u == "AE-1";
    assert Filter("1", IsUpperAlnum) == "1";
    assert Filter("-1", IsUpperAlnum) == "1";
    assert Filter("E-1", IsUpperAlnum) == "E1";
    assert Filter("AE-1", IsUpperAlnum) == "AE1";
  }

  /** The worked example: Canon / AE-1 / Q2 gives "CAN-AE1-Q2-" followed by the clock tail. */
  lemma CanonExample(now: nat)
    ensures GenerateSku("Canon", "AE-1", "Q2", now) == "CAN-AE1-Q2-" + TimestampTail(now)
  {
    CanonBrandCode();
    AeOneModelCode();
    var u := Upper("Q2");
    assert u[0] == 'Q' && u[1] == '2';
    assert u == "Q2";
    var head := BrandCode("Canon") + "-" + ModelCode("AE-1") + "-" + Upper("Q2") + "-";
    assert head == "CAN-AE1-Q2-";
    assert GenerateSku("Canon", "AE-1", "Q2", now) == head + TimestampTail(now);
  }
}
