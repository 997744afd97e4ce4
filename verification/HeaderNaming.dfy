/** Names of the box-header models: the part name built from the pin count
    per row with a two-digit, zero-padded field, and the document name
    obtained from it by deleting every period. */
module HeaderNaming {

  predicate IsDigit(c: char) {
    '0' <= c <= '9'
  }

  predicate AllDigits(s: string) {
    forall i :: 0 <= i < |s| ==> IsDigit(s[i])
  }

  function DigitChar(d: int): (c: char)
    requires 0 <= d < 10
    ensures IsDigit(c)
  {
    (('0' as int) + d) as char
  }

  function DigitValue(c: char): (v: int)
    requires IsDigit(c)
  {
    (c as int) - ('0' as int)
  }

  /** Decimal digits of n, most significant first, without leading zeros. */
  function Decimal(n: nat): (s: string)
    ensures 1 <= |s| && AllDigits(s)
    ensures |s| > 1 <==> n >= 10
    ensures |s| > 1 ==> s[0] != '0'
  {
    if n < 10 then [DigitChar(n)] else Decimal(n / 10) + [DigitChar(n % 10)]
  }

  /** The number a string of decimal digits denotes (leading zeros allowed). */
  function ParseDecimal(s: string): (v: nat)
    requires AllDigits(s)
  {
    if s == [] then 0 else 10 * ParseDecimal(s[..|s| - 1]) + DigitValue(s[|s| - 1])
  }

  /** Reading back the digits of n gives n. */
  lemma {:induction false} DecimalRoundTrip(n: nat)
    ensures ParseDecimal(Decimal(n)) == n
  {
    var s := Decimal(n);
    if n >= 10 {
      DecimalRoundTrip(n / 10);
      assert s[..|s| - 1] == Decimal(n / 10);
    }
  }

  /** A leading zero does not change the number a digit string denotes. */
  lemma LeadingZero(s: string)
    requires AllDigits(s)
    ensures AllDigits("0" + s) && ParseDecimal("0" + s) == ParseDecimal(s)
  {
    if s != [] {
      assert ("0" + s)[..|"0" + s| - 1] == "0" + s[..|s| - 1];
      LeadingZero(s[..|s| - 1]);
    }
  }

  /** The integer formatted with width 2 and zero fill: a sign comes first
      and counts towards the width, and zeros fill up to two characters. */
  function ZeroPad2(n: int): (field: string) {
    if n < 0 then "-" + Decimal(-n)
    else if n < 10 then "0" + Decimal(n)
    else Decimal(n)
  }

  /** For a non-negative count the padded field is all digits, at least two
      of them, reads back as n, and is padded only when n < 10. */
  lemma ZeroPad2Shape(n: int)
    requires n >= 0
    ensures var f := ZeroPad2(n);
      && AllDigits(f) && |f| >= 2 && ParseDecimal(f) == n
      && (n < 10 <==> f[0] == '0')
      && (n < 10 ==> |f| == 2)
      && (n >= 10 ==> f == Decimal(n))
  {
    DecimalRoundTrip(n);
    if n < 10 {
      LeadingZero(Decimal(n));
    }
  }

  /** Distinct counts give distinct padded fields. */
  lemma ZeroPad2Injective(a: int, b: int)
    requires ZeroPad2(a) == ZeroPad2(b)
    ensures a == b
  {
    SignFirst(a);
    SignFirst(b);
    if a < 0 {
      assert Decimal(-a) == ZeroPad2(a)[1..] == ZeroPad2(b)[1..] == Decimal(-b);
      DecimalRoundTrip(-a);
      DecimalRoundTrip(-b);
    } else {
      ZeroPad2Shape(a);
      ZeroPad2Shape(b);
    }
  }

  /** The padded field starts with a minus sign exactly for negative n. */
  lemma SignFirst(n: int)
    ensures |ZeroPad2(n)| > 0 && (ZeroPad2(n)[0] == '-' <==> n < 0)
  {
    if n >= 0 {
      ZeroPad2Shape(n);
    }
  }

  const NamePrefix: string := "Box_Header_Straight_2x"
  const NameSuffix: string := "x2.54mm"

  /** Part name for a box header with n pins in each of its two rows. */
  function HeaderName(n: int): (name: string) {
    NamePrefix + ZeroPad2(n) + NameSuffix
  }

  /** The name is the fixed prefix, the two-or-more digit pin count and the
      pitch suffix; it keeps the period of "2.54". */
  lemma HeaderNameShape(n: int)
    ensures var name := HeaderName(n); var f := ZeroPad2(n);
      && name[..|NamePrefix|] == NamePrefix
      && name[|name| - |NameSuffix|..] == NameSuffix
      && name[|NamePrefix|..|name| - |NameSuffix|] == f
      && (n >= 0 ==> AllDigits(f) && ParseDecimal(f) == n)
      && '.' in name
  {
    if n >= 0 {
      ZeroPad2Shape(n);
    }
    var name := HeaderName(n);
    assert name[|name| - 5] == '.';
  }

  /** Distinct pin counts give distinct part names. */
  lemma HeaderNameInjective(a: int, b: int)
    requires HeaderName(a) == HeaderName(b)
    ensures a == b
  {
    var na, nb := HeaderName(a), HeaderName(b);
    assert ZeroPad2(a) == na[|NamePrefix|..|na| - |NameSuffix|];
    assert ZeroPad2(b) == nb[|NamePrefix|..|nb| - |NameSuffix|];
    ZeroPad2Injective(a, b);
  }

  /** Worked cases: 8 and 10 pins per row. */
  lemma HeaderNameExamples()
    ensures HeaderName(8) == "Box_Header_Straight_2x08x2.54mm"
    ensures HeaderName(10) == "Box_Header_Straight_2x10x2.54mm"
  {
    assert Decimal(10) == "10" by {
      assert Decimal(1) == "1" && Decimal(0) == "0";
    }
  }

  /** Deletes every period, keeping the other characters in order. */
  function RemovePeriods(s: string): (r: string) {
    if s == [] then []
    else (if s[0] == '.' then [] else [s[0]]) + RemovePeriods(s[1..])
  }

  /** Number of occurrences of c in s. */
  function Count(s: string, c: char): (k: nat) {
    if s == [] then 0 else (if s[0] == c then 1 else 0) + Count(s[1..], c)
  }

  /** a is obtained from b by deleting characters (a subsequence of b). */
  predicate IsSubsequence(a: string, b: string) {
    if a == [] then true
    else if b == [] then false
    else if a[0] == b[0] then IsSubsequence(a[1..], b[1..])
    else IsSubsequence(a, b[1..])
  }

  /** Removing the periods leaves no period, drops exactly the periods, keeps
      every other character with its multiplicity and in its order, and
      changes nothing in a string without periods. */
  lemma {:induction false} RemovePeriodsSpec(s: string)
    ensures var r := RemovePeriods(s);
      && '.' !in r
      && |r| == |s| - Count(s, '.')
      && (forall c :: c != '.' ==> Count(r, c) == Count(s, c))
      && IsSubsequence(r, s)
      && ('.' !in s ==> r == s)
  {
    if s != [] {
      RemovePeriodsSpec(s[1..]);
      var r := RemovePeriods(s);
      var rest := RemovePeriods(s[1..]);
      if s[0] == '.' {
        assert r == rest;
        SubsequenceOfTail(rest, s);
      } else {
        assert r == [s[0]] + rest;
        assert r[1..] == rest;
        forall c | c != '.' ensures Count(r, c) == Count(s, c) {
        }
      }
    }
  }

  lemma {:induction false} SubsequenceOfTail(a: string, b: string)
    requires b != [] && IsSubsequence(a, b[1..])
    ensures IsSubsequence(a, b)
  {
    if a != [] && a[0] == b[0] {
      var t := b[1..];
      if t != [] && a[0] == t[0] {
        SubsequenceOfTail(a[1..], t);
      } else {
        SubsequenceTail(a, t);
      }
    }
  }

  lemma {:induction false} SubsequenceTail(a: string, b: string)
    requires a != [] && IsSubsequence(a, b)
    ensures IsSubsequence(a[1..], b)
  {
    if b != [] {
      if a[0] == b[0] {
        SubsequenceOfTail(a[1..], b);
      } else {
        SubsequenceTail(a, b[1..]);
        SubsequenceOfTail(a[1..], b);
      }
    }
  }

  lemma {:induction false} RemovePeriodsAppend(a: string, b: string)
    ensures RemovePeriods(a + b) == RemovePeriods(a) + RemovePeriods(b)
  {
    if a == [] {
      assert a + b == b;
    } else {
      assert (a + b)[1..] == a[1..] + b;
      RemovePeriodsAppend(a[1..], b);
    }
  }

  /** Document name of a part: the part name with every period deleted. */
  function DocName(name: string): (docname: string)
    ensures '.' !in docname && IsSubsequence(docname, name)
  {
    RemovePeriodsSpec(name);
    RemovePeriods(name)
  }

  /** A string without periods is left as it is. */
  lemma {:induction false} NoPeriodUnchanged(s: string)
    requires '.' !in s
    ensures RemovePeriods(s) == s
  {
    if s != [] {
      assert s[0] != '.' && '.' !in s[1..];
      NoPeriodUnchanged(s[1..]);
    }
  }

  lemma PrefixKeptBySanitising()
    ensures RemovePeriods(NamePrefix) == NamePrefix
  {
    NoPeriodUnchanged(NamePrefix);
  }

  lemma SuffixSanitised()
    ensures RemovePeriods(NameSuffix) == "x254mm"
  {
    assert NameSuffix == "x2" + ".54mm";
    RemovePeriodsAppend("x2", ".54mm");
    NoPeriodUnchanged("x2");
    NoPeriodUnchanged("54mm");
    assert ".54mm"[1..] == "54mm";
  }

  /** The padded field never holds a period. */
  lemma ZeroPad2HasNoPeriod(n: int)
    ensures '.' !in ZeroPad2(n)
  {
    if n >= 0 {
      ZeroPad2Shape(n);
    } else {
      var d := Decimal(-n);
      assert ZeroPad2(n) == "-" + d;
      assert forall i :: 0 <= i < |d| ==> d[i] != '.';
    }
  }

  /** The document name of a box header differs from its part name only in
      the suffix, where "2.54" becomes "254"; the part name itself, which the
      STEP, VRML and native files are named after, keeps its period. */
  lemma HeaderDocName(n: int)
    ensures DocName(HeaderName(n)) == NamePrefix + ZeroPad2(n) + "x254mm"
    ensures '.' in HeaderName(n) && DocName(HeaderName(n)) != HeaderName(n)
  {
    ZeroPad2HasNoPeriod(n);
    SanitisedAroundField(ZeroPad2(n));
  }

  /** Deleting the periods from prefix + f + suffix, for a field f without
      periods, only turns the suffix into "x254mm". */
  lemma SanitisedAroundField(f: string)
    requires '.' !in f
    ensures RemovePeriods(NamePrefix + f + NameSuffix) == NamePrefix + f + "x254mm"
    ensures '.' in NamePrefix + f + NameSuffix
  {
    RemovePeriodsAppend(NamePrefix + f, NameSuffix);
    RemovePeriodsAppend(NamePrefix, f);
    PrefixKeptBySanitising();
    NoPeriodUnchanged(f);
    SuffixSanitised();
    var name := NamePrefix + f + NameSuffix;
    assert name[|name| - 5] == '.';
  }

  lemma DocNameInjective(a: int, b: int)
    requires DocName(HeaderName(a)) == DocName(HeaderName(b))
    ensures a == b
  {
    HeaderDocName(a);
    HeaderDocName(b);
    var da, db := DocName(HeaderName(a)), DocName(HeaderName(b));
    assert ZeroPad2(a) == da[|NamePrefix|..|da| - 6];
    assert ZeroPad2(b) == db[|NamePrefix|..|db| - 6];
    ZeroPad2Injective(a, b);
  }
}
