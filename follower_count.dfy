/** `parseFollowerCount` of server/bot/creator-filter.ts: the follower text a profile
    shows ("12.5K", "1.2M followers") read as a whole number. */
module FollowerCount {
  import opened Wrappers
  import opened Text
  import JsMath

  /** The characters the pattern `/[^\d.KMB]/gi` leaves in place. */
  predicate Kept(c: char) {
    IsDigit(c) || c == '.' || c == 'K' || c == 'M' || c == 'B' || c == 'k' || c == 'm' || c == 'b'
  }

  /** Drops every other character, then upper-cases. */
  function Clean(s: string): (r: string)
    ensures |r| <= |s|
    ensures forall i :: 0 <= i < |r| ==> IsDigit(r[i]) || r[i] == '.' || r[i] == 'K' || r[i] == 'M' || r[i] == 'B'
  {
    if s == [] then [] else (if Kept(s[0]) then [UpperChar(s[0])] else []) + Clean(s[1..])
  }

  /** `s.replace(c, '')` with a string pattern: only the first occurrence goes. */
  function RemoveFirst(s: string, c: char): (r: string)
    ensures c in s ==> |r| == |s| - 1
    ensures c !in s ==> r == s
  {
    if s == [] then [] else if s[0] == c then s[1..] else [s[0]] + RemoveFirst(s[1..], c)
  }

  /** K is tested first, then M, then B. */
  function Multiplier(cleaned: string): nat {
    if 'K' in cleaned then 1000 else if 'M' in cleaned then 1000000 else if 'B' in cleaned then 1000000000 else 1
  }

  function NumberPart(cleaned: string): string {
    if 'K' in cleaned then RemoveFirst(cleaned, 'K')
    else if 'M' in cleaned then RemoveFirst(cleaned, 'M')
    else if 'B' in cleaned then RemoveFirst(cleaned, 'B')
    else cleaned
  }

  /** The longest run of digits at the front of `s`. */
  function LeadingDigits(s: string): (r: string)
    ensures |r| <= |s|
    ensures AllDigits(r) && r == s[..|r|]
    ensures |r| == |s| || !IsDigit(s[|r|])
  {
    if s != [] && IsDigit(s[0]) then [s[0]] + LeadingDigits(s[1..]) else []
  }

  function Pow10(n: nat): (r: nat)
    ensures r >= 1
  {
    if n == 0 then 1 else 10 * Pow10(n - 1)
  }

  /** The value of digits `ip` followed by the fraction digits `fp`. */
  function Decimal(ip: string, fp: string): (r: real)
    requires AllDigits(ip) && AllDigits(fp)
    ensures r >= 0.0
  {
    DigitsValue(ip) as real + DigitsValue(fp) as real / Pow10(|fp|) as real
  }

  /** `parseFloat(s)` on a string of digits, dots and suffix letters: the longest prefix
      of the form `digits[.digits]` or `.digits`, or NaN (`None`) when there is none. */
  function ParseFloatPrefix(s: string): Option<real> {
    var ip := LeadingDigits(s);
    var rest := s[|ip|..];
    var fp := if rest != [] && rest[0] == '.' then LeadingDigits(rest[1..]) else [];
    if ip == [] && fp == [] then None else Some(Decimal(ip, fp))
  }

  /** `parseFloat(numStr) || 0` */
  function NumberValue(numStr: string): (r: real)
    ensures r >= 0.0
  {
    match ParseFloatPrefix(numStr)
    case Some(v) => v
    case None => 0.0
  }

  /** The count a cleaned text stands for. */
  function CountOf(cleaned: string): nat {
    Scaled(NumberValue(NumberPart(cleaned)), Multiplier(cleaned))
  }

  /** `Math.round(number * multiplier)` */
  function Scaled(number: real, multiplier: nat): nat
    requires number >= 0.0
  {
    JsMath.Round(number * multiplier as real)
  }

  /** `parseFollowerCount(text)`; `None` is an absent value. */
  function ParseFollowerCount(text: Option<string>): nat {
    if text.None? || text.value == "" then 0 else CountOf(Clean(text.value))
  }

  // ---------------------------------------------------------------- lemmas

  lemma RoundWhole(n: nat, m: nat)
    ensures Scaled(n as real, m) == n * m
  {
    assert n as real * m as real == (n * m) as real;
  }

  lemma {:induction false} CleanAppend(a: string, b: string)
    ensures Clean(a + b) == Clean(a) + Clean(b)
  {
    if a != [] {
      CleanAppend(a[1..], b);
      assert (a + b)[1..] == a[1..] + b;
    } else {
      assert a + b == b;
    }
  }

  lemma {:induction false} CleanKeepsDigits(s: string)
    requires AllDigits(s)
    ensures Clean(s) == s
  {
    if s != [] {
      CleanKeepsDigits(s[1..]);
    }
  }

  lemma {:induction false} CleanIdempotent(s: string)
    ensures Clean(Clean(s)) == Clean(s)
  {
    if s != [] {
      CleanIdempotent(s[1..]);
      var h := if Kept(s[0]) then [UpperChar(s[0])] else [];
      CleanAppend(h, Clean(s[1..]));
    }
  }

  lemma {:induction false} CleanLower(s: string)
    ensures Clean(Lower(s)) == Clean(s)
  {
    if s != [] {
      CleanLower(s[1..]);
      assert Lower(s)[1..] == Lower(s[1..]);
    }
  }

  lemma {:induction false} RemoveFirstAfter(a: string, b: string, c: char)
    requires c !in a
    ensures RemoveFirst(a + b, c) == a + RemoveFirst(b, c)
  {
    if a != [] {
      var ab := a + b;
      assert ab[0] == a[0] != c;
      assert ab[1..] == a[1..] + b;
      RemoveFirstAfter(a[1..], b, c);
      assert RemoveFirst(ab, c) == [a[0]] + (a[1..] + RemoveFirst(b, c));
      assert [a[0]] + (a[1..] + RemoveFirst(b, c)) == a + RemoveFirst(b, c);
    } else {
      assert a + b == b;
    }
  }

  lemma {:induction false} LeadingDigitsStop(a: string, b: string)
    requires AllDigits(a)
    requires b == [] || !IsDigit(b[0])
    ensures LeadingDigits(a + b) == a
  {
    if a != [] {
      LeadingDigitsStop(a[1..], b);
      assert (a + b)[1..] == a[1..] + b;
    } else {
      assert a + b == b;
    }
  }

  lemma ParseDecimal(ip: string, fp: string)
    requires ip != [] && AllDigits(ip) && AllDigits(fp)
    ensures ParseFloatPrefix(ip + "." + fp) == Some(Decimal(ip, fp))
  {
    LeadingDigitsStop(ip, "." + fp);
    assert ip + "." + fp == ip + ("." + fp);
    assert (ip + "." + fp)[|ip|..] == "." + fp;
    assert ("." + fp)[1..] == fp;
    LeadingDigitsStop(fp, []);
    assert fp + [] == fp;
  }

  lemma DecimalWhole(ip: string)
    requires AllDigits(ip)
    ensures Decimal(ip, []) == DigitsValue(ip) as real
  {
    assert DigitsValue([]) == 0 && Pow10(0) == 1;
  }

  lemma ParseWhole(ip: string)
    requires ip != [] && AllDigits(ip)
    ensures ParseFloatPrefix(ip) == Some(DigitsValue(ip) as real)
  {
    LeadingDigitsStop(ip, []);
    assert ip + [] == ip;
    assert LeadingDigits(ip) == ip;
    assert ip[|ip|..] == [];
    DecimalWhole(ip);
  }

  /** One digit followed by a character that is neither a digit nor a dot. */
  lemma ParseDigitThen(d: char, rest: string)
    requires IsDigit(d) && rest != [] && !IsDigit(rest[0]) && rest[0] != '.'
    ensures ParseFloatPrefix([d] + rest) == Some(DigitValue(d) as real)
  {
    var s := [d] + rest;
    LeadingDigitsStop([d], rest);
    assert s[1..] == rest;
    assert DigitsValue([d]) == DigitValue(d) by {
      assert [d][..0] == [];
    }
    DecimalWhole([d]);
  }

  function SuffixMultiplier(c: char): nat {
    if c == 'K' || c == 'k' then 1000
    else if c == 'M' || c == 'm' then 1000000
    else if c == 'B' || c == 'b' then 1000000000
    else 1
  }

  predicate IsSuffix(c: char) { c == 'K' || c == 'k' || c == 'M' || c == 'm' || c == 'B' || c == 'b' }

  /** A plain decimal count is read as itself. */
  lemma {:induction false} ParsePlainCount(n: nat)
    ensures ParseFollowerCount(Some(NatToString(n))) == n
  {
    var s := NatToString(n);
    CleanKeepsDigits(s);
    assert 'K' !in s && 'M' !in s && 'B' !in s;
    assert NumberPart(s) == s && Multiplier(s) == 1;
    ParseWhole(s);
    NatToStringValue(n);
    assert NumberValue(s) == n as real;
    RoundWhole(n, 1);
  }

  predicate NumberChars(s: string) {
    forall i :: 0 <= i < |s| ==> IsDigit(s[i]) || s[i] == '.'
  }

  lemma NumberCharsOf(ip: string, fp: string)
    requires AllDigits(ip) && AllDigits(fp)
    ensures NumberChars(ip + "." + fp)
  {
    var num := ip + "." + fp;
    forall i | 0 <= i < |num| ensures IsDigit(num[i]) || num[i] == '.' {
      if i < |ip| {
        assert num[i] == ip[i];
      } else if i > |ip| {
        assert num[i] == fp[i - |ip| - 1];
      }
    }
  }

  lemma UpperSuffix(c: char)
    requires IsSuffix(c)
    ensures Kept(c)
    ensures var u := UpperChar(c); (u == 'K' || u == 'M' || u == 'B') && SuffixMultiplier(u) == SuffixMultiplier(c)
  {
  }

  /** A number followed by one suffix letter: the letter is dropped and sets the scale. */
  lemma {:induction false} SuffixStage(num: string, c: char)
    requires NumberChars(num) && IsSuffix(c)
    ensures Clean(num + [c]) == num + [UpperChar(c)]
    ensures NumberPart(num + [UpperChar(c)]) == num
    ensures Multiplier(num + [UpperChar(c)]) == SuffixMultiplier(c)
  {
    UpperSuffix(c);
    var u := UpperChar(c);
    CleanSuffixed(num, c);
    SplitSuffix(num, u);
  }

  lemma CleanSuffixed(num: string, c: char)
    requires NumberChars(num) && IsSuffix(c)
    ensures Clean(num + [c]) == num + [UpperChar(c)]
  {
    UpperSuffix(c);
    CleanKeepsNumber(num);
    CleanAppend(num, [c]);
    assert Clean([c]) == [UpperChar(c)];
  }

  lemma SplitSuffix(num: string, u: char)
    requires NumberChars(num) && (u == 'K' || u == 'M' || u == 'B')
    ensures NumberPart(num + [u]) == num
    ensures Multiplier(num + [u]) == SuffixMultiplier(u)
  {
    assert 'K' !in num && 'M' !in num && 'B' !in num;
    RemoveFirstAfter(num, [u], u);
    assert RemoveFirst([u], u) == [];
    assert num + [] == num;
  }

  /** A count with a K, M or B suffix (either case) is scaled by a thousand, a million
      or a billion. */
  lemma {:induction false} ParseSuffixedCount(n: nat, c: char)
    requires IsSuffix(c)
    ensures ParseFollowerCount(Some(NatToString(n) + [c])) == n * SuffixMultiplier(c)
  {
    var s := NatToString(n);
    SuffixStage(s, c);
    ParseWhole(s);
    NatToStringValue(n);
    assert NumberValue(s) == n as real;
    RoundWhole(n, SuffixMultiplier(c));
  }

  /** A count with a fraction and a suffix: `ip.fp` scaled by the suffix, then rounded
      half up. */
  lemma {:induction false} ParseFractionalCount(ip: string, fp: string, c: char)
    requires ip != [] && AllDigits(ip) && AllDigits(fp) && IsSuffix(c)
    ensures ParseFollowerCount(Some(ip + "." + fp + [c])) == Scaled(Decimal(ip, fp), SuffixMultiplier(c))
  {
    var num := ip + "." + fp;
    NumberCharsOf(ip, fp);
    SuffixStage(num, c);
    ParseDecimal(ip, fp);
    var d := Decimal(ip, fp);
    assert NumberValue(num) == d;
    var t := num + [c];
    assert t != "";
    var cleaned := num + [UpperChar(c)];
    assert Clean(t) == cleaned;
    assert CountOf(cleaned) == Scaled(d, SuffixMultiplier(c));
  }

  lemma {:induction false} CleanKeepsNumber(s: string)
    requires NumberChars(s)
    ensures Clean(s) == s
  {
    if s != [] {
      CleanKeepsNumber(s[1..]);
    }
  }

  /** Characters other than digits, dots and the suffix letters make no difference. */
  lemma ParseIgnoresNoise(s: string)
    ensures ParseFollowerCount(Some(s)) == ParseFollowerCount(Some(Clean(s)))
  {
    CleanIdempotent(s);
    if s != "" && Clean(s) == "" {
      assert Multiplier("") == 1 && NumberPart("") == "";
      assert ParseFloatPrefix("") == None;
      RoundWhole(0, 1);
    }
  }

  /** Letter case makes no difference. */
  lemma ParseIgnoresCase(s: string)
    ensures ParseFollowerCount(Some(Lower(s))) == ParseFollowerCount(Some(s))
  {
    CleanLower(s);
    assert Lower(s) == "" <==> s == "";
  }

  /** K wins over M whatever their order; only the first K is removed before the
      number is read, which then stops at the M. */
  lemma KBeatsM()
    ensures ParseFollowerCount(Some("1M5K")) == 1000
  {
    KBeatsMText();
    ParseDigitThen('1', "M5");
    assert ['1'] + "M5" == "1M5";
    assert NumberValue("1M5") == 1.0;
    RoundWhole(1, 1000);
  }

  lemma KBeatsMText()
    ensures Clean("1M5K") == "1M5K" && Multiplier("1M5K") == 1000 && NumberPart("1M5K") == "1M5"
  {
    assert 'K' in "1M5K";
    assert RemoveFirst("1M5K", 'K') == "1M5";
  }

  /** M wins over B in the same way. */
  lemma MBeatsB()
    ensures ParseFollowerCount(Some("2B3M")) == 2000000
  {
    MBeatsBText();
    ParseDigitThen('2', "B3");
    assert ['2'] + "B3" == "2B3";
    assert NumberValue("2B3") == 2.0;
    RoundWhole(2, 1000000);
  }

  lemma MBeatsBText()
    ensures Clean("2B3M") == "2B3M" && Multiplier("2B3M") == 1000000 && NumberPart("2B3M") == "2B3"
  {
    assert 'K' !in "2B3M" && 'M' in "2B3M";
    assert RemoveFirst("2B3M", 'M') == "2B3";
  }

  /** Text with no digits at all counts as zero, as does an absent value. */
  lemma NoDigitsIsZero()
    ensures ParseFollowerCount(Some("N/A")) == 0
    ensures ParseFollowerCount(None) == 0
  {
    assert Clean("N/A") == "";
    assert ParseFloatPrefix("") == None;
    RoundWhole(0, 1);
  }

  /** "1.2M" is one million two hundred thousand. */
  lemma MillionsExample()
    ensures ParseFollowerCount(Some("1.2M")) == 1200000
  {
    ParseFractionalCount("1", "2", 'M');
    assert "1" + "." + "2" + ['M'] == "1.2M";
    OnePointTwo();
    assert JsMath.Round(1200000.0) == 1200000;
  }

  lemma OnePointTwo()
    ensures AllDigits("1") && AllDigits("2") && Decimal("1", "2") == 1.2
  {
    assert DigitsValue("1") == 1 && DigitsValue("2") == 2 && Pow10(1) == 10;
  }

  /** "15.5k" is fifteen thousand five hundred. */
  lemma ThousandsExample()
    ensures ParseFollowerCount(Some("15.5k")) == 15500
  {
    ParseFractionalCount("15", "5", 'k');
    assert "15" + "." + "5" + ['k'] == "15.5k";
    FifteenPointFive();
    assert JsMath.Round(15500.0) == 15500;
  }

  lemma FifteenPointFive()
    ensures AllDigits("15") && AllDigits("5") && Decimal("15", "5") == 15.5
  {
    assert "15"[..1] == "1";
    assert DigitsValue("15") == 15 && DigitsValue("5") == 5 && Pow10(1) == 10;
  }
}
