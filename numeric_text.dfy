/**
 * The numeric reading of a specification string such as "184 CV" or
 * "6.2 L/100km": every character that is neither an ASCII digit nor a dot is
 * deleted (`value.replace(/[^\d.]/g, '')`), and what remains is read by
 * JavaScript's `parseFloat`. No numeric token yields `None` (JavaScript's NaN).
 * Values are exact decimals (`real`), not IEEE doubles.
 */
module NumericText {
  import opened Wrappers

  predicate IsDigit(c: char) { '0' <= c <= '9' }

  /** The characters the replacement keeps. */
  predicate IsKept(c: char) { IsDigit(c) || c == '.' }

  predicate AllKept(s: string) { forall i :: 0 <= i < |s| ==> IsKept(s[i]) }

  predicate AllDigits(s: string) { forall i :: 0 <= i < |s| ==> IsDigit(s[i]) }

  predicate NoDigits(s: string) { forall i :: 0 <= i < |s| ==> !IsDigit(s[i]) }

  predicate NoneKept(s: string) { forall i :: 0 <= i < |s| ==> !IsKept(s[i]) }

  // ---------------------------------------------------------------------------
  // Stripping
  // ---------------------------------------------------------------------------

  /** Deletes every character that is neither a digit nor a dot, keeping the order of the rest. */
  function Strip(s: string): (r: string)
    ensures |r| <= |s|
    ensures AllKept(r)
  {
    if s == [] then []
    else if IsKept(s[0]) then [s[0]] + Strip(s[1..])
    else Strip(s[1..])
  }

  /** Stripping works character by character, so it distributes over concatenation. */
  lemma {:induction false} StripAppend(a: string, b: string)
    ensures Strip(a + b) == Strip(a) + Strip(b)
  {
    if a == [] {
      assert a + b == b;
    } else {
      assert (a + b)[0] == a[0];
      assert (a + b)[1..] == a[1..] + b;
      StripAppend(a[1..], b);
    }
  }

  /** A string of digits and dots is left as it is. */
  lemma {:induction false} StripKeepsKept(s: string)
    requires AllKept(s)
    ensures Strip(s) == s
  {
    if s != [] {
      StripKeepsKept(s[1..]);
    }
  }

  /** A string with neither digits nor dots is deleted entirely. */
  lemma {:induction false} StripDeletesOthers(s: string)
    requires NoneKept(s)
    ensures Strip(s) == []
  {
    if s != [] {
      StripDeletesOthers(s[1..]);
    }
  }

  /**
   * Stripping glues the digits of a number to the digits of its unit: a kept
   * part, a deleted part, a kept part, a deleted part leave just the two kept parts.
   */
  lemma {:induction false} StripGlued(a: string, b: string, c: string, d: string)
    requires AllKept(a) && NoneKept(b) && AllKept(c) && NoneKept(d)
    ensures Strip(a + b + c + d) == a + c
  {
    StripAppend(a + b + c, d);
    StripAppend(a + b, c);
    StripAppend(a, b);
    StripKeepsKept(a);
    StripKeepsKept(c);
    StripDeletesOthers(b);
    StripDeletesOthers(d);
  }

  /** Stripping introduces no digit that was not there. */
  lemma {:induction false} StripNoDigits(s: string)
    requires NoDigits(s)
    ensures NoDigits(Strip(s))
  {
    if s != [] {
      StripNoDigits(s[1..]);
    }
  }

  /** Stripping twice is stripping once. */
  lemma StripIdempotent(s: string)
    ensures Strip(Strip(s)) == Strip(s)
  {
    StripKeepsKept(Strip(s));
  }

  // ---------------------------------------------------------------------------
  // Decimal digits
  // ---------------------------------------------------------------------------

  function DigitValue(c: char): (d: nat)
    requires IsDigit(c)
    ensures d < 10
  {
    c as int - '0' as int
  }

  /** The value of a string of decimal digits, most significant first ("" is 0). */
  function DigitsValue(ds: string): nat
    requires AllDigits(ds)
  {
    if ds == [] then 0 else DigitsValue(ds[..|ds| - 1]) * 10 + DigitValue(ds[|ds| - 1])
  }

  function Pow10(n: nat): (p: nat)
    ensures p >= 1
  {
    if n == 0 then 1 else 10 * Pow10(n - 1)
  }

  /** The length of the longest prefix of `s` made of digits. */
  function DigitRun(s: string): (n: nat)
    ensures n <= |s|
    ensures AllDigits(s[..n])
    ensures n < |s| ==> !IsDigit(s[n])
  {
    if s != [] && IsDigit(s[0]) then
      assert s[..1 + DigitRun(s[1..])] == [s[0]] + s[1..][..DigitRun(s[1..])];
      1 + DigitRun(s[1..])
    else 0
  }

  /** A string of digits is its own longest digit prefix. */
  lemma DigitRunOfDigits(s: string)
    requires AllDigits(s)
    ensures DigitRun(s) == |s|
  {
  }

  // ---------------------------------------------------------------------------
  // parseFloat on a stripped string
  // ---------------------------------------------------------------------------

  /** The fractional digits that follow the integer digits `t[..i]`, if a dot follows them. */
  function FractionDigits(t: string, i: nat): (f: string)
    requires i <= |t|
    ensures AllDigits(f)
    ensures f != [] ==> i < |t| && t[i] == '.' && i + 1 + |f| <= |t| && f == t[i + 1..i + 1 + |f|]
    ensures i < |t| && t[i] == '.' ==> i + 1 + |f| <= |t| && f == t[i + 1..i + 1 + |f|]
    ensures i < |t| && t[i] == '.' ==> i + 1 + |f| == |t| || !IsDigit(t[i + 1 + |f|])
  {
    if i < |t| && t[i] == '.' then t[i + 1..][..DigitRun(t[i + 1..])] else []
  }

  /**
   * True when a string of digits and dots begins with a decimal literal that
   * `parseFloat` accepts: a digit, or a dot followed by a digit.
   */
  predicate StartsNumber(t: string)
  {
    (|t| > 0 && IsDigit(t[0])) || (|t| > 1 && t[0] == '.' && IsDigit(t[1]))
  }

  /**
   * `parseFloat` on a string of digits and dots: the longest prefix of the form
   * digits [ "." digits ] that holds at least one digit, read as an exact
   * decimal; everything from the second dot on is ignored.
   */
  function ParseStripped(t: string): (r: Option<real>)
    requires AllKept(t)
    ensures r.Some? <==> StartsNumber(t)
    ensures r.Some? ==> r.value >= 0.0
  {
    var i := DigitRun(t);
    var f := FractionDigits(t, i);
    if i == 0 && f == [] then None
    else Some(DigitsValue(t[..i]) as real + DigitsValue(f) as real / Pow10(|f|) as real)
  }

  /**
   * `parseNumericValue`: strip, then `parseFloat`. A number comes out exactly
   * when the stripped text starts with one, and it is never negative, since
   * the sign is stripped away.
   */
  function ParseNumericValue(s: string): (r: Option<real>)
    ensures r.Some? <==> StartsNumber(Strip(s))
    ensures r.Some? ==> r.value >= 0.0
  {
    ParseStripped(Strip(s))
  }

  // ---------------------------------------------------------------------------
  // Properties of the parse
  // ---------------------------------------------------------------------------

  /** A string without digits has no numeric reading (NaN). */
  lemma ParseNoDigits(s: string)
    requires NoDigits(s)
    ensures ParseNumericValue(s) == None
  {
    StripNoDigits(s);
  }

  /** Inserting a character that is neither digit nor dot never changes the reading. */
  lemma ParseIgnoresOther(a: string, c: char, b: string)
    requires !IsKept(c)
    ensures ParseNumericValue(a + [c] + b) == ParseNumericValue(a + b)
  {
    assert Strip(a + [c] + b) == Strip(a + b) by {
      StripAppend(a + [c], b);
      StripAppend(a, [c]);
      StripAppend(a, b);
      assert Strip([c]) == [];
    }
  }

  /** Two strings with the same digits and dots, in the same order, read the same. */
  lemma ParseDependsOnKept(s1: string, s2: string)
    requires Strip(s1) == Strip(s2)
    ensures ParseNumericValue(s1) == ParseNumericValue(s2)
  {
  }

  /**
   * A decimal "ip.fp" followed by a unit with neither digits nor dots reads as
   * the exact decimal ip + fp / 10^|fp|.
   */
  lemma {:induction false} ParseDecimal(ip: string, fp: string, unit: string)
    requires ip != [] && AllDigits(ip) && AllDigits(fp) && NoneKept(unit)
    ensures ParseNumericValue(ip + "." + fp + unit)
         == Some(DigitsValue(ip) as real + DigitsValue(fp) as real / Pow10(|fp|) as real)
  {
    var t := ip + "." + fp;
    assert Strip(t + unit) == t by {
      StripAppend(t, unit);
      StripDeletesOthers(unit);
      StripKeepsKept(t);
    }
    ParseStrippedDecimal(ip, fp);
  }

  /** The stripped form of a decimal "ip.fp" splits at its only dot. */
  lemma {:induction false} ParseStrippedDecimal(ip: string, fp: string)
    requires ip != [] && AllDigits(ip) && AllDigits(fp)
    ensures AllKept(ip + "." + fp)
    ensures ParseStripped(ip + "." + fp)
         == Some(DigitsValue(ip) as real + DigitsValue(fp) as real / Pow10(|fp|) as real)
  {
    var t := ip + "." + fp;
    DecimalSplit(ip, fp);
    assert t[..|ip|] == ip;
  }

  /** In "ip.fp" the integer digits end at the dot, and the fraction is all of fp. */
  lemma {:induction false} DecimalSplit(ip: string, fp: string)
    requires AllDigits(ip) && AllDigits(fp)
    ensures DigitRun(ip + "." + fp) == |ip|
    ensures FractionDigits(ip + "." + fp, |ip|) == fp
  {
    var t := ip + "." + fp;
    assert forall k :: 0 <= k < |ip| ==> t[k] == ip[k];
    assert t[|ip|] == '.';
    assert t[|ip| + 1..] == fp;
    DigitRunOfDigits(fp);
    assert fp[..|fp|] == fp;
  }

  /** A run of digits followed by a dot ends at that dot. */
  lemma {:induction false} DigitRunDot(ds: string, x: string)
    requires AllDigits(ds)
    ensures DigitRun(ds + "." + x) == |ds|
  {
    if ds != [] {
      assert (ds + "." + x)[1..] == ds[1..] + "." + x;
      DigitRunDot(ds[1..], x);
    }
  }

  /**
   * `parseFloat` stops at the second dot: "ip.fp" followed by a dot and any
   * further digits and dots reads as ip + fp / 10^|fp|, so "1.2.3" is 1.2.
   * Either digit part may be empty, but not both: "5.x" is 5 and ".5x" is 0.5.
   */
  lemma {:induction false} ParseStopsAtSecondDot(ip: string, fp: string, rest: string)
    requires AllDigits(ip) && AllDigits(fp) && AllKept(rest) && (ip != [] || fp != [])
    ensures AllKept(ip + "." + fp + "." + rest)
    ensures ParseStripped(ip + "." + fp + "." + rest)
         == Some(DigitsValue(ip) as real + DigitsValue(fp) as real / Pow10(|fp|) as real)
  {
    var t := ip + "." + fp + "." + rest;
    SecondDotSplit(ip, fp, rest);
    assert t[..|ip|] == ip;
  }

  /** In "ip.fp.rest" the integer digits end at the first dot, and the fraction at the second. */
  lemma {:induction false} SecondDotSplit(ip: string, fp: string, rest: string)
    requires AllDigits(ip) && AllDigits(fp)
    ensures DigitRun(ip + "." + fp + "." + rest) == |ip|
    ensures FractionDigits(ip + "." + fp + "." + rest, |ip|) == fp
  {
    var t := ip + "." + fp + "." + rest;
    assert t == ip + "." + (fp + "." + rest);
    DigitRunDot(ip, fp + "." + rest);
    assert t[|ip|] == '.';
    assert t[|ip| + 1..] == fp + "." + rest;
    DigitRunDot(fp, rest);
    assert (fp + "." + rest)[..|fp|] == fp;
  }

  /** A leading dot starts a fraction: ".fp" reads as fp / 10^|fp|. */
  lemma {:induction false} ParseLeadingDot(fp: string)
    requires fp != [] && AllDigits(fp)
    ensures AllKept("." + fp)
    ensures ParseStripped("." + fp) == Some(DigitsValue(fp) as real / Pow10(|fp|) as real)
  {
    var t := "." + fp;
    assert t[1..] == fp;
    DigitRunOfDigits(fp);
    assert fp[..|fp|] == fp;
    assert t[..0] == [];
  }

  /** A leading dot: ".5" reads as 0.5. */
  lemma LeadingDotExample()
    ensures ParseStripped(".5") == Some(0.5)
  {
    ParseLeadingDot("5");
    assert "." + "5" == ".5";
  }

  /** The integer digits of a natural number, most significant first. */
  function NatText(n: nat): (s: string)
    ensures s != [] && AllDigits(s)
  {
    if n < 10 then [('0' as int + n) as char]
    else NatText(n / 10) + [('0' as int + n % 10) as char]
  }

  lemma {:induction false} NatTextValue(n: nat)
    ensures DigitsValue(NatText(n)) == n
  {
    if n >= 10 {
      var s := NatText(n);
      assert s[..|s| - 1] == NatText(n / 10);
      NatTextValue(n / 10);
    }
  }

  /** The stripped decimal "i.f" of two natural numbers reads as i + f / 10^(digits of f). */
  lemma ParseStrippedNat(i: nat, f: nat)
    ensures AllKept(NatText(i) + "." + NatText(f))
    ensures ParseStripped(NatText(i) + "." + NatText(f))
         == Some(i as real + f as real / Pow10(|NatText(f)|) as real)
  {
    ParseStrippedDecimal(NatText(i), NatText(f));
    NatTextValue(i);
    NatTextValue(f);
  }

  /** Round trip: a natural number followed by a unit without digits or dots reads back as itself. */
  lemma ParseNat(n: nat, unit: string)
    requires NoneKept(unit)
    ensures ParseNumericValue(NatText(n) + unit) == Some(n as real)
  {
    var t := NatText(n);
    StripAppend(t, unit);
    StripDeletesOthers(unit);
    StripKeepsKept(t);
    assert Strip(t + unit) == t;
    DigitRunOfDigits(t);
    assert t[..|t|] == t;
    NatTextValue(n);
  }

  /**
   * Digits present but no number: two leading dots leave no literal for
   * `parseFloat`, so "no digits" is sufficient for NaN but not necessary.
   */
  lemma DoubleDotIsNaN()
    ensures ParseNumericValue("..5 CV") == None
  {
    assert Strip("..5 CV") == "..5";
  }
}
