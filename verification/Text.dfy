/**
 The string operations the range parser relies on: trimming, splitting at the first
 occurrence of a separator, and canonical decimal numbers bounded by 64 bits.
 */
module Text {
  import opened Wrappers

  const U64_MAX: nat := 0xFFFF_FFFF_FFFF_FFFF

  type u64 = n: nat | n <= U64_MAX

  // ---------------------------------------------------------------- whitespace

  /** The code points with the Unicode White_Space property. */
  predicate IsWhitespace(c: char) {
    var u := c as int;
    || 0x9 <= u <= 0xD || u == 0x20 || u == 0x85 || u == 0xA0 || u == 0x1680
    || 0x2000 <= u <= 0x200A || u == 0x2028 || u == 0x2029 || u == 0x202F
    || u == 0x205F || u == 0x3000
  }

  predicate AllWhitespace(s: string) {
    forall i | 0 <= i < |s| :: IsWhitespace(s[i])
  }

  function TrimStart(s: string): string {
    if s != [] && IsWhitespace(s[0]) then TrimStart(s[1..]) else s
  }

  function TrimEnd(s: string): string {
    if s != [] && IsWhitespace(s[|s| - 1]) then TrimEnd(s[..|s| - 1]) else s
  }

  function Trim(s: string): string {
    TrimEnd(TrimStart(s))
  }

  /** `s` is `core` with nothing but whitespace around it. */
  ghost predicate Padded(s: string, core: string) {
    exists before: string, after: string ::
      s == before + core + after && AllWhitespace(before) && AllWhitespace(after)
  }

  /** A text that trimming cannot shorten. */
  predicate Tight(core: string) {
    core == [] || (!IsWhitespace(core[0]) && !IsWhitespace(core[|core| - 1]))
  }

  lemma {:induction false} TrimStartSplits(s: string) returns (before: string)
    ensures s == before + TrimStart(s) && AllWhitespace(before)
  {
    if s != [] && IsWhitespace(s[0]) {
      var rest := TrimStartSplits(s[1..]);
      before := [s[0]] + rest;
    } else {
      before := [];
    }
  }

  lemma {:induction false} TrimEndSplits(s: string) returns (after: string)
    ensures s == TrimEnd(s) + after && AllWhitespace(after)
  {
    if s != [] && IsWhitespace(s[|s| - 1]) {
      var rest := TrimEndSplits(s[..|s| - 1]);
      after := rest + [s[|s| - 1]];
    } else {
      after := [];
    }
  }

  lemma {:induction false} TrimStartDrops(before: string, rest: string)
    requires AllWhitespace(before)
    requires rest != [] && !IsWhitespace(rest[0])
    ensures TrimStart(before + rest) == rest
  {
    if before == [] {
      assert before + rest == rest;
    } else {
      assert (before + rest)[1..] == before[1..] + rest;
      TrimStartDrops(before[1..], rest);
    }
  }

  lemma {:induction false} TrimEndDrops(rest: string, after: string)
    requires AllWhitespace(after)
    requires rest != [] && !IsWhitespace(rest[|rest| - 1])
    ensures TrimEnd(rest + after) == rest
  {
    if after == [] {
      assert rest + after == rest;
    } else {
      assert (rest + after)[..|rest + after| - 1] == rest + after[..|after| - 1];
      TrimEndDrops(rest, after[..|after| - 1]);
    }
  }

  lemma {:induction false} BlankTrims(s: string)
    requires AllWhitespace(s)
    ensures TrimStart(s) == []
  {
    if s != [] {
      BlankTrims(s[1..]);
    }
  }

  /** Trimming recovers exactly the core of a padded text, be it empty or not. */
  lemma TrimIsExact(s: string, core: string)
    requires Tight(core)
    ensures Trim(s) == core <==> Padded(s, core)
  {
    if Trim(s) == core {
      var before := TrimStartSplits(s);
      var after := TrimEndSplits(TrimStart(s));
      assert s == before + core + after;
    }
    if Padded(s, core) {
      var before: string, after: string :|
        s == before + core + after && AllWhitespace(before) && AllWhitespace(after);
      if core == [] {
        assert AllWhitespace(before + core + after);
        BlankTrims(s);
      } else {
        assert s == before + (core + after);
        TrimStartDrops(before, core + after);
        TrimEndDrops(core, after);
      }
    }
  }

  // ------------------------------------------------------------------ splitting

  /** Splits at the first occurrence of `c`. */
  function SplitOnce(s: string, c: char): (r: Option<(string, string)>)
    ensures r.Some? ==> s == r.value.0 + [c] + r.value.1 && c !in r.value.0
    ensures r.None? <==> c !in s
  {
    if s == [] then None
    else if s[0] == c then Some(([], s[1..]))
    else match SplitOnce(s[1..], c)
      case None => None
      case Some((a, b)) => Some(([s[0]] + a, b))
  }

  lemma {:induction false} SplitOnceFinds(a: string, c: char, b: string)
    requires c !in a
    ensures SplitOnce(a + [c] + b, c) == Some((a, b))
  {
    var s := a + [c] + b;
    if a == [] {
      assert s[1..] == b;
    } else {
      assert s[1..] == a[1..] + [c] + b;
      SplitOnceFinds(a[1..], c, b);
      assert a == [a[0]] + a[1..];
    }
  }

  // -------------------------------------------------------------------- numbers

  predicate IsDigit(c: char) {
    '0' <= c <= '9'
  }

  predicate AllDigits(s: string) {
    forall i | 0 <= i < |s| :: IsDigit(s[i])
  }

  /** The value of a run of decimal digits, read left to right. */
  function DigitsValue(s: string): nat
    requires AllDigits(s)
  {
    if s == [] then 0
    else DigitsValue(s[..|s| - 1]) * 10 + (s[|s| - 1] as int - '0' as int)
  }

  /** Strict decimal parser: digits only, no leading zero, within 64 bits. */
  function ParseU64(s: string): Option<nat> {
    if s == [] || (|s| > 1 && s[0] == '0') || !AllDigits(s) then None
    else if DigitsValue(s) > U64_MAX then None
    else Some(DigitsValue(s))
  }

  function DigitChar(d: nat): char
    requires d < 10
  {
    ('0' as int + d) as char
  }

  /** The canonical decimal text of a number. */
  function Decimal(n: nat): string {
    if n < 10 then [DigitChar(n)] else Decimal(n / 10) + [DigitChar(n % 10)]
  }

  lemma {:induction false} DecimalShape(n: nat)
    ensures Decimal(n) != [] && AllDigits(Decimal(n))
    ensures Decimal(n)[0] == '0' <==> n == 0
    ensures n == 0 ==> |Decimal(n)| == 1
    ensures DigitsValue(Decimal(n)) == n
  {
    if n < 10 {
      assert Decimal(n)[..0] == [];
    } else {
      DecimalShape(n / 10);
      var d := Decimal(n);
      assert d[..|d| - 1] == Decimal(n / 10);
    }
  }

  lemma {:induction false} DecimalOfDigits(s: string)
    requires s != [] && AllDigits(s) && (|s| > 1 ==> s[0] != '0')
    ensures Decimal(DigitsValue(s)) == s
    ensures s[0] != '0' ==> DigitsValue(s) > 0
  {
    var init, last := s[..|s| - 1], s[|s| - 1] as int - '0' as int;
    assert s == init + [DigitChar(last)];
    if init != [] {
      DecimalOfDigits(init);
      var v := DigitsValue(init);
      assert (v * 10 + last) / 10 == v && (v * 10 + last) % 10 == last;
    }
  }

  /** The number parser accepts exactly the canonical decimal texts of 64-bit numbers. */
  lemma ParseU64IsExact(s: string, n: nat)
    ensures ParseU64(s) == Some(n) <==> n <= U64_MAX && s == Decimal(n)
  {
    if ParseU64(s) == Some(n) {
      DecimalOfDigits(s);
    }
    DecimalShape(n);
  }
}
