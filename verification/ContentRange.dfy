/**
 Strict parsing of the `Content-Range` field of a partial PUT (section 14.4 of RFC 9110,
 used as described in section 14.5 of RFC 9110).
 */
module ContentRanges {
  import opened Wrappers
  import opened Text

  datatype RawRange = RawRange(start: nat, endExclusive: nat, total: nat) {
    predicate Valid() {
      && endExclusive <= total <= U64_MAX
      && (start < endExclusive || (start == endExclusive == total == 0))
    }
  }

  /** The ranges a request can carry: nonempty, or the whole of an empty file. */
  type ContentRange = r: RawRange | r.Valid() witness RawRange(0, 0, 0)

  lemma EmptyTotalHasNoOtherRange(range: ContentRange)
    requires range.total == 0
    ensures range.start == range.total && range.endExclusive == range.total
  {
  }

  /** Any range whose length exists: its fields are public, so the buffer can be handed any of these. */
  type FieldRange = r: RawRange | r.start <= r.endExclusive <= U64_MAX && r.total <= U64_MAX
    witness RawRange(0, 0, 0)

  datatype RangeError =
    | InvalidUnit
    | InvalidSyntax
    | InvalidNumber
    | UnsupportedWildcard
    | Reversed
    | OffsetOverflow
    | TotalMismatch(expected: nat, actual: nat)
    | OutsideDeclaredSize(endExclusive: nat, total: nat)

  const UNIT: string := "bytes "

  /** The implicit range of a PUT without a `Content-Range` field. */
  function Whole(total: nat): (r: ContentRange)
    requires total <= U64_MAX
  {
    RawRange(0, total, total)
  }

  function Len(r: FieldRange): nat {
    r.endExclusive - r.start
  }

  /** The arithmetic part of parsing, once the three numbers are known. */
  function CheckBounds(start: nat, endInclusive: nat, total: nat): Result<ContentRange, RangeError>
    requires total <= U64_MAX
  {
    if endInclusive < start then Failure(Reversed)
    else if endInclusive + 1 > U64_MAX then Failure(OffsetOverflow)
    else if endInclusive + 1 > total then Failure(OutsideDeclaredSize(endInclusive + 1, total))
    else Success(RawRange(start, endInclusive + 1, total))
  }

  function NumberOr(s: string): (r: Result<nat, RangeError>)
    ensures r.Success? ==> r.value <= U64_MAX
  {
    match ParseU64(s)
    case Some(n) => Success(n)
    case None => Failure(InvalidNumber)
  }

  function SplitOr(s: string, c: char): (r: Result<(string, string), RangeError>) {
    match SplitOnce(s, c)
    case Some(p) => Success(p)
    case None => Failure(InvalidSyntax)
  }

  function ParseBounds(bounds: string, total: nat): Result<ContentRange, RangeError>
    requires total <= U64_MAX
  {
    var pair :- SplitOr(bounds, '-');
    if '-' in pair.1 then Failure(InvalidSyntax) else
    var start :- NumberOr(pair.0);
    var endInclusive :- NumberOr(pair.1);
    CheckBounds(start, endInclusive, total)
  }

  function Parse(value: string, expectedTotal: nat): Result<ContentRange, RangeError> {
    var v := Trim(value);
    if !(UNIT <= v) then Failure(InvalidUnit) else
    var pair :- SplitOr(v[|UNIT|..], '/');
    if '/' in pair.1 || ',' in pair.0 || pair.1 == "*" || pair.0 == "*" then Failure(UnsupportedWildcard) else
    var total :- NumberOr(pair.1);
    if total != expectedTotal then Failure(TotalMismatch(expectedTotal, total)) else
    ParseBounds(pair.0, total)
  }

  // ------------------------------------------------------------ canonical texts

  /** `bytes FIRST-LAST/TOTAL` in canonical decimals. */
  function Canonical(first: nat, last: nat, total: nat): string {
    UNIT + (Decimal(first) + "-" + Decimal(last) + "/" + Decimal(total))
  }

  function Print(r: ContentRange): string
    requires r.start < r.endExclusive
  {
    Canonical(r.start, r.endExclusive - 1, r.total)
  }

  lemma CanonicalIsTight(first: nat, last: nat, total: nat)
    ensures Tight(Canonical(first, last, total))
  {
    DecimalShape(total);
    var s := Canonical(first, last, total);
    assert s[|s| - 1] == Decimal(total)[|Decimal(total)| - 1];
  }

  lemma DecimalAvoids(n: nat, c: char)
    requires !IsDigit(c)
    ensures c !in Decimal(n)
  {
    DecimalShape(n);
  }

  /** On canonical texts, surrounded by any whitespace, parsing is decided by arithmetic alone. */
  lemma ParseOfCanonical(v: string, first: nat, last: nat, total: nat, expected: nat)
    requires first <= U64_MAX && last <= U64_MAX && total <= U64_MAX
    requires Padded(v, Canonical(first, last, total))
    ensures Parse(v, expected) ==
            if total != expected then Failure(TotalMismatch(expected, total))
            else if last < first then Failure(Reversed)
            else if last == U64_MAX then Failure(OffsetOverflow)
            else if last >= total then Failure(OutsideDeclaredSize(last + 1, total))
            else Success(RawRange(first, last + 1, total))
  {
    var text := Canonical(first, last, total);
    CanonicalIsTight(first, last, total);
    TrimIsExact(v, text);
    var f, l, t := Decimal(first), Decimal(last), Decimal(total);
    var bounds := f + "-" + l;
    assert text[|UNIT|..] == bounds + "/" + t;
    DecimalAvoids(first, '/'); DecimalAvoids(last, '/'); DecimalAvoids(total, '/');
    DecimalAvoids(first, '-'); DecimalAvoids(last, '-'); DecimalAvoids(total, '*');
    DecimalAvoids(first, ','); DecimalAvoids(last, ',');
    SplitOnceFinds(bounds, '/', t);
    SplitOnceFinds(f, '-', l);
    ParseU64IsExact(f, first); ParseU64IsExact(l, last); ParseU64IsExact(t, total);
    assert bounds != "*" by { assert '-' in bounds; }
    assert ',' !in bounds;
    assert ParseBounds(bounds, total) == CheckBounds(first, last, total);
  }

  /** Accepted bounds are two canonical numbers around a single hyphen. */
  lemma ParsedBounds(bounds: string, total: nat)
    requires total <= U64_MAX && ParseBounds(bounds, total).Success?
    ensures var r := ParseBounds(bounds, total).value;
            r.start < r.endExclusive && r.total == total
            && bounds == Decimal(r.start) + "-" + Decimal(r.endExclusive - 1)
  {
    var pair := SplitOnce(bounds, '-').value;
    var r := ParseBounds(bounds, total).value;
    ParseU64IsExact(pair.0, r.start);
    ParseU64IsExact(pair.1, r.endExclusive - 1);
  }

  /** An accepted text is the canonical text of its range, up to surrounding whitespace. */
  lemma ParsedIsCanonical(v: string, expected: nat)
    requires Parse(v, expected).Success?
    ensures var r := Parse(v, expected).value;
            r.start < r.endExclusive && r.total == expected && Trim(v) == Print(r)
  {
    var rest := Trim(v)[|UNIT|..];
    var pair := SplitOnce(rest, '/').value;
    ParseU64IsExact(pair.1, expected);
    ParsedBounds(pair.0, expected);
    var r := Parse(v, expected).value;
    assert rest == Decimal(r.start) + "-" + Decimal(r.endExclusive - 1) + "/" + Decimal(r.total);
    assert Trim(v) == UNIT + rest;
  }

  /**
   The parser is exact: it yields `r` for precisely the texts that are `r`'s canonical text
   with optional whitespace around it, for the expected total.
   */
  lemma ParseIsExact(v: string, expected: nat, r: ContentRange)
    requires r.start < r.endExclusive
    ensures Parse(v, expected) == Success(r) <==> r.total == expected && Padded(v, Print(r))
  {
    CanonicalIsTight(r.start, r.endExclusive - 1, r.total);
    TrimIsExact(v, Print(r));
    if Parse(v, expected) == Success(r) {
      ParsedIsCanonical(v, expected);
    }
    if r.total == expected && Padded(v, Print(r)) {
      ParseOfCanonical(v, r.start, r.endExclusive - 1, r.total, expected);
    }
  }

  // ------------------------------------------------------------------ refused texts

  /** The canonical text of some 64-bit number. */
  ghost predicate IsNumber(s: string) {
    exists n: nat :: n <= U64_MAX && s == Decimal(n)
  }

  lemma NumbersAreParsed(s: string)
    ensures ParseU64(s).Some? <==> IsNumber(s)
  {
    if ParseU64(s).Some? {
      ParseU64IsExact(s, ParseU64(s).value);
    }
    if n: nat :| n <= U64_MAX && s == Decimal(n) {
      ParseU64IsExact(s, n);
    }
  }

  /** Without the unit, and without a slash after it, a text is refused for just that. */
  lemma ParseWithoutParts(v: string, expected: nat)
    ensures Parse(v, expected) == Failure(InvalidUnit) <==> !(UNIT <= Trim(v))
    ensures UNIT <= Trim(v) && '/' !in Trim(v)[|UNIT|..] ==> Parse(v, expected) == Failure(InvalidSyntax)
  {
    if UNIT <= Trim(v) && Parse(v, expected).Failure? {
      var rest := Trim(v)[|UNIT|..];
      assert SplitOr(rest, '/').Success? ==> ParseBounds(SplitOr(rest, '/').value.0, 0) != Failure(InvalidUnit);
    }
  }

  /** What parses neither as a wildcard nor as another total is left to the bounds. */
  lemma ParseOfParts(v: string, bounds: string, total: string, expected: nat)
    requires Trim(v) == UNIT + (bounds + "/" + total) && '/' !in bounds && expected <= U64_MAX
    ensures var wild := '/' in total || ',' in bounds || total == "*" || bounds == "*";
            && (wild ==> Parse(v, expected) == Failure(UnsupportedWildcard))
            && (!wild && !IsNumber(total) ==> Parse(v, expected) == Failure(InvalidNumber))
            && (!wild ==> forall n: nat | n <= U64_MAX && total == Decimal(n) && n != expected ::
                            Parse(v, expected) == Failure(TotalMismatch(expected, n)))
            && (!wild && total == Decimal(expected) ==> Parse(v, expected) == ParseBounds(bounds, expected))
  {
    assert Trim(v)[|UNIT|..] == bounds + "/" + total;
    SplitOnceFinds(bounds, '/', total);
    NumbersAreParsed(total);
    forall n: nat | n <= U64_MAX && total == Decimal(n) ensures ParseU64(total) == Some(n) {
      ParseU64IsExact(total, n);
    }
  }

  /** Bounds need one hyphen and a number on each side of it. */
  lemma BoundsOfParts(first: string, last: string, total: nat)
    requires '-' !in first && total <= U64_MAX
    ensures '-' in last ==> ParseBounds(first + "-" + last, total) == Failure(InvalidSyntax)
    ensures '-' !in last && !(IsNumber(first) && IsNumber(last)) ==>
              ParseBounds(first + "-" + last, total) == Failure(InvalidNumber)
    ensures ParseBounds(first, total) == Failure(InvalidSyntax)
  {
    SplitOnceFinds(first, '-', last);
    NumbersAreParsed(first);
    NumbersAreParsed(last);
  }

  lemma PaddedByNothing(s: string)
    ensures Padded(s, s)
  {
    var nothing: string := [];
    assert s == nothing + s + nothing && AllWhitespace(nothing);
  }

  /** Every valid range is produced by the parser or is the implicit range of an empty file. */
  lemma EveryRangeIsProduced(r: ContentRange)
    ensures r == Whole(0) || Parse(Print(r), r.total) == Success(r)
  {
    if r.start < r.endExclusive {
      PaddedByNothing(Print(r));
      ParseIsExact(Print(r), r.total, r);
    }
  }

  /** `range-unit SP range-resp` of section 14.4 of RFC 9110, for the `bytes` unit. */
  ghost predicate IsRangeResp(s: string) {
    exists first: string, last: string, length: string ::
      && s == "bytes " + (first + "-" + last + "/" + length)
      && first != [] && AllDigits(first) && last != [] && AllDigits(last)
      && (length == "*" || (length != [] && AllDigits(length)))
  }

  /** The accepted language lies inside the grammar of the standard. */
  lemma AcceptedIsRangeResp(v: string, expected: nat)
    requires Parse(v, expected).Success?
    ensures IsRangeResp(Trim(v))
  {
    ParsedIsCanonical(v, expected);
    var r := Parse(v, expected).value;
    DecimalShape(r.start); DecimalShape(r.endExclusive - 1); DecimalShape(r.total);
  }
}
