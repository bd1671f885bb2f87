/** The admission policy for file declarations. */
module Declarations {
  import opened Wrappers
  import opened Text

  datatype DeclarationPolicy = DeclarationPolicy(
    currentFiles: nat, maxFiles: nat, maxFileBytes: nat, acceptedMedia: seq<string>)

  datatype FileDeclaration = FileDeclaration(
    name: string, mediaType: string, sizeBytes: u64, sha256: Option<string>)

  datatype DeclarationRejection =
    InvalidName | FileLimitReached | FileTooLarge | UnsupportedMedia | InvalidSha256

  /** Bytes of a text in UTF-8. */
  function Utf8Length(s: string): nat {
    if s == [] then 0
    else
      var u := s[0] as int;
      (if u < 0x80 then 1 else if u < 0x800 then 2 else if u < 0x10000 then 3 else 4)
      + Utf8Length(s[1..])
  }

  /** The control characters of Unicode, the null character among them. */
  predicate IsControl(c: char) {
    var u := c as int;
    u < 0x20 || 0x7F <= u < 0xA0
  }

  predicate IsHexDigit(c: char) {
    '0' <= c <= '9' || 'a' <= c <= 'f' || 'A' <= c <= 'F'
  }

  predicate StartsWith(s: string, prefix: string) {
    prefix <= s
  }

  predicate EndsWith(s: string, suffix: string) {
    |suffix| <= |s| && s[|s| - |suffix|..] == suffix
  }

  predicate PatternAccepts(pattern: string, mediaType: string) {
    || pattern == "*/*"
    || pattern == mediaType
    || (EndsWith(pattern, "/*") && StartsWith(mediaType, pattern[..|pattern| - 2] + "/"))
  }

  predicate MediaIsAccepted(patterns: seq<string>, mediaType: string) {
    exists i | 0 <= i < |patterns| :: PatternAccepts(patterns[i], mediaType)
  }

  function ValidateDeclaration(policy: DeclarationPolicy, d: FileDeclaration): Result<(), DeclarationRejection> {
    if d.name == [] || Utf8Length(d.name) > 255 || (exists i | 0 <= i < |d.name| :: IsControl(d.name[i])) then
      Failure(InvalidName)
    else if policy.currentFiles >= policy.maxFiles then Failure(FileLimitReached)
    else if d.sizeBytes > policy.maxFileBytes then Failure(FileTooLarge)
    else if !MediaIsAccepted(policy.acceptedMedia, d.mediaType) then Failure(UnsupportedMedia)
    else if d.sha256.Some? && (Utf8Length(d.sha256.value) != 64
                               || !(forall i | 0 <= i < |d.sha256.value| :: IsHexDigit(d.sha256.value[i]))) then
      Failure(InvalidSha256)
    else Success(())
  }

  // ------------------------------------------------ what admission means, per file

  /** A name of 1..255 bytes without control characters. */
  ghost predicate IsPrintableName(name: string) {
    1 <= Utf8Length(name) <= 255 && forall c | c in name :: !IsControl(c)
  }

  // Some pattern is universal, equal, or a wildcard for every subtype of one type.
  ghost predicate HasAcceptedType(patterns: seq<string>, mediaType: string) {
    exists p | p in patterns ::
      || p == "*/*"
      || p == mediaType
      || (exists stem: string :: p == stem + "/*" && stem + "/" <= mediaType)
  }

  /** 64 hexadecimal digits. */
  ghost predicate IsSha256(digest: string) {
    |digest| == 64 && forall c | c in digest :: IsHexDigit(c)
  }

  ghost predicate Admissible(maxFileBytes: nat, acceptedMedia: seq<string>, d: FileDeclaration) {
    && IsPrintableName(d.name)
    && d.sizeBytes <= maxFileBytes
    && HasAcceptedType(acceptedMedia, d.mediaType)
    && (d.sha256.Some? ==> IsSha256(d.sha256.value))
  }

  /** How many characters have at least this code point. */
  function CountFrom(s: string, first: nat): nat {
    if s == [] then 0 else CountFrom(s[1..], first) + if s[0] as int >= first then 1 else 0
  }

  /** UTF-8 spends a second, third and fourth byte from U+0080, U+0800 and U+10000 on. */
  lemma {:induction false} Utf8LengthIsExact(s: string)
    ensures Utf8Length(s) == |s| + CountFrom(s, 0x80) + CountFrom(s, 0x800) + CountFrom(s, 0x10000)
  {
    if s != [] {
      Utf8LengthIsExact(s[1..]);
    }
  }

  lemma {:induction false} HexIsOneByteEach(s: string)
    requires forall i | 0 <= i < |s| :: IsHexDigit(s[i])
    ensures Utf8Length(s) == |s|
  {
    if s != [] {
      HexIsOneByteEach(s[1..]);
    }
  }

  lemma PatternMeaning(pattern: string, mediaType: string)
    ensures PatternAccepts(pattern, mediaType) <==>
      || pattern == "*/*"
      || pattern == mediaType
      || (exists stem: string :: pattern == stem + "/*" && stem + "/" <= mediaType)
  {
    if EndsWith(pattern, "/*") {
      assert pattern == pattern[..|pattern| - 2] + "/*";
    }
    forall stem: string | pattern == stem + "/*"
      ensures EndsWith(pattern, "/*") && pattern[..|pattern| - 2] == stem
    {
    }
  }

  /** The first part of the policy that a declaration fails, if any. */
  ghost function FirstFailure(policy: DeclarationPolicy, d: FileDeclaration): Option<DeclarationRejection> {
    if !IsPrintableName(d.name) then Some(InvalidName)
    else if policy.currentFiles >= policy.maxFiles then Some(FileLimitReached)
    else if d.sizeBytes > policy.maxFileBytes then Some(FileTooLarge)
    else if !HasAcceptedType(policy.acceptedMedia, d.mediaType) then Some(UnsupportedMedia)
    else if d.sha256.Some? && !IsSha256(d.sha256.value) then Some(InvalidSha256)
    else None
  }

  /**
   Admission succeeds for exactly the admissible files while there is room for one more, and a
   refusal names the first part of the policy that fails.
   */
  lemma ValidationIsExact(policy: DeclarationPolicy, d: FileDeclaration)
    ensures ValidateDeclaration(policy, d).Success? <==>
      && policy.currentFiles < policy.maxFiles
      && Admissible(policy.maxFileBytes, policy.acceptedMedia, d)
    ensures match FirstFailure(policy, d)
            case None => ValidateDeclaration(policy, d).Success?
            case Some(rejection) => ValidateDeclaration(policy, d) == Failure(rejection)
  {
    assert (exists i | 0 <= i < |d.name| :: IsControl(d.name[i])) <==> !(forall c | c in d.name :: !IsControl(c));
    MediaMeaning(policy.acceptedMedia, d.mediaType);
    if d.sha256.Some? {
      var digest := d.sha256.value;
      assert (forall i | 0 <= i < |digest| :: IsHexDigit(digest[i])) <==> (forall c | c in digest :: IsHexDigit(c));
      if forall i | 0 <= i < |digest| :: IsHexDigit(digest[i]) {
        HexIsOneByteEach(digest);
      }
    }
  }

  lemma MediaMeaning(patterns: seq<string>, mediaType: string)
    ensures MediaIsAccepted(patterns, mediaType) <==> HasAcceptedType(patterns, mediaType)
  {
    forall p | p in patterns
      ensures PatternAccepts(p, mediaType) <==>
        p == "*/*" || p == mediaType || (exists stem: string :: p == stem + "/*" && stem + "/" <= mediaType)
    {
      PatternMeaning(p, mediaType);
    }
  }
}
