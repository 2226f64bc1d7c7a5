/**
 * Salt generation of the authentication helper (class Authentication of
 * backend/src/app/commons.ts).
 *
 * The source draws every salt character with
 *   SALT_CHARSET.split("")[Math.floor(Math.random() * SALT_CHARSET.length)]
 * The random draw is modelled by the index it selects: a generated salt is
 * determined by the sequence of indices chosen, one per loop iteration, each
 * in [0, |SaltCharset|) (type CharIndex). ChosenIndex shows that the source's
 * formula always lands in that range.
 */
module Authentication {

  /** Number of characters in a salt (SALT_LENGHT). */
  const SaltLength: nat := 10

  // The four runs of the salt alphabet, in the order of the source literal.
  const Lowercase: string := "abcdefghijklmnopqrstuvwxyz"
  const Uppercase: string := "ABCDEFGHIJKLMNOPQRSTUVWXYZ"
  const Digits: string := "0123456789"
  const Symbols: string := "/!?-=^~|[{]}@`:*"

  /**
   * The alphabet salts are drawn from (SALT_CHARSET). Its value is the
   * source's 78-character literal; it is written as the concatenation of its
   * four runs so that the verifier can index into it.
   */
  const SaltCharset: string := Lowercase + Uppercase + Digits + Symbols

  predicate IsLower(c: char) { 'a' <= c <= 'z' }
  predicate IsUpper(c: char) { 'A' <= c <= 'Z' }
  predicate IsDigit(c: char) { '0' <= c <= '9' }

  /** No character occurs twice in s. */
  ghost predicate Distinct(s: string) {
    forall i, j :: 0 <= i < j < |s| ==> s[i] != s[j]
  }

  /** An index the random draw of generateSalt can select: a position of the alphabet. */
  type CharIndex = k: nat | k < |SaltCharset| witness 0

  /**
   * Membership in the alphabet by character class: a letter, a digit or one
   * of the 16 symbols. CharsetMembership proves it equal to c in SaltCharset.
   */
  predicate InCharset(c: char) {
    IsLower(c) || IsUpper(c) || IsDigit(c) || c in Symbols
  }

  /** A string generateSalt may return: SALT_LENGHT characters of the alphabet. */
  ghost predicate IsSalt(s: string) {
    && |s| == SaltLength
    && forall k :: 0 <= k < |s| ==> InCharset(s[k])
  }

  /**
   * The alphabet has 78 characters: 26 lower-case letters, then 26 upper-case
   * letters, then 10 digits, then 16 symbols that are none of these.
   */
  lemma CharsetShape()
    ensures |SaltCharset| == 78
    ensures forall i :: 0 <= i < 26 ==> IsLower(SaltCharset[i])
    ensures forall i :: 26 <= i < 52 ==> IsUpper(SaltCharset[i])
    ensures forall i :: 52 <= i < 62 ==> IsDigit(SaltCharset[i])
    ensures forall i :: 62 <= i < 78 ==>
      !IsLower(SaltCharset[i]) && !IsUpper(SaltCharset[i]) && !IsDigit(SaltCharset[i])
  {
    RunCodes();
  }

  /** Character codes of the runs: each letter and digit run is consecutive. */
  lemma RunCodes()
    ensures forall i :: 0 <= i < |Lowercase| ==> Lowercase[i] as int == 'a' as int + i
    ensures forall i :: 0 <= i < |Uppercase| ==> Uppercase[i] as int == 'A' as int + i
    ensures forall i :: 0 <= i < |Digits| ==> Digits[i] as int == '0' as int + i
    ensures forall i :: 0 <= i < |Symbols| ==>
      !IsLower(Symbols[i]) && !IsUpper(Symbols[i]) && !IsDigit(Symbols[i])
    ensures Distinct(Symbols)
  {
  }

  /** No character of the alphabet occurs twice. */
  lemma CharsetDistinct()
    ensures Distinct(SaltCharset)
  {
    RunCodes();
    CharsetShape();
    forall i, j | 0 <= i < j < |SaltCharset|
      ensures SaltCharset[i] != SaltCharset[j]
    {
      if j < 62 {
        // Both in a consecutive run, or in runs whose code ranges are disjoint.
        assert SaltCharset[i] as int == CodeAt(i) && SaltCharset[j] as int == CodeAt(j);
      } else if i >= 62 {
        assert SaltCharset[i] == Symbols[i - 62] && SaltCharset[j] == Symbols[j - 62];
      }
    }
  }

  /** A character is in SALT_CHARSET exactly when it is a letter, a digit or one of the symbols. */
  lemma CharsetMembership(c: char)
    ensures InCharset(c) <==> c in SaltCharset
  {
  }

  /** The character code at alphanumeric position i of the alphabet. */
  function CodeAt(i: int): int
    requires 0 <= i < 62
  {
    if i < 26 then 'a' as int + i
    else if i < 52 then 'A' as int + (i - 26)
    else '0' as int + (i - 52)
  }

  /**
   * Math.floor(r * SALT_CHARSET.length) for a draw r of Math.random(), which
   * lies in [0, 1): the chosen index is always a valid position of the
   * alphabet (the arithmetic is exact here, IEEE rounding is not modelled).
   */
  function ChosenIndex(r: real): (k: nat)
    requires 0.0 <= r < 1.0
    ensures k < |SaltCharset|
  {
    (r * (|SaltCharset| as real)).Floor
  }

  /**
   * The salt built from a sequence of index choices: the string after |draws|
   * iterations of the loop, each appending the chosen character.
   */
  function SaltOf(draws: seq<CharIndex>): (s: string)
    ensures |s| == |draws|
    ensures forall k :: 0 <= k < |draws| ==> s[k] == SaltCharset[draws[k]]
  {
    if draws == [] then []
    else SaltOf(draws[..|draws| - 1]) + [SaltCharset[draws[|draws| - 1]]]
  }

  /**
   * generateSalt: SALT_LENGHT times, append the alphabet character at the
   * chosen index. The result is exactly SaltOf(draws), so it is a salt.
   */
  method GenerateSalt(draws: seq<CharIndex>) returns (salt: string)
    requires |draws| == SaltLength
    ensures salt == SaltOf(draws)
    ensures |salt| == SaltLength
    ensures forall k :: 0 <= k < |salt| ==> InCharset(salt[k])
  {
    salt := "";
    for i := 0 to SaltLength
      invariant |salt| == i
      invariant forall k :: 0 <= k < i ==> InCharset(salt[k])
      invariant salt == SaltOf(draws[..i])
    {
      ghost var done := draws[..i + 1];
      assert done[..i] == draws[..i] && done[i] == draws[i];
      assert SaltOf(done) == SaltOf(draws[..i]) + [SaltCharset[draws[i]]];
      CharsetMembership(SaltCharset[draws[i]]);
      salt := salt + [SaltCharset[draws[i]]];
    }
    assert draws[..SaltLength] == draws;
  }

  /** The position of the first occurrence of c in s. */
  function IndexIn(s: string, c: char): (k: nat)
    requires c in s
    ensures k < |s| && s[k] == c
    ensures forall j :: 0 <= j < k ==> s[j] != c
  {
    if s[0] == c then 0 else 1 + IndexIn(s[1..], c)
  }

  /** The position of an alphabet character in SALT_CHARSET. */
  function PositionOf(c: char): (k: CharIndex)
    requires InCharset(c)
    ensures SaltCharset[k] == c
  {
    CharsetMembership(c);
    IndexIn(SaltCharset, c)
  }

  /** For a string over the alphabet, the index choices that spell it. */
  function DrawsFor(s: string): (draws: seq<CharIndex>)
    requires forall k :: 0 <= k < |s| ==> InCharset(s[k])
    ensures |draws| == |s|
    ensures forall k :: 0 <= k < |s| ==> SaltCharset[draws[k]] == s[k]
  {
    seq(|s|, k requires 0 <= k < |s| => PositionOf(s[k]))
  }

  /** Every salt-shaped string over the alphabet can be generated. */
  lemma SaltComplete(s: string)
    requires IsSalt(s)
    ensures |DrawsFor(s)| == SaltLength && SaltOf(DrawsFor(s)) == s
    ensures exists draws: seq<CharIndex> :: |draws| == SaltLength && SaltOf(draws) == s
  {
    var d := DrawsFor(s);
    assert SaltOf(d) == s;
  }

  /**
   * Different index choices give different salts, because the alphabet has no
   * repeated character: each salt is generated by exactly one choice sequence.
   */
  lemma SaltUnique(d1: seq<CharIndex>, d2: seq<CharIndex>)
    requires SaltOf(d1) == SaltOf(d2)
    ensures d1 == d2
  {
    CharsetDistinct();
    forall k | 0 <= k < |d1| ensures d1[k] == d2[k] {
      assert SaltCharset[d1[k]] == SaltOf(d1)[k] == SaltOf(d2)[k] == SaltCharset[d2[k]];
    }
  }
}
