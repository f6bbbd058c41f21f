/**
 * The "generate secret" button: 32 random bytes, each mapped to one character
 * of a 62-letter alphanumeric alphabet by taking it modulo the alphabet size.
 */
module SecretGenerator {
  import PayloadBuilder

  /** `n` consecutive code points starting at `first`. */
  function CharRange(first: char, n: nat): (r: string)
    requires first as int + n <= 128
    ensures |r| == n && forall i :: 0 <= i < n ==> r[i] as int == first as int + i
  {
    seq(n, i requires 0 <= i < n => (first as int + i) as char)
  }

  /** `A`-`Z`, then `a`-`z`, then `0`-`9`: 62 characters. */
  const Charset: string := CharRange('A', 26) + CharRange('a', 26) + CharRange('0', 10)

  /** Number of random bytes drawn, and so the length of the secret. */
  const SecretLength: nat := 32

  /** An element of a `Uint8Array`. */
  type Byte = b: int | 0 <= b < 256

  predicate IsAlphanumeric(c: char)
  {
    'A' <= c <= 'Z' || 'a' <= c <= 'z' || '0' <= c <= '9'
  }

  lemma CharsetIsAlphanumeric()
    ensures |Charset| == 62
    ensures forall i :: 0 <= i < |Charset| ==> IsAlphanumeric(Charset[i])
  {
    forall i | 0 <= i < |Charset| ensures IsAlphanumeric(Charset[i]) {
      if i < 26 {
        assert Charset[i] == CharRange('A', 26)[i];
      } else if i < 52 {
        assert Charset[i] == CharRange('a', 26)[i - 26];
      } else {
        assert Charset[i] == CharRange('0', 10)[i - 52];
      }
    }
  }

  /**
   * Builds the secret from the bytes `crypto.getRandomValues` filled in. The result
   * is alphanumeric and long enough for the token builder's length check.
   */
  method GenerateSecret(random: seq<Byte>) returns (secret: string)
    requires |random| == SecretLength
    ensures |secret| == SecretLength && |secret| >= PayloadBuilder.MinSecretLength
    ensures forall i :: 0 <= i < |secret| ==> secret[i] == Charset[random[i] % |Charset|]
    ensures forall i :: 0 <= i < |secret| ==> IsAlphanumeric(secret[i])
  {
    CharsetIsAlphanumeric();
    secret := "";
    for i := 0 to SecretLength
      invariant |secret| == i
      invariant forall j :: 0 <= j < i ==> secret[j] == Charset[random[j] % |Charset|]
      invariant forall j :: 0 <= j < i ==> IsAlphanumeric(secret[j])
    {
      secret := secret + [Charset[random[i] % |Charset|]];
    }
  }
}
