/**
 * The step in front of `atob` in the decoder: a base64url segment (section 5 of
 * RFC 4648, unpadded as in Appendix C of RFC 7515) is turned back into standard
 * base64 by swapping the two URL-safe characters and restoring the `=` padding.
 */
module Base64Url {
  import opened JsString

  /** `c.repeat(n)` for a one-character string. */
  function Repeat(c: char, n: nat): (r: string)
    ensures |r| == n && forall i :: 0 <= i < n ==> r[i] == c
  {
    seq(n, _ => c)
  }

  /** How many `=` bring a length up to a multiple of 4. */
  function Padding(n: nat): (k: nat)
    ensures k < 4 && (n + k) % 4 == 0
    ensures k == 0 <==> n % 4 == 0
  {
    if n % 4 == 0 then 0 else 4 - n % 4
  }

  /** The standard-alphabet character for a URL-safe one; any other character is kept. */
  function StandardChar(c: char): char
  {
    if c == '-' then '+' else if c == '_' then '/' else c
  }

  /** Reference definition: each input character mapped, then `=` up to a multiple of 4. */
  function Normalized(s: string): (r: string)
    ensures |r| % 4 == 0 && |s| <= |r| < |s| + 4
    ensures '-' !in r && '_' !in r
    ensures forall i :: 0 <= i < |s| && s[i] != '-' && s[i] != '_' ==> r[i] == s[i]
    ensures forall i :: 0 <= i < |s| ==> r[i] == (if s[i] == '-' then '+' else if s[i] == '_' then '/' else s[i])
    ensures forall i :: |s| <= i < |r| ==> r[i] == '='
  {
    seq(|s| + Padding(|s|), i requires 0 <= i < |s| + Padding(|s|) => if i < |s| then StandardChar(s[i]) else '=')
  }

  /**
   * `base64UrlDecode` up to the `atob` call: two global replacements, then the
   * padding appended when the length is not a multiple of 4.
   */
  method NormalizeBase64Url(str: string) returns (base64: string)
    ensures base64 == Normalized(str)
  {
    base64 := ReplaceAll(ReplaceAll(str, '-', '+'), '_', '/');
    var padding := |base64| % 4;
    if padding != 0 {
      base64 := base64 + Repeat('=', 4 - padding);
    }
  }

  // The encoder's side, to state the round trip.

  predicate IsStandardAlphabet(c: char)
  {
    'A' <= c <= 'Z' || 'a' <= c <= 'z' || '0' <= c <= '9' || c == '+' || c == '/'
  }

  function UrlSafeChar(c: char): char
  {
    if c == '+' then '-' else if c == '/' then '_' else c
  }

  /** Trailing `=` removed. */
  function StripPadding(s: string): (r: string)
    ensures |r| <= |s| && r == s[..|r|]
    ensures r == [] || r[|r| - 1] != '='
  {
    if s != [] && s[|s| - 1] == '=' then StripPadding(s[..|s| - 1]) else s
  }

  /** Base64 to base64url: padding dropped, `+` and `/` replaced. */
  function ToBase64Url(b: string): (u: string)
    ensures |u| == |StripPadding(b)|
  {
    var body := StripPadding(b);
    seq(|body|, i requires 0 <= i < |body| => UrlSafeChar(body[i]))
  }

  lemma {:induction false} StripPaddingOf(body: string, k: nat)
    requires body == [] || body[|body| - 1] != '='
    ensures StripPadding(body + Repeat('=', k)) == body
  {
    if k > 0 {
      var s := body + Repeat('=', k);
      assert s[..|s| - 1] == body + Repeat('=', k - 1);
      StripPaddingOf(body, k - 1);
    } else {
      assert body + Repeat('=', 0) == body;
    }
  }

  /**
   * Normalising the base64url form of a correctly padded base64 string gives that
   * string back, so `atob` sees exactly what the encoder produced.
   */
  lemma NormalizeRoundTrip(body: string)
    requires forall i :: 0 <= i < |body| ==> IsStandardAlphabet(body[i])
    ensures Normalized(ToBase64Url(body + Repeat('=', Padding(|body|)))) == body + Repeat('=', Padding(|body|))
  {
    var b := body + Repeat('=', Padding(|body|));
    StripPaddingOf(body, Padding(|body|));
    var u := ToBase64Url(b);
    assert |u| == |body|;
    var n := Normalized(u);
    forall i | 0 <= i < |body| ensures n[i] == b[i] {
      assert u[i] == UrlSafeChar(body[i]);
    }
  }
}
