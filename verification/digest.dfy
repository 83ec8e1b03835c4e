/**
 * Hex digests. SHA-256 and MD5 themselves are not modelled: callers pass
 * the digest as a function value returning a well-formed hex string, and
 * the model only relies on it being a deterministic function of its input.
 */
module Digest {

  predicate IsHexDigit(c: char)
  {
    ('0' <= c <= '9') || ('a' <= c <= 'f')
  }

  predicate IsHex(s: string)
  {
    forall i :: 0 <= i < |s| ==> IsHexDigit(s[i])
  }

  /** `hashlib.sha256(...).hexdigest()`: 64 lower-case hex characters. */
  type Sha256Hex = s: string | |s| == 64 && IsHex(s) witness seq(64, i => '0')

  /** `hashlib.md5(...).hexdigest()`: 32 lower-case hex characters. */
  type Md5Hex = s: string | |s| == 32 && IsHex(s) witness seq(32, i => '0')

  /** `hexdigest()[:n]`: the first `n` hex characters of a digest. */
  function Truncate(h: string, n: nat): (r: string)
    requires n <= |h| && IsHex(h)
    ensures |r| == n && IsHex(r)
    ensures r <= h
  {
    h[..n]
  }
}
