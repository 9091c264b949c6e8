/** The opaque tokens the webhook writes in place of credentials:
    the prefix, 64 lower-case hexadecimal digits, and the suffix. */
module Placeholder {
  import opened Strings

  const PREFIX: string := "__VDBI_PH_"
  const SUFFIX: string := "___"
  const HEX_LENGTH: nat := 64
  const LENGTH: nat := 77

  predicate IsHex(c: char) {
    '0' <= c <= '9' || 'a' <= c <= 'f'
  }

  /** The characters a placeholder is made of. */
  predicate InAlphabet(c: char) {
    IsHex(c) || c in "_VDBIPH"
  }

  predicate IsPlaceholder(s: string) {
    && |s| == LENGTH
    && s[..|PREFIX|] == PREFIX
    && s[LENGTH - |SUFFIX|..] == SUFFIX
    && forall i | |PREFIX| <= i < |PREFIX| + HEX_LENGTH :: IsHex(s[i])
  }

  /** The scan of the program: length, prefix and suffix first, then digit by digit. */
  method CheckPlaceholder(s: string) returns (ok: bool)
    ensures ok == IsPlaceholder(s)
    ensures ok <==> exists hex ::
      |hex| == 64 && (forall c | c in hex :: c in "0123456789abcdef") && s == "__VDBI_PH_" + hex + "___"
  {
    ShapeOfPlaceholder(s);
    if |s| != LENGTH {
      return false;
    }
    if s[..|PREFIX|] != PREFIX {
      return false;
    }
    if s[|s| - |SUFFIX|..] != SUFFIX {
      return false;
    }
    for i := |PREFIX| to |PREFIX| + HEX_LENGTH
      invariant forall j | |PREFIX| <= j < i :: IsHex(s[j])
    {
      if !IsHex(s[i]) {
        return false;
      }
    }
    return true;
  }

  /** A string of 64 lower-case hexadecimal digits. */
  ghost predicate Digits(hex: string) { |hex| == 64 && forall c | c in hex :: c in "0123456789abcdef" }

  lemma ShapeOfPlaceholder(s: string)
    ensures IsPlaceholder(s) <==> exists hex :: Digits(hex) && s == "__VDBI_PH_" + hex + "___"
  {
    if IsPlaceholder(s) {
      var hex := s[|PREFIX|..|PREFIX| + HEX_LENGTH];
      forall c | c in hex ensures c in "0123456789abcdef" {
        var i :| 0 <= i < |hex| && hex[i] == c;
        assert IsHex(s[|PREFIX| + i]);
        HexIsDigit(c);
      }
      assert s == s[..|PREFIX|] + hex + s[LENGTH - |SUFFIX|..];
      assert Digits(hex) && s == "__VDBI_PH_" + hex + "___";
    }
    if hex :| Digits(hex) && s == "__VDBI_PH_" + hex + "___" {
      assert s[..|PREFIX|] == PREFIX && s[LENGTH - |SUFFIX|..] == SUFFIX;
      forall i | |PREFIX| <= i < |PREFIX| + HEX_LENGTH ensures IsHex(s[i]) {
        assert s[i] == hex[i - |PREFIX|] && hex[i - |PREFIX|] in hex;
      }
    }
  }

  lemma HexIsDigit(c: char)
    ensures IsHex(c) <==> c in "0123456789abcdef"
  {
  }

  function HexDigit(n: nat): (c: char)
    requires n < 16
    ensures IsHex(c)
  {
    "0123456789abcdef"[n]
  }

  newtype Byte = n: int | 0 <= n < 256

  /** Generate: the random source's bytes, hex-encoded between prefix and suffix. */
  method Generate(raw: array<Byte>) returns (s: string)
    requires raw.Length == HEX_LENGTH / 2
    ensures IsPlaceholder(s)
    ensures forall i | 0 <= i < raw.Length ::
      && s[|PREFIX| + 2 * i] == HexDigit((raw[i] / 16) as nat)
      && s[|PREFIX| + 2 * i + 1] == HexDigit((raw[i] % 16) as nat)
  {
    var hex := "";
    for i := 0 to raw.Length
      invariant |hex| == 2 * i
      invariant forall j | 0 <= j < |hex| :: IsHex(hex[j])
      invariant forall j | 0 <= j < i ::
        hex[2 * j] == HexDigit((raw[j] / 16) as nat) && hex[2 * j + 1] == HexDigit((raw[j] % 16) as nat)
    {
      hex := hex + [HexDigit((raw[i] / 16) as nat), HexDigit((raw[i] % 16) as nat)];
    }
    s := PREFIX + hex + SUFFIX;
    forall i | |PREFIX| <= i < |PREFIX| + HEX_LENGTH ensures IsHex(s[i]) {
      assert s[i] == hex[i - |PREFIX|];
    }
  }

  lemma PlaceholderAlphabet(p: string)
    requires IsPlaceholder(p)
    ensures forall c | c in p :: InAlphabet(c)
  {
    forall i | 0 <= i < |p| ensures InAlphabet(p[i]) {
      if i < |PREFIX| {
        assert p[i] == p[..|PREFIX|][i] == PREFIX[i];
      } else if i >= |PREFIX| + HEX_LENGTH {
        assert p[i] == p[LENGTH - |SUFFIX|..][i - (LENGTH - |SUFFIX|)];
        assert p[i] == SUFFIX[i - (LENGTH - |SUFFIX|)];
      }
    }
  }

  /** Where a placeholder stands, the prefix stands. */
  lemma PlaceholderHasPrefix(s: string, p: string, i: int)
    requires IsPlaceholder(p) && OccursAt(s, p, i)
    ensures OccursAt(s, PREFIX, i)
  {
    assert s[i..i + |PREFIX|] == s[i..i + |p|][..|PREFIX|];
  }

  lemma LetterV(p: string, n: nat)
    requires IsPlaceholder(p) && n < LENGTH
    ensures p[n] == 'V' <==> n == 2
  {
    assert p[..|PREFIX|] == PREFIX && p[LENGTH - |SUFFIX|..] == SUFFIX;
    if n < |PREFIX| {
      assert p[n] == p[..|PREFIX|][n];
    } else if n >= |PREFIX| + HEX_LENGTH {
      assert p[n] == p[LENGTH - |SUFFIX|..][n - (LENGTH - |SUFFIX|)];
    }
  }

  /** Two placeholders in one line overlap by at most two characters:
      the closing underscores of one and the opening ones of the next. */
  lemma OverlapByAtMostTwo(s: string, p: string, i: int, q: string, j: int)
    requires IsPlaceholder(p) && IsPlaceholder(q)
    requires OccursAt(s, p, i) && OccursAt(s, q, j) && i < j
    ensures j >= i + LENGTH - 2
  {
    LetterV(q, 2);
    assert s[j + 2] == s[j..j + |q|][2] == 'V';
    var n := j + 2 - i;
    if n < LENGTH {
      assert s[i + n] == s[i..i + |p|][n] == p[n];
      LetterV(p, n);
    }
  }

  /** A placeholder contains no placeholder but itself. */
  lemma OnlyItself(k: string, p: string)
    requires IsPlaceholder(k) && IsPlaceholder(p)
    ensures Contains(k, p) ==> p == k
  {
    if Contains(k, p) {
      var i :| 0 <= i <= |k| && OccursAt(k, p, i);
      assert k[i..i + |p|] == k;
    }
  }
}
