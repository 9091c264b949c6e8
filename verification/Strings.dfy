/** Go's byte strings, one `char` per byte, with the few operations of package `strings`
    the injector uses. */
module Strings {

  datatype Option<+T> = None | Some(value: T)

  /** `p` stands in `s` at index `i`. */
  predicate OccursAt(s: string, p: string, i: int) {
    0 <= i && i + |p| <= |s| && s[i..i + |p|] == p
  }

  /** strings.Contains */
  predicate Contains(s: string, p: string) {
    exists i :: 0 <= i <= |s| && OccursAt(s, p, i)
  }

  /** strings.ReplaceAll for a non-empty pattern: leftmost occurrences, left to right,
      without overlap. (Go's result for an empty pattern is never wanted here: every
      caller checks the pattern's shape first.) */
  function ReplaceAll(s: string, p: string, v: string): string
    requires p != ""
  {
    if s == "" then ""
    else if p <= s then v + ReplaceAll(s[|p|..], p, v)
    else [s[0]] + ReplaceAll(s[1..], p, v)
  }

  lemma OccurrenceIsContained(s: string, p: string, i: int)
    requires OccursAt(s, p, i)
    ensures Contains(s, p)
  {
  }

  lemma ContainedInPart(a: string, s: string, b: string, p: string)
    requires Contains(s, p)
    ensures Contains(a + s + b, p)
  {
    var i :| 0 <= i <= |s| && OccursAt(s, p, i);
    SliceOfMiddle(a, s, b, i, i + |p|);
    OccurrenceIsContained(a + s + b, p, |a| + i);
  }

  /** A pattern that does not occur is not replaced. */
  lemma {:induction false} ReplaceAbsent(s: string, p: string, v: string)
    requires p != "" && !Contains(s, p)
    ensures ReplaceAll(s, p, v) == s
  {
    if s != "" {
      assert !OccursAt(s, p, 0);
      forall i | 0 <= i <= |s[1..]| ensures !OccursAt(s[1..], p, i) {
        assert !OccursAt(s, p, i + 1);
        if i + |p| <= |s[1..]| {
          assert s[i + 1..i + 1 + |p|] == s[1..][i..i + |p|];
        }
      }
      ReplaceAbsent(s[1..], p, v);
    }
  }

  /** Replacement never reaches across a character the pattern does not contain. */
  lemma {:induction false} ReplaceAcross(a: string, c: char, b: string, p: string, v: string)
    requires p != "" && c !in p
    ensures ReplaceAll(a + [c] + b, p, v) == ReplaceAll(a, p, v) + [c] + ReplaceAll(b, p, v)
    decreases |a|
  {
    var s := a + [c] + b;
    if a == "" {
      assert s[0] == c && s[1..] == b;
      assert !(p <= s);
    } else if p <= s {
      assert |p| <= |a| by {
        assert s[|a|] == c && s[|a|] !in p;
      }
      assert p <= a;
      assert s[|p|..] == a[|p|..] + [c] + b;
      ReplaceAcross(a[|p|..], c, b, p, v);
      Regroup(v, ReplaceAll(a[|p|..], p, v), c, ReplaceAll(b, p, v));
    } else {
      assert !(p <= a);
      assert s[1..] == a[1..] + [c] + b;
      ReplaceAcross(a[1..], c, b, p, v);
      Regroup([s[0]], ReplaceAll(a[1..], p, v), c, ReplaceAll(b, p, v));
    }
  }

  lemma Regroup(v: string, x: string, c: char, y: string)
    ensures v + (x + [c] + y) == (v + x) + [c] + y
  {
  }

  /** strings.Cut at the first `c`. */
  function Cut(s: string, c: char): (r: Option<(string, string)>)
    ensures r.None? <==> c !in s
    ensures r.Some? ==> s == r.value.0 + [c] + r.value.1 && c !in r.value.0
  {
    if s == "" then None
    else if s[0] == c then Some(("", s[1..]))
    else
      match Cut(s[1..], c)
      case None => None
      case Some(parts) => Some(([s[0]] + parts.0, parts.1))
  }

  lemma {:induction false} CutAt(a: string, c: char, b: string)
    requires c !in a
    ensures Cut(a + [c] + b, c) == Some((a, b))
  {
    var s := a + [c] + b;
    if a == "" {
      assert s[1..] == b;
    } else {
      assert s[1..] == a[1..] + [c] + b && s[0] == a[0];
      CutAt(a[1..], c, b);
      assert [s[0]] + a[1..] == a;
    }
  }

  /** strings.Split on a one-byte separator: always at least one part. */
  function Split(s: string, c: char): (parts: seq<string>)
    ensures |parts| >= 1
    ensures forall p | p in parts :: c !in p
    decreases |s|
  {
    match Cut(s, c)
    case None => [s]
    case Some(parts) => [parts.0] + Split(parts.1, c)
  }

  /** strings.Join */
  function Join(parts: seq<string>, c: char): string {
    if parts == [] then ""
    else if |parts| == 1 then parts[0]
    else parts[0] + [c] + Join(parts[1..], c)
  }

  /** Split undoes Join for every non-empty list of separator-free parts. */
  lemma {:induction false} SplitJoin(parts: seq<string>, c: char)
    requires parts != [] && forall p | p in parts :: c !in p
    ensures Split(Join(parts, c), c) == parts
  {
    if |parts| == 1 {
      assert c !in parts[0];
      assert Join(parts, c) == parts[0];
    } else {
      CutAt(parts[0], c, Join(parts[1..], c));
      SplitJoin(parts[1..], c);
    }
  }

  predicate IsSpace(c: char) {
    c == ' ' || c == '\t' || c == '\n' || c == '\r' || c == '\U{0B}' || c == '\U{0C}'
  }

  /** strings.TrimSpace over the ASCII white space. */
  function TrimSpace(s: string): (r: string)
    ensures r == s || |r| < |s|
    ensures r != "" ==> !IsSpace(r[0]) && !IsSpace(r[|r| - 1])
    decreases |s|
  {
    if s == "" then ""
    else if IsSpace(s[0]) then TrimSpace(s[1..])
    else if IsSpace(s[|s| - 1]) then TrimSpace(s[..|s| - 1])
    else s
  }

  const BLANKS: string := " \t\n\r\U{0B}\U{0C}"

  /** What surrounds a text is taken away, whatever blanks it is, and nothing else. */
  lemma {:induction false} TrimSpaceTrims(a: string, s: string, b: string)
    requires forall c | c in a + b :: c in BLANKS
    requires s != "" ==> s[0] !in BLANKS && s[|s| - 1] !in BLANKS
    ensures TrimSpace(a + s + b) == s
    decreases |a| + |b|
  {
    var t := a + s + b;
    if a != "" {
      assert t[0] == a[0] && a[0] in a + b && t[1..] == a[1..] + s + b;
      TrimSpaceTrims(a[1..], s, b);
    } else if b != "" {
      var last := b[|b| - 1];
      assert t[|t| - 1] == last && last in a + b && t[..|t| - 1] == a + s + b[..|b| - 1];
      TrimSpaceTrims(a, s, b[..|b| - 1]);
      if IsSpace(t[0]) && s == "" {
        AllTrimmed(t);
      }
    }
  }

  lemma {:induction false} AllTrimmed(s: string)
    requires forall c | c in s :: c in BLANKS
    ensures TrimSpace(s) == ""
  {
    if s != "" {
      assert s[0] in s;
      AllTrimmed(s[1..]);
    }
  }

  /** strings.ToLower, on ASCII letters. */
  function Lower(s: string): string {
    seq(|s|, i requires 0 <= i < |s| => LowerChar(s[i]))
  }

  function LowerChar(c: char): char {
    if 'A' <= c <= 'Z' then (c as int + 32) as char else c
  }

  /** `s` is the lower-case `word`, in any letter case. */
  predicate Spells(s: string, word: string) {
    |s| == |word| && forall i | 0 <= i < |s| :: s[i] == word[i] || s[i] as int + 32 == word[i] as int
  }

  lemma LowerSpells(s: string, word: string)
    requires forall c | c in word :: 'a' <= c <= 'z'
    ensures Lower(s) == word <==> Spells(s, word)
  {
    if Spells(s, word) {
      forall i | 0 <= i < |s| ensures Lower(s)[i] == word[i] {
        assert word[i] in word;
      }
    }
    if Lower(s) == word {
      forall i | 0 <= i < |s| ensures s[i] == word[i] || s[i] as int + 32 == word[i] as int {
        assert Lower(s)[i] == word[i];
      }
    }
  }

  // ---- Slices ----

  lemma SliceOfSlice(s: string, i: nat, j: nat, a: nat, b: nat)
    requires i <= j <= |s| && a <= b <= j - i
    ensures s[i..j][a..b] == s[i + a..i + b]
  {
    assert forall n | 0 <= n < b - a :: s[i..j][a..b][n] == s[i + a..i + b][n];
  }

  lemma OccursAtChar(s: string, p: string, i: nat, n: nat)
    requires OccursAt(s, p, i) && n < |p|
    ensures s[i + n] == p[n]
  {
    assert s[i..i + |p|][n] == s[i + n];
  }

  lemma SliceOfSecond(a: string, b: string, i: nat, j: nat)
    requires i <= j <= |b|
    ensures (a + b)[|a| + i..|a| + j] == b[i..j]
  {
    assert forall n | 0 <= n < j - i :: (a + b)[|a| + i..|a| + j][n] == b[i..j][n];
  }

  lemma SliceOfMiddle(a: string, s: string, b: string, i: nat, j: nat)
    requires i <= j <= |s|
    ensures (a + s + b)[|a| + i..|a| + j] == s[i..j]
  {
    assert forall n | 0 <= n < j - i :: (a + s + b)[|a| + i..|a| + j][n] == s[i..j][n];
  }

  predicate EndsWith(s: string, p: string) {
    |p| <= |s| && s[|s| - |p|..] == p
  }

  /** A pattern whose first `n` characters end one text and whose others begin the next. */
  lemma StandsAcross(x: string, y: string, k: string, n: nat)
    requires n <= |k| && EndsWith(x, k[..n]) && k[n..] <= y
    ensures OccursAt(x + y, k, |x| - n)
  {
    var at := |x| - n;
    forall j | 0 <= j < |k| ensures (x + y)[at..at + |k|][j] == k[j] {
      if j < n {
        assert x[at..][j] == k[..n][j];
      } else {
        assert y[j - n] == k[n..][j - n];
      }
    }
  }

  lemma AcrossParts(x: string, y: string, k: string, i: nat)
    requires OccursAt(x + y, k, i) && i <= |x| <= i + |k|
    ensures EndsWith(x, k[..|x| - i]) && k[|x| - i..] <= y
  {
    var n := |x| - i;
    forall j | 0 <= j < n ensures x[i..][j] == k[..n][j] {
      assert (x + y)[i..i + |k|][j] == k[j];
    }
    forall j | 0 <= j < |k| - n ensures y[j] == k[n..][j] {
      assert (x + y)[i..i + |k|][n + j] == k[n + j];
    }
  }

  lemma SameRest(head: string, x: string, y: string)
    requires head + x == head + y
    ensures x == y
  {
    assert x == (head + x)[|head|..] == (head + y)[|head|..] == y;
  }
}
