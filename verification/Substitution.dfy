/** Replacing placeholders in environment lines (pkg/nri/substitute.go).

    The program replaces the mapping's keys one after the other, in the order in which Go
    happens to iterate over the map. The reference is one simultaneous left-to-right pass.
    They agree, whatever the order, when every placeholder stands apart from other
    alphabet characters and no value brings in the prefix; SubstitutionLimits says what
    happens without that. */
module Substitution {
  import opened Strings
  import opened Placeholder

  type Mapping = map<string, string>

  /** One replacement of the loop body, skipping keys that are not placeholders. */
  function ReplaceOne(line: string, ph: string, m: Mapping): string
    requires ph in m
  {
    if IsPlaceholder(ph) then ReplaceAll(line, ph, m[ph]) else line
  }

  /** The replacements of `order`, one after the other. */
  function InOrder(line: string, order: seq<string>, m: Mapping): string
    requires forall k | k in order :: k in m
    decreases |order|
  {
    if order == [] then line
    else InOrder(ReplaceOne(line, order[0], m), order[1..], m)
  }

  /** One pass over the line in which every placeholder is replaced at once. */
  function AtOnce(line: string, m: Mapping): string {
    if line == "" then ""
    else if |line| >= LENGTH && IsPlaceholder(line[..LENGTH]) && line[..LENGTH] in m then
      m[line[..LENGTH]] + AtOnce(line[LENGTH..], m)
    else [line[0]] + AtOnce(line[1..], m)
  }

  /** A possible iteration order of a Go map: each key once. */
  ghost predicate IsOrder(order: seq<string>, m: Mapping) {
    && (forall k :: k in order <==> k in m)
    && (forall i, j | 0 <= i < j < |order| :: order[i] != order[j])
  }

  /** `out` is what some iteration order makes of `line`. */
  ghost predicate SomeOrder(line: string, m: Mapping, out: string) {
    exists order :: IsOrder(order, m) && out == InOrder(line, order, m)
  }

  /** No value brings in the placeholder prefix. */
  ghost predicate PlainValues(m: Mapping) {
    forall k | k in m :: !Contains(m[k], PREFIX)
  }

  ghost predicate Bounded(line: string, i: int, n: nat)
    requires 0 <= i && i + n <= |line|
  {
    && (i == 0 || !InAlphabet(line[i - 1]))
    && (i + n == |line| || !InAlphabet(line[i + n]))
  }

  /** Every placeholder of the mapping that stands in the line is bounded by the line's
      ends or by characters outside the placeholder alphabet. */
  ghost predicate Separated(line: string, m: Mapping) {
    forall k, i | k in m && IsPlaceholder(k) && OccursAt(line, k, i) :: Bounded(line, i, LENGTH)
  }

  // ---- The sequential and the simultaneous form on the pieces of a line ----

  lemma {:induction false} InOrderAcross(a: string, c: char, b: string, order: seq<string>, m: Mapping)
    requires forall k | k in order :: k in m
    requires !InAlphabet(c)
    ensures InOrder(a + [c] + b, order, m) == InOrder(a, order, m) + [c] + InOrder(b, order, m)
    decreases order
  {
    if order != [] {
      var ph := order[0];
      if IsPlaceholder(ph) {
        PlaceholderAlphabet(ph);
        ReplaceAcross(a, c, b, ph, m[ph]);
      }
      InOrderAcross(ReplaceOne(a, ph, m), c, ReplaceOne(b, ph, m), order[1..], m);
    }
  }

  lemma {:induction false} AtOnceAcross(a: string, c: char, b: string, m: Mapping)
    requires !InAlphabet(c)
    ensures AtOnce(a + [c] + b, m) == AtOnce(a, m) + [c] + AtOnce(b, m)
    decreases |a|
  {
    var s := a + [c] + b;
    if |s| >= LENGTH && IsPlaceholder(s[..LENGTH]) && s[..LENGTH] in m {
      assert forall i | 0 <= i < LENGTH :: s[..LENGTH][i] == s[i];
      assert s[|a|] == c;
      PlaceholderAlphabet(s[..LENGTH]);
      assert |a| >= LENGTH;
      assert s[..LENGTH] == a[..LENGTH];
      assert s[LENGTH..] == a[LENGTH..] + [c] + b;
      AtOnceAcross(a[LENGTH..], c, b, m);
      Regroup(m[a[..LENGTH]], AtOnce(a[LENGTH..], m), c, AtOnce(b, m));
    } else if a == "" {
      assert s[1..] == b;
    } else {
      assert |a| >= LENGTH ==> s[..LENGTH] == a[..LENGTH];
      assert s[1..] == a[1..] + [c] + b;
      AtOnceAcross(a[1..], c, b, m);
      Regroup([a[0]], AtOnce(a[1..], m), c, AtOnce(b, m));
    }
  }

  /** A text in which none of the keys stands is left alone by both forms. */
  lemma {:induction false} InOrderAbsent(s: string, order: seq<string>, m: Mapping)
    requires forall k | k in order :: k in m
    requires forall k | k in order && IsPlaceholder(k) :: !Contains(s, k)
    ensures InOrder(s, order, m) == s
  {
    if order != [] {
      if IsPlaceholder(order[0]) {
        ReplaceAbsent(s, order[0], m[order[0]]);
      }
      InOrderAbsent(s, order[1..], m);
    }
  }

  lemma {:induction false} AtOnceAbsent(s: string, m: Mapping)
    requires forall k, i | k in m && IsPlaceholder(k) :: !OccursAt(s, k, i)
    ensures AtOnce(s, m) == s
  {
    if s != "" {
      assert |s| >= LENGTH && s[..LENGTH] in m ==> OccursAt(s, s[..LENGTH], 0);
      forall k, i | k in m && IsPlaceholder(k) ensures !OccursAt(s[1..], k, i) {
        assert !OccursAt(s, k, i + 1);
        if 0 <= i && i + |k| <= |s[1..]| {
          assert s[i + 1..i + 1 + |k|] == s[1..][i..i + |k|];
        }
      }
      AtOnceAbsent(s[1..], m);
    }
  }

  lemma PlainIsAbsent(s: string, k: string)
    requires !Contains(s, PREFIX) && IsPlaceholder(k)
    ensures !Contains(s, k)
  {
    if Contains(s, k) {
      var i :| 0 <= i <= |s| && OccursAt(s, k, i);
      PlaceholderHasPrefix(s, k, i);
      assert false;
    }
  }

  lemma {:induction false} InOrderOfPlain(s: string, order: seq<string>, m: Mapping)
    requires forall k | k in order :: k in m
    requires !Contains(s, PREFIX)
    ensures InOrder(s, order, m) == s
  {
    forall k | k in order && IsPlaceholder(k) ensures !Contains(s, k) {
      PlainIsAbsent(s, k);
    }
    InOrderAbsent(s, order, m);
  }

  lemma AtOnceOfPlain(s: string, m: Mapping)
    requires !Contains(s, PREFIX)
    ensures AtOnce(s, m) == s
  {
    forall k, i | k in m && IsPlaceholder(k) ensures !OccursAt(s, k, i) {
      PlainIsAbsent(s, k);
      if OccursAt(s, k, i) { OccurrenceIsContained(s, k, i); }
    }
    AtOnceAbsent(s, m);
  }

  /** A line that is exactly one placeholder becomes its value, whenever its turn comes. */
  lemma {:induction false} InOrderOfKey(k: string, order: seq<string>, m: Mapping)
    requires forall x | x in order :: x in m
    requires k in order && IsPlaceholder(k) && PlainValues(m)
    ensures InOrder(k, order, m) == m[k]
  {
    var ph := order[0];
    if ph == k {
      assert ReplaceAll(k, k, m[k]) == m[k] + ReplaceAll(k[|k|..], k, m[k]);
      assert ReplaceOne(k, ph, m) == m[k];
      InOrderOfPlain(m[k], order[1..], m);
    } else {
      if IsPlaceholder(ph) {
        OnlyItself(k, ph);
        ReplaceAbsent(k, ph, m[ph]);
      }
      InOrderOfKey(k, order[1..], m);
    }
  }

  /** What a placeholder is shown as. */
  function ShownAs(ph: string, m: Mapping): string {
    if ph in m then m[ph] else ph
  }

  lemma AtOnceOfKey(k: string, m: Mapping)
    requires IsPlaceholder(k)
    ensures AtOnce(k, m) == ShownAs(k, m)
  {
    if k in m {
      assert k[..LENGTH] == k && k[LENGTH..] == "";
      assert AtOnce(k, m) == m[k] + AtOnce("", m);
    } else {
      forall x, i | x in m && IsPlaceholder(x) ensures !OccursAt(k, x, i) {
        OnlyItself(k, x);
      }
      AtOnceAbsent(k, m);
    }
  }

  lemma SeparatedParts(a: string, c: char, b: string, m: Mapping)
    requires Separated(a + [c] + b, m)
    ensures Separated(a, m) && Separated(b, m)
  {
    var s := a + [c] + b;
    forall k, i | k in m && IsPlaceholder(k) && OccursAt(a, k, i) ensures Bounded(a, i, LENGTH) {
      assert s[i..i + |k|] == a[i..i + |k|];
      assert OccursAt(s, k, i);
    }
    forall k, i | k in m && IsPlaceholder(k) && OccursAt(b, k, i) ensures Bounded(b, i, LENGTH) {
      var j := |a| + 1 + i;
      assert s[j..j + |k|] == b[i..i + |k|];
      assert OccursAt(s, k, j);
      assert i > 0 ==> s[j - 1] == b[i - 1];
      assert i + LENGTH < |b| ==> s[j + LENGTH] == b[i + LENGTH];
    }
  }

  /** Conversely, pieces with separated placeholders may be joined by a character outside
      the alphabet. */
  lemma SeparatedJoin(a: string, c: char, b: string, m: Mapping)
    requires Separated(a, m) && Separated(b, m) && !InAlphabet(c)
    ensures Separated(a + [c] + b, m)
  {
    var s := a + [c] + b;
    forall k, i | k in m && IsPlaceholder(k) && OccursAt(s, k, i) ensures Bounded(s, i, LENGTH) {
      if i <= |a| {
        PlaceholderAlphabet(k);
        NotAcross(a, c, b, k, i);
        assert Bounded(a, i, LENGTH);
      } else {
        var j := i - |a| - 1;
        assert b[j..j + |k|] == s[i..i + |k|];
        assert OccursAt(b, k, j) && Bounded(b, j, LENGTH);
        assert s[i - 1] == if j == 0 then c else b[j - 1];
      }
    }
  }

  /** A pattern without `c` that starts at or before a `c` ends before it. */
  lemma NotAcross(a: string, c: char, b: string, p: string, i: int)
    requires c !in p && p != "" && OccursAt(a + [c] + b, p, i) && i <= |a|
    ensures OccursAt(a, p, i)
  {
    var s := a + [c] + b;
    assert s[|a|] == c;
    assert forall n | i <= n < i + |p| :: s[n] == s[i..i + |p|][n - i];
    assert i + |p| <= |a|;
    assert a[i..i + |p|] == s[i..i + |p|];
  }

  /** The prefix does not reach across a character it does not have. */
  lemma PlainAcross(a: string, c: char, b: string)
    requires !Contains(a, PREFIX) && !Contains(b, PREFIX) && c !in PREFIX
    ensures !Contains(a + [c] + b, PREFIX)
  {
    var line := a + [c] + b;
    forall i | 0 <= i <= |line| ensures !OccursAt(line, PREFIX, i) {
      if OccursAt(line, PREFIX, i) {
        if i <= |a| {
          NotAcross(a, c, b, PREFIX, i);
          OccurrenceIsContained(a, PREFIX, i);
        } else {
          SliceOfSecond(a + [c], b, i - |a| - 1, i - |a| - 1 + |PREFIX|);
          OccurrenceIsContained(b, PREFIX, i - |a| - 1);
        }
      }
    }
  }

  lemma PlainLine(k: string, v: string)
    requires !Contains(k, PREFIX) && !Contains(v, PREFIX)
    ensures !Contains(k + "=" + v, PREFIX)
  {
    PlainAcross(k, '=', v);
    assert k + ['='] + v == k + "=" + v;
  }

  lemma PlainIsSeparated(s: string, m: Mapping)
    requires !Contains(s, PREFIX)
    ensures Separated(s, m)
  {
    forall k, i | k in m && IsPlaceholder(k) ensures !OccursAt(s, k, i) {
      PlainIsAbsent(s, k);
      if OccursAt(s, k, i) { OccurrenceIsContained(s, k, i); }
    }
  }

  lemma KeyIsSeparated(k: string, m: Mapping)
    requires IsPlaceholder(k)
    ensures Separated(k, m)
  {
  }

  /** The main result on one line: with plain values and separated placeholders every
      iteration order gives the simultaneous replacement. */
  lemma {:induction false} OrderIsIrrelevant(line: string, order: seq<string>, m: Mapping)
    requires IsOrder(order, m) && PlainValues(m) && Separated(line, m)
    ensures InOrder(line, order, m) == AtOnce(line, m)
    decreases |line|
  {
    if j :| 0 <= j < |line| && !InAlphabet(line[j]) {
      var a, c, b := line[..j], line[j], line[j + 1..];
      assert line == a + [c] + b;
      SeparatedParts(a, c, b, m);
      OrderIsIrrelevant(a, order, m);
      OrderIsIrrelevant(b, order, m);
      InOrderAcross(a, c, b, order, m);
      AtOnceAcross(a, c, b, m);
    } else if k, i :| k in m && IsPlaceholder(k) && OccursAt(line, k, i) {
      assert Bounded(line, i, LENGTH);
      assert line[i..i + |k|] == line == k;
      InOrderOfKey(k, order, m);
      AtOnceOfKey(k, m);
    } else {
      InOrderAbsent(line, order, m);
      AtOnceAbsent(line, m);
    }
  }

  /** Substitute. The innermost loop takes the keys in an arbitrary order, which may differ
      from line to line. */
  method Substitute(env: seq<string>, m: Mapping) returns (result: seq<string>)
    ensures |result| == |env|
    ensures forall i | 0 <= i < |env| :: SomeOrder(env[i], m, result[i])
    ensures PlainValues(m) ==>
      forall i | 0 <= i < |env| && Separated(env[i], m) :: result[i] == AtOnce(env[i], m)
  {
    if |env| == 0 {
      return env;
    }
    var out := new string[|env|];
    for i := 0 to |env|
      invariant forall j | 0 <= j < i :: SomeOrder(env[j], m, out[j])
    {
      var e := env[i];
      var todo := m.Keys;
      ghost var done: seq<string> := [];
      while todo != {}
        invariant todo <= m.Keys
        invariant forall k :: k in done <==> k in m.Keys - todo
        invariant forall x, y | 0 <= x < y < |done| :: done[x] != done[y]
        invariant e == InOrder(env[i], done, m)
        modifies {}
        decreases |todo|
      {
        var ph :| ph in todo;
        assert ph !in done;
        todo := todo - {ph};
        if IsPlaceholder(ph) {
          if Contains(e, ph) {
            e := ReplaceAll(e, ph, m[ph]);
          } else {
            ReplaceAbsent(e, ph, m[ph]);
          }
        }
        InOrderExtend(env[i], done, ph, m);
        done := done + [ph];
      }
      assert IsOrder(done, m) && SomeOrder(env[i], m, e);
      out[i] := e;
    }
    result := out[..];
    forall i | 0 <= i < |env| && PlainValues(m) && Separated(env[i], m)
      ensures result[i] == AtOnce(env[i], m)
    {
      assert SomeOrder(env[i], m, result[i]);
      var order :| IsOrder(order, m) && result[i] == InOrder(env[i], order, m);
      OrderIsIrrelevant(env[i], order, m);
    }
  }

  lemma {:induction false} InOrderExtend(line: string, done: seq<string>, ph: string, m: Mapping)
    requires ph in m && forall k | k in done :: k in m
    ensures InOrder(line, done + [ph], m) == ReplaceOne(InOrder(line, done, m), ph, m)
    decreases done
  {
    if done == [] {
      assert done + [ph] == [ph];
      assert InOrder(ReplaceOne(line, ph, m), [ph][1..], m) == ReplaceOne(line, ph, m);
    } else {
      assert (done + [ph])[1..] == done[1..] + [ph];
      InOrderExtend(ReplaceOne(line, done[0], m), done[1..], ph, m);
    }
  }
}
