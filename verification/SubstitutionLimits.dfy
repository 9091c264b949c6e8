/** Where the iteration order of the substitution loop does show: a value that is itself a
    placeholder, a placeholder next to an underscore, and two overlapping placeholders. */
module SubstitutionLimits {
  import opened Strings
  import opened Placeholder
  import opened Substitution

  function TwoKeys(k1: string, v1: string, k2: string, v2: string): Mapping {
    map[k1 := v1, k2 := v2]
  }

  lemma BothOrders(line: string, k1: string, v1: string, k2: string, v2: string)
    requires IsPlaceholder(k1) && IsPlaceholder(k2) && k1 != k2
    ensures var m := TwoKeys(k1, v1, k2, v2);
      && IsOrder([k1, k2], m) && IsOrder([k2, k1], m)
      && InOrder(line, [k1, k2], m) == ReplaceAll(ReplaceAll(line, k1, v1), k2, v2)
      && InOrder(line, [k2, k1], m) == ReplaceAll(ReplaceAll(line, k2, v2), k1, v1)
  {
    var m := TwoKeys(k1, v1, k2, v2);
    var one := ReplaceAll(line, k1, v1);
    var two := ReplaceAll(line, k2, v2);
    assert [k1, k2][1..] == [k2] && [k2, k1][1..] == [k1];
    assert InOrder(one, [k2], m) == InOrder(ReplaceAll(one, k2, v2), [k2][1..], m);
    assert InOrder(two, [k1], m) == InOrder(ReplaceAll(two, k1, v1), [k1][1..], m);
  }

  /** If a value is itself a placeholder, the two orders give different lines. */
  lemma ValueWithPrefixMatters(k1: string, k2: string, v2: string)
    requires IsPlaceholder(k1) && IsPlaceholder(k2) && k1 != k2 && !Contains(v2, PREFIX)
    ensures var m := TwoKeys(k1, k2, k2, v2);
      InOrder(k1, [k1, k2], m) == v2 && InOrder(k1, [k2, k1], m) == k2 && v2 != k2
  {
    BothOrders(k1, k1, k2, k2, v2);
    OnlyItself(k1, k2);
    ReplaceAbsent(k1, k2, v2);
    ReplaceWhole(k1, k2);
    ReplaceWhole(k2, v2);
    PlainIsNoPlaceholder(v2, k2);
  }

  /** If a placeholder has an underscore before it, a plain value can complete another
      placeholder, and the two orders give different lines. */
  lemma UnboundedMatters(k1: string, k2: string, v2: string)
    requires IsPlaceholder(k1) && IsPlaceholder(k2) && k1 != k2 && !Contains(v2, PREFIX)
    ensures !Contains(k2[1..], PREFIX)
    ensures var m := TwoKeys(k1, k2[1..], k2, v2);
      && InOrder("_" + k1, [k1, k2], m) == v2
      && InOrder("_" + k1, [k2, k1], m) == k2 && v2 != k2
  {
    TailIsPlain(k2, 1);
    BothOrders("_" + k1, k1, k2[1..], k2, v2);
    CompletedByUnderscore(k1, k2);
    ReplaceWhole(k2, v2);
    NotAfterUnderscore(k1, k2);
    ReplaceAbsent("_" + k1, k2, v2);
    PlainIsNoPlaceholder(v2, k2);
  }

  lemma CompletedByUnderscore(k1: string, k2: string)
    requires IsPlaceholder(k1) && IsPlaceholder(k2)
    ensures ReplaceAll("_" + k1, k1, k2[1..]) == k2
  {
    var line := "_" + k1;
    forall i | OccursAt(line + "", k1, i) ensures i == 1 {
      LetterV(k1, 2);
      LetterV(k1, i + 1);
      assert line[i + 2] == line[i..i + |k1|][2] == k1[2];
    }
    assert "_" + k1 + "" == line;
    ReplaceOnlyAt("_", k1, "", k1, k2[1..]);
    assert k2[0] == k2[..|PREFIX|][0] == '_';
    assert "_" + k2[1..] == k2;
  }

  lemma NotAfterUnderscore(k1: string, k2: string)
    requires IsPlaceholder(k1) && IsPlaceholder(k2) && k1 != k2
    ensures forall i | 0 <= i <= |"_" + k1| :: !OccursAt("_" + k1, k2, i)
  {
    var line := "_" + k1;
    LetterV(k2, 2);
    LetterV(k1, 2);
    forall i | 0 <= i <= |line| ensures !OccursAt(line, k2, i) {
      if i + |k2| <= |line| {
        assert line[i..i + |k2|][2] == line[i + 2];
        if i == 1 { assert line[1..] == k1; }
      }
    }
  }

  // ---- One placeholder on the line: the exact condition ----

  /** Both orders of the two keys give the same line. */
  ghost predicate OrdersAgree(line: string, k1: string, v1: string, k2: string, v2: string)
    requires k1 != k2
  {
    var m := TwoKeys(k1, v1, k2, v2);
    InOrder(line, [k1, k2], m) == InOrder(line, [k2, k1], m)
  }

  /** The line `a + k1 + b` shows `k1` there only, and `k2` nowhere. */
  ghost predicate OneOccurrence(a: string, k1: string, b: string, k2: string) {
    && IsPlaceholder(k1) && IsPlaceholder(k2) && k1 != k2
    && (forall i | OccursAt(a + k1 + b, k1, i) :: i == |a|)
    && !Contains(a + k1 + b, k2)
  }

  lemma {:induction false} ReplaceLength(s: string, k: string, v: string)
    requires k != ""
    ensures |v| <= |k| ==> |ReplaceAll(s, k, v)| <= |s|
    ensures |v| >= |k| ==> |ReplaceAll(s, k, v)| >= |s|
    decreases |s|
  {
    if s != "" {
      if OccursAt(s, k, 0) {
        ReplaceLength(s[|k|..], k, v);
      } else {
        ReplaceLength(s[1..], k, v);
      }
    }
  }

  lemma ReplaceShowsAtOnce(s: string, k: string, v: string)
    requires k != "" && v != k && OccursAt(s, k, 0)
    ensures ReplaceAll(s, k, v) != s
  {
    ReplaceLength(s[|k|..], k, v);
    assert s == k + s[|k|..];
    if |v| == |k| {
      assert (v + ReplaceAll(s[|k|..], k, v))[..|k|] == v;
    }
  }

  /** Replacing something that is there by something else shows. */
  lemma {:induction false} ReplaceShows(s: string, k: string, v: string)
    requires k != "" && v != k && Contains(s, k)
    ensures ReplaceAll(s, k, v) != s
    decreases |s|
  {
    if OccursAt(s, k, 0) {
      ReplaceShowsAtOnce(s, k, v);
    } else {
      ContainedInTail(s, k);
      ReplaceSkips(s, k, v);
      ReplaceShows(s[1..], k, v);
      OtherRest(s, ReplaceAll(s[1..], k, v));
    }
  }

  lemma OtherRest(s: string, rest: string)
    requires s != "" && rest != s[1..]
    ensures [s[0]] + rest != s
  {
    assert s == [s[0]] + s[1..];
    if [s[0]] + rest == [s[0]] + s[1..] {
      SameRest([s[0]], rest, s[1..]);
    }
  }

  lemma ContainedInTail(s: string, k: string)
    requires k != "" && Contains(s, k) && !OccursAt(s, k, 0)
    ensures s != "" && Contains(s[1..], k)
  {
    var i :| 0 <= i <= |s| && OccursAt(s, k, i);
    SliceOfSlice(s, 1, |s|, i - 1, i - 1 + |k|);
    OccurrenceIsContained(s[1..], k, i - 1);
  }

  /** For given prefix-free values: the orders agree if and only if putting in the first value
      does not complete the other placeholder. */
  lemma OneOccurrenceExact(a: string, k1: string, v1: string, b: string, k2: string, v2: string)
    requires OneOccurrence(a, k1, b, k2) && !Contains(v1, PREFIX) && !Contains(v2, PREFIX)
    ensures OrdersAgree(a + k1 + b, k1, v1, k2, v2) <==> !Contains(a + v1 + b, k2)
  {
    BothOrders(a + k1 + b, k1, v1, k2, v2);
    ReplaceOnlyAt(a, k1, b, k1, v1);
    AbsentIsKept(a + k1 + b, k2, v2);
    PlainIsNoPlaceholder(v2, k2);
    if Contains(a + v1 + b, k2) {
      ReplaceShows(a + v1 + b, k2, v2);
    } else {
      AbsentIsKept(a + v1 + b, k2, v2);
    }
  }

  lemma AbsentIsKept(s: string, k: string, v: string)
    requires k != "" && !Contains(s, k)
    ensures ReplaceAll(s, k, v) == s
  {
    forall i | 0 <= i <= |s| ensures !OccursAt(s, k, i) {
      if OccursAt(s, k, i) { OccurrenceIsContained(s, k, i); }
    }
    ReplaceAbsent(s, k, v);
  }

  /** Some prefix-free value completes `k2` between `a` and `b`: `a` ends with a beginning of it,
      or `b` starts with all of it but a piece shorter than the prefix. */
  ghost predicate CanComplete(a: string, k2: string, b: string)
    requires |k2| == LENGTH
  {
    (exists n :: 1 <= n < LENGTH && EndsWith(a, k2[..n])) || (exists n :: 1 <= n < |PREFIX| && k2[n..] <= b)
  }

  lemma Completion(a: string, k2: string, b: string) returns (v1: string)
    requires IsPlaceholder(k2) && CanComplete(a, k2, b)
    ensures !Contains(v1, PREFIX) && Contains(a + v1 + b, k2)
  {
    if n :| 1 <= n < LENGTH && EndsWith(a, k2[..n]) {
      v1 := k2[n..];
      TailIsPlain(k2, n);
      CompletedOnTheLeft(a, k2, b, n);
    } else {
      var n :| 1 <= n < |PREFIX| && k2[n..] <= b;
      v1 := k2[..n];
      CompletedOnTheRight(a, k2, b, n);
    }
  }

  lemma CompletedOnTheLeft(a: string, k: string, b: string, n: nat)
    requires n <= |k| && EndsWith(a, k[..n])
    ensures Contains(a + k[n..] + b, k)
  {
    assert a + k[n..] + b == a + (k[n..] + b);
    StandsAcross(a, k[n..] + b, k, n);
    OccurrenceIsContained(a + k[n..] + b, k, |a| - n);
  }

  lemma CompletedOnTheRight(a: string, k: string, b: string, n: nat)
    requires n <= |k| && k[n..] <= b
    ensures Contains(a + k[..n] + b, k)
  {
    assert (a + k[..n])[|a|..] == k[..n];
    StandsAcross(a + k[..n], b, k, n);
    OccurrenceIsContained(a + k[..n] + b, k, |a|);
  }

  /** Conversely a prefix-free value can complete it in these ways only. */
  lemma CompletedOnlyThus(a: string, v1: string, b: string, k2: string)
    requires IsPlaceholder(k2) && !Contains(v1, PREFIX) && !Contains(a, k2) && !Contains(b, k2)
    requires Contains(a + v1 + b, k2)
    ensures CanComplete(a, k2, b)
  {
    var s := a + v1 + b;
    var i :| 0 <= i <= |s| && OccursAt(s, k2, i);
    if i + LENGTH <= |a| {
      SliceOfMiddle("", a, v1 + b, i, i + LENGTH);
      assert s == "" + a + (v1 + b);
      OccurrenceIsContained(a, k2, i);
    } else if i < |a| {
      assert s == a + (v1 + b);
      AcrossParts(a, v1 + b, k2, i);
    } else if |a| + |v1| <= i {
      assert s == (a + v1) + b;
      SliceOfSecond(a + v1, b, i - |a| - |v1|, i - |a| - |v1| + LENGTH);
      OccurrenceIsContained(b, k2, i - |a| - |v1|);
    } else {
      CompletedInside(a, v1, b, k2, i);
    }
  }

  lemma CompletedInside(a: string, v1: string, b: string, k2: string, i: nat)
    requires IsPlaceholder(k2) && !Contains(v1, PREFIX)
    requires |a| <= i < |a| + |v1| && OccursAt(a + v1 + b, k2, i)
    ensures CanComplete(a, k2, b)
  {
    var s := a + v1 + b;
    var n := |a| + |v1| - i;
    if n >= |PREFIX| {
      SliceOfSlice(s, i, i + LENGTH, 0, |PREFIX|);
      SliceOfMiddle(a, v1, b, i - |a|, i - |a| + |PREFIX|);
      OccurrenceIsContained(v1, PREFIX, i - |a|);
    } else {
      assert s == (a + v1) + b;
      AcrossParts(a + v1, b, k2, i);
    }
  }

  /** The exact condition on the line: for one placeholder on a line, the orders agree for all
      prefix-free values if and only if no prefix-free value can complete the other key. The
      bound on the left is needed against every beginning of the other key; on the right only
      against nearly all of it. */
  lemma LineExact(a: string, k1: string, b: string, k2: string)
    requires OneOccurrence(a, k1, b, k2)
    ensures (forall v1, v2 | !Contains(v1, PREFIX) && !Contains(v2, PREFIX) :: OrdersAgree(a + k1 + b, k1, v1, k2, v2))
       <==> !CanComplete(a, k2, b)
  {
    if CanComplete(a, k2, b) {
      var v1 := Completion(a, k2, b);
      OneOccurrenceExact(a, k1, v1, b, k2, "");
      assert !Contains("", PREFIX) && !OrdersAgree(a + k1 + b, k1, v1, k2, "");
    } else {
      NotInParts(a, k1, b, k2);
      forall v1, v2 | !Contains(v1, PREFIX) && !Contains(v2, PREFIX) ensures OrdersAgree(a + k1 + b, k1, v1, k2, v2) {
        OneOccurrenceExact(a, k1, v1, b, k2, v2);
        if Contains(a + v1 + b, k2) {
          CompletedOnlyThus(a, v1, b, k2);
        }
      }
    }
  }

  lemma NotInParts(a: string, k: string, b: string, p: string)
    requires !Contains(a + k + b, p)
    ensures !Contains(a, p) && !Contains(b, p)
  {
    if Contains(a, p) {
      assert a + k + b == "" + a + (k + b);
      ContainedInPart("", a, k + b, p);
    } else if Contains(b, p) {
      assert a + k + b == (a + k) + b + "";
      ContainedInPart(a + k, b, "", p);
    }
  }

  lemma PlainIsNoPlaceholder(v: string, k: string)
    requires !Contains(v, PREFIX) && IsPlaceholder(k)
    ensures v != k
  {
    assert OccursAt(k, PREFIX, 0);
  }

  lemma AbsentByChar(s: string, p: string, n: nat)
    requires n < |p| && forall j | n <= j < |s| :: s[j] != p[n]
    ensures !Contains(s, p)
  {
    forall i | 0 <= i <= |s| ensures !OccursAt(s, p, i) {
      if OccursAt(s, p, i) {
        OccursAtChar(s, p, i, n);
      }
    }
  }

  /** The prefix stands in a placeholder only at its start. */
  lemma TailIsPlain(k: string, d: nat)
    requires IsPlaceholder(k) && 1 <= d <= LENGTH
    ensures !Contains(k[d..], PREFIX)
  {
    forall j | 2 <= j < |k[d..]| ensures k[d..][j] != PREFIX[2] {
      LetterV(k, d + j);
    }
    AbsentByChar(k[d..], PREFIX, 2);
  }

  lemma ReplaceWhole(k: string, v: string)
    requires k != ""
    ensures ReplaceAll(k, k, v) == v
  {
    assert k[|k|..] == "";
    assert ReplaceAll(k, k, v) == v + ReplaceAll("", k, v);
  }

  lemma OnlyAtTheStart(k: string, b: string)
    requires k != "" && forall i | OccursAt(k + b, k, i) :: i == 0
    ensures forall i | 0 <= i <= |b| :: !OccursAt(b, k, i)
  {
    forall i | 0 <= i <= |b| && OccursAt(b, k, i) ensures OccursAt(k + b, k, |k| + i) {
      SliceOfSecond(k, b, i, i + |k|);
    }
  }

  /** A pattern that stands in the text at one place only. */
  lemma {:induction false} ReplaceOnlyAt(a: string, t: string, b: string, k: string, v: string)
    requires k != "" && t == k
    requires forall i | OccursAt(a + t + b, k, i) :: i == |a|
    ensures ReplaceAll(a + t + b, k, v) == a + v + b
    decreases |a|
  {
    if a == "" {
      assert a + t + b == k + b && a + v + b == v + b;
      OnlyAtTheStart(k, b);
      ReplaceAbsent(b, k, v);
      ReplaceAtStart(k, b, v);
    } else {
      OnlyAtInTail(a, t, b, k);
      ReplaceOnlyAt(a[1..], t, b, k, v);
      FirstApart(a, t, b);
      FirstApart(a, v, b);
      assert !OccursAt(a + t + b, k, 0);
      ReplaceSkips(a + t + b, k, v);
    }
  }

  lemma FirstApart(a: string, x: string, b: string)
    requires a != ""
    ensures (a + x + b)[0] == a[0] && (a + x + b)[1..] == a[1..] + x + b
    ensures a + x + b == [a[0]] + (a[1..] + x + b)
  {
  }

  lemma ReplaceAtStart(k: string, b: string, v: string)
    requires k != ""
    ensures ReplaceAll(k + b, k, v) == v + ReplaceAll(b, k, v)
  {
    assert (k + b)[|k|..] == b;
  }

  lemma ReplaceSkips(s: string, k: string, v: string)
    requires s != "" && k != "" && !OccursAt(s, k, 0)
    ensures ReplaceAll(s, k, v) == [s[0]] + ReplaceAll(s[1..], k, v)
  {
  }

  lemma OnlyAtInTail(a: string, t: string, b: string, k: string)
    requires a != "" && forall i | OccursAt(a + t + b, k, i) :: i == |a|
    ensures forall i | OccursAt(a[1..] + t + b, k, i) :: i == |a[1..]|
  {
    var s := a + t + b;
    assert s[1..] == a[1..] + t + b;
    forall i | OccursAt(s[1..], k, i) ensures i == |a[1..]| {
      SliceOfSlice(s, 1, |s|, i, i + |k|);
      assert OccursAt(s, k, i + 1);
    }
  }
}
