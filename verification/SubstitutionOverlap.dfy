/** Two placeholders that overlap on a line: `___` closes one and `__VDBI_PH_` opens the next, so
    they can share one or two underscores (pkg/nri/substitute.go). */
module SubstitutionOverlap {
  import opened Strings
  import opened Placeholder
  import opened Substitution
  import opened SubstitutionLimits

  /** When the values put the `d` shared underscores back: the first value ends with them and
      the second begins with them; or the first value is all three underscores and the second
      goes on with the rest of the first placeholder, which the second order then finds again. */
  predicate PutsBack(k1: string, v1: string, v2: string, d: nat)
    requires |k1| == LENGTH && 1 <= d <= 2
  {
    EndsWith(v1, SUFFIX[..d]) && (SUFFIX[..d] <= v2 || (v1 == SUFFIX && k1[3 - d..] <= v2))
  }

  /** The exact condition for a line in which two placeholders share `d` underscores, with other
      characters or the line's ends around them: for prefix-free values the two orders agree if
      and only if the values put the shared underscores back. */
  lemma OverlapInLine(head: string, k1: string, v1: string, k2: string, v2: string, d: nat, tail: string)
    requires IsPlaceholder(k1) && IsPlaceholder(k2) && k1 != k2 && 1 <= d <= 2
    requires !Contains(v1, PREFIX) && !Contains(v2, PREFIX)
    requires head == "" || !InAlphabet(head[|head| - 1])
    requires tail == "" || !InAlphabet(tail[0])
    requires Without(head, k1, k2) && Without(tail, k1, k2)
    ensures OrdersAgree(head + (k1 + k2[d..]) + tail, k1, v1, k2, v2) <==> PutsBack(k1, v1, v2, d)
  {
    var glued := k1 + k2[d..];
    OverlapMatters(k1, v1, k2, v2, d);
    Headless(head, glued, k1, v1, k2, v2);
    Tailless(head + glued, tail, k1, v1, k2, v2);
  }

  lemma Headless(head: string, x: string, k1: string, v1: string, k2: string, v2: string)
    requires IsPlaceholder(k1) && IsPlaceholder(k2) && k1 != k2 && Without(head, k1, k2)
    requires head == "" || !InAlphabet(head[|head| - 1])
    ensures OrdersAgree(head + x, k1, v1, k2, v2) <==> OrdersAgree(x, k1, v1, k2, v2)
  {
    if head == "" {
      assert head + x == x;
    } else {
      var a, c := head[..|head| - 1], head[|head| - 1];
      assert head == a + [c] == "" + a + [c];
      PartWithout("", a, [c], k1, k2);
      HeadDoesNotMatter(a, c, x, k1, v1, k2, v2);
    }
  }

  lemma Tailless(x: string, tail: string, k1: string, v1: string, k2: string, v2: string)
    requires IsPlaceholder(k1) && IsPlaceholder(k2) && k1 != k2 && Without(tail, k1, k2)
    requires tail == "" || !InAlphabet(tail[0])
    ensures OrdersAgree(x + tail, k1, v1, k2, v2) <==> OrdersAgree(x, k1, v1, k2, v2)
  {
    if tail == "" {
      assert x + tail == x;
    } else {
      var c, b := tail[0], tail[1..];
      assert tail == [c] + b == [c] + b + "" && x + tail == x + [c] + b;
      PartWithout([c], b, "", k1, k2);
      TailDoesNotMatter(x, c, b, k1, v1, k2, v2);
    }
  }

  predicate Without(s: string, k1: string, k2: string) { !Contains(s, k1) && !Contains(s, k2) }

  lemma PartWithout(a: string, s: string, b: string, k1: string, k2: string)
    requires Without(a + s + b, k1, k2)
    ensures Without(s, k1, k2)
  {
    if Contains(s, k1) { ContainedInPart(a, s, b, k1); }
    if Contains(s, k2) { ContainedInPart(a, s, b, k2); }
  }

  lemma HeadDoesNotMatter(a: string, c: char, x: string, k1: string, v1: string, k2: string, v2: string)
    requires IsPlaceholder(k1) && IsPlaceholder(k2) && k1 != k2 && !InAlphabet(c) && Without(a, k1, k2)
    ensures OrdersAgree(a + [c] + x, k1, v1, k2, v2) <==> OrdersAgree(x, k1, v1, k2, v2)
  {
    var m := TwoKeys(k1, v1, k2, v2);
    forall order | order in [[k1, k2], [k2, k1]]
      ensures InOrder(a + [c] + x, order, m) == (a + [c]) + InOrder(x, order, m)
    {
      InOrderAcross(a, c, x, order, m);
      InOrderAbsent(a, order, m);
    }
    if OrdersAgree(a + [c] + x, k1, v1, k2, v2) {
      SameRest(a + [c], InOrder(x, [k1, k2], m), InOrder(x, [k2, k1], m));
    }
  }

  lemma TailDoesNotMatter(x: string, c: char, b: string, k1: string, v1: string, k2: string, v2: string)
    requires IsPlaceholder(k1) && IsPlaceholder(k2) && k1 != k2 && !InAlphabet(c) && Without(b, k1, k2)
    ensures OrdersAgree(x + [c] + b, k1, v1, k2, v2) <==> OrdersAgree(x, k1, v1, k2, v2)
  {
    var m := TwoKeys(k1, v1, k2, v2);
    forall order | order in [[k1, k2], [k2, k1]]
      ensures InOrder(x + [c] + b, order, m) == InOrder(x, order, m) + ([c] + b)
    {
      InOrderAcross(x, c, b, order, m);
      InOrderAbsent(b, order, m);
    }
    if OrdersAgree(x + [c] + b, k1, v1, k2, v2) {
      Cancel(InOrder(x, [k1, k2], m), InOrder(x, [k2, k1], m), [c] + b);
    }
  }

  /** The two by themselves. */
  lemma OverlapMatters(k1: string, v1: string, k2: string, v2: string, d: nat)
    requires IsPlaceholder(k1) && IsPlaceholder(k2) && k1 != k2 && 1 <= d <= 2
    requires !Contains(v1, PREFIX) && !Contains(v2, PREFIX)
    ensures OccursAt(k1 + k2[d..], k1, 0) && OccursAt(k1 + k2[d..], k2, LENGTH - d)
    ensures OrdersAgree(k1 + k2[d..], k1, v1, k2, v2) <==> PutsBack(k1, v1, v2, d)
  {
    FirstThenSecond(k1, v1, k2, v2, d);
    SecondThenFirst(k1, v1, k2, v2, d);
    GluedResults(k1, v1, k2, v2, d);
  }

  // ---- The two orders ----

  function FirstOrder(v1: string, k2: string, v2: string, d: nat): string
    requires |k2| == LENGTH && 1 <= d <= 2
  {
    if EndsWith(v1, SUFFIX[..d]) then v1[..|v1| - d] + v2 else v1 + k2[d..]
  }

  function SecondOrder(k1: string, v1: string, v2: string, d: nat): string
    requires |k1| == LENGTH && 1 <= d <= 2
  {
    if SUFFIX[..d] <= v2 then v1 + v2[d..]
    else if k1[3 - d..] <= v2 then k1[..LENGTH - 3] + v1 + v2[LENGTH - 3 + d..]
    else k1[..LENGTH - d] + v2
  }

  lemma FirstThenSecond(k1: string, v1: string, k2: string, v2: string, d: nat)
    requires IsPlaceholder(k1) && IsPlaceholder(k2) && k1 != k2 && 1 <= d <= 2
    requires !Contains(v1, PREFIX)
    ensures OccursAt(k1 + k2[d..], k1, 0)
    ensures InOrder(k1 + k2[d..], [k1, k2], TwoKeys(k1, v1, k2, v2)) == FirstOrder(v1, k2, v2, d)
  {
    BothOrders(k1 + k2[d..], k1, v1, k2, v2);
    ReplaceFirst(k1, k2[d..], v1);
    SecondAfterFirst(k2, v1, v2, d);
    assert (k1 + k2[d..])[..|k1|] == k1;
  }

  lemma SecondThenFirst(k1: string, v1: string, k2: string, v2: string, d: nat)
    requires IsPlaceholder(k1) && IsPlaceholder(k2) && k1 != k2 && 1 <= d <= 2
    requires !Contains(v2, PREFIX)
    ensures OccursAt(k1 + k2[d..], k2, LENGTH - d)
    ensures InOrder(k1 + k2[d..], [k2, k1], TwoKeys(k1, v1, k2, v2)) == SecondOrder(k1, v1, v2, d)
  {
    var head, line := k1[..LENGTH - d], k1 + k2[d..];
    Underscores(k1, d);
    Underscores(k2, d);
    assert k1 == head + SUFFIX[..d] && k2 == SUFFIX[..d] + k2[d..];
    assert line == head + k2 == head + k2 + "";
    assert line[..LENGTH] == k1;
    OnlyWhereGlued(head, k2);
    ReplaceOnlyAt(head, k2, "", k2, v2);
    assert ReplaceAll(line, k2, v2) == head + v2;
    BothOrders(line, k1, v1, k2, v2);
    FirstAfterSecond(k1, v1, v2, d);
  }

  lemma ReplaceFirst(k: string, tail: string, v: string)
    requires k != "" && |tail| < |k|
    ensures ReplaceAll(k + tail, k, v) == v + tail
  {
    assert (k + tail)[|k|..] == tail;
    ReplaceAbsent(tail, k, v);
  }

  lemma Underscores(k: string, d: nat)
    requires IsPlaceholder(k) && 1 <= d <= 2
    ensures k[LENGTH - d..] == SUFFIX[..d] == k[..d]
    ensures k[LENGTH - 3] == k[LENGTH - 2] == k[LENGTH - 1] == '_'
  {
    assert k[LENGTH - |SUFFIX|..] == SUFFIX;
    assert k[LENGTH - d..] == k[LENGTH - |SUFFIX|..][|SUFFIX| - d..] == SUFFIX[|SUFFIX| - d..];
    assert k[..d] == k[..|PREFIX|][..d] == PREFIX[..d];
  }

  lemma OnlyWhereGlued(head: string, k2: string)
    requires IsPlaceholder(k2) && LENGTH - 2 <= |head| < LENGTH
    requires exists k1 :: IsPlaceholder(k1) && head == k1[..|head|] && (head + k2)[..LENGTH] == k1 != k2
    ensures forall i | OccursAt(head + k2 + "", k2, i) :: i == |head|
  {
    var k1 :| IsPlaceholder(k1) && head == k1[..|head|] && (head + k2)[..LENGTH] == k1 != k2;
    var t := head + k2;
    assert head + k2 + "" == t;
    assert OccursAt(t, k1, 0);
    forall i | OccursAt(t, k2, i) ensures i == |head| {
      if i > 0 {
        OverlapByAtMostTwo(t, k1, 0, k2, i);
        assert t[|head|..|head| + |k2|] == k2;
        if i < |head| { OverlapByAtMostTwo(t, k2, i, k2, |head|); }
      }
    }
  }

  /** After the first key is replaced, the second stands in `v1 + k2[d..]` exactly if the
      value brings its opening underscores back. */
  lemma SecondAfterFirst(k2: string, v1: string, v2: string, d: nat)
    requires IsPlaceholder(k2) && 1 <= d <= 2 && !Contains(v1, PREFIX)
    ensures ReplaceAll(v1 + k2[d..], k2, v2) == FirstOrder(v1, k2, v2, d)
  {
    var t := v1 + k2[d..];
    Underscores(k2, d);
    SecondInTail(k2, v1, d, t);
    if EndsWith(v1, SUFFIX[..d]) {
      var a := v1[..|v1| - d];
      assert v1 == a + SUFFIX[..d] && SUFFIX[..d] + k2[d..] == k2;
      assert t == a + k2 + "";
      ReplaceOnlyAt(a, k2, "", k2, v2);
    } else {
      ReplaceAbsent(t, k2, v2);
    }
  }

  lemma SecondInTail(k2: string, v1: string, d: nat, t: string)
    requires IsPlaceholder(k2) && 1 <= d <= 2 && !Contains(v1, PREFIX) && t == v1 + k2[d..]
    ensures forall i | OccursAt(t, k2, i) :: i == |v1| - d && EndsWith(v1, SUFFIX[..d])
  {
    Underscores(k2, d);
    forall i | OccursAt(t, k2, i) ensures i == |v1| - d && EndsWith(v1, SUFFIX[..d]) {
      var n := |v1| - i;
      if n >= |PREFIX| {
        SliceOfSlice(t, i, i + LENGTH, 0, |PREFIX|);
        assert t[i..i + |PREFIX|] == v1[i..i + |PREFIX|];
        OccurrenceIsContained(v1, PREFIX, i);
      } else {
        OccursAtChar(t, k2, i, n + 2 - d);
        assert t[|v1| + 2 - d] == k2[2];
        LetterV(k2, 2);
        LetterV(k2, n + 2 - d);
        SliceOfSlice(t, i, i + LENGTH, 0, d);
        assert t[i..i + d] == v1[i..];
      }
    }
  }

  /** After the second key is replaced, the first stands at the start if `v2` brings its closing
      underscores back, or else further on if `v2` brings all of it but its opening ones. */
  lemma FirstAfterSecond(k1: string, v1: string, v2: string, d: nat)
    requires IsPlaceholder(k1) && 1 <= d <= 2 && !Contains(v2, PREFIX)
    ensures ReplaceAll(k1[..LENGTH - d] + v2, k1, v1) == SecondOrder(k1, v1, v2, d)
  {
    var head := k1[..LENGTH - d];
    Underscores(k1, d);
    if SUFFIX[..d] <= v2 {
      assert head + k1[LENGTH - d..] == k1 && v2 == v2[..d] + v2[d..];
      assert head + v2 == k1 + v2[d..];
      ReplaceAtStart(k1, v2[d..], v1);
      TailOfPlain(v2, d, k1);
      AbsentIsKept(v2[d..], k1, v1);
    } else {
      FirstInHead(k1, v2, d, head + v2);
      if k1[3 - d..] <= v2 {
        RefoundLater(k1, v1, v2, d, head + v2);
      } else {
        ReplaceAbsent(head + v2, k1, v1);
      }
    }
  }

  lemma RefoundLater(k1: string, v1: string, v2: string, d: nat, u: string)
    requires IsPlaceholder(k1) && 1 <= d <= 2 && k1[3 - d..] <= v2 && u == k1[..LENGTH - d] + v2
    requires forall i | OccursAt(u, k1, i) :: i == LENGTH - 3
    ensures ReplaceAll(u, k1, v1) == k1[..LENGTH - 3] + v1 + v2[LENGTH - 3 + d..]
  {
    var a, w := k1[..LENGTH - 3], v2[LENGTH - 3 + d..];
    RefoundText(k1, v2, d);
    ReplaceOnlyAt(a, k1, w, k1, v1);
  }

  lemma RefoundText(k1: string, v2: string, d: nat)
    requires IsPlaceholder(k1) && 1 <= d <= 2 && k1[3 - d..] <= v2
    ensures k1[..LENGTH - d] + v2 == k1[..LENGTH - 3] + k1 + v2[LENGTH - 3 + d..]
  {
    ThreeUnderscores(k1, d);
    assert v2 == k1[3 - d..] + v2[LENGTH - 3 + d..] && k1 == k1[..3 - d] + k1[3 - d..];
    assert k1[..LENGTH - d] == k1[..LENGTH - 3] + k1[LENGTH - 3..LENGTH - d];
  }

  /** The closing underscores but `d` are the opening ones as far as these go. */
  lemma ThreeUnderscores(k: string, d: nat)
    requires IsPlaceholder(k) && 1 <= d <= 2
    ensures k[LENGTH - 3..LENGTH - d] == k[..3 - d]
  {
    Underscores(k, 1);
    Underscores(k, 2);
    assert forall i | 0 <= i < 3 - d :: k[LENGTH - 3..LENGTH - d][i] == '_' && k[..3 - d][i] == k[..2][i] == '_';
  }

  lemma TailOfPlain(v: string, d: nat, k: string)
    requires !Contains(v, PREFIX) && d <= |v| && IsPlaceholder(k)
    ensures !Contains(v[d..], k)
  {
    if Contains(v[d..], k) {
      var i :| 0 <= i <= |v[d..]| && OccursAt(v[d..], k, i);
      SliceOfSlice(v, d, |v|, i, i + LENGTH);
      assert v[d + i..d + i + LENGTH] == k;
      PlaceholderHasPrefix(v, k, d + i);
      OccurrenceIsContained(v, PREFIX, d + i);
    }
  }

  lemma FirstInHead(k1: string, v2: string, d: nat, u: string)
    requires IsPlaceholder(k1) && 1 <= d <= 2 && !Contains(v2, PREFIX) && u == k1[..LENGTH - d] + v2
    requires !(SUFFIX[..d] <= v2)
    ensures forall i | OccursAt(u, k1, i) :: i == LENGTH - 3 && k1[3 - d..] <= v2
  {
    forall i | OccursAt(u, k1, i) ensures i == LENGTH - 3 && k1[3 - d..] <= v2 {
      WhereInHead(k1, v2, d, u, i);
    }
  }

  lemma WhereInHead(k1: string, v2: string, d: nat, u: string, i: nat)
    requires IsPlaceholder(k1) && 1 <= d <= 2 && !Contains(v2, PREFIX) && u == k1[..LENGTH - d] + v2
    requires !(SUFFIX[..d] <= v2) && OccursAt(u, k1, i)
    ensures i == LENGTH - 3 && k1[3 - d..] <= v2
  {
    var head := k1[..LENGTH - d];
    NotBeyond(head, v2, k1, i);
    OccursAtChar(u, k1, i, 2);
    LetterV(k1, 2);
    if i + 2 < |head| {
      LetterV(k1, i + 2);
      AtTheStart(k1, v2, d, u);
    } else {
      AtTheEnd(k1, v2, d, u, i);
    }
  }

  lemma NotBeyond(head: string, v2: string, k: string, i: nat)
    requires IsPlaceholder(k) && !Contains(v2, PREFIX) && OccursAt(head + v2, k, i)
    ensures i < |head|
  {
    if i >= |head| {
      SliceOfSecond(head, v2, i - |head|, i - |head| + LENGTH);
      assert v2[i - |head|..i - |head| + LENGTH] == k;
      PlaceholderHasPrefix(v2, k, i - |head|);
      OccurrenceIsContained(v2, PREFIX, i - |head|);
    }
  }

  lemma AtTheStart(k1: string, v2: string, d: nat, u: string)
    requires IsPlaceholder(k1) && 1 <= d <= 2 && u == k1[..LENGTH - d] + v2 && OccursAt(u, k1, 0)
    ensures SUFFIX[..d] <= v2
  {
    Underscores(k1, d);
    SliceOfSlice(u, 0, LENGTH, LENGTH - d, LENGTH);
    SliceOfSecond(k1[..LENGTH - d], v2, 0, d);
  }

  lemma AtTheEnd(k1: string, v2: string, d: nat, u: string, i: nat)
    requires IsPlaceholder(k1) && 1 <= d <= 2 && u == k1[..LENGTH - d] + v2
    requires OccursAt(u, k1, i) && LENGTH - d - 2 <= i < LENGTH - d && !(SUFFIX[..d] <= v2)
    ensures i == LENGTH - 3 && k1[3 - d..] <= v2
  {
    var head := k1[..LENGTH - d];
    var n := |head| - i;
    OccursAtChar(u, k1, i, 0);
    NotAtHex(k1);
    SliceOfSlice(u, i, i + LENGTH, n, LENGTH);
    SliceOfSecond(head, v2, 0, LENGTH - n);
    assert k1[n..] == v2[..LENGTH - n];
  }

  lemma NotAtHex(k: string)
    requires IsPlaceholder(k)
    ensures k[LENGTH - 4] != '_' && k[1] == '_' && k[0] == '_'
  {
    assert IsHex(k[LENGTH - 4]);
    assert k[..|PREFIX|][0] == '_' && k[..|PREFIX|][1] == '_';
  }

  // ---- When the results agree ----

  /** A plain text that a line beginning like a placeholder also begins with is a short beginning
      of the placeholder. */
  lemma ShortStart(k: string, n: nat, y: string, v: string, z: string)
    requires IsPlaceholder(k) && |PREFIX| <= n <= LENGTH && !Contains(v, PREFIX)
    requires k[..n] + y == v + z
    ensures |v| < |PREFIX| && v == k[..|v|]
  {
    var t := v + z;
    assert t[..|PREFIX|] == (k[..n] + y)[..|PREFIX|] == k[..|PREFIX|] == PREFIX;
    if |v| >= |PREFIX| {
      assert v[..|PREFIX|] == t[..|PREFIX|];
      OccurrenceIsContained(v, PREFIX, 0);
    } else {
      assert v == t[..|v|] == (k[..n] + y)[..|v|] == k[..|v|];
    }
  }

  lemma GluedResults(k1: string, v1: string, k2: string, v2: string, d: nat)
    requires IsPlaceholder(k1) && IsPlaceholder(k2) && 1 <= d <= 2
    requires !Contains(v1, PREFIX) && !Contains(v2, PREFIX)
    ensures FirstOrder(v1, k2, v2, d) == SecondOrder(k1, v1, v2, d) <==> PutsBack(k1, v1, v2, d)
  {
    if EndsWith(v1, SUFFIX[..d]) {
      ResultsIfItEnds(k1, v1, k2, v2, d);
    } else {
      ResultsIfNot(k1, v1, k2, v2, d);
    }
  }

  lemma ResultsIfItEnds(k1: string, v1: string, k2: string, v2: string, d: nat)
    requires IsPlaceholder(k1) && IsPlaceholder(k2) && 1 <= d <= 2 && EndsWith(v1, SUFFIX[..d])
    requires !Contains(v1, PREFIX) && !Contains(v2, PREFIX)
    ensures FirstOrder(v1, k2, v2, d) == SecondOrder(k1, v1, v2, d) <==> PutsBack(k1, v1, v2, d)
  {
    var x := v1[..|v1| - d];
    assert v1 == x + SUFFIX[..d];
    if SUFFIX[..d] <= v2 {
      assert v2 == SUFFIX[..d] + v2[d..];
      assert x + v2 == v1 + v2[d..];
    } else if k1[3 - d..] <= v2 {
      Refound(k1, x, v1, v2, d);
    } else if x + v2 == k1[..LENGTH - d] + v2 {
      Cancel(x, k1[..LENGTH - d], v2);
      PlainIsShort(k1, x, v1, d);
    }
  }

  lemma ResultsIfNot(k1: string, v1: string, k2: string, v2: string, d: nat)
    requires IsPlaceholder(k1) && IsPlaceholder(k2) && 1 <= d <= 2 && !EndsWith(v1, SUFFIX[..d])
    requires !Contains(v1, PREFIX) && !Contains(v2, PREFIX)
    ensures FirstOrder(v1, k2, v2, d) != SecondOrder(k1, v1, v2, d)
  {
    if SUFFIX[..d] <= v2 {
      OtherTail(v1, k2, v2, d);
    } else if k1[3 - d..] <= v2 {
      var w := v2[LENGTH - 3 + d..];
      if v1 + k2[d..] == k1[..LENGTH - 3] + v1 + w {
        assert k1[..LENGTH - 3] + (v1 + w) == v1 + k2[d..];
        EndsAnyway(k1, LENGTH - 3, v1 + w, v1, k2, d);
      }
    } else if v1 + k2[d..] == k1[..LENGTH - d] + v2 {
      EndsAnyway(k1, LENGTH - d, v2, v1, k2, d);
    }
  }

  lemma OtherTail(v1: string, k2: string, v2: string, d: nat)
    requires IsPlaceholder(k2) && 1 <= d <= 2 && SUFFIX[..d] <= v2 && !Contains(v2, PREFIX)
    ensures v1 + k2[d..] != v1 + v2[d..]
  {
    if v1 + k2[d..] == v1 + v2[d..] {
      assert k2[d..] == (v1 + k2[d..])[|v1|..] == (v1 + v2[d..])[|v1|..] == v2[d..];
      Underscores(k2, d);
      assert k2 == SUFFIX[..d] + k2[d..] == v2[..d] + v2[d..] == v2;
      PlainIsNoPlaceholder(v2, k2);
    }
  }

  lemma Cancel(x: string, y: string, z: string)
    requires x + z == y + z
    ensures x == y
  {
    assert |x| == |y|;
    assert x == (x + z)[..|x|] == (y + z)[..|y|] == y;
  }

  lemma PlainIsShort(k1: string, x: string, v1: string, d: nat)
    requires IsPlaceholder(k1) && 1 <= d <= 2 && x == k1[..LENGTH - d] && x <= v1
    ensures Contains(v1, PREFIX)
  {
    assert v1[..|PREFIX|] == x[..|PREFIX|] == k1[..|PREFIX|];
    OccurrenceIsContained(v1, PREFIX, 0);
  }

  /** The letter V tells where the two texts must be cut. */
  lemma EndsAnyway(k1: string, n: nat, y: string, v1: string, k2: string, d: nat)
    requires IsPlaceholder(k1) && IsPlaceholder(k2) && 1 <= d <= 2 && LENGTH - 3 <= n <= LENGTH
    requires !Contains(v1, PREFIX) && v1 + k2[d..] == k1[..n] + y
    ensures EndsWith(v1, SUFFIX[..d])
  {
    ShortStart(k1, n, y, v1, k2[d..]);
    var j := |v1| + 2 - d;
    assert (v1 + k2[d..])[j] == k2[2] && (k1[..n] + y)[j] == k1[j];
    LetterV(k2, 2);
    LetterV(k1, j);
    Underscores(k1, d);
  }

  lemma Refound(k1: string, x: string, v1: string, v2: string, d: nat)
    requires IsPlaceholder(k1) && 1 <= d <= 2 && v1 == x + SUFFIX[..d] && k1[3 - d..] <= v2 && !Contains(v1, PREFIX)
    ensures x + v2 == k1[..LENGTH - 3] + v1 + v2[LENGTH - 3 + d..] <==> v1 == SUFFIX
  {
    var w, tail, a := v2[LENGTH - 3 + d..], k1[3 - d..], k1[..LENGTH - 3];
    assert v2 == tail + w;
    assert x + v2 == (x + tail) + w && a + v1 + w == (a + v1) + w;
    if (x + tail) + w == (a + v1) + w {
      Cancel(x + tail, a + v1, w);
    }
    RefoundExactly(k1, x, v1, d);
  }

  lemma RefoundExactly(k1: string, x: string, v1: string, d: nat)
    requires IsPlaceholder(k1) && 1 <= d <= 2 && v1 == x + SUFFIX[..d] && !Contains(v1, PREFIX)
    ensures x + k1[3 - d..] == k1[..LENGTH - 3] + v1 <==> v1 == SUFFIX
  {
    Underscores(k1, d);
    ThreeUnderscores(k1, d);
    assert SUFFIX == SUFFIX[..3 - d] + SUFFIX[..d];
    assert k1 == k1[..LENGTH - 3] + SUFFIX;
    assert k1[..3 - d] == SUFFIX[..3 - d] by { Underscores(k1, 3 - d); }
    if v1 == SUFFIX {
      assert x == SUFFIX[..3 - d];
      assert x + k1[3 - d..] == k1;
    }
    if x + k1[3 - d..] == k1[..LENGTH - 3] + v1 {
      PlainStart(v1, x);
      ShortStart(k1, LENGTH - 3, v1, x, k1[3 - d..]);
      var j := |x| + d - 1;
      assert (x + k1[3 - d..])[j] == k1[2] && (k1[..LENGTH - 3] + v1)[j] == k1[j];
      LetterV(k1, 2);
      LetterV(k1, j);
      assert x == k1[..3 - d];
    }
  }

  lemma PlainStart(v: string, x: string)
    requires !Contains(v, PREFIX) && x <= v
    ensures !Contains(x, PREFIX)
  {
    if Contains(x, PREFIX) {
      assert v == "" + x + v[|x|..];
      ContainedInPart("", x, v[|x|..], PREFIX);
    }
  }
}
