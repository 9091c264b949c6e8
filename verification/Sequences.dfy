/** Sequences put together from pieces. */
module Sequences {
  /** `base`, then the first `n` parts. */
  function Joined<T>(base: seq<T>, parts: seq<seq<T>>, n: nat): seq<T>
    requires n <= |parts|
  {
    if n == 0 then base else Joined(base, parts, n - 1) + parts[n - 1]
  }

  ghost predicate InSome<T>(parts: seq<seq<T>>, n: nat, x: T)
    requires n <= |parts|
  {
    exists j :: 0 <= j < n && x in parts[j]
  }

  lemma {:induction false} InJoined<T>(base: seq<T>, parts: seq<seq<T>>, n: nat, x: T)
    requires n <= |parts|
    ensures x in Joined(base, parts, n) <==> x in base || InSome(parts, n, x)
  {
    if n > 0 {
      InJoined(base, parts, n - 1, x);
      assert InSome(parts, n, x) <==> InSome(parts, n - 1, x) || x in parts[n - 1];
    }
  }

  lemma {:induction false} JoinedAfter<T>(base: seq<T>, parts: seq<seq<T>>, n: nat)
    requires n <= |parts|
    ensures Joined(base, parts, n) == base + Joined([], parts, n)
  {
    if n > 0 {
      JoinedAfter(base, parts, n - 1);
    }
  }

  lemma {:induction false} NothingJoined<T>(base: seq<T>, parts: seq<seq<T>>, n: nat)
    requires n <= |parts| && forall i | 0 <= i < |parts| :: parts[i] == []
    ensures Joined(base, parts, n) == base
  {
    if n > 0 {
      NothingJoined(base, parts, n - 1);
    }
  }

  /** Pieces of the same lengths make the same whole exactly if they are the same. */
  lemma {:induction false} SameJoined<T(!new)>(base: seq<T>, p: seq<seq<T>>, q: seq<seq<T>>, n: nat)
    requires n <= |p| == |q| && forall i | 0 <= i < |p| :: |p[i]| == |q[i]|
    ensures |Joined(base, p, n)| == |Joined(base, q, n)|
    ensures Joined(base, p, n) == Joined(base, q, n) <==> p[..n] == q[..n]
  {
    if n > 0 {
      SameJoined(base, p, q, n - 1);
      SameHalves(Joined(base, p, n - 1), p[n - 1], Joined(base, q, n - 1), q[n - 1]);
      assert p[..n] == p[..n - 1] + [p[n - 1]] && q[..n] == q[..n - 1] + [q[n - 1]];
    }
  }

  lemma TwoParts<T>(whole: seq<T>, first: seq<T>, second: seq<T>)
    requires |whole| == |first| + |second|
    requires forall i | 0 <= i < |first| :: whole[i] == first[i]
    requires forall i | 0 <= i < |second| :: whole[|first| + i] == second[i]
    ensures whole == first + second
  {
  }

  lemma SameHalves<T>(a: seq<T>, b: seq<T>, c: seq<T>, d: seq<T>)
    requires |a| == |c| && |b| == |d|
    ensures a + b == c + d <==> a == c && b == d
  {
    if a + b == c + d {
      assert a == (a + b)[..|a|] == (c + d)[..|c|] == c;
      assert b == (a + b)[|a|..] == (c + d)[|c|..] == d;
    }
  }
}
