/** Folding, counting and subsequence facts. */
module Counting {
  function FoldLeft<S, E>(step: (S, E) -> S, start: S, events: seq<E>): S {
    if events == [] then start
    else step(FoldLeft(step, start, events[..|events| - 1]), events[|events| - 1])
  }

  /** How many elements satisfy the predicate. */
  function Tally<T>(s: seq<T>, p: T -> bool): nat {
    if s == [] then 0
    else Tally(s[..|s| - 1], p) + (if p(s[|s| - 1]) then 1 else 0)
  }

  lemma TallyAppend<T>(s: seq<T>, x: T, p: T -> bool)
    ensures Tally(s + [x], p) == Tally(s, p) + (if p(x) then 1 else 0)
  {
  }

  lemma {:induction false} TallyUpdate<T>(s: seq<T>, i: nat, x: T, p: T -> bool)
    requires i < |s|
    ensures Tally(s[i := x], p) + (if p(s[i]) then 1 else 0) == Tally(s, p) + (if p(x) then 1 else 0)
  {
    var n := |s| - 1;
    if i == n {
      assert s[i := x][..n] == s[..n];
    } else {
      TallyUpdate(s[..n], i, x, p);
      assert s[i := x][..n] == s[..n][i := x];
    }
  }

  lemma {:induction false} TallyPositive<T>(s: seq<T>, i: nat, p: T -> bool)
    requires i < |s| && p(s[i])
    ensures Tally(s, p) >= 1
  {
    if i < |s| - 1 {
      TallyPositive(s[..|s| - 1], i, p);
    }
  }

  lemma {:induction false} TallyZero<T>(s: seq<T>, p: T -> bool)
    requires forall i :: 0 <= i < |s| ==> !p(s[i])
    ensures Tally(s, p) == 0
  {
    if s != [] {
      TallyZero(s[..|s| - 1], p);
    }
  }

  lemma TallyExists<T>(s: seq<T>, p: T -> bool)
    ensures (exists i :: 0 <= i < |s| && p(s[i])) <==> Tally(s, p) >= 1
  {
    if i :| 0 <= i < |s| && p(s[i]) {
      TallyPositive(s, i, p);
    } else {
      TallyZero(s, p);
    }
  }

  /** A tally of at most one means that no two positions satisfy the predicate. */
  lemma {:induction false} TallyUnique<T>(s: seq<T>, i: nat, j: nat, p: T -> bool)
    requires i < |s| && j < |s| && p(s[i]) && p(s[j])
    requires Tally(s, p) <= 1
    ensures i == j
  {
    var n := |s| - 1;
    if i < n && j < n {
      TallyUnique(s[..n], i, j, p);
    } else if i < n {
      TallyPositive(s[..n], i, p);
    } else if j < n {
      TallyPositive(s[..n], j, p);
    }
  }

  lemma {:induction false} TallyPrefix<T>(s: seq<T>, k: nat, p: T -> bool)
    requires k <= |s|
    ensures Tally(s[..k], p) <= Tally(s, p)
  {
    if k < |s| {
      TallyPrefix(s[..|s| - 1], k, p);
      assert s[..|s| - 1][..k] == s[..k];
    } else {
      assert s[..k] == s;
    }
  }

  /** `a` can be obtained from `b` by leaving elements out. */
  ghost predicate Subsequence<T>(a: seq<T>, b: seq<T>)
    decreases |b|
  {
    a == [] ||
    (b != [] &&
     (Subsequence(a, b[..|b| - 1]) || (a[|a| - 1] == b[|b| - 1] && Subsequence(a[..|a| - 1], b[..|b| - 1]))))
  }

  lemma SubsequenceExtend<T>(a: seq<T>, b: seq<T>, x: T)
    requires Subsequence(a, b)
    ensures Subsequence(a, b + [x]) && Subsequence(a + [x], b + [x])
  {
  }

  lemma {:induction false} SubsequenceMember<T>(a: seq<T>, b: seq<T>, i: nat)
    requires Subsequence(a, b) && i < |a|
    ensures a[i] in b
    decreases |b|
  {
    var n := |b| - 1;
    if Subsequence(a, b[..n]) {
      SubsequenceMember(a, b[..n], i);
    } else if i < |a| - 1 {
      SubsequenceMember(a[..|a| - 1], b[..n], i);
    }
  }

  lemma {:induction false} SubsequenceConcat<T>(a: seq<T>, b: seq<T>, x: seq<T>)
    requires Subsequence(a, b)
    ensures Subsequence(a, b + x) && Subsequence(a + x, b + x)
  {
    if x == [] {
      assert a + x == a && b + x == b;
    } else {
      var n := |x| - 1;
      SubsequenceConcat(a, b, x[..n]);
      SubsequenceExtend(a, b + x[..n], x[n]);
      SubsequenceExtend(a + x[..n], b + x[..n], x[n]);
      assert b + x == (b + x[..n]) + [x[n]] && a + x == (a + x[..n]) + [x[n]];
    }
  }

  lemma {:induction false} SubsequenceTrans<T>(a: seq<T>, b: seq<T>, c: seq<T>)
    requires Subsequence(a, b) && Subsequence(b, c)
    ensures Subsequence(a, c)
    decreases |c|
  {
    if a != [] {
      var d := c[..|c| - 1];
      if Subsequence(b, d) {
        SubsequenceTrans(a, b, d);
      } else if Subsequence(a, b[..|b| - 1]) {
        SubsequenceTrans(a, b[..|b| - 1], d);
      } else {
        SubsequenceTrans(a[..|a| - 1], b[..|b| - 1], d);
      }
    }
  }

  /** Every piece of a sequence is a subsequence of it. */
  lemma {:induction false} PieceIsSubsequence<T>(s: seq<T>, from: nat, upTo: nat)
    requires from <= upTo <= |s|
    ensures Subsequence(s[from..upTo], s)
  {
    if from < upTo {
      var n := |s| - 1;
      if upTo == |s| {
        PieceIsSubsequence(s[..n], from, n);
        assert s[..n][from..n] == s[from..n];
        assert s[from..upTo][..n - from] == s[from..n];
      } else {
        PieceIsSubsequence(s[..n], from, upTo);
        assert s[..n][from..upTo] == s[from..upTo];
      }
    }
  }
}
