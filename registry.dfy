/**
 * The list of opened requests kept by the client (`this.opened`), as a sequence:
 * `add` pushes at the end, `close` splices out the first occurrence found by
 * `indexOf`, and `abort` leaves behind only the handles that could not be aborted.
 */
module Registry {
  import opened Builtins
  import opened Helpers

  /** The list after `close(x)`: its first occurrence of `x` removed, if any. */
  function RemoveFirst<T(==)>(s: seq<T>, x: T): seq<T> {
    if s == [] then []
    else if s[0] == x then s[1..]
    else [s[0]] + RemoveFirst(s[1..], x)
  }

  /** The elements among the first `n` of `s` whose flag is set, in their order in `s`. */
  function KeepUpTo<T>(s: seq<T>, flags: seq<bool>, n: nat): (r: seq<T>)
    requires |flags| == |s| && n <= |s|
    ensures |r| <= n
  {
    if n == 0 then []
    else KeepUpTo(s, flags, n - 1) + (if flags[n - 1] then [s[n - 1]] else [])
  }

  /** The elements of `s` whose flag is set, in their order in `s`. */
  function Keep<T>(s: seq<T>, flags: seq<bool>): seq<T>
    requires |flags| == |s|
  {
    KeepUpTo(s, flags, |s|)
  }

  /** No element occurs twice, stated element by element from the end of the list. */
  ghost predicate Unique<T>(s: seq<T>) {
    s == [] || (s[|s| - 1] !in s[..|s| - 1] && Unique(s[..|s| - 1]))
  }

  /** `Unique` and the pairwise `Distinct` say the same. */
  lemma {:induction false} UniqueDistinct<T>(s: seq<T>)
    ensures Unique(s) <==> Distinct(s)
  {
    if s != [] {
      var p, x := s[..|s| - 1], s[|s| - 1];
      UniqueDistinct(p);
      if Unique(s) {
        forall i, j | 0 <= i < j < |s| ensures s[i] != s[j] {
          if j == |s| - 1 {
            assert s[i] == p[i];
          } else {
            assert s[i] == p[i] && s[j] == p[j];
          }
        }
      }
      if Distinct(s) {
        assert Distinct(p) by {
          forall i, j | 0 <= i < j < |p| ensures p[i] != p[j] {
            assert p[i] == s[i] && p[j] == s[j];
          }
        }
        assert x !in p by {
          forall i | 0 <= i < |p| ensures p[i] != x {
            assert p[i] == s[i];
          }
        }
      }
    }
  }

  /** In a list without duplicates, the element at `i` occurs nowhere else. */
  lemma UniqueAt<T>(s: seq<T>, i: nat)
    requires Unique(s) && i < |s|
    ensures forall j :: 0 <= j < |s| && j != i ==> s[j] != s[i]
  {
    UniqueDistinct(s);
  }

  /** In `a + [x] + b` without duplicates, `x` occurs neither in `a` nor in `b`. */
  lemma UniqueSplit<T>(a: seq<T>, x: T, b: seq<T>)
    requires Unique(a + [x] + b)
    ensures x !in a && x !in b
  {
    var s := a + [x] + b;
    UniqueAt(s, |a|);
    forall j | 0 <= j < |a| ensures a[j] != x {
      assert a[j] == s[j];
    }
    forall j | 0 <= j < |b| ensures b[j] != x {
      assert b[j] == s[|a| + 1 + j];
    }
  }

  /** Pushing an element that is not yet in a list without duplicates keeps it without duplicates. */
  lemma DistinctAppend<T>(s: seq<T>, x: T)
    requires Distinct(s) && x !in s
    ensures Distinct(s + [x])
  {
  }

  /** `close` of a handle that is not in the list leaves the list unchanged. */
  lemma {:induction false} RemoveFirstAbsent<T>(s: seq<T>, x: T)
    requires x !in s
    ensures RemoveFirst(s, x) == s
  {
    if s != [] {
      RemoveFirstAbsent(s[1..], x);
    }
  }

  /** `RemoveFirst` is what `splice(indexOf(x), 1)` does. */
  lemma {:induction false} RemoveFirstIsSplice<T>(s: seq<T>, x: T)
    requires x in s
    ensures var i := ArrayIndexOf(s, x); RemoveFirst(s, x) == s[..i] + s[i + 1..]
  {
    if s[0] != x {
      RemoveFirstIsSplice(s[1..], x);
      var i := ArrayIndexOf(s[1..], x);
      assert s[..i + 1] == [s[0]] + s[1..][..i];
      assert s[i + 2..] == s[1..][i + 1..];
    }
  }

  /** Removing the first `x` from `a + [x] + b`, with no `x` in `a`, leaves `a + b`. */
  lemma {:induction false} RemoveFirstAfter<T>(a: seq<T>, x: T, b: seq<T>)
    requires x !in a
    ensures RemoveFirst(a + [x] + b, x) == a + b
  {
    if a != [] {
      RemoveFirstAfter(a[1..], x, b);
      assert (a + [x] + b)[1..] == a[1..] + [x] + b;
    }
  }

  /** Keeping `x` where it is, or closing it, in `a + [x] + b` (no `x` in `a`). */
  lemma KeepOrClose<T>(a: seq<T>, x: T, b: seq<T>, keep: bool)
    requires x !in a
    ensures (if keep then a + [x] + b else RemoveFirst(a + [x] + b, x)) == (a + if keep then [x] else []) + b
  {
    if !keep {
      RemoveFirstAfter(a, x, b);
    }
  }

  /** `close` only takes away: the result is the list with one fewer `x`. */
  lemma {:induction false} RemoveFirstMultiset<T>(s: seq<T>, x: T)
    ensures multiset(RemoveFirst(s, x)) == multiset(s) - multiset{x}
  {
    if s != [] {
      assert s == [s[0]] + s[1..];
      if s[0] != x {
        RemoveFirstMultiset(s[1..], x);
        assert RemoveFirst(s, x) == [s[0]] + RemoveFirst(s[1..], x);
      }
    }
  }

  /** On a list without duplicates, `close(x)` removes every trace of `x` and keeps the rest distinct. */
  lemma {:induction false} RemoveFirstDistinct<T>(s: seq<T>, x: T)
    requires Distinct(s)
    ensures Distinct(RemoveFirst(s, x))
    ensures x !in RemoveFirst(s, x)
    ensures forall y :: y in RemoveFirst(s, x) <==> y in s && y != x
  {
    if s != [] {
      assert Distinct(s[1..]) by {
        forall i, j | 0 <= i < j < |s[1..]| ensures s[1..][i] != s[1..][j] {
          assert s[1..][i] == s[i + 1] && s[1..][j] == s[j + 1];
        }
      }
      RemoveFirstDistinct(s[1..], x);
      if s[0] != x {
        assert s[0] !in s[1..] by {
          forall j | 0 <= j < |s[1..]| ensures s[1..][j] != s[0] {
            assert s[1..][j] == s[j + 1];
          }
        }
        var r := RemoveFirst(s, x);
        assert r == [s[0]] + RemoveFirst(s[1..], x);
        forall i, j | 0 <= i < j < |r| ensures r[i] != r[j] {
          if i > 0 {
            assert r[i] == RemoveFirst(s[1..], x)[i - 1] && r[j] == RemoveFirst(s[1..], x)[j - 1];
          } else {
            assert r[j] == RemoveFirst(s[1..], x)[j - 1];
          }
        }
      } else {
        RemoveFirstAbsent(s[1..], x);
        assert x !in s[1..] by {
          forall j | 0 <= j < |s[1..]| ensures s[1..][j] != x {
            assert s[1..][j] == s[j + 1];
          }
        }
      }
    }
  }

  /** A request that is added and later closed leaves the list as it found it. */
  lemma AddThenClose<T>(s: seq<T>, x: T)
    requires x !in s
    ensures RemoveFirst(s + [x], x) == s
  {
    RemoveFirstAfter(s, x, []);
    assert s + [x] + [] == s + [x];
    assert s + [] == s;
  }

  /** With no flag set, nothing is kept. */
  lemma {:induction false} KeepNone<T>(s: seq<T>, flags: seq<bool>, n: nat)
    requires |flags| == |s| && n <= |s| && forall i :: 0 <= i < |flags| ==> !flags[i]
    ensures KeepUpTo(s, flags, n) == []
  {
    if n > 0 {
      KeepNone(s, flags, n - 1);
    }
  }

  /** With every flag set, everything is kept. */
  lemma {:induction false} KeepAll<T>(s: seq<T>, flags: seq<bool>, n: nat)
    requires |flags| == |s| && n <= |s| && forall i :: 0 <= i < |flags| ==> flags[i]
    ensures KeepUpTo(s, flags, n) == s[..n]
  {
    if n > 0 {
      KeepAll(s, flags, n - 1);
      assert s[..n] == s[..n - 1] + [s[n - 1]];
    }
  }

  /** An element of a list without duplicates is kept exactly when its own flag is set. */
  lemma {:induction false} KeepMember<T>(s: seq<T>, flags: seq<bool>, n: nat, i: nat)
    requires |flags| == |s| && n <= |s| && Distinct(s) && i < |s|
    ensures s[i] in KeepUpTo(s, flags, n) <==> i < n && flags[i]
  {
    if n > 0 {
      KeepMember(s, flags, n - 1, i);
      if i != n - 1 {
        assert s[i] != s[n - 1];
      }
    }
  }

  /** Keeping elements of a list without duplicates gives a list without duplicates. */
  lemma {:induction false} KeepDistinct<T>(s: seq<T>, flags: seq<bool>, n: nat)
    requires |flags| == |s| && n <= |s| && Distinct(s)
    ensures Distinct(KeepUpTo(s, flags, n))
  {
    if n > 0 && flags[n - 1] {
      KeepDistinct(s, flags, n - 1);
      KeepMember(s, flags, n - 1, n - 1);
      DistinctAppend(KeepUpTo(s, flags, n - 1), s[n - 1]);
    } else if n > 0 {
      KeepDistinct(s, flags, n - 1);
      assert KeepUpTo(s, flags, n) == KeepUpTo(s, flags, n - 1) + [];
    }
  }
}
