/** Python lists as the game uses them: lists without repeated elements,
    `list.remove`, and the order-keeping filters the update loops perform,
    which leave a subsequence of the list they started from. */
module Lists {

  predicate Distinct<T(==)>(s: seq<T>)
  {
    forall i, j :: 0 <= i < j < |s| ==> s[i] != s[j]
  }

  /** In a sequence without repeats every element occurs once. */
  lemma {:induction false} DistinctOnce<T>(p: seq<T>, x: T)
    requires Distinct(p)
    ensures multiset(p)[x] <= 1
  {
    if p != [] {
      assert p == [p[0]] + p[1..];
      assert Distinct(p[1..]) by {
        forall i, j | 0 <= i < j < |p| - 1 ensures p[1..][i] != p[1..][j] {
          assert p[i + 1] != p[j + 1];
        }
      }
      DistinctOnce(p[1..], x);
      if x == p[0] {
        assert x !in p[1..] by {
          forall m | 0 <= m < |p| - 1 ensures p[1..][m] != x {
            assert p[0] != p[m + 1];
          }
        }
      }
    }
  }

  /** An element found at two positions occurs at least twice. */
  lemma TwoCopies<T>(s: seq<T>, i: nat, j: nat)
    requires i < j < |s| && s[i] == s[j]
    ensures multiset(s)[s[i]] >= 2
  {
    assert s == s[..j] + s[j..];
    assert s[i] in s[..j];
    assert s[j] == s[j..][0];
  }

  /** Drawing without replacement from a sequence without repeats yields a
      sequence without repeats. */
  lemma SubMultisetDistinct<T>(s: seq<T>, population: seq<T>)
    requires Distinct(population) && multiset(s) <= multiset(population)
    ensures Distinct(s)
  {
    forall i, j | 0 <= i < j < |s| ensures s[i] != s[j] {
      if s[i] == s[j] {
        TwoCopies(s, i, j);
        DistinctOnce(population, s[i]);
      }
    }
  }

  /** The position of the first occurrence of `x`. */
  function IndexOf<T(==)>(s: seq<T>, x: T): (i: nat)
    requires x in s
    ensures i < |s| && s[i] == x
    ensures forall j :: 0 <= j < i ==> s[j] != x
  {
    if s[0] == x then 0 else 1 + IndexOf(s[1..], x)
  }

  /** `list.remove(x)`: the list without the first occurrence of `x`. Python
      raises an error when `x` is absent; the game only ever removes an
      element it has just taken from the list. */
  function Without<T(==)>(s: seq<T>, x: T): (r: seq<T>)
    requires x in s
    ensures |r| == |s| - 1
    ensures multiset(r) == multiset(s) - multiset{x}
  {
    var i := IndexOf(s, x);
    assert s == s[..i] + [x] + s[i + 1..];
    s[..i] + s[i + 1..]
  }

  /** `a` is `b` with some elements left out and the others in their order. */
  predicate Subsequence<T(==)>(a: seq<T>, b: seq<T>)
    decreases |b|
    ensures Subsequence(a, b) ==> forall i :: 0 <= i < |a| ==> a[i] in b
  {
    if b == [] then a == []
    else if a != [] && a[|a| - 1] == b[|b| - 1] then
      assert a == a[..|a| - 1] + [a[|a| - 1]] && b == b[..|b| - 1] + [b[|b| - 1]];
      Subsequence(a[..|a| - 1], b[..|b| - 1])
    else
      assert b == b[..|b| - 1] + [b[|b| - 1]];
      Subsequence(a, b[..|b| - 1])
  }

  /** The elements of `s` whose flag in `keep` is set, in their order: what
      a loop that walks `s` and removes the others leaves. */
  function Keep<T>(s: seq<T>, keep: seq<bool>): (r: seq<T>)
    requires |keep| == |s|
    ensures |r| <= |s|
  {
    if s == [] then []
    else Keep(s[..|s| - 1], keep[..|s| - 1]) + if keep[|s| - 1] then [s[|s| - 1]] else []
  }

  /** Walking one element further extends the filtered list by that element
      exactly when its flag is set. */
  lemma KeepNext<T>(s: seq<T>, keep: seq<bool>, x: T, b: bool)
    requires |keep| == |s|
    ensures Keep(s + [x], keep + [b]) == Keep(s, keep) + if b then [x] else []
  {
    assert (s + [x])[..|s|] == s;
    assert (keep + [b])[..|s|] == keep;
  }

  /** The filter over one more element of `s`. */
  lemma KeepGrow<T>(s: seq<T>, i: nat, keep: seq<bool>, b: bool)
    requires i < |s| && |keep| == i
    ensures Keep(s[..i + 1], keep + [b]) == Keep(s[..i], keep) + if b then [s[i]] else []
  {
    KeepNext(s[..i], keep, s[i], b);
    assert s[..i + 1] == s[..i] + [s[i]];
  }

  /** Every element the filter keeps comes from the list. */
  lemma {:induction false} KeepIn<T>(s: seq<T>, keep: seq<bool>, x: T)
    requires |keep| == |s| && x in Keep(s, keep)
    ensures x in s
  {
    var n := |s| - 1;
    if x != s[n] {
      KeepIn(s[..n], keep[..n], x);
      assert s[..n] <= s;
    }
  }

  /** The last element of a list without repeats does not occur before it. */
  lemma LastIsNew<T>(s: seq<T>)
    requires Distinct(s) && s != []
    ensures Distinct(s[..|s| - 1]) && s[|s| - 1] !in s[..|s| - 1]
  {
    var n := |s| - 1;
    forall a, b | 0 <= a < b < n ensures s[..n][a] != s[..n][b] {
      assert s[a] != s[b];
    }
    forall m | 0 <= m < n ensures s[..n][m] != s[n] {
      assert s[m] != s[n];
    }
  }

  /** In a list without repeats, an element survives the filter exactly when
      its flag is set. */
  lemma {:induction false} KeepMember<T>(s: seq<T>, keep: seq<bool>, j: nat)
    requires |keep| == |s| && Distinct(s) && j < |s|
    ensures s[j] in Keep(s, keep) <==> keep[j]
  {
    var n := |s| - 1;
    var rest := Keep(s[..n], keep[..n]);
    LastIsNew(s);
    if s[n] in rest {
      KeepIn(s[..n], keep[..n], s[n]);
    }
    if j < n {
      KeepMember(s[..n], keep[..n], j);
      assert s[..n][j] == s[j] && keep[..n][j] == keep[j];
      assert s[j] != s[n];
    }
  }

  /** The filter leaves a subsequence of a list without repeats. */
  lemma {:induction false} KeepSubsequence<T>(s: seq<T>, keep: seq<bool>)
    requires |keep| == |s| && Distinct(s)
    ensures Subsequence(Keep(s, keep), s)
  {
    if s != [] {
      var n := |s| - 1;
      var rest := Keep(s[..n], keep[..n]);
      LastIsNew(s);
      if s[n] in rest {
        KeepIn(s[..n], keep[..n], s[n]);
      }
      KeepSubsequence(s[..n], keep[..n]);
      if keep[n] {
        assert (rest + [s[n]])[..|rest|] == rest;
      } else {
        assert rest != [] ==> rest[|rest| - 1] in rest;
        assert Keep(s, keep) == rest;
        assert !(rest != [] && rest[|rest| - 1] == s[n]);
      }
    }
  }

  /** Removing an element whose first occurrence is at position k takes out
      that position. */
  lemma WithoutFirst<T>(s: seq<T>, k: nat)
    requires k < |s| && s[k] !in s[..k]
    ensures Without(s, s[k]) == s[..k] + s[k + 1..]
  {
  }

  /** The filter keeps a list without repeats free of repeats. */
  lemma {:induction false} KeepDistinct<T>(s: seq<T>, keep: seq<bool>)
    requires |keep| == |s| && Distinct(s)
    ensures Distinct(Keep(s, keep))
  {
    if s != [] {
      var n := |s| - 1;
      var rest := Keep(s[..n], keep[..n]);
      LastIsNew(s);
      KeepDistinct(s[..n], keep[..n]);
      if keep[n] {
        if s[n] in rest {
          KeepIn(s[..n], keep[..n], s[n]);
        }
        var r := rest + [s[n]];
        forall a, b | 0 <= a < b < |r| ensures r[a] != r[b] {
          if b == |rest| {
            assert r[a] in rest;
          }
        }
      }
    }
  }

  /** One step of a loop that walks `s`, a list without repeats, and removes
      from a working copy every element whose flag is clear: when the copy is
      the kept part of the first `i` elements followed by the rest, removing
      element `i` or keeping it leaves the kept part of the first `i + 1`
      followed by the rest. */
  lemma KeepStep<T>(s: seq<T>, i: nat, keep: seq<bool>, r: seq<T>, b: bool)
    requires i < |s| && |keep| == i && Distinct(s) && r == Keep(s[..i], keep) + s[i..]
    ensures s[i] in r
    ensures (if b then r else Without(r, s[i])) == Keep(s[..i + 1], keep + [b]) + s[i + 1..]
  {
    NotKeptYet(s, i, keep);
    KeepStepNew(s, i, keep, r, b);
  }

  /** KeepStep for an element `s[i]` the filter has not kept before. */
  lemma KeepStepNew<T>(s: seq<T>, i: nat, keep: seq<bool>, r: seq<T>, b: bool)
    requires i < |s| && |keep| == i && s[i] !in Keep(s[..i], keep) && r == Keep(s[..i], keep) + s[i..]
    ensures s[i] in r
    ensures (if b then r else Without(r, s[i])) == Keep(s[..i + 1], keep + [b]) + s[i + 1..]
  {
    var kept := Keep(s[..i], keep);
    KeepGrow(s, i, keep, b);
    assert s[i..] == [s[i]] + s[i + 1..];
    assert r == kept + [s[i]] + s[i + 1..];
    if !b {
      RemoveBetween(kept, s[i], s[i + 1..]);
    }
  }

  /** The element at position `i` of a list without repeats is not among
      those the filter kept of the first `i`. */
  lemma NotKeptYet<T>(s: seq<T>, i: nat, keep: seq<bool>)
    requires i < |s| && |keep| == i && Distinct(s)
    ensures s[i] !in Keep(s[..i], keep)
  {
    if s[i] in Keep(s[..i], keep) {
      KeepIn(s[..i], keep, s[i]);
    }
  }

  /** Removing `x` from `p + [x] + q`, when `p` does not hold `x`, leaves
      `p + q`. */
  lemma RemoveBetween<T>(p: seq<T>, x: T, q: seq<T>)
    requires x !in p
    ensures Without(p + [x] + q, x) == p + q
  {
    var r := p + [x] + q;
    assert r[|p|] == x && r[..|p|] == p && r[|p| + 1..] == q;
    WithoutFirst(r, |p|);
  }

  /** What the filter leaves of a list without repeats: a subsequence
      without repeats, holding exactly the elements whose flag is set. */
  lemma KeepFacts<T>(s: seq<T>, keep: seq<bool>)
    requires |keep| == |s| && Distinct(s)
    ensures Distinct(Keep(s, keep)) && Subsequence(Keep(s, keep), s)
    ensures forall j :: 0 <= j < |s| ==> (s[j] in Keep(s, keep) <==> keep[j])
    ensures forall x :: x in Keep(s, keep) ==> x in s
  {
    KeepDistinct(s, keep);
    KeepSubsequence(s, keep);
    forall j | 0 <= j < |s| ensures s[j] in Keep(s, keep) <==> keep[j] {
      KeepMember(s, keep, j);
    }
    forall x | x in Keep(s, keep) ensures x in s {
      KeepIn(s, keep, x);
    }
  }
}
