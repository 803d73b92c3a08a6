/**
 * Ranking of detected regions by logo probability, as done by
 * `logo_probas.sort(key=lambda t: t[1], reverse=True)` in
 * logo_finders/homebrew_logo_detection.py.
 *
 * Python's sort is stable, also with `reverse=True`: entries with equal
 * probability keep their input order. A stable sort on a key has exactly one
 * possible result, so it is specified here by the insertion sort `SortDesc`
 * and the in-place method `SortByProbaDesc` is proved to produce it.
 */
module LogoRanking {

  /** The features a region detector reports for one region of the screenshot. */
  datatype RegionData = RegionData(index: int, features: seq<real>)

  /** A region together with the classifier's probability that it is a logo. */
  datatype Scored = Scored(region: RegionData, proba: real)

  /** Non-increasing by probability. */
  ghost predicate SortedDesc(s: seq<Scored>) {
    forall i, j :: 0 <= i < j < |s| ==> s[i].proba >= s[j].proba
  }

  /** The entries of `s` whose probability is exactly `p`, in their order in `s`. */
  function WithProba(s: seq<Scored>, p: real): (r: seq<Scored>)
    ensures |r| <= |s|
  {
    if s == [] then [] else Keep(s[0], p) + WithProba(s[1..], p)
  }

  /** `[x]` when `x` has probability `p`, else nothing. */
  function Keep(x: Scored, p: real): (r: seq<Scored>)
    ensures |r| <= 1
  {
    if x.proba == p then [x] else []
  }

  /**
   * Inserts `x` into `t` behind every entry whose probability is at least
   * `x.proba`, scanning from the back as the insertion step of a stable sort does.
   */
  function Insert(t: seq<Scored>, x: Scored): (r: seq<Scored>)
    ensures |r| == |t| + 1
    decreases |t|
  {
    if t == [] || t[|t| - 1].proba >= x.proba then t + [x]
    else Insert(t[..|t| - 1], x) + [t[|t| - 1]]
  }

  /** The stable sort of `s` by descending probability. */
  function SortDesc(s: seq<Scored>): (r: seq<Scored>)
    ensures |r| == |s|
  {
    if s == [] then [] else Insert(SortDesc(s[..|s| - 1]), s[|s| - 1])
  }

  lemma {:induction false} WithProbaAppend(a: seq<Scored>, b: seq<Scored>, p: real)
    ensures WithProba(a + b, p) == WithProba(a, p) + WithProba(b, p)
  {
    if a == [] {
      assert a + b == b;
    } else {
      var head, rest := Keep(a[0], p), a[1..];
      assert (a + b)[0] == a[0] && (a + b)[1..] == rest + b;
      WithProbaAppend(rest, b, p);
      calc {
        WithProba(a + b, p);
        head + WithProba(rest + b, p);
        head + (WithProba(rest, p) + WithProba(b, p));
        { assert head + (WithProba(rest, p) + WithProba(b, p)) == (head + WithProba(rest, p)) + WithProba(b, p); }
        (head + WithProba(rest, p)) + WithProba(b, p);
        WithProba(a, p) + WithProba(b, p);
      }
    }
  }

  lemma WithProbaSingle(x: Scored, p: real)
    ensures WithProba([x], p) == Keep(x, p)
  {
    assert [x][0] == x && [x][1..] == [];
  }

  lemma {:induction false} InsertKeepsTies(t: seq<Scored>, x: Scored, p: real)
    ensures WithProba(Insert(t, x), p) == WithProba(t, p) + Keep(x, p)
    decreases |t|
  {
    if t == [] || t[|t| - 1].proba >= x.proba {
      WithProbaAppend(t, [x], p);
      WithProbaSingle(x, p);
    } else {
      var init, last := t[..|t| - 1], t[|t| - 1];
      assert t == init + [last];
      InsertKeepsTies(init, x, p);
      WithProbaAppend(Insert(init, x), [last], p);
      WithProbaAppend(init, [last], p);
      WithProbaSingle(last, p);
      var w := WithProba(init, p);
      if Keep(last, p) == [] {
        assert WithProba(Insert(t, x), p) == (w + Keep(x, p)) + [];
        assert WithProba(t, p) == w + [];
      } else {
        assert Keep(x, p) == [];
        assert WithProba(Insert(t, x), p) == (w + []) + Keep(last, p);
      }
    }
  }

  lemma {:induction false} InsertSorted(t: seq<Scored>, x: Scored)
    requires SortedDesc(t)
    ensures SortedDesc(Insert(t, x))
    decreases |t|
  {
    if t == [] || t[|t| - 1].proba >= x.proba {
    } else {
      var init, last := t[..|t| - 1], t[|t| - 1];
      InsertSorted(init, x);
      InsertMembers(init, x);
      var r := Insert(init, x);
      forall k | 0 <= k < |r| ensures r[k].proba >= last.proba {
        assert r[k] in multiset(init) + multiset{x};
      }
    }
  }

  lemma {:induction false} InsertMembers(t: seq<Scored>, x: Scored)
    ensures multiset(Insert(t, x)) == multiset(t) + multiset{x}
    decreases |t|
  {
    if t == [] || t[|t| - 1].proba >= x.proba {
    } else {
      var init, last := t[..|t| - 1], t[|t| - 1];
      assert t == init + [last];
      InsertMembers(init, x);
    }
  }

  /** The ranking is non-increasing in probability. */
  lemma {:induction false} SortDescSorted(s: seq<Scored>)
    ensures SortedDesc(SortDesc(s))
  {
    if s != [] {
      SortDescSorted(s[..|s| - 1]);
      InsertSorted(SortDesc(s[..|s| - 1]), s[|s| - 1]);
    }
  }

  /** The ranking is a permutation of the input. */
  lemma {:induction false} SortDescPermutation(s: seq<Scored>)
    ensures multiset(SortDesc(s)) == multiset(s)
  {
    if s != [] {
      var init, last := s[..|s| - 1], s[|s| - 1];
      assert s == init + [last];
      SortDescPermutation(init);
      InsertMembers(SortDesc(init), last);
    }
  }

  /** Stability: entries with equal probability keep their relative input order. */
  lemma {:induction false} SortDescStable(s: seq<Scored>, p: real)
    ensures WithProba(SortDesc(s), p) == WithProba(s, p)
  {
    if s != [] {
      var init, last := s[..|s| - 1], s[|s| - 1];
      assert s == init + [last];
      SortDescStable(init, p);
      InsertKeepsTies(SortDesc(init), last, p);
      WithProbaAppend(init, [last], p);
      WithProbaSingle(last, p);
    }
  }

  /** Ranking an already ranked list leaves it as it is. */
  lemma {:induction false} SortDescOfSorted(s: seq<Scored>)
    requires SortedDesc(s)
    ensures SortDesc(s) == s
  {
    if s != [] {
      var init, last := s[..|s| - 1], s[|s| - 1];
      assert SortedDesc(init) by {
        forall i, j | 0 <= i < j < |init| ensures init[i].proba >= init[j].proba {
          assert init[i] == s[i] && init[j] == s[j];
        }
      }
      SortDescOfSorted(init);
      assert init != [] ==> init[|init| - 1].proba >= last.proba by {
        if init != [] { assert init[|init| - 1] == s[|s| - 2]; }
      }
      assert Insert(init, last) == init + [last];
      assert s == init + [last];
    }
  }

  lemma {:induction false} WithProbaMembers(s: seq<Scored>, p: real)
    ensures forall y :: y in WithProba(s, p) <==> y in s && y.proba == p
  {
    if s != [] {
      WithProbaMembers(s[1..], p);
      assert s == [s[0]] + s[1..];
    }
  }

  lemma HeadWithProba(s: seq<Scored>)
    ensures s != [] ==> WithProba(s, s[0].proba) == [s[0]] + WithProba(s[1..], s[0].proba)
  {
  }

  /** The head of a ranked list has the largest probability of any of its entries. */
  lemma HeadIsMax(r: seq<Scored>, y: Scored)
    requires SortedDesc(r) && y in r
    ensures r[0].proba >= y.proba
  {
    var k :| 0 <= k < |r| && r[k] == y;
  }

  lemma SortedTail(r: seq<Scored>)
    requires SortedDesc(r) && r != []
    ensures SortedDesc(r[1..])
  {
    var t := r[1..];
    forall i, j | 0 <= i < j < |t| ensures t[i].proba >= t[j].proba {
      assert t[i] == r[i + 1] && t[j] == r[j + 1];
    }
  }

  /** Two ranked lists that agree on every probability class start with the same entry. */
  lemma HeadsAgree(r1: seq<Scored>, r2: seq<Scored>)
    requires SortedDesc(r1) && SortedDesc(r2) && r1 != [] && r2 != []
    requires forall p :: WithProba(r1, p) == WithProba(r2, p)
    ensures r1[0] == r2[0]
  {
    var p, q := r1[0].proba, r2[0].proba;
    assert r2[0] in r1 by {
      WithProbaMembers(r1, q);
      WithProbaMembers(r2, q);
      assert r2[0] in WithProba(r2, q);
    }
    HeadIsMax(r1, r2[0]);
    assert r1[0] in r2 by {
      WithProbaMembers(r1, p);
      WithProbaMembers(r2, p);
      assert r1[0] in WithProba(r1, p);
    }
    HeadIsMax(r2, r1[0]);
    HeadWithProba(r1);
    HeadWithProba(r2);
    assert WithProba(r1, p)[0] == r1[0] && WithProba(r2, q)[0] == r2[0];
  }

  /** After a common head, the rests agree on every probability class too. */
  lemma TailsAgree(r1: seq<Scored>, r2: seq<Scored>)
    requires r1 != [] && r2 != [] && r1[0] == r2[0]
    requires forall p :: WithProba(r1, p) == WithProba(r2, p)
    ensures forall p :: WithProba(r1[1..], p) == WithProba(r2[1..], p)
  {
    forall p ensures WithProba(r1[1..], p) == WithProba(r2[1..], p) {
      var head := Keep(r1[0], p);
      assert WithProba(r1, p) == head + WithProba(r1[1..], p);
      assert WithProba(r2, p) == head + WithProba(r2[1..], p);
      assert WithProba(r1[1..], p) == WithProba(r1, p)[|head|..];
      assert WithProba(r2[1..], p) == WithProba(r2, p)[|head|..];
    }
  }

  /**
   * A stable ranking is unique: two ranked lists holding, for every
   * probability, the same entries in the same order are equal.
   */
  lemma {:induction false} StableRankingUnique(r1: seq<Scored>, r2: seq<Scored>)
    requires SortedDesc(r1) && SortedDesc(r2)
    requires forall p :: WithProba(r1, p) == WithProba(r2, p)
    ensures r1 == r2
    decreases |r1|
  {
    if r1 == [] && r2 != [] {
      HeadWithProba(r2);
      assert false;
    } else if r1 != [] && r2 == [] {
      HeadWithProba(r1);
      assert false;
    } else if r1 != [] {
      HeadsAgree(r1, r2);
      TailsAgree(r1, r2);
      SortedTail(r1);
      SortedTail(r2);
      StableRankingUnique(r1[1..], r2[1..]);
      assert r1 == [r1[0]] + r1[1..] && r2 == [r2[0]] + r2[1..];
    }
  }

  /**
   * `SortDesc` is the stable sort by descending probability: any ranked list
   * that keeps the input order among equal probabilities is `SortDesc(s)`.
   */
  lemma SortDescCharacterized(s: seq<Scored>, r: seq<Scored>)
    requires SortedDesc(r)
    requires forall p :: WithProba(r, p) == WithProba(s, p)
    ensures r == SortDesc(s)
  {
    SortDescSorted(s);
    forall p ensures WithProba(r, p) == WithProba(SortDesc(s), p) {
      SortDescStable(s, p);
    }
    StableRankingUnique(r, SortDesc(s));
  }

  /** Ranking twice gives the same list as ranking once. */
  lemma SortDescIdempotent(s: seq<Scored>)
    ensures SortDesc(SortDesc(s)) == SortDesc(s)
  {
    SortDescSorted(s);
    SortDescOfSorted(SortDesc(s));
  }

  /**
   * Where the scan stops: `x` lands right behind the last entry whose
   * probability is at least its own, past the strictly smaller tail.
   */
  lemma {:induction false} InsertLandsAt(t: seq<Scored>, x: Scored, j: nat)
    requires j <= |t|
    requires j == 0 || t[j - 1].proba >= x.proba
    requires forall k :: j <= k < |t| ==> t[k].proba < x.proba
    ensures Insert(t, x) == t[..j] + [x] + t[j..]
    decreases |t|
  {
    if j == |t| {
      assert t[..j] == t && t[j..] == [];
    } else {
      var init, last := t[..|t| - 1], t[|t| - 1];
      InsertLandsAt(init, x, j);
      assert init[..j] == t[..j];
      assert init[j..] + [last] == t[j..];
    }
  }

  /**
   * The scan of one insertion step: shifts the entries of `a[..i]` with a
   * probability strictly smaller than `x.proba`, from the back, one place to
   * the right, and returns the slot `j` left free for `x`.
   */
  method ShiftSmaller(a: array<Scored>, i: nat, x: Scored) returns (j: nat)
    requires i < a.Length
    modifies a
    ensures j <= i
    ensures forall k :: 0 <= k < j ==> a[k] == old(a[k])
    ensures forall k :: j < k <= i ==> a[k] == old(a[k - 1])
    ensures forall k :: i < k < a.Length ==> a[k] == old(a[k])
    ensures Insert(old(a[..i]), x) == old(a[..j]) + [x] + old(a[j..i])
  {
    j := i;
    while j > 0 && a[j - 1].proba < x.proba
      invariant 0 <= j <= i
      invariant forall k :: 0 <= k < j ==> a[k] == old(a[k])
      invariant forall k :: j < k <= i ==> a[k] == old(a[k - 1])
      invariant forall k :: i < k < a.Length ==> a[k] == old(a[k])
      invariant forall k :: j <= k < i ==> old(a[k]).proba < x.proba
    {
      a[j] := a[j - 1];
      j := j - 1;
    }
    ghost var t := old(a[..i]);
    assert t[..j] == old(a[..j]) && t[j..] == old(a[j..i]);
    InsertLandsAt(t, x, j);
  }

  /**
   * Moves `a[i]` left past every entry of the ranked prefix `a[..i]` whose
   * probability is strictly smaller, so that `a[..i + 1]` is ranked.
   */
  method InsertAt(a: array<Scored>, i: nat)
    requires i < a.Length
    modifies a
    ensures a[..i + 1] == Insert(old(a[..i]), old(a[i]))
    ensures a[i + 1..] == old(a[i + 1..])
  {
    ghost var before := a[..];
    var x := a[i];
    var j := ShiftSmaller(a, i, x);
    a[j] := x;
    assert a[..j] == before[..j];
    assert a[j + 1..i + 1] == before[j..i] by {
      forall k | 0 <= k < i - j ensures a[j + 1..i + 1][k] == before[j..i][k] {
        assert a[j + 1 + k] == before[j + k];
      }
    }
    assert a[..i + 1] == a[..j] + [x] + a[j + 1..i + 1];
    assert a[i + 1..] == before[i + 1..];
  }

  /** Sorts `a` in place, stably, by descending probability (insertion sort). */
  method SortByProbaDesc(a: array<Scored>)
    modifies a
    ensures a[..] == SortDesc(old(a[..]))
  {
    ghost var input := a[..];
    var i := 0;
    while i < a.Length
      invariant 0 <= i <= a.Length
      invariant a[..i] == SortDesc(input[..i])
      invariant a[i..] == input[i..]
    {
      InsertAt(a, i);
      assert input[..i + 1][..i] == input[..i];
      assert a[i + 1..] == input[i + 1..];
      i := i + 1;
    }
    assert input[..a.Length] == input;
  }
}
