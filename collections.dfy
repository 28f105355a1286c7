/**
 Sequence, string and map helpers shared by the word-count model: sums of
 counts, the `slice(0, w)` prefix of a string, the string order used by the
 default `sort()`, duplicate removal keeping first appearances, and the total
 of a day-to-count map.
 */
module Collections {

  function Min(a: int, b: int): int
  {
    if a < b then a else b
  }

  /** The `reduce((sum, x) => sum + x, 0)` of a list of counts. */
  function Sum(s: seq<nat>): nat
  {
    if s == [] then 0 else s[0] + Sum(s[1..])
  }

  lemma {:induction false} SumConcat(a: seq<nat>, b: seq<nat>)
    ensures Sum(a + b) == Sum(a) + Sum(b)
  {
    if a == [] {
      assert a + b == b;
    } else {
      assert (a + b)[1..] == a[1..] + b;
      SumConcat(a[1..], b);
    }
  }

  lemma SumSnoc(s: seq<nat>, x: nat)
    ensures Sum(s + [x]) == Sum(s) + x
  {
    SumConcat(s, [x]);
  }

  /** `s.slice(0, w)`: the first `w` characters, or all of `s` when it is shorter. */
  function Take(s: string, w: nat): (r: string)
    ensures |r| == Min(|s|, w)
    ensures r == s[..Min(|s|, w)]
  {
    if |s| <= w then s else s[..w]
  }

  /**
   The strict order the default `Array.prototype.sort` puts strings in:
   the first differing character decides, and a proper prefix comes first.
   */
  predicate LexLess(a: string, b: string)
  {
    |b| > 0 && (|a| == 0 || a[0] < b[0] || (a[0] == b[0] && LexLess(a[1..], b[1..])))
  }

  lemma {:induction false} LexIrreflexive(a: string)
    ensures !LexLess(a, a)
  {
    if |a| > 0 {
      LexIrreflexive(a[1..]);
    }
  }

  /** Cutting two ordered strings to the same width never reverses their order. */
  lemma {:induction false} TakeMonotone(a: string, b: string, w: nat)
    requires LexLess(a, b)
    ensures Take(a, w) == Take(b, w) || LexLess(Take(a, w), Take(b, w))
  {
    if w > 0 && |a| > 0 && a[0] == b[0] {
      TakeMonotone(a[1..], b[1..], w - 1);
      TakeCons(a, w);
      TakeCons(b, w);
    }
  }

  /** Taking `w` characters keeps the first one and takes `w - 1` of the rest. */
  lemma TakeCons(s: string, w: nat)
    requires w > 0 && |s| > 0
    ensures Take(s, w) == [s[0]] + Take(s[1..], w - 1)
  {
    assert s[1..][..Min(|s| - 1, w - 1)] == s[1..Min(|s|, w)];
  }

  /** Every element precedes every later one: the result of sorting distinct keys. */
  predicate StrictlyAscending(s: seq<string>)
  {
    forall i, j :: 0 <= i < j < |s| ==> LexLess(s[i], s[j])
  }

  /** Every element is equal to or precedes every later one. */
  predicate NonDecreasing(s: seq<string>)
  {
    forall i, j :: 0 <= i < j < |s| ==> s[i] == s[j] || LexLess(s[i], s[j])
  }

  predicate Distinct<T(==)>(s: seq<T>)
  {
    forall i, j :: 0 <= i < j < |s| ==> s[i] != s[j]
  }

  lemma AscendingIsDistinct(s: seq<string>)
    requires StrictlyAscending(s)
    ensures Distinct(s)
  {
    forall i, j | 0 <= i < j < |s| ensures s[i] != s[j] {
      LexIrreflexive(s[i]);
    }
  }

  /** Every element of a prefix is an element of the whole sequence. */
  lemma InPrefix<T>(s: seq<T>, i: nat)
    requires i <= |s|
    ensures forall x :: x in s[..i] ==> x in s
  {
    forall x | x in s[..i]
      ensures x in s
    {
      var j :| 0 <= j < i && s[..i][j] == x;
      assert s[j] == x;
    }
  }

  /**
   The elements of `s` in order of first appearance: the key order of an
   object whose keys were inserted in the order of `s`.
   */
  function Dedup(s: seq<string>): (r: seq<string>)
    ensures Distinct(r)
    ensures forall x :: x in r <==> x in s
    ensures |r| <= |s|
  {
    if s == [] then []
    else
      var d := Dedup(s[..|s| - 1]);
      if s[|s| - 1] in d then d else d + [s[|s| - 1]]
  }

  /** Keeping first appearances of a non-decreasing sequence gives a strictly ascending one. */
  lemma {:induction false} DedupAscending(s: seq<string>)
    requires NonDecreasing(s)
    ensures StrictlyAscending(Dedup(s))
  {
    if s != [] {
      var init, x := s[..|s| - 1], s[|s| - 1];
      assert NonDecreasing(init);
      DedupAscending(init);
      var d := Dedup(init);
      if x !in d {
        forall i | 0 <= i < |d| ensures LexLess(d[i], x) {
          assert d[i] in init;
          var k :| 0 <= k < |init| && init[k] == d[i];
          assert s[k] == d[i] && s[|s| - 1] == x;
        }
      }
    }
  }

  /** Sum of `history[d]` over the days `d` of `days`. */
  function SumOver(days: seq<string>, history: map<string, nat>): nat
    requires forall d :: d in days ==> d in history
  {
    if days == [] then 0
    else SumOver(days[..|days| - 1], history) + history[days[|days| - 1]]
  }

  lemma {:induction false} SumOverConcat(a: seq<string>, b: seq<string>, history: map<string, nat>)
    requires forall d :: d in a + b ==> d in history
    ensures SumOver(a + b, history) == SumOver(a, history) + SumOver(b, history)
  {
    if b != [] {
      assert (a + b)[..|a + b| - 1] == a + b[..|b| - 1];
      SumOverConcat(a, b[..|b| - 1], history);
    } else {
      assert a + b == a;
    }
  }

  lemma {:induction false} SumOverSameValues(days: seq<string>, h1: map<string, nat>, h2: map<string, nat>)
    requires forall d :: d in days ==> d in h1 && d in h2 && h1[d] == h2[d]
    ensures SumOver(days, h1) == SumOver(days, h2)
  {
    if days != [] {
      SumOverSameValues(days[..|days| - 1], h1, h2);
    }
  }

  ghost function PickKey(m: map<string, nat>): (k: string)
    requires |m| > 0
    ensures k in m
  {
    var k :| k in m; k
  }

  /** The sum of all values of a map: `Object.values(m).reduce((s, c) => s + c, 0)`. */
  ghost function MapTotal(m: map<string, nat>): nat
    decreases |m|
  {
    if |m| == 0 then 0
    else
      var k := PickKey(m);
      assert |(m - {k}).Keys| == |m.Keys - {k}| == |m.Keys| - 1;
      m[k] + MapTotal(m - {k})
  }

  /** The total does not depend on which key is taken out first. */
  lemma {:induction false} MapTotalRemove(m: map<string, nat>, k: string)
    requires k in m
    ensures MapTotal(m) == m[k] + MapTotal(m - {k})
    decreases |m|
  {
    var j := PickKey(m);
    if j != k {
      assert |(m - {j}).Keys| == |m.Keys - {j}| == |m.Keys| - 1;
      assert |(m - {k}).Keys| == |m.Keys - {k}| == |m.Keys| - 1;
      MapTotalRemove(m - {j}, k);
      MapTotalRemove(m - {k}, j);
      assert m - {j} - {k} == m - {k} - {j};
    }
  }

  lemma MapTotalUpdate(m: map<string, nat>, k: string, v: nat)
    ensures MapTotal(m[k := v]) + (if k in m then m[k] else 0) == MapTotal(m) + v
  {
    MapTotalPut(m, k, v);
    if k in m {
      MapTotalRemove(m, k);
    } else {
      assert m - {k} == m;
    }
  }

  lemma MapTotalPut(m: map<string, nat>, k: string, v: nat)
    ensures MapTotal(m[k := v]) == v + MapTotal(m - {k})
  {
    MapTotalRemove(m[k := v], k);
    assert m[k := v] - {k} == m - {k};
  }

  /** Dropping the last of a duplicate-free list of keys drops exactly that key. */
  lemma KeysWithoutLast(days: seq<string>, history: map<string, nat>)
    requires days != [] && Distinct(days)
    requires forall d :: d in days <==> d in history
    ensures Distinct(days[..|days| - 1])
    ensures forall d :: d in days[..|days| - 1] <==> d in history && d != days[|days| - 1]
  {
    var init, last := days[..|days| - 1], days[|days| - 1];
    forall d | d in history - {last} ensures d in init {
      var i :| 0 <= i < |days| && days[i] == d;
      assert init[i] == d;
    }
  }

  lemma EmptyKeys(history: map<string, nat>)
    requires forall d :: d !in history
    ensures MapTotal(history) == 0
  {
    if |history| != 0 {
      var k := PickKey(history);
    }
  }

  /**
   Summing the values at a duplicate-free list of exactly the keys of a map
   gives the map's total, whatever order the keys are listed in.
   */
  lemma {:induction false} SumOverKeys(days: seq<string>, history: map<string, nat>)
    requires Distinct(days)
    requires forall d :: d in days <==> d in history
    ensures SumOver(days, history) == MapTotal(history)
  {
    if days == [] {
      EmptyKeys(history);
    } else {
      var init, last := days[..|days| - 1], days[|days| - 1];
      var rest := history - {last};
      KeysWithoutLast(days, history);
      SumOverKeys(init, rest);
      SumOverSameValues(init, history, rest);
      MapTotalRemove(history, last);
    }
  }
}
