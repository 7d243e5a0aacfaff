// The Swift `Array` operations the data source is built from: insertion of a
// run of elements, removal at an index, sorting in descending order, and a
// run of removals performed one after another.
module ArrayEdits {
  import opened Wrappers

  /** `xs.insert(contentsOf: ys, at: i)`; Swift traps unless `0 <= i <= xs.count`. */
  function InsertAt<T>(xs: seq<T>, i: int, ys: seq<T>): (r: seq<T>)
    requires 0 <= i <= |xs|
    ensures |r| == |xs| + |ys|
    ensures r[..i] == xs[..i] && r[i..i + |ys|] == ys && r[i + |ys|..] == xs[i..]
  {
    xs[..i] + ys + xs[i..]
  }

  /** `xs.remove(at: i)`; Swift traps unless `0 <= i < xs.count`. */
  function RemoveAt<T>(xs: seq<T>, i: int): (r: seq<T>)
    requires 0 <= i < |xs|
    ensures |r| == |xs| - 1
    ensures r[..i] == xs[..i] && r[i..] == xs[i + 1..]
  {
    xs[..i] + xs[i + 1..]
  }

  /** Removing what was just inserted gives the original array back. */
  lemma RemoveAtUndoesInsertAt<T>(xs: seq<T>, i: int, y: T)
    requires 0 <= i <= |xs|
    ensures RemoveAt(InsertAt(xs, i, [y]), i) == xs
  {
    var ins := InsertAt(xs, i, [y]);
    assert RemoveAt(ins, i) == ins[..i] + ins[i + 1..];
  }

  predicate Descending(s: seq<int>)
  {
    forall a, b :: 0 <= a < b < |s| ==> s[a] >= s[b]
  }

  predicate StrictlyDescending(s: seq<int>)
  {
    forall a, b :: 0 <= a < b < |s| ==> s[a] > s[b]
  }

  /** Puts `x` into a descending sequence, in front of the first element it is not below. */
  function InsertDescending(x: int, s: seq<int>): (r: seq<int>)
    ensures multiset(r) == multiset(s) + multiset{x}
    ensures |r| == |s| + 1
    decreases |s|
  {
    if s == [] then [x]
    else if x >= s[0] then [x] + s
    else
      assert s == [s[0]] + s[1..];
      [s[0]] + InsertDescending(x, s[1..])
  }

  /** Inserting a value that is at most `m` into a sequence bounded by `m` keeps the bound. */
  lemma {:induction false} InsertDescendingBounded(x: int, s: seq<int>, m: int)
    requires x <= m
    requires forall k :: 0 <= k < |s| ==> s[k] <= m
    ensures forall k :: 0 <= k < |InsertDescending(x, s)| ==> InsertDescending(x, s)[k] <= m
    decreases |s|
  {
    if s != [] && x < s[0] {
      InsertDescendingBounded(x, s[1..], m);
      var rest := InsertDescending(x, s[1..]);
      assert InsertDescending(x, s) == [s[0]] + rest;
    }
  }

  lemma {:induction false} InsertDescendingSorted(x: int, s: seq<int>)
    requires Descending(s)
    ensures Descending(InsertDescending(x, s))
    decreases |s|
  {
    if s != [] && x < s[0] {
      var rest := InsertDescending(x, s[1..]);
      InsertDescendingSorted(x, s[1..]);
      InsertDescendingBounded(x, s[1..], s[0]);
      var r := [s[0]] + rest;
      assert InsertDescending(x, s) == r;
      forall a, b | 0 <= a < b < |r| ensures r[a] >= r[b] {
        if a == 0 {
          assert r[b] == rest[b - 1];
        } else {
          assert r[a] == rest[a - 1] && r[b] == rest[b - 1];
        }
      }
    }
  }

  /** `rows.sorted(by: >)`: a permutation of `s`. */
  function SortDescending(s: seq<int>): (r: seq<int>)
    ensures multiset(r) == multiset(s)
    ensures |r| == |s|
  {
    if s == [] then []
    else
      assert s == [s[0]] + s[1..];
      InsertDescending(s[0], SortDescending(s[1..]))
  }

  /** ... and it is descending. */
  lemma {:induction false} SortDescendingSorted(s: seq<int>)
    ensures Descending(SortDescending(s))
  {
    if s != [] {
      SortDescendingSorted(s[1..]);
      InsertDescendingSorted(s[0], SortDescending(s[1..]));
    }
  }

  /** The elements of `s` below `n`, in their order, repeats included. */
  function KeepBelow(s: seq<int>, n: int): (r: seq<int>)
    ensures forall x :: multiset(r)[x] == if x < n then multiset(s)[x] else 0
    ensures forall k :: 0 <= k < |r| ==> r[k] < n
  {
    if s == [] then []
    else
      assert s == [s[0]] + s[1..];
      var rest := KeepBelow(s[1..], n);
      if s[0] < n then [s[0]] + rest else rest
  }

  /** Keeping a subsequence keeps a descending sequence descending. */
  lemma {:induction false} KeepBelowSorted(s: seq<int>, n: int)
    requires Descending(s)
    ensures Descending(KeepBelow(s, n))
    decreases |s|
  {
    if s != [] {
      var rest := KeepBelow(s[1..], n);
      assert Descending(s[1..]) by {
        forall a, b | 0 <= a < b < |s[1..]| ensures s[1..][a] >= s[1..][b] {
          assert s[1..][a] == s[a + 1] && s[1..][b] == s[b + 1];
        }
      }
      KeepBelowSorted(s[1..], n);
      if s[0] < n {
        var r := [s[0]] + rest;
        forall a, b | 0 <= a < b < |r| ensures r[a] >= r[b] {
          if a == 0 {
            assert r[b] == rest[b - 1];
            assert rest[b - 1] in multiset(rest);
            assert rest[b - 1] in multiset(s[1..]);
            var j :| 0 <= j < |s[1..]| && s[1..][j] == rest[b - 1];
            assert s[j + 1] == rest[b - 1];
          } else {
            assert r[a] == rest[a - 1] && r[b] == rest[b - 1];
          }
        }
      }
    }
  }

  /** A descending sequence in which no value occurs twice is strictly descending. */
  lemma DescendingWithoutRepeatsIsStrict(s: seq<int>)
    requires Descending(s)
    requires forall x :: multiset(s)[x] <= 1
    ensures StrictlyDescending(s)
  {
    forall a, b | 0 <= a < b < |s| ensures s[a] > s[b] {
      assert s == s[..b] + s[b..];
      assert s[..b][a] == s[a] && s[b..][0] == s[b];
      assert multiset(s)[s[a]] == multiset(s[..b])[s[a]] + multiset(s[b..])[s[a]];
    }
  }

  /** Each index of `idx` removed in turn from the array as it then is; `None` when one of
      them is out of range at its turn (Swift traps). */
  function RemoveEach<T>(xs: seq<T>, idx: seq<int>): (r: Option<seq<T>>)
    ensures r.Some? ==> |r.value| + |idx| == |xs|
    decreases |idx|
  {
    if idx == [] then Some(xs)
    else if 0 <= idx[0] < |xs| then RemoveEach(RemoveAt(xs, idx[0]), idx[1..])
    else None
  }

  /** The elements of `xs` whose index is not in `drop`, in order: the reference definition
      of removing a set of rows. */
  function Keep<T>(xs: seq<T>, drop: set<int>): (r: seq<T>)
    ensures |r| <= |xs|
    ensures drop == {} ==> r == xs
    decreases |xs|
  {
    if xs == [] then []
    else Keep(xs[..|xs| - 1], drop) + (if |xs| - 1 in drop then [] else [xs[|xs| - 1]])
  }

  /** While nothing below `b` is dropped, the first `b` elements stay where they are. */
  lemma {:induction false} KeepPrefix<T>(xs: seq<T>, drop: set<int>, b: int)
    requires 0 <= b <= |xs|
    requires forall t :: t in drop ==> t >= b
    ensures b <= |Keep(xs, drop)| && Keep(xs, drop)[..b] == xs[..b]
    decreases |xs|
  {
    if xs != [] {
      var front := xs[..|xs| - 1];
      if b == |xs| {
        KeepPrefix(front, drop, b - 1);
        assert Keep(front, drop) == front;
        assert xs == front + [xs[|xs| - 1]];
      } else {
        KeepPrefix(front, drop, b);
        assert xs[..b] == front[..b];
      }
    }
  }

  /** Removing an index below every dropped one drops it as well. */
  lemma {:induction false} RemoveAtKeep<T>(xs: seq<T>, drop: set<int>, i: int)
    requires 0 <= i < |xs|
    requires forall t :: t in drop ==> t > i
    ensures i < |Keep(xs, drop)|
    ensures RemoveAt(Keep(xs, drop), i) == Keep(xs, drop + {i})
    decreases |xs|
  {
    KeepPrefix(xs, drop, i + 1);
    var front := xs[..|xs| - 1];
    if i == |xs| - 1 {
      KeepPrefix(front, drop, i);
      KeepPrefix(front, drop + {i}, i);
      assert Keep(front, drop) == front;
      assert Keep(front, drop + {i}) == front;
    } else {
      RemoveAtKeep(front, drop, i);
      var a := Keep(front, drop);
      var tail := if |xs| - 1 in drop then [] else [xs[|xs| - 1]];
      assert Keep(xs, drop) == a + tail;
      assert RemoveAt(a + tail, i) == RemoveAt(a, i) + tail;
    }
  }

  /** Removing strictly descending in-range indices one after another removes exactly that
      set of rows. */
  lemma {:induction false} RemoveEachKeep<T>(xs: seq<T>, drop: set<int>, idx: seq<int>)
    requires StrictlyDescending(idx)
    requires forall k :: 0 <= k < |idx| ==> 0 <= idx[k] < |xs|
    requires forall t, k :: t in drop && 0 <= k < |idx| ==> t > idx[k]
    ensures RemoveEach(Keep(xs, drop), idx) == Some(Keep(xs, drop + set k | 0 <= k < |idx| :: idx[k]))
    decreases |idx|
  {
    var all := set k | 0 <= k < |idx| :: idx[k];
    if idx == [] {
      assert all == {};
      assert drop + all == drop;
    } else {
      RemoveAtKeep(xs, drop, idx[0]);
      var rest := idx[1..];
      var bigger := drop + {idx[0]};
      forall t, k | t in bigger && 0 <= k < |rest| ensures t > rest[k] {
        assert rest[k] == idx[k + 1];
      }
      RemoveEachKeep(xs, bigger, rest);
      var restSet := set k | 0 <= k < |rest| :: rest[k];
      assert bigger + restSet == drop + all by {
        forall x | x in drop + all ensures x in bigger + restSet {
          if x in all && x !in drop {
            var k :| 0 <= k < |idx| && idx[k] == x;
            if k > 0 {
              assert rest[k - 1] == x;
            }
          }
        }
        forall x | x in restSet ensures x in all {
          var k :| 0 <= k < |rest| && rest[k] == x;
          assert idx[k + 1] == x;
        }
      }
    }
  }
}
