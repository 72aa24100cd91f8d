/**
 * Generic facts about lists: keeping the members of a set in list order,
 * lists without repeats, and assigning a list of values to a list of keys of
 * a map one after another.
 */
module Sequences {
  /** The members of `xs` that are in `keep`, in the order of `xs`. */
  function Keep<C(==)>(xs: seq<C>, keep: set<C>): (r: seq<C>)
    ensures |r| <= |xs|
    ensures forall c | c in r :: c in xs && c in keep
    ensures forall c | c in xs && c in keep :: c in r
  {
    if xs == [] then []
    else (if xs[0] in keep then [xs[0]] else []) + Keep(xs[1..], keep)
  }

  /** Only whether the members of `xs` are in the set matters. */
  lemma {:induction false} KeepAgrees<C>(xs: seq<C>, keep: set<C>, other: set<C>)
    requires forall c | c in xs :: c in keep <==> c in other
    ensures Keep(xs, keep) == Keep(xs, other)
    decreases |xs|
  {
    if xs != [] {
      KeepAgrees(xs[1..], keep, other);
    }
  }

  /** Keeping distributes over concatenation, so kept members never change their relative order. */
  lemma {:induction false} KeepAppend<C>(xs: seq<C>, ys: seq<C>, keep: set<C>)
    ensures Keep(xs + ys, keep) == Keep(xs, keep) + Keep(ys, keep)
    decreases |xs|
  {
    if xs == [] {
      assert xs + ys == ys;
    } else {
      assert (xs + ys)[0] == xs[0];
      assert (xs + ys)[1..] == xs[1..] + ys;
      KeepAppend(xs[1..], ys, keep);
    }
  }

  /** No member occurs twice. */
  predicate Distinct<C(==)>(xs: seq<C>)
  {
    forall a, b | 0 <= a < b < |xs| :: xs[a] != xs[b]
  }

  /** The tail of a list without repeats has none, and does not hold the head. */
  lemma TailDistinct<C>(xs: seq<C>)
    requires Distinct(xs) && |xs| > 0
    ensures Distinct(xs[1..]) && xs[0] !in xs[1..]
  {
    forall x, y | 0 <= x < y < |xs[1..]| ensures xs[1..][x] != xs[1..][y] {
      assert xs[1..][x] == xs[x + 1] && xs[1..][y] == xs[y + 1];
    }
  }

  /** A new head that the tail does not hold keeps a list without repeats. */
  lemma ConsDistinct<C>(x: C, xs: seq<C>)
    requires Distinct(xs) && x !in xs
    ensures Distinct([x] + xs)
  {
    var r := [x] + xs;
    forall a, b | 0 <= a < b < |r| ensures r[a] != r[b] {
      assert r[b] == xs[b - 1];
      if a > 0 {
        assert r[a] == xs[a - 1];
      }
    }
  }

  /** Keeping members of a list without repeats yields a list without repeats. */
  lemma {:induction false} KeepDistinct<C>(xs: seq<C>, keep: set<C>)
    requires Distinct(xs)
    ensures Distinct(Keep(xs, keep))
    decreases |xs|
  {
    if xs != [] {
      TailDistinct(xs);
      KeepDistinct(xs[1..], keep);
      var rest := Keep(xs[1..], keep);
      if xs[0] in keep {
        ConsDistinct(xs[0], rest);
      } else {
        assert Keep(xs, keep) == rest;
      }
    }
  }

  /** The map after assigning the i-th value to the i-th key, in list order. */
  function Assign<K, V>(row: map<K, V>, xs: seq<K>, values: seq<V>): (r: map<K, V>)
    requires |values| == |xs|
    ensures r.Keys == row.Keys + set c | c in xs
    decreases |xs|
  {
    if xs == [] then row else Assign(row[xs[0] := values[0]], xs[1..], values[1..])
  }

  /** A key never assigned keeps its value, or its absence. */
  lemma {:induction false} AssignUntouched<K, V>(row: map<K, V>, xs: seq<K>, values: seq<V>, c: K)
    requires |values| == |xs| && c !in xs
    ensures c in Assign(row, xs, values) <==> c in row
    ensures c in row ==> Assign(row, xs, values)[c] == row[c]
    decreases |xs|
  {
    if xs != [] {
      assert c !in xs[1..];
      AssignUntouched(row[xs[0] := values[0]], xs[1..], values[1..], c);
    }
  }

  /** With keys that do not repeat, each key ends with the value at its own position. */
  lemma {:induction false} AssignDistinct<K, V>(row: map<K, V>, xs: seq<K>, values: seq<V>)
    requires |values| == |xs| && Distinct(xs)
    ensures forall i | 0 <= i < |xs| :: Assign(row, xs, values)[xs[i]] == values[i]
    decreases |xs|
  {
    if xs != [] {
      var next := row[xs[0] := values[0]];
      TailDistinct(xs);
      AssignDistinct(next, xs[1..], values[1..]);
      AssignUntouched(next, xs[1..], values[1..], xs[0]);
      forall i | 0 <= i < |xs| ensures Assign(row, xs, values)[xs[i]] == values[i] {
        if i > 0 {
          assert xs[i] == xs[1..][i - 1] && values[i] == values[1..][i - 1];
        }
      }
    }
  }
}
