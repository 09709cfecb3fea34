/**
 * Deduplication with a `seen` set, the loop shape every extractor uses:
 *
 *     for x in xs:
 *         candidate = f(x)            # None when x yields no record
 *         if candidate.key in seen: continue
 *         seen.add(candidate.key)
 *         out.append(candidate.item)
 *
 * `Collect` is that loop as a function (the prefix of the input before the last element first, so
 * that a loop over `xs[..i]` can keep it as its invariant). The lemma below states what it
 * guarantees: keys are distinct and fresh, every item comes from the input, and the first
 * candidate for each fresh key is the one kept.
 */
module Dedup {
  import opened Wrappers

  /** A record together with the key it is deduplicated under. */
  datatype Keyed<R> = Keyed(key: string, item: R)

  function Keys<R>(xs: seq<Keyed<R>>): set<string> {
    set i | 0 <= i < |xs| :: xs[i].key
  }

  function Items<R>(xs: seq<Keyed<R>>): (r: seq<R>)
    ensures |r| == |xs| && forall i :: 0 <= i < |xs| ==> r[i] == xs[i].item
  {
    seq(|xs|, i requires 0 <= i < |xs| => xs[i].item)
  }

  /** The candidates `f` yields for `xs`, keeping the first per key and none whose key is in `seen0`. */
  function Collect<T, R>(xs: seq<T>, f: T -> Option<Keyed<R>>, seen0: set<string>): seq<Keyed<R>>
    decreases |xs|
  {
    if xs == [] then []
    else
      var prev := Collect(xs[..|xs| - 1], f, seen0);
      var c := f(xs[|xs| - 1]);
      if c.None? || c.value.key in seen0 || c.value.key in Keys(prev) then prev else prev + [c.value]
  }

  /** The candidate of `xs[j]` exists and no earlier element has a candidate with the same key. */
  predicate FirstWithKey<T, R>(xs: seq<T>, f: T -> Option<Keyed<R>>, j: nat)
    requires j < |xs|
  {
    && f(xs[j]).Some?
    && forall i :: 0 <= i < j ==> f(xs[i]).None? || f(xs[i]).value.key != f(xs[j]).value.key
  }

  /**
   * What the `seen`-set loop guarantees: no key twice and none from `seen0`; every kept item is the
   * candidate of some input element; and the first candidate for every key not in `seen0` is kept,
   * so later candidates with that key are the ones skipped.
   */
  lemma {:induction false} CollectSpec<T, R>(xs: seq<T>, f: T -> Option<Keyed<R>>, seen0: set<string>)
    ensures var out := Collect(xs, f, seen0);
      && (forall i, j :: 0 <= i < j < |out| ==> out[i].key != out[j].key)
      && (forall i :: 0 <= i < |out| ==> out[i].key !in seen0)
      && (forall i :: 0 <= i < |out| ==> exists j :: 0 <= j < |xs| && f(xs[j]) == Some(out[i]))
      && (forall j :: 0 <= j < |xs| && FirstWithKey(xs, f, j) && f(xs[j]).value.key !in seen0 ==>
            f(xs[j]).value in out)
    decreases |xs|
  {
    var out := Collect(xs, f, seen0);
    if xs != [] {
      var n := |xs| - 1;
      var ys := xs[..n];
      var prev := Collect(ys, f, seen0);
      CollectSpec(ys, f, seen0);
      var c := f(xs[n]);
      assert out == (if c.None? || c.value.key in seen0 || c.value.key in Keys(prev) then prev else prev + [c.value]);
      CollectOrigin(xs, f, seen0);
      CollectOrigin(ys, f, seen0);
      forall j | 0 <= j < |xs| && FirstWithKey(xs, f, j) && f(xs[j]).value.key !in seen0
        ensures f(xs[j]).value in out
      {
        if j < n {
          assert ys[j] == xs[j];
          assert FirstWithKey(ys, f, j) by {
            forall i | 0 <= i < j ensures f(ys[i]).None? || f(ys[i]).value.key != f(ys[j]).value.key {
              assert ys[i] == xs[i];
            }
          }
        } else {
          forall i | 0 <= i < |prev| ensures prev[i].key != c.value.key {
            var k :| 0 <= k < |ys| && f(ys[k]) == Some(prev[i]);
            assert xs[k] == ys[k];
          }
        }
      }
    }
  }

  /** Every kept item is the candidate of some input element. */
  lemma {:induction false} CollectOrigin<T, R>(xs: seq<T>, f: T -> Option<Keyed<R>>, seen0: set<string>)
    ensures forall i :: 0 <= i < |Collect(xs, f, seen0)| ==>
      exists j :: 0 <= j < |xs| && f(xs[j]) == Some(Collect(xs, f, seen0)[i])
    decreases |xs|
  {
    var out := Collect(xs, f, seen0);
    if xs == [] {
      assert out == [];
    } else {
      var n := |xs| - 1;
      var ys := xs[..n];
      var prev := Collect(ys, f, seen0);
      CollectOrigin(ys, f, seen0);
      var c := f(xs[n]);
      assert out == (if c.None? || c.value.key in seen0 || c.value.key in Keys(prev) then prev else prev + [c.value]);
      forall i | 0 <= i < |out| ensures exists j :: 0 <= j < |xs| && f(xs[j]) == Some(out[i]) {
        if i < |prev| {
          var j :| 0 <= j < |ys| && f(ys[j]) == Some(prev[i]);
          assert xs[j] == ys[j];
        } else {
          assert f(xs[n]) == Some(out[i]);
        }
      }
    }
  }

  /** A property every candidate from `xs` has, every kept candidate has. */
  lemma CollectAll<T, R>(xs: seq<T>, f: T -> Option<Keyed<R>>, seen0: set<string>, p: Keyed<R> -> bool)
    requires forall j :: 0 <= j < |xs| && f(xs[j]).Some? ==> p(f(xs[j]).value)
    ensures forall i :: 0 <= i < |Collect(xs, f, seen0)| ==> p(Collect(xs, f, seen0)[i])
  {
    var out := Collect(xs, f, seen0);
    CollectSpec(xs, f, seen0);
    forall i | 0 <= i < |out| ensures p(out[i]) {
      var j :| 0 <= j < |xs| && f(xs[j]) == Some(out[i]);
    }
  }

  /** The kept keys are distinct and fresh. */
  lemma CollectDistinct<T, R>(xs: seq<T>, f: T -> Option<Keyed<R>>, seen0: set<string>)
    ensures var out := Collect(xs, f, seen0);
      && (forall i, j :: 0 <= i < j < |out| ==> out[i].key != out[j].key)
      && (forall i :: 0 <= i < |out| ==> out[i].key !in seen0)
  {
    CollectSpec(xs, f, seen0);
  }

  /** The first candidate of every fresh key is kept. */
  lemma CollectFirst<T, R>(xs: seq<T>, f: T -> Option<Keyed<R>>, seen0: set<string>, j: nat)
    requires j < |xs| && FirstWithKey(xs, f, j) && f(xs[j]).value.key !in seen0
    ensures f(xs[j]).value in Collect(xs, f, seen0)
  {
    CollectSpec(xs, f, seen0);
  }

  /** Every candidate key not in `seen0` ends up among the kept keys, whichever element yields it first. */
  lemma {:induction false} CollectCovers<T, R>(xs: seq<T>, f: T -> Option<Keyed<R>>, seen0: set<string>, j: nat)
    requires j < |xs| && f(xs[j]).Some? && f(xs[j]).value.key !in seen0
    ensures f(xs[j]).value.key in Keys(Collect(xs, f, seen0))
    decreases |xs|
  {
    var n := |xs| - 1;
    var prev := Collect(xs[..n], f, seen0);
    var out := Collect(xs, f, seen0);
    assert |prev| <= |out| && forall i :: 0 <= i < |prev| ==> out[i] == prev[i];
    if j < n {
      assert xs[..n][j] == xs[j];
      CollectCovers(xs[..n], f, seen0, j);
      var i :| 0 <= i < |prev| && prev[i].key == f(xs[j]).value.key;
      assert out[i].key == f(xs[j]).value.key;
    } else if f(xs[j]).value.key !in Keys(prev) {
      assert out[|prev|] == f(xs[j]).value;
    } else {
      var i :| 0 <= i < |prev| && prev[i].key == f(xs[j]).value.key;
      assert out[i].key == f(xs[j]).value.key;
    }
  }

  /** One more loop iteration: the candidate of `x` is kept exactly when it exists and its key is unseen. */
  lemma CollectSnoc<T, R>(xs: seq<T>, x: T, f: T -> Option<Keyed<R>>, seen0: set<string>)
    ensures var prev := Collect(xs, f, seen0);
      Collect(xs + [x], f, seen0)
      == if f(x).None? || f(x).value.key in seen0 + Keys(prev) then prev else prev + [f(x).value]
  {
    assert (xs + [x])[..|xs|] == xs;
  }

  lemma KeysSnoc<R>(xs: seq<Keyed<R>>, y: Keyed<R>)
    ensures Keys(xs + [y]) == Keys(xs) + {y.key}
  {
    assert (xs + [y])[|xs|] == y;
    forall k | k in Keys(xs) ensures k in Keys(xs + [y]) {
      var i :| 0 <= i < |xs| && xs[i].key == k;
      assert (xs + [y])[i] == xs[i];
    }
  }

  lemma ItemsSnoc<R>(xs: seq<Keyed<R>>, y: Keyed<R>)
    ensures Items(xs + [y]) == Items(xs) + [y.item]
  {
  }

  /**
   * One iteration of the `seen`-set loop over `xs[i]` whose candidate is `(key, item)`: when the key
   * was seen the output and the set stay as they are, otherwise the item is appended and the key
   * added, and either way the loop state is `Collect` of one more element.
   */
  lemma DedupStep<T, R>(xs: seq<T>, i: nat, f: T -> Option<Keyed<R>>, seen0: set<string>,
                        out: seq<R>, seen: set<string>, key: string, item: R)
    requires i < |xs|
    requires out == Items(Collect(xs[..i], f, seen0)) && seen == seen0 + Keys(Collect(xs[..i], f, seen0))
    requires f(xs[i]) == Some(Keyed(key, item))
    ensures key in seen ==>
      out == Items(Collect(xs[..i + 1], f, seen0)) && seen == seen0 + Keys(Collect(xs[..i + 1], f, seen0))
    ensures key !in seen ==>
      out + [item] == Items(Collect(xs[..i + 1], f, seen0)) && seen + {key} == seen0 + Keys(Collect(xs[..i + 1], f, seen0))
  {
    var prev := Collect(xs[..i], f, seen0);
    assert xs[..i + 1] == xs[..i] + [xs[i]];
    CollectSnoc(xs[..i], xs[i], f, seen0);
    if key !in seen {
      KeysSnoc(prev, Keyed(key, item));
      ItemsSnoc(prev, Keyed(key, item));
    }
  }

  /**
   * One iteration when the loop knows the key `xs[i]` would be filed under (if it yields a
   * candidate at all) before computing the candidate: a seen key, or no candidate, leaves the state
   * as it is; otherwise the candidate is appended and its key added.
   */
  lemma DedupAdvance<T, R>(xs: seq<T>, i: nat, f: T -> Option<Keyed<R>>, seen0: set<string>,
                           out: seq<R>, seen: set<string>, key: string)
    requires i < |xs|
    requires out == Items(Collect(xs[..i], f, seen0)) && seen == seen0 + Keys(Collect(xs[..i], f, seen0))
    requires f(xs[i]).None? || f(xs[i]).value.key == key
    ensures key in seen || f(xs[i]).None? ==>
      out == Items(Collect(xs[..i + 1], f, seen0)) && seen == seen0 + Keys(Collect(xs[..i + 1], f, seen0))
    ensures key !in seen && f(xs[i]).Some? ==>
      && out + [f(xs[i]).value.item] == Items(Collect(xs[..i + 1], f, seen0))
      && seen + {key} == seen0 + Keys(Collect(xs[..i + 1], f, seen0))
  {
    var prev := Collect(xs[..i], f, seen0);
    assert xs[..i + 1] == xs[..i] + [xs[i]];
    CollectSnoc(xs[..i], xs[i], f, seen0);
    if key !in seen && f(xs[i]).Some? {
      KeysSnoc(prev, f(xs[i]).value);
      ItemsSnoc(prev, f(xs[i]).value);
    }
  }

  lemma ItemsAppend<R>(xs: seq<Keyed<R>>, ys: seq<Keyed<R>>)
    ensures Items(xs + ys) == Items(xs) + Items(ys)
  {
  }

  lemma KeysAppend<R>(xs: seq<Keyed<R>>, ys: seq<Keyed<R>>)
    ensures Keys(xs + ys) == Keys(xs) + Keys(ys)
  {
    forall k | k in Keys(xs + ys) ensures k in Keys(xs) + Keys(ys) {
      var i :| 0 <= i < |xs + ys| && (xs + ys)[i].key == k;
      if i >= |xs| {
        assert ys[i - |xs|].key == k;
      }
    }
    forall k | k in Keys(xs) + Keys(ys) ensures k in Keys(xs + ys) {
      if k in Keys(xs) {
        var i :| 0 <= i < |xs| && xs[i].key == k;
        assert (xs + ys)[i] == xs[i];
      } else {
        var i :| 0 <= i < |ys| && ys[i].key == k;
        assert (xs + ys)[|xs| + i] == ys[i];
      }
    }
  }

  /**
   * Running the loop over `a` and then, with the keys that left in the `seen` set, over `b` is
   * running it over `a + b`: the loop can be split at any point, for instance per brand.
   */
  lemma {:induction false} CollectAppend<T, R>(a: seq<T>, b: seq<T>, f: T -> Option<Keyed<R>>, seen0: set<string>)
    ensures var first := Collect(a, f, seen0);
      Collect(a + b, f, seen0) == first + Collect(b, f, seen0 + Keys(first))
    decreases |b|
  {
    var first := Collect(a, f, seen0);
    var seen1 := seen0 + Keys(first);
    if b == [] {
      assert a + b == a;
    } else {
      var init := b[..|b| - 1];
      var x := b[|b| - 1];
      var rest := Collect(init, f, seen1);
      CollectAppend(a, init, f, seen0);
      assert Collect(a + b, f, seen0) == Collect((a + init) + [x], f, seen0) by {
        assert a + b == (a + init) + [x];
      }
      assert Collect(b, f, seen1) == Collect(init + [x], f, seen1) by {
        assert b == init + [x];
      }
      assert seen0 + Keys(first + rest) == seen1 + Keys(rest) by {
        KeysAppend(first, rest);
      }
      CollectSnoc(a + init, x, f, seen0);
      CollectSnoc(init, x, f, seen1);
      if f(x).Some? && f(x).value.key !in seen1 + Keys(rest) {
        assert (first + rest) + [f(x).value] == first + (rest + [f(x).value]);
      }
    }
  }
}
