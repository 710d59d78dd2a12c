/**
 * `toPairs(countBy(key)(xs))` from lodash/fp, over the keys already picked
 * out of the elements: the distinct keys in the order they first appear,
 * each paired with the number of elements that have it. The order is that
 * of a JavaScript object's string keys, which is insertion order.
 */
module Lodash {

  /** The keys of a list of `[key, count]` pairs, in order. */
  function Keys(pairs: seq<(string, nat)>): (ks: seq<string>)
    ensures |ks| == |pairs|
    ensures forall i :: 0 <= i < |pairs| ==> ks[i] == pairs[i].0
  {
    seq(|pairs|, i requires 0 <= i < |pairs| => pairs[i].0)
  }

  function SumCounts(pairs: seq<(string, nat)>): nat {
    if pairs == [] then 0 else pairs[0].1 + SumCounts(pairs[1..])
  }

  /**
   * One more element with key `k`: its counter goes up by one, or a new
   * counter starting at one is added at the end.
   */
  function Bump(pairs: seq<(string, nat)>, k: string): seq<(string, nat)> {
    if pairs == [] then [(k, 1)]
    else if pairs[0].0 == k then [(k, pairs[0].1 + 1)] + pairs[1..]
    else [pairs[0]] + Bump(pairs[1..], k)
  }

  /** `toPairs(countBy(...)(xs))`, the elements visited from first to last. */
  function CountBy(keys: seq<string>): seq<(string, nat)> {
    if keys == [] then []
    else Bump(CountBy(keys[..|keys| - 1]), keys[|keys| - 1])
  }

  // ---------------------------------------------------------------------------
  // Reference definitions: the distinct keys in first-occurrence order
  // ---------------------------------------------------------------------------

  /** The keys of `keys` without repetitions, each where it first occurs. */
  function Distinct(keys: seq<string>): seq<string> {
    if keys == [] then []
    else
      var init := Distinct(keys[..|keys| - 1]);
      if keys[|keys| - 1] in init then init else init + [keys[|keys| - 1]]
  }

  /** The position of the first occurrence of `k`. */
  function FirstIndex(keys: seq<string>, k: string): (i: nat)
    requires k in keys
    ensures i < |keys| && keys[i] == k && k !in keys[..i]
  {
    if keys[0] == k then 0
    else
      var j := FirstIndex(keys[1..], k);
      assert keys[1..][..j] == keys[1..j + 1];
      1 + j
  }

  predicate NoDuplicates(ks: seq<string>) {
    forall i, j :: 0 <= i < j < |ks| ==> ks[i] != ks[j]
  }

  lemma FirstIndexUnique(keys: seq<string>, k: string, i: nat)
    requires i < |keys| && keys[i] == k && k !in keys[..i]
    ensures FirstIndex(keys, k) == i
  {
    var f := FirstIndex(keys, k);
    assert forall t :: 0 <= t < i ==> keys[..i][t] == keys[t];
    assert forall t :: 0 <= t < f ==> keys[..f][t] == keys[t];
  }

  /**
   * `Distinct` has no repetitions, holds exactly the keys that occur, and
   * lists them in the order of their first occurrences.
   */
  lemma {:induction false} DistinctProperties(keys: seq<string>)
    ensures NoDuplicates(Distinct(keys))
    ensures forall k :: k in Distinct(keys) <==> k in keys
    ensures forall i, j :: 0 <= i < j < |Distinct(keys)| ==>
              FirstIndex(keys, Distinct(keys)[i]) < FirstIndex(keys, Distinct(keys)[j])
  {
    if keys != [] {
      var n := |keys|;
      var init := keys[..n - 1];
      var last := keys[n - 1];
      DistinctProperties(init);
      var d := Distinct(init);
      assert keys == init + [last];
      forall k | k in init ensures FirstIndex(keys, k) == FirstIndex(init, k) {
        var f := FirstIndex(init, k);
        assert keys[..f] == init[..f];
        FirstIndexUnique(keys, k, f);
      }
      if last !in d {
        assert keys[..n - 1] == init;
        FirstIndexUnique(keys, last, n - 1);
        assert Distinct(keys) == d + [last];
      }
    }
  }

  // ---------------------------------------------------------------------------
  // What `CountBy` computes
  // ---------------------------------------------------------------------------

  lemma {:induction false} BumpKeys(pairs: seq<(string, nat)>, k: string)
    ensures Keys(Bump(pairs, k)) == if k in Keys(pairs) then Keys(pairs) else Keys(pairs) + [k]
  {
    if pairs != [] {
      BumpKeys(pairs[1..], k);
      assert Keys(pairs) == [pairs[0].0] + Keys(pairs[1..]);
      if pairs[0].0 != k {
        assert Keys(Bump(pairs, k)) == [pairs[0].0] + Keys(Bump(pairs[1..], k));
      }
    }
  }

  lemma {:induction false} BumpCounts(pairs: seq<(string, nat)>, k: string)
    requires NoDuplicates(Keys(pairs))
    ensures |Bump(pairs, k)| >= |pairs|
    ensures forall i :: 0 <= i < |pairs| ==>
              Bump(pairs, k)[i].1 == pairs[i].1 + (if pairs[i].0 == k then 1 else 0)
    ensures |Bump(pairs, k)| > |pairs| ==> Bump(pairs, k)[|pairs|].1 == 1
  {
    if pairs != [] {
      assert NoDuplicates(Keys(pairs[1..])) by {
        assert forall i :: 0 <= i < |pairs| - 1 ==> Keys(pairs[1..])[i] == Keys(pairs)[i + 1];
      }
      BumpCounts(pairs[1..], k);
      if pairs[0].0 == k {
        forall i | 1 <= i < |pairs| ensures pairs[i].0 != k {
          assert Keys(pairs)[0] != Keys(pairs)[i];
        }
      }
    }
  }

  lemma {:induction false} BumpSum(pairs: seq<(string, nat)>, k: string)
    ensures SumCounts(Bump(pairs, k)) == SumCounts(pairs) + 1
  {
    if pairs != [] {
      BumpSum(pairs[1..], k);
      if pairs[0].0 == k {
        assert ([(k, pairs[0].1 + 1)] + pairs[1..])[1..] == pairs[1..];
      } else {
        assert ([pairs[0]] + Bump(pairs[1..], k))[1..] == Bump(pairs[1..], k);
      }
    }
  }

  /** The pairs' keys are exactly the distinct keys, in first-occurrence order. */
  lemma {:induction false} CountByKeys(keys: seq<string>)
    ensures Keys(CountBy(keys)) == Distinct(keys)
  {
    if keys != [] {
      CountByKeys(keys[..|keys| - 1]);
      BumpKeys(CountBy(keys[..|keys| - 1]), keys[|keys| - 1]);
    }
  }

  /** Each pair's count is its key's multiplicity in `ms`. */
  predicate Tallies(pairs: seq<(string, nat)>, ms: multiset<string>) {
    forall i :: 0 <= i < |pairs| ==> pairs[i].1 == ms[pairs[i].0]
  }

  lemma BumpTallies(pairs: seq<(string, nat)>, ms: multiset<string>, k: string)
    requires NoDuplicates(Keys(pairs)) && Tallies(pairs, ms)
    requires forall x :: x in Keys(pairs) <==> x in ms
    ensures Tallies(Bump(pairs, k), ms + multiset{k})
  {
    var after := Bump(pairs, k);
    BumpCounts(pairs, k);
    BumpKeys(pairs, k);
    forall i | 0 <= i < |after| ensures after[i].1 == (ms + multiset{k})[after[i].0] {
      if i < |pairs| {
        assert after[i].0 == Keys(after)[i] == Keys(pairs)[i] == pairs[i].0;
      } else {
        assert Keys(after) == Keys(pairs) + [k];
        assert after[i].0 == Keys(after)[i] == k;
      }
    }
  }

  /** Each key's count is the number of times it occurs. */
  lemma {:induction false} CountByCounts(keys: seq<string>)
    ensures Tallies(CountBy(keys), multiset(keys))
  {
    if keys != [] {
      var init := keys[..|keys| - 1];
      var last := keys[|keys| - 1];
      CountByCounts(init);
      CountByKeys(init);
      DistinctProperties(init);
      BumpTallies(CountBy(init), multiset(init), last);
      assert keys == init + [last];
    }
  }

  /** The counts add up to the number of elements. */
  lemma {:induction false} CountBySum(keys: seq<string>)
    ensures SumCounts(CountBy(keys)) == |keys|
  {
    if keys != [] {
      CountBySum(keys[..|keys| - 1]);
      BumpSum(CountBy(keys[..|keys| - 1]), keys[|keys| - 1]);
    }
  }

  /**
   * Everything the caller sees of `toPairs(countBy(...))`: one pair per
   * distinct key, in first-occurrence order, each count positive and equal
   * to the key's number of occurrences, and the counts summing to the
   * number of elements.
   */
  lemma CountBySpec(keys: seq<string>)
    ensures |CountBy(keys)| == |Distinct(keys)|
    ensures forall i :: 0 <= i < |CountBy(keys)| ==>
              CountBy(keys)[i] == (Distinct(keys)[i], multiset(keys)[Distinct(keys)[i]])
    ensures forall i :: 0 <= i < |CountBy(keys)| ==> CountBy(keys)[i].1 >= 1
    ensures SumCounts(CountBy(keys)) == |keys|
  {
    CountByKeys(keys);
    CountByCounts(keys);
    CountBySum(keys);
    DistinctProperties(keys);
    var c := CountBy(keys);
    forall i | 0 <= i < |c| ensures c[i] == (Distinct(keys)[i], multiset(keys)[Distinct(keys)[i]]) && c[i].1 >= 1 {
      assert c[i].0 == Keys(c)[i];
      assert Distinct(keys)[i] in keys;
    }
  }
}
