/**
  Folds over record sequences and the string-keyed dictionaries that the
  analysers build with `Array.prototype.reduce`.

  A JavaScript plain object used as a dictionary is modelled by a `map`
  together with its key order: keys enumerate in insertion order, which for a
  dictionary filled while walking a sequence is the order of first occurrence
  (`KeysInOrder`). Every fold here walks the sequence from the left, as
  `reduce` and `forEach` do, so each loop in the analysers is proved against the
  function of the prefix it has consumed.
*/
module Folds {

  /** A key of a plain object: always a string. */
  type Key = string

  /** The key function of a dictionary keyed by the values themselves. */
  function Ident(k: Key): Key
  {
    k
  }

  predicate Distinct(ks: seq<Key>)
  {
    forall i, j :: 0 <= i < j < |ks| ==> ks[i] != ks[j]
  }

  // ---------------------------------------------------------------- sums

  /** `s.reduce((sum, x) => sum + f(x), 0)`. */
  function Sum<T>(s: seq<T>, f: T -> real): real
  {
    if |s| == 0 then 0.0 else Sum(s[..|s| - 1], f) + f(s[|s| - 1])
  }

  lemma {:induction false} SumAppend<T>(s: seq<T>, t: seq<T>, f: T -> real)
    ensures Sum(s + t, f) == Sum(s, f) + Sum(t, f)
    decreases |t|
  {
    if |t| == 0 {
      assert s + t == s;
    } else {
      var t' := t[..|t| - 1];
      assert (s + t)[..|s + t| - 1] == s + t';
      SumAppend(s, t', f);
    }
  }

  /** Dropping the last element removes one copy of it from the multiset. */
  lemma MultisetDropLast<T>(s: seq<T>)
    requires |s| > 0
    ensures multiset(s[..|s| - 1]) == multiset(s) - multiset{s[|s| - 1]}
    ensures multiset(s) == multiset(s[..|s| - 1]) + multiset{s[|s| - 1]}
  {
    assert s == s[..|s| - 1] + [s[|s| - 1]];
  }

  /** A prefix of `a + b` one longer than `a + b[..j]` ends in `b[j]`. */
  lemma AppendPrefixStep<T>(a: seq<T>, b: seq<T>, j: nat)
    requires j < |b|
    ensures (a + b[..j + 1])[..|a| + j] == a + b[..j]
    ensures (a + b[..j + 1])[|a| + j] == b[j]
    ensures a + b[..j + 1] == (a + b[..j]) + [b[j]]
  {
    assert (a + b[..j + 1])[..|a| + j] == a + b[..j];
    assert a + b[..j + 1] == (a + b[..j]) + [b[j]];
  }

  /** Removing the element at `i` removes one copy of it from the multiset. */
  lemma MultisetRemoveAt<T>(t: seq<T>, i: nat)
    requires i < |t|
    ensures multiset(t[..i] + t[i + 1..]) == multiset(t) - multiset{t[i]}
  {
    assert t == t[..i] + [t[i]] + t[i + 1..];
  }

  /** Extending a prefix by one element adds that element's value. */
  lemma SumPrefixStep<T>(t: seq<T>, i: nat, f: T -> real)
    requires i < |t|
    ensures Sum(t[..i + 1], f) == Sum(t[..i], f) + f(t[i])
  {
    assert t[..i + 1][..i] == t[..i];
  }

  /** Removing the element at `i` removes its value from the sum. */
  lemma SumRemoveAt<T>(t: seq<T>, i: nat, f: T -> real)
    requires i < |t|
    ensures Sum(t, f) == Sum(t[..i] + t[i + 1..], f) + f(t[i])
  {
    SumPrefixStep(t, i, f);
    SumAppend(t[..i + 1], t[i + 1..], f);
    SumAppend(t[..i], t[i + 1..], f);
    TakeDropJoin(t, i + 1);
  }

  lemma TakeDropJoin<T>(t: seq<T>, j: nat)
    requires j <= |t|
    ensures t[..j] + t[j..] == t
  {
  }

  /** The total does not depend on the order of the records. */
  lemma {:induction false} SumPermutation<T>(s: seq<T>, t: seq<T>, f: T -> real)
    requires multiset(s) == multiset(t)
    ensures Sum(s, f) == Sum(t, f)
    decreases |s|
  {
    if |s| == 0 {
      assert |t| == |multiset(t)|;
    } else {
      var x := s[|s| - 1];
      MultisetDropLast(s);
      assert x in multiset(t);
      var i :| 0 <= i < |t| && t[i] == x;
      MultisetRemoveAt(t, i);
      SumRemoveAt(t, i, f);
      SumPermutation(s[..|s| - 1], t[..i] + t[i + 1..], f);
    }
  }

  // ---------------------------------------------------------- key order

  /** The keys a dictionary filled from `s` enumerates, in insertion order. */
  function KeysInOrder<T>(s: seq<T>, key: T -> Key): seq<Key>
  {
    if |s| == 0 then []
    else
      var ks := KeysInOrder(s[..|s| - 1], key);
      var k := key(s[|s| - 1]);
      if k in ks then ks else ks + [k]
  }

  /** No key is inserted twice. */
  lemma {:induction false} KeysInOrderDistinct<T>(s: seq<T>, key: T -> Key)
    ensures Distinct(KeysInOrder(s, key))
  {
    if |s| > 0 {
      KeysInOrderDistinct(s[..|s| - 1], key);
    }
  }

  /** Every record's key is among the keys. */
  lemma {:induction false} KeysInOrderCover<T>(s: seq<T>, key: T -> Key)
    ensures forall x :: x in s ==> key(x) in KeysInOrder(s, key)
  {
    if |s| > 0 {
      var s' := s[..|s| - 1];
      KeysInOrderCover(s', key);
      forall x | x in s
        ensures key(x) in KeysInOrder(s, key)
      {
        if x != s[|s| - 1] {
          var i :| 0 <= i < |s| && s[i] == x;
          assert s'[i] == x;
        }
      }
    }
  }

  /** Appending a record inserts its key unless it is already there. */
  lemma KeysInOrderSnoc<T>(s: seq<T>, key: T -> Key, x: T)
    ensures KeysInOrder(s + [x], key)
         == if key(x) in KeysInOrder(s, key) then KeysInOrder(s, key) else KeysInOrder(s, key) + [key(x)]
  {
    assert (s + [x])[..|s|] == s;
  }

  /** There is one key per distinct key value of the records, and never more keys than records. */
  lemma {:induction false} KeysInOrderFacts<T>(s: seq<T>, key: T -> Key)
    ensures Distinct(KeysInOrder(s, key))
    ensures |KeysInOrder(s, key)| <= |s|
    ensures forall k :: k in KeysInOrder(s, key) <==> exists i :: 0 <= i < |s| && key(s[i]) == k
  {
    KeysInOrderDistinct(s, key);
    if |s| > 0 {
      var s' := s[..|s| - 1];
      KeysInOrderFacts(s', key);
      forall k
        ensures k in KeysInOrder(s, key) <==> exists i :: 0 <= i < |s| && key(s[i]) == k
      {
        if k in KeysInOrder(s', key) {
          var i :| 0 <= i < |s'| && key(s'[i]) == k;
          assert s[i] == s'[i];
        }
        if exists i :: 0 <= i < |s| && key(s[i]) == k {
          var i :| 0 <= i < |s| && key(s[i]) == k;
          if i < |s| - 1 {
            assert s'[i] == s[i];
          }
        }
      }
    }
  }

  /** The records with key `k`, in their original order. */
  function Filter<T>(s: seq<T>, key: T -> Key, k: Key): seq<T>
  {
    if |s| == 0 then []
    else Filter(s[..|s| - 1], key, k) + (if key(s[|s| - 1]) == k then [s[|s| - 1]] else [])
  }

  lemma {:induction false} FilterEmptyOffKeys<T>(s: seq<T>, key: T -> Key, k: Key)
    requires k !in KeysInOrder(s, key)
    ensures Filter(s, key, k) == []
  {
    if |s| > 0 {
      FilterEmptyOffKeys(s[..|s| - 1], key, k);
    }
  }

  lemma {:induction false} FilterNonEmptyOnKeys<T>(s: seq<T>, key: T -> Key, k: Key)
    requires k in KeysInOrder(s, key)
    ensures |Filter(s, key, k)| > 0
  {
    var s' := s[..|s| - 1];
    if k in KeysInOrder(s', key) {
      FilterNonEmptyOnKeys(s', key, k);
    }
  }

  // ------------------------------------------------- per-key dictionaries

  /** A dictionary entry, or 0 for a missing key. */
  function ValueOr(m: map<Key, real>, k: Key): real
  {
    if k in m then m[k] else 0.0
  }

  /** `acc[key(x)] = (acc[key(x)] || 0) + f(x)` for every record, from the left. */
  function GroupSum<T>(s: seq<T>, key: T -> Key, f: T -> real): map<Key, real>
  {
    if |s| == 0 then map[]
    else
      var m := GroupSum(s[..|s| - 1], key, f);
      var k := key(s[|s| - 1]);
      m[k := ValueOr(m, k) + f(s[|s| - 1])]
  }

  /** `acc[key(x)] = (acc[key(x)] || 0) + 1` for every record, from the left. */
  function GroupCount<T>(s: seq<T>, key: T -> Key): map<Key, nat>
  {
    if |s| == 0 then map[]
    else
      var m := GroupCount(s[..|s| - 1], key);
      var k := key(s[|s| - 1]);
      m[k := (if k in m then m[k] else 0) + 1]
  }

  /** Appending a record increments its key's count. */
  lemma GroupCountSnoc<T>(s: seq<T>, key: T -> Key, x: T)
    ensures var m := GroupCount(s, key);
      GroupCount(s + [x], key) == m[key(x) := (if key(x) in m then m[key(x)] else 0) + 1]
  {
    assert (s + [x])[..|s|] == s;
  }

  /** `(acc[key(x)] ||= []).push(f(x))` for every record, from the left. */
  function GroupList<T, V>(s: seq<T>, key: T -> Key, f: T -> V): map<Key, seq<V>>
  {
    if |s| == 0 then map[]
    else
      var m := GroupList(s[..|s| - 1], key, f);
      var k := key(s[|s| - 1]);
      m[k := (if k in m then m[k] else []) + [f(s[|s| - 1])]]
  }

  /** The dictionary's keys are exactly the keys in insertion order. */
  lemma {:induction false} GroupSumKeys<T>(s: seq<T>, key: T -> Key, f: T -> real)
    ensures forall k :: k in GroupSum(s, key, f) <==> k in KeysInOrder(s, key)
  {
    if |s| > 0 {
      GroupSumKeys(s[..|s| - 1], key, f);
    }
  }

  lemma {:induction false} GroupCountKeys<T>(s: seq<T>, key: T -> Key)
    ensures forall k :: k in GroupCount(s, key) <==> k in KeysInOrder(s, key)
  {
    if |s| > 0 {
      GroupCountKeys(s[..|s| - 1], key);
    }
  }

  lemma {:induction false} GroupListKeys<T, V>(s: seq<T>, key: T -> Key, f: T -> V)
    ensures forall k :: k in GroupList(s, key, f) <==> k in KeysInOrder(s, key)
    ensures forall k :: k in GroupList(s, key, f) ==> |GroupList(s, key, f)[k]| > 0
  {
    if |s| > 0 {
      GroupListKeys(s[..|s| - 1], key, f);
    }
  }

  /** `s.map(f)`. */
  function Project<T, V>(s: seq<T>, f: T -> V): (r: seq<V>)
    ensures |r| == |s| && forall i :: 0 <= i < |s| ==> r[i] == f(s[i])
  {
    seq(|s|, i requires 0 <= i < |s| => f(s[i]))
  }

  lemma ProjectPrefix<T, V>(s: seq<T>, f: T -> V, n: nat)
    requires n <= |s|
    ensures Project(s, f)[..n] == Project(s[..n], f)
  {
  }

  /** A key's sum is the sum over exactly the records carrying that key. */
  lemma {:induction false} GroupSumIsFilterSum<T>(s: seq<T>, key: T -> Key, f: T -> real)
    ensures forall k :: k in GroupSum(s, key, f) ==> GroupSum(s, key, f)[k] == Sum(Filter(s, key, k), f)
  {
    if |s| > 0 {
      var s', x := s[..|s| - 1], s[|s| - 1];
      GroupSumIsFilterSum(s', key, f);
      GroupSumKeys(s', key, f);
      var m' := GroupSum(s', key, f);
      forall k | k in GroupSum(s, key, f)
        ensures GroupSum(s, key, f)[k] == Sum(Filter(s, key, k), f)
      {
        if key(x) == k {
          assert Filter(s, key, k) == Filter(s', key, k) + [x];
          SumAppend(Filter(s', key, k), [x], f);
          assert [x][..0] == [];
          if k !in KeysInOrder(s', key) {
            FilterEmptyOffKeys(s', key, k);
            assert GroupSum(s, key, f)[k] == 0.0 + f(x);
          } else {
            assert GroupSum(s, key, f)[k] == m'[k] + f(x);
          }
        } else {
          assert Filter(s, key, k) == Filter(s', key, k);
          assert GroupSum(s, key, f)[k] == m'[k];
        }
      }
    }
  }

  /** A key's count is the number of records carrying that key. */
  lemma {:induction false} GroupCountIsFilterSize<T>(s: seq<T>, key: T -> Key)
    ensures forall k :: k in GroupCount(s, key) ==> GroupCount(s, key)[k] == |Filter(s, key, k)|
  {
    if |s| > 0 {
      var s' := s[..|s| - 1];
      GroupCountIsFilterSize(s', key);
      GroupCountKeys(s', key);
      forall k | k in GroupCount(s, key) && k !in KeysInOrder(s', key)
        ensures GroupCount(s, key)[k] == |Filter(s, key, k)|
      {
        FilterEmptyOffKeys(s', key, k);
      }
    }
  }

  /** A key's list holds `f` of exactly the records carrying that key, in order, and is never empty. */
  lemma {:induction false} GroupListIsProjectedFilter<T, V>(s: seq<T>, key: T -> Key, f: T -> V)
    ensures forall k :: k in GroupList(s, key, f) ==> GroupList(s, key, f)[k] == Project(Filter(s, key, k), f)
  {
    if |s| > 0 {
      var s', x := s[..|s| - 1], s[|s| - 1];
      GroupListIsProjectedFilter(s', key, f);
      GroupListKeys(s', key, f);
      forall k | k in GroupList(s, key, f)
        ensures GroupList(s, key, f)[k] == Project(Filter(s, key, k), f)
      {
        if key(x) == k && k !in KeysInOrder(s', key) {
          FilterEmptyOffKeys(s', key, k);
        }
      }
    }
  }

  // ------------------------------------------- values of a dictionary

  /** The sum of `Object.values(m)` when `ks` is the key order of `m`. */
  function SumOver(ks: seq<Key>, m: map<Key, real>): real
  {
    if |ks| == 0 then 0.0 else SumOver(ks[..|ks| - 1], m) + ValueOr(m, ks[|ks| - 1])
  }

  lemma {:induction false} SumOverOtherKey(ks: seq<Key>, m: map<Key, real>, k: Key, v: real)
    requires k !in ks
    ensures SumOver(ks, m[k := v]) == SumOver(ks, m)
  {
    if |ks| > 0 {
      SumOverOtherKey(ks[..|ks| - 1], m, k, v);
    }
  }

  lemma {:induction false} SumOverAdd(ks: seq<Key>, m: map<Key, real>, k: Key, a: real)
    requires Distinct(ks) && k in ks
    ensures SumOver(ks, m[k := ValueOr(m, k) + a]) == SumOver(ks, m) + a
  {
    var ks' := ks[..|ks| - 1];
    if ks[|ks| - 1] == k {
      assert k !in ks';
      SumOverOtherKey(ks', m, k, ValueOr(m, k) + a);
    } else {
      SumOverAdd(ks', m, k, a);
    }
  }

  /**
    Summing the dictionary over any distinct key list that covers every
    record's key gives the sum over all records.
  */
  lemma {:induction false} GroupSumOverCover<T>(s: seq<T>, key: T -> Key, f: T -> real, ks: seq<Key>)
    requires Distinct(ks)
    requires forall x :: x in s ==> key(x) in ks
    ensures SumOver(ks, GroupSum(s, key, f)) == Sum(s, f)
  {
    if |s| == 0 {
      SumOverEmpty(ks);
    } else {
      var s', x := s[..|s| - 1], s[|s| - 1];
      assert forall y :: y in s' ==> y in s;
      GroupSumOverCover(s', key, f, ks);
      SumOverAdd(ks, GroupSum(s', key, f), key(x), f(x));
    }
  }

  lemma {:induction false} SumOverEmpty(ks: seq<Key>)
    ensures SumOver(ks, map[]) == 0.0
  {
    if |ks| > 0 {
      SumOverEmpty(ks[..|ks| - 1]);
    }
  }

  /** The per-key sums add up to the sum over all records. */
  lemma GroupSumsAddUp<T>(s: seq<T>, key: T -> Key, f: T -> real)
    ensures SumOver(KeysInOrder(s, key), GroupSum(s, key, f)) == Sum(s, f)
  {
    KeysInOrderCover(s, key);
    KeysInOrderDistinct(s, key);
    GroupSumOverCover(s, key, f, KeysInOrder(s, key));
  }

  /** The sum of `Object.values(m)` for a count dictionary. */
  function SumCounts(ks: seq<Key>, m: map<Key, nat>): nat
  {
    if |ks| == 0 then 0
    else SumCounts(ks[..|ks| - 1], m) + (if ks[|ks| - 1] in m then m[ks[|ks| - 1]] else 0)
  }

  lemma {:induction false} SumCountsOtherKey(ks: seq<Key>, m: map<Key, nat>, k: Key, v: nat)
    requires k !in ks
    ensures SumCounts(ks, m[k := v]) == SumCounts(ks, m)
  {
    if |ks| > 0 {
      SumCountsOtherKey(ks[..|ks| - 1], m, k, v);
    }
  }

  lemma {:induction false} SumCountsIncrement(ks: seq<Key>, m: map<Key, nat>, k: Key)
    requires Distinct(ks) && k in ks
    ensures SumCounts(ks, m[k := (if k in m then m[k] else 0) + 1]) == SumCounts(ks, m) + 1
  {
    var ks' := ks[..|ks| - 1];
    if ks[|ks| - 1] == k {
      assert k !in ks';
      SumCountsOtherKey(ks', m, k, (if k in m then m[k] else 0) + 1);
    } else {
      SumCountsIncrement(ks', m, k);
    }
  }

  lemma {:induction false} SumCountsEmpty(ks: seq<Key>)
    ensures SumCounts(ks, map[]) == 0
  {
    if |ks| > 0 {
      SumCountsEmpty(ks[..|ks| - 1]);
    }
  }

  /** Counting over any distinct key list that covers every record's key gives the number of records. */
  lemma {:induction false} GroupCountOverCover<T>(s: seq<T>, key: T -> Key, ks: seq<Key>)
    requires Distinct(ks)
    requires forall x :: x in s ==> key(x) in ks
    ensures SumCounts(ks, GroupCount(s, key)) == |s|
  {
    if |s| == 0 {
      SumCountsEmpty(ks);
    } else {
      var s', x := s[..|s| - 1], s[|s| - 1];
      assert forall y :: y in s' ==> y in s;
      GroupCountOverCover(s', key, ks);
      SumCountsIncrement(ks, GroupCount(s', key), key(x));
    }
  }

  /** The per-key counts add up to the number of records. */
  lemma GroupCountsAddUp<T>(s: seq<T>, key: T -> Key)
    ensures SumCounts(KeysInOrder(s, key), GroupCount(s, key)) == |s|
  {
    KeysInOrderCover(s, key);
    KeysInOrderDistinct(s, key);
    GroupCountOverCover(s, key, KeysInOrder(s, key));
  }

  // ------------------------------------------------ threshold counters

  /** `Object.values(m).filter(v => v >= t).length` when `ks` is the key order of `m`. */
  function CountAtLeast(ks: seq<Key>, m: map<Key, real>, t: real): (n: nat)
    ensures n <= |ks|
  {
    if |ks| == 0 then 0
    else CountAtLeast(ks[..|ks| - 1], m, t) + (if ValueOr(m, ks[|ks| - 1]) >= t then 1 else 0)
  }

  /** The keys among `ks` whose value reaches the threshold. */
  function Reaching(ks: seq<Key>, m: map<Key, real>, t: real): set<Key>
  {
    set k | k in ks && ValueOr(m, k) >= t
  }

  lemma ReachingSnoc(ks: seq<Key>, last: Key, m: map<Key, real>, t: real)
    ensures Reaching(ks + [last], m, t) == Reaching(ks, m, t) + (if ValueOr(m, last) >= t then {last} else {})
  {
  }

  /** Over distinct keys, the counter is the number of keys whose value reaches the threshold. */
  lemma {:induction false} CountAtLeastIsCardinality(ks: seq<Key>, m: map<Key, real>, t: real)
    requires Distinct(ks)
    ensures CountAtLeast(ks, m, t) == |Reaching(ks, m, t)|
  {
    if |ks| == 0 {
      assert Reaching(ks, m, t) == {};
    } else {
      var ks', last := ks[..|ks| - 1], ks[|ks| - 1];
      CountAtLeastIsCardinality(ks', m, t);
      assert ks == ks' + [last];
      ReachingSnoc(ks', last, m, t);
      assert last !in Reaching(ks', m, t);
    }
  }

  /** Raising the threshold never raises the count. */
  lemma {:induction false} CountAtLeastAntitone(ks: seq<Key>, m: map<Key, real>, lo: real, hi: real)
    requires lo <= hi
    ensures CountAtLeast(ks, m, hi) <= CountAtLeast(ks, m, lo)
  {
    if |ks| > 0 {
      CountAtLeastAntitone(ks[..|ks| - 1], m, lo, hi);
    }
  }

  // ------------------------------------------- queries and record order

  /** The records satisfying `p`, in order: what a query with equality and range filters keeps. */
  function Select<T(!new)>(s: seq<T>, p: T -> bool): (r: seq<T>)
    ensures |r| <= |s|
    ensures forall x :: x in r <==> x in s && p(x)
    ensures forall x :: multiset(r)[x] == if p(x) then multiset(s)[x] else 0
  {
    if |s| == 0 then []
    else
      assert s == s[..|s| - 1] + [s[|s| - 1]];
      Select(s[..|s| - 1], p) + (if p(s[|s| - 1]) then [s[|s| - 1]] else [])
  }

  /** `f` on the records with key `k`, 0 on the others. */
  function Masked<T>(key: T -> Key, k: Key, f: T -> real): T -> real
  {
    x => if key(x) == k then f(x) else 0.0
  }

  /** Summing over a key's records is summing the masked values over all records. */
  lemma {:induction false} FilterSum<T>(s: seq<T>, key: T -> Key, k: Key, f: T -> real)
    ensures Sum(Filter(s, key, k), f) == Sum(s, Masked(key, k, f))
  {
    if |s| > 0 {
      var s', x := s[..|s| - 1], s[|s| - 1];
      FilterSum(s', key, k, f);
      if key(x) == k {
        SumAppend(Filter(s', key, k), [x], f);
        assert [x][..0] == [];
      } else {
        assert Filter(s, key, k) == Filter(s', key, k);
      }
    }
  }

  lemma {:induction false} DistinctCardinality(ks: seq<Key>)
    requires Distinct(ks)
    ensures |set k | k in ks| == |ks|
  {
    if |ks| == 0 {
      assert (set k | k in ks) == {};
    } else {
      var ks' := ks[..|ks| - 1];
      DistinctCardinality(ks');
      assert ks[|ks| - 1] !in ks';
      assert (set k | k in ks) == (set k | k in ks') + {ks[|ks| - 1]};
    }
  }

  /** Reordering the records changes neither the keys present nor their number. */
  lemma KeysPermutation<T>(s: seq<T>, t: seq<T>, key: T -> Key)
    requires multiset(s) == multiset(t)
    ensures forall k :: k in KeysInOrder(s, key) <==> k in KeysInOrder(t, key)
    ensures |KeysInOrder(s, key)| == |KeysInOrder(t, key)|
  {
    KeysInOrderFacts(s, key);
    KeysInOrderFacts(t, key);
    forall k
      ensures k in KeysInOrder(s, key) <==> k in KeysInOrder(t, key)
    {
      if k in KeysInOrder(s, key) {
        var i :| 0 <= i < |s| && key(s[i]) == k;
        assert s[i] in multiset(t);
        var j :| 0 <= j < |t| && t[j] == s[i];
      }
      if k in KeysInOrder(t, key) {
        var j :| 0 <= j < |t| && key(t[j]) == k;
        assert t[j] in multiset(s);
        var i :| 0 <= i < |s| && s[i] == t[j];
      }
    }
    assert (set k | k in KeysInOrder(s, key)) == (set k | k in KeysInOrder(t, key));
    DistinctCardinality(KeysInOrder(s, key));
    DistinctCardinality(KeysInOrder(t, key));
  }

  /** A per-key dictionary of sums is a function of the records' multiset, not of their order. */
  lemma GroupSumPermutation<T>(s: seq<T>, t: seq<T>, key: T -> Key, f: T -> real)
    requires multiset(s) == multiset(t)
    ensures GroupSum(s, key, f) == GroupSum(t, key, f)
  {
    var m, n := GroupSum(s, key, f), GroupSum(t, key, f);
    KeysPermutation(s, t, key);
    GroupSumKeys(s, key, f);
    GroupSumKeys(t, key, f);
    assert m.Keys == n.Keys;
    GroupSumIsFilterSum(s, key, f);
    GroupSumIsFilterSum(t, key, f);
    forall k | k in m
      ensures m[k] == n[k]
    {
      FilterSum(s, key, k, f);
      FilterSum(t, key, k, f);
      SumPermutation(s, t, Masked(key, k, f));
    }
  }

  /** The threshold counter depends only on which keys there are and their values, not on their order. */
  lemma CountAtLeastPermutation(ks: seq<Key>, ls: seq<Key>, m: map<Key, real>, t: real)
    requires Distinct(ks) && Distinct(ls)
    requires forall k :: k in ks <==> k in ls
    ensures CountAtLeast(ks, m, t) == CountAtLeast(ls, m, t)
  {
    CountAtLeastIsCardinality(ks, m, t);
    CountAtLeastIsCardinality(ls, m, t);
    assert Reaching(ks, m, t) == Reaching(ls, m, t);
  }
}
