/**
  `Object.entries(counts).sort((a, b) => b[1] - a[1])`: the entries of a count
  dictionary ordered by non-increasing count. `Array.prototype.sort` is stable,
  so entries with equal counts keep their dictionary order; the sort is
  modelled as the stable insertion sort that places each entry after every
  earlier entry whose count is at least its own.
*/
module Ranking {
  import opened Folds

  /** One `[key, count]` pair of `Object.entries`. */
  datatype Entry = Entry(name: Key, count: nat)

  /** A count of a dictionary, or 0 for a missing key. */
  function CountOr(m: map<Key, nat>, k: Key): nat
  {
    if k in m then m[k] else 0
  }

  /** `Object.entries(m)` when `ks` is the key order of `m`. */
  function EntriesOf(ks: seq<Key>, m: map<Key, nat>): (es: seq<Entry>)
    ensures |es| == |ks|
    ensures forall i :: 0 <= i < |ks| ==> es[i] == Entry(ks[i], CountOr(m, ks[i]))
  {
    seq(|ks|, i requires 0 <= i < |ks| => Entry(ks[i], CountOr(m, ks[i])))
  }

  predicate SortedByCount(s: seq<Entry>)
  {
    forall i, j :: 0 <= i < j < |s| ==> s[i].count >= s[j].count
  }

  /** The entries of `s` with count `c`, in order. */
  function WithCount(s: seq<Entry>, c: nat): seq<Entry>
  {
    if |s| == 0 then []
    else WithCount(s[..|s| - 1], c) + (if s[|s| - 1].count == c then [s[|s| - 1]] else [])
  }

  /** Places `x` after every entry of the sorted `t` whose count is at least its own. */
  function Insert(t: seq<Entry>, x: Entry): seq<Entry>
  {
    if |t| == 0 then [x]
    else if t[|t| - 1].count >= x.count then t + [x]
    else Insert(t[..|t| - 1], x) + [t[|t| - 1]]
  }

  /** The stable sort by non-increasing count. */
  function SortByCount(s: seq<Entry>): seq<Entry>
  {
    if |s| == 0 then [] else Insert(SortByCount(s[..|s| - 1]), s[|s| - 1])
  }

  // ------------------------------------------------------------- insertion

  lemma {:induction false} InsertPermutes(t: seq<Entry>, x: Entry)
    ensures multiset(Insert(t, x)) == multiset(t) + multiset{x}
    ensures |Insert(t, x)| == |t| + 1
  {
    if |t| > 0 && t[|t| - 1].count < x.count {
      InsertPermutes(t[..|t| - 1], x);
      MultisetDropLast(t);
    }
  }

  /** Every entry has count at least `c`. */
  predicate AllAtLeast(t: seq<Entry>, c: nat)
  {
    forall i :: 0 <= i < |t| ==> t[i].count >= c
  }

  lemma {:induction false} InsertAtLeast(t: seq<Entry>, x: Entry, c: nat)
    requires AllAtLeast(t, c) && x.count >= c
    ensures AllAtLeast(Insert(t, x), c)
  {
    if |t| > 0 && t[|t| - 1].count < x.count {
      InsertAtLeast(t[..|t| - 1], x, c);
    }
  }

  /** Inserting into a sorted sequence keeps it sorted. */
  lemma {:induction false} InsertSorted(t: seq<Entry>, x: Entry)
    requires SortedByCount(t)
    ensures SortedByCount(Insert(t, x))
  {
    if |t| > 0 && t[|t| - 1].count < x.count {
      var t', last := t[..|t| - 1], t[|t| - 1];
      InsertSorted(t', x);
      assert AllAtLeast(t', last.count);
      InsertAtLeast(t', x, last.count);
    }
  }

  /** Inserting `x` appends it to the entries of its own count and leaves every other count's entries alone. */
  lemma WithCountSnoc(s: seq<Entry>, e: Entry, c: nat)
    ensures WithCount(s + [e], c) == WithCount(s, c) + (if e.count == c then [e] else [])
  {
    assert (s + [e])[..|s|] == s;
  }

  lemma {:induction false} InsertWithCount(t: seq<Entry>, x: Entry, c: nat)
    ensures WithCount(Insert(t, x), c) == WithCount(t, c) + (if x.count == c then [x] else [])
  {
    if |t| == 0 {
      WithCountSnoc([], x, c);
      assert [] + [x] == [x];
    } else if t[|t| - 1].count >= x.count {
      WithCountSnoc(t, x, c);
    } else {
      var t', last := t[..|t| - 1], t[|t| - 1];
      InsertWithCount(t', x, c);
      var u := Insert(t', x);
      assert Insert(t, x) == u + [last];
      WithCountSnoc(u, last, c);
      var w := WithCount(t', c);
      if x.count == c {
        assert WithCount(Insert(t, x), c) == w + [x];
        assert WithCount(t, c) == w;
      } else if last.count == c {
        assert WithCount(Insert(t, x), c) == w + [last];
        assert WithCount(t, c) == w + [last];
      } else {
        assert WithCount(Insert(t, x), c) == w;
        assert WithCount(t, c) == w;
      }
    }
  }

  predicate NamesDistinct(s: seq<Entry>)
  {
    forall i, j :: 0 <= i < j < |s| ==> s[i].name != s[j].name
  }

  /** No entry is named `k`. */
  predicate NameAbsent(t: seq<Entry>, k: Key)
  {
    forall i :: 0 <= i < |t| ==> t[i].name != k
  }

  lemma {:induction false} InsertNameAbsent(t: seq<Entry>, x: Entry, k: Key)
    requires NameAbsent(t, k) && x.name != k
    ensures NameAbsent(Insert(t, x), k)
  {
    if |t| > 0 && t[|t| - 1].count < x.count {
      InsertNameAbsent(t[..|t| - 1], x, k);
    }
  }

  lemma {:induction false} InsertDistinct(t: seq<Entry>, x: Entry)
    requires NamesDistinct(t)
    requires NameAbsent(t, x.name)
    ensures NamesDistinct(Insert(t, x))
  {
    if |t| > 0 && t[|t| - 1].count < x.count {
      var t', last := t[..|t| - 1], t[|t| - 1];
      InsertDistinct(t', x);
      assert NameAbsent(t', last.name);
      InsertNameAbsent(t', x, last.name);
    }
  }

  // ------------------------------------------------------------------ sort

  /** The sort reorders the entries and does nothing else. */
  lemma {:induction false} SortPermutes(s: seq<Entry>)
    ensures multiset(SortByCount(s)) == multiset(s)
    ensures |SortByCount(s)| == |s|
  {
    if |s| > 0 {
      SortPermutes(s[..|s| - 1]);
      InsertPermutes(SortByCount(s[..|s| - 1]), s[|s| - 1]);
      MultisetDropLast(s);
    }
  }

  /** Counts never increase along the result. */
  lemma {:induction false} SortSorts(s: seq<Entry>)
    ensures SortedByCount(SortByCount(s))
  {
    if |s| > 0 {
      SortSorts(s[..|s| - 1]);
      InsertSorted(SortByCount(s[..|s| - 1]), s[|s| - 1]);
    }
  }

  /** Stability: the entries of any one count appear in the result in their original order. */
  lemma {:induction false} SortIsStable(s: seq<Entry>, c: nat)
    ensures WithCount(SortByCount(s), c) == WithCount(s, c)
  {
    if |s| > 0 {
      SortIsStable(s[..|s| - 1], c);
      InsertWithCount(SortByCount(s[..|s| - 1]), s[|s| - 1], c);
    }
  }

  /** Entries with distinct keys keep distinct keys. */
  lemma {:induction false} SortKeepsNamesDistinct(s: seq<Entry>)
    requires NamesDistinct(s)
    ensures NamesDistinct(SortByCount(s))
  {
    if |s| > 0 {
      var s', x := s[..|s| - 1], s[|s| - 1];
      SortKeepsNamesDistinct(s');
      SortPermutes(s');
      var t := SortByCount(s');
      forall i | 0 <= i < |t|
        ensures t[i].name != x.name
      {
        assert t[i] in multiset(s');
        var j :| 0 <= j < |s'| && s'[j] == t[i];
        assert s[j] == t[i];
      }
      InsertDistinct(t, x);
    }
  }

  // ------------------------------------------- counting values themselves

  /** Counting occurrences with `counts[x] = (counts[x] || 0) + 1` gives each value's multiplicity. */
  lemma {:induction false} CountsAreMultiplicities(s: seq<Key>)
    ensures forall k :: CountOr(GroupCount(s, Ident), k) == multiset(s)[k]
  {
    if |s| > 0 {
      CountsAreMultiplicities(s[..|s| - 1]);
      MultisetDropLast(s);
    }
  }

  function NameOf(e: Entry): Key
  {
    e.name
  }

  /** `.slice(0, n)`. */
  function Take<T>(s: seq<T>, n: nat): (r: seq<T>)
    ensures |r| <= n && |r| <= |s| && r == s[..|r|]
    ensures |r| < n ==> r == s
  {
    if |s| <= n then s else s[..n]
  }

  /** The entries of the count dictionary: one per distinct value, carrying its multiplicity. */
  lemma CountEntries(s: seq<Key>)
    ensures var es := EntriesOf(KeysInOrder(s, Ident), GroupCount(s, Ident));
      && NamesDistinct(es)
      && (forall i :: 0 <= i < |es| ==> es[i].name in s && es[i].count == multiset(s)[es[i].name])
      && (forall x :: x in s ==> exists i :: 0 <= i < |es| && es[i].name == x)
  {
    var ks, m := KeysInOrder(s, Ident), GroupCount(s, Ident);
    var es := EntriesOf(ks, m);
    KeysInOrderFacts(s, Ident);
    CountsAreMultiplicities(s);
    forall i | 0 <= i < |es|
      ensures es[i].name in s
    {
      var p :| 0 <= p < |s| && Ident(s[p]) == ks[i];
    }
    forall x | x in s
      ensures exists i :: 0 <= i < |es| && es[i].name == x
    {
      var p :| 0 <= p < |s| && s[p] == x;
      assert Ident(s[p]) == x;
      assert x in ks;
      var j :| 0 <= j < |ks| && ks[j] == x;
      assert es[j].name == x;
    }
  }

  /**
    The ranked entries of a sequence of values: one entry per distinct value,
    carrying its multiplicity, by non-increasing multiplicity.
  */
  lemma RankedEntries(s: seq<Key>)
    ensures var ranked := SortByCount(EntriesOf(KeysInOrder(s, Ident), GroupCount(s, Ident)));
      && SortedByCount(ranked)
      && NamesDistinct(ranked)
      && (forall i :: 0 <= i < |ranked| ==> ranked[i].name in s && ranked[i].count == multiset(s)[ranked[i].name])
      && (forall x :: x in s ==> exists i :: 0 <= i < |ranked| && ranked[i].name == x)
  {
    var es := EntriesOf(KeysInOrder(s, Ident), GroupCount(s, Ident));
    var ranked := SortByCount(es);
    CountEntries(s);
    SortPermutes(es);
    SortSorts(es);
    SortKeepsNamesDistinct(es);
    forall i | 0 <= i < |ranked|
      ensures ranked[i].name in s && ranked[i].count == multiset(s)[ranked[i].name]
    {
      assert ranked[i] in multiset(es);
      var j :| 0 <= j < |es| && es[j] == ranked[i];
    }
    forall x | x in s
      ensures exists i :: 0 <= i < |ranked| && ranked[i].name == x
    {
      var j :| 0 <= j < |es| && es[j].name == x;
      assert es[j] in multiset(ranked);
      var i :| 0 <= i < |ranked| && ranked[i] == es[j];
    }
  }

  /** The names of the first `n` ranked entries: the `n` most frequent values, most frequent first. */
  function MostFrequent(s: seq<Key>, n: nat): seq<Key>
  {
    Project(Take(SortByCount(EntriesOf(KeysInOrder(s, Ident), GroupCount(s, Ident))), n), NameOf)
  }

  lemma MostFrequentIsRankedPrefix(s: seq<Key>, n: nat)
    ensures var ranked := SortByCount(EntriesOf(KeysInOrder(s, Ident), GroupCount(s, Ident)));
      var r := MostFrequent(s, n);
      && |r| <= n && |r| <= |ranked| && (|r| < n ==> |r| == |ranked|)
      && forall i :: 0 <= i < |r| ==> r[i] == ranked[i].name
  {
  }

  /** At most `n` values, all different, each occurring in `s`, by non-increasing multiplicity. */
  lemma MostFrequentShape(s: seq<Key>, n: nat)
    ensures var r := MostFrequent(s, n);
      && |r| <= n
      && (forall i, j :: 0 <= i < j < |r| ==> r[i] != r[j])
      && (forall i :: 0 <= i < |r| ==> r[i] in s)
      && (forall i, j :: 0 <= i < j < |r| ==> multiset(s)[r[i]] >= multiset(s)[r[j]])
  {
    RankedEntries(s);
    MostFrequentIsRankedPrefix(s, n);
  }

  /** A value left out occurs no more often than any value kept. */
  lemma MostFrequentDominates(s: seq<Key>, n: nat)
    ensures var r := MostFrequent(s, n);
      forall x, i :: x in s && x !in r && 0 <= i < |r| ==> multiset(s)[r[i]] >= multiset(s)[x]
  {
    var ranked := SortByCount(EntriesOf(KeysInOrder(s, Ident), GroupCount(s, Ident)));
    var r := MostFrequent(s, n);
    RankedEntries(s);
    MostFrequentIsRankedPrefix(s, n);
    forall x, i | x in s && x !in r && 0 <= i < |r|
      ensures multiset(s)[r[i]] >= multiset(s)[x]
    {
      var p :| 0 <= p < |ranked| && ranked[p].name == x;
      if p < |r| {
        assert false;
      }
    }
  }

  /** Fewer than `n` values kept means every value was kept. */
  lemma MostFrequentComplete(s: seq<Key>, n: nat)
    ensures var r := MostFrequent(s, n);
      |r| < n ==> forall x :: x in s ==> x in r
  {
    var ranked := SortByCount(EntriesOf(KeysInOrder(s, Ident), GroupCount(s, Ident)));
    var r := MostFrequent(s, n);
    RankedEntries(s);
    MostFrequentIsRankedPrefix(s, n);
    if |r| < n {
      forall x | x in s
        ensures x in r
      {
        var p :| 0 <= p < |ranked| && ranked[p].name == x;
        assert r[p] == x;
      }
    }
  }
}
