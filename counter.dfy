/** Python's `collections.Counter` as the toolkit uses it: keys in first-seen
    order with their counts, `c[k] += 1`, and `most_common(n)`, which sorts by
    count, largest first, keeping first-seen order among equal counts. */
module Counter {
  import opened Wrappers

  type Counts<K> = seq<(K, nat)>

  /** The first components of a sequence of pairs: a counter's keys, in order. */
  function Keys<K, V>(c: seq<(K, V)>): (r: seq<K>)
    ensures |r| == |c| && forall i :: 0 <= i < |c| ==> r[i] == c[i].0
  {
    seq(|c|, i requires 0 <= i < |c| => c[i].0)
  }

  predicate DistinctKeys<K(==)>(c: Counts<K>)
  {
    forall i, j :: 0 <= i < j < |c| ==> c[i].0 != c[j].0
  }

  /** `c[k]`: 0 for a key never counted. */
  function Get<K(==)>(c: Counts<K>, k: K): nat
  {
    if c == [] then 0 else if c[0].0 == k then c[0].1 else Get(c[1..], k)
  }

  /** Sum of all counts (`sum(c.values())`). */
  function Total<K>(c: Counts<K>): nat
  {
    if c == [] then 0 else c[0].1 + Total(c[1..])
  }

  /** `c[k] += 1`: bump an existing key in place, or append a new one. */
  function Inc<K(==)>(c: Counts<K>, k: K): Counts<K>
  {
    if c == [] then [(k, 1)]
    else if c[0].0 == k then [(k, c[0].1 + 1)] + c[1..]
    else [c[0]] + Inc(c[1..], k)
  }

  /** `for x in xs: c[x] += 1`, starting from `c`. */
  function TallyInto<K(==)>(c: Counts<K>, xs: seq<K>): Counts<K>
  {
    if xs == [] then c else Inc(TallyInto(c, xs[..|xs| - 1]), xs[|xs| - 1])
  }

  /** `Counter(xs)`. */
  function Tally<K(==)>(xs: seq<K>): Counts<K>
  {
    TallyInto([], xs)
  }

  /** Number of occurrences of `k` in `xs`. */
  function Occurrences<K(==)>(xs: seq<K>, k: K): nat
  {
    if xs == [] then 0
    else Occurrences(xs[..|xs| - 1], k) + (if xs[|xs| - 1] == k then 1 else 0)
  }

  // ---------------------------------------------------------------------
  // Counting
  // ---------------------------------------------------------------------

  /** `c[k] += 1` adds one to `k`'s count and to the total, and no other count changes. */
  lemma {:induction false} IncCounts<K>(c: Counts<K>, k: K)
    ensures Total(Inc(c, k)) == Total(c) + 1
    ensures Get(Inc(c, k), k) == Get(c, k) + 1
    ensures forall k' :: k' != k ==> Get(Inc(c, k), k') == Get(c, k')
  {
    if c != [] && c[0].0 != k {
      IncCounts(c[1..], k);
      assert Inc(c, k)[1..] == Inc(c[1..], k);
    } else if c != [] {
      assert Inc(c, k)[1..] == c[1..];
    }
  }

  /** `c[k] += 1` keeps the keys distinct and adds `k` to them. */
  lemma {:induction false} IncKeys<K>(c: Counts<K>, k: K)
    ensures DistinctKeys(c) ==> DistinctKeys(Inc(c, k))
    ensures forall x :: x in Keys(Inc(c, k)) <==> x in Keys(c) || x == k
  {
    if c != [] && c[0].0 != k {
      IncKeys(c[1..], k);
      var r := Inc(c[1..], k);
      assert Inc(c, k) == [c[0]] + r;
      if DistinctKeys(c) {
        forall j | 0 <= j < |r| ensures r[j].0 != c[0].0 {
          assert r[j].0 in Keys(r);
          if r[j].0 != k {
            var m :| 0 <= m < |c[1..]| && Keys(c[1..])[m] == r[j].0;
            assert c[m + 1].0 == r[j].0;
          }
        }
      }
      forall x ensures x in Keys(Inc(c, k)) <==> x in Keys(c) || x == k {
        assert Keys(Inc(c, k)) == [c[0].0] + Keys(r);
        assert Keys(c) == [c[0].0] + Keys(c[1..]);
      }
    } else if c != [] {
      assert Keys(Inc(c, k)) == Keys(c);
      assert Keys(c)[0] == k;
    } else {
      assert Keys(Inc(c, k)) == [k];
    }
  }

  lemma TallyIntoAppend<K>(c: Counts<K>, xs: seq<K>, x: K)
    ensures TallyInto(c, xs + [x]) == Inc(TallyInto(c, xs), x)
  {
    assert (xs + [x])[..|xs|] == xs;
  }

  lemma {:induction false} TallyIntoConcat<K>(c: Counts<K>, xs: seq<K>, ys: seq<K>)
    ensures TallyInto(c, xs + ys) == TallyInto(TallyInto(c, xs), ys)
    decreases |ys|
  {
    if ys == [] {
      assert xs + ys == xs;
    } else {
      var ys' := ys[..|ys| - 1];
      TallyIntoConcat(c, xs, ys');
      assert xs + ys == (xs + ys') + [ys[|ys| - 1]];
      TallyIntoAppend(c, xs + ys', ys[|ys| - 1]);
    }
  }

  /** Counting `xs` from `c` adds `|xs|` to the total, counts each key by its
      occurrences, keeps keys distinct, and its keys are the old keys and the
      elements of `xs`. */
  lemma {:induction false} TallyIntoProps<K>(c: Counts<K>, xs: seq<K>)
    ensures Total(TallyInto(c, xs)) == Total(c) + |xs|
    ensures forall k :: Get(TallyInto(c, xs), k) == Get(c, k) + Occurrences(xs, k)
    ensures DistinctKeys(c) ==> DistinctKeys(TallyInto(c, xs))
    ensures forall x :: x in Keys(TallyInto(c, xs)) <==> x in Keys(c) || x in xs
    decreases |xs|
  {
    if xs != [] {
      var xs' := xs[..|xs| - 1];
      TallyIntoProps(c, xs');
      IncCounts(TallyInto(c, xs'), xs[|xs| - 1]);
      IncKeys(TallyInto(c, xs'), xs[|xs| - 1]);
      assert xs == xs' + [xs[|xs| - 1]];
    }
  }

  /** `Counter(xs)`: the counts sum to `len(xs)`, `c[k]` is the number of
      occurrences of `k`, keys are distinct and are exactly the elements. */
  lemma TallyProps<K>(xs: seq<K>)
    ensures Total(Tally(xs)) == |xs|
    ensures forall k :: Get(Tally(xs), k) == Occurrences(xs, k)
    ensures DistinctKeys(Tally(xs))
    ensures forall x :: x in Keys(Tally(xs)) <==> x in xs
  {
    TallyIntoProps([], xs);
  }

  // ---------------------------------------------------------------------
  // most_common
  // ---------------------------------------------------------------------

  predicate NonIncreasing<K>(c: Counts<K>)
  {
    forall i, j :: 0 <= i < j < |c| ==> c[i].1 >= c[j].1
  }

  /** Place `x` before the first entry whose count is not larger than its own. */
  function InsertDesc<K>(x: (K, nat), r: Counts<K>): Counts<K>
  {
    if r == [] || r[0].1 <= x.1 then [x] + r else [r[0]] + InsertDesc(x, r[1..])
  }

  /** `sorted(c.items(), key=count, reverse=True)` (a stable sort). */
  function SortDesc<K>(c: Counts<K>): Counts<K>
  {
    if c == [] then [] else InsertDesc(c[0], SortDesc(c[1..]))
  }

  /** `c.most_common()` when `limit` is `None`, `c.most_common(n)` otherwise. */
  function MostCommon<K>(c: Counts<K>, limit: Option<nat>): Counts<K>
  {
    var s := SortDesc(c);
    match limit
    case None => s
    case Some(n) => if n < |s| then s[..n] else s
  }

  lemma {:induction false} InsertDescContents<K>(x: (K, nat), r: Counts<K>)
    ensures multiset(InsertDesc(x, r)) == multiset(r) + multiset{x}
    ensures Total(InsertDesc(x, r)) == Total(r) + x.1
  {
    if r != [] && r[0].1 > x.1 {
      var t := InsertDesc(x, r[1..]);
      InsertDescContents(x, r[1..]);
      assert InsertDesc(x, r) == [r[0]] + t;
      assert ([r[0]] + t)[1..] == t;
      assert r == [r[0]] + r[1..];
    } else {
      assert ([x] + r)[1..] == r;
    }
  }

  lemma {:induction false} InsertDescBound<K>(x: (K, nat), r: Counts<K>, b: nat)
    requires x.1 <= b && forall i :: 0 <= i < |r| ==> r[i].1 <= b
    ensures forall i :: 0 <= i < |InsertDesc(x, r)| ==> InsertDesc(x, r)[i].1 <= b
  {
    if r != [] && r[0].1 > x.1 {
      InsertDescBound(x, r[1..], b);
    }
  }

  lemma ConsOrdered<K>(h: (K, nat), t: Counts<K>)
    requires NonIncreasing(t) && forall i :: 0 <= i < |t| ==> t[i].1 <= h.1
    ensures NonIncreasing([h] + t)
  {
    var u := [h] + t;
    forall i, j | 0 <= i < j < |u| ensures u[i].1 >= u[j].1 {
      assert u[j] == t[j - 1];
      if i > 0 { assert u[i] == t[i - 1]; }
    }
  }

  lemma {:induction false} InsertDescOrdered<K>(x: (K, nat), r: Counts<K>)
    requires NonIncreasing(r)
    ensures NonIncreasing(InsertDesc(x, r))
  {
    if r == [] || r[0].1 <= x.1 {
      ConsOrdered(x, r);
    } else {
      InsertDescOrdered(x, r[1..]);
      InsertDescBound(x, r[1..], r[0].1);
      ConsOrdered(r[0], InsertDesc(x, r[1..]));
    }
  }

  /** Sorting yields a non-increasing permutation with the same total. */
  lemma {:induction false} SortDescProps<K>(c: Counts<K>)
    ensures NonIncreasing(SortDesc(c))
    ensures multiset(SortDesc(c)) == multiset(c)
    ensures Total(SortDesc(c)) == Total(c)
    ensures |SortDesc(c)| == |c|
  {
    if c != [] {
      SortDescProps(c[1..]);
      InsertDescContents(c[0], SortDesc(c[1..]));
      InsertDescOrdered(c[0], SortDesc(c[1..]));
      assert c == [c[0]] + c[1..];
      assert |multiset(SortDesc(c))| == |multiset(c)|;
    }
  }

  /** `most_common()` keeps every entry, so its counts sum to the same total;
      `most_common(n)` keeps the first `n` entries of that ordering (all of them
      when there are at most `n`); both are ordered by non-increasing count,
      every entry kept is an entry of the counter, and no entry left out has a
      larger count than an entry kept. */
  lemma MostCommonProps<K>(c: Counts<K>, limit: Option<nat>)
    ensures NonIncreasing(MostCommon(c, limit))
    ensures forall e :: e in MostCommon(c, limit) ==> e in c
    ensures limit.None? ==> Total(MostCommon(c, limit)) == Total(c) && |MostCommon(c, limit)| == |c|
    ensures limit.Some? ==> |MostCommon(c, limit)| == if limit.value < |c| then limit.value else |c|
    ensures limit.Some? ==> MostCommon(c, limit) == MostCommon(c, None)[..|MostCommon(c, limit)|]
    ensures limit.Some? && |c| <= limit.value ==> MostCommon(c, limit) == MostCommon(c, None)
    ensures forall e, f :: e in c && e !in MostCommon(c, limit) && f in MostCommon(c, limit) ==> e.1 <= f.1
  {
    SortDescProps(c);
    var s := SortDesc(c);
    var r := MostCommon(c, limit);
    assert r == s[..|r|];
    forall e | e in r ensures e in c {
      assert e in s;
      assert e in multiset(s);
    }
    MostCommonDominates(c, limit);
  }

  /** An entry `most_common(n)` leaves out has a count no larger than any kept. */
  lemma MostCommonDominates<K>(c: Counts<K>, limit: Option<nat>)
    ensures forall e, f :: e in c && e !in MostCommon(c, limit) && f in MostCommon(c, limit) ==> e.1 <= f.1
  {
    SortDescProps(c);
    var s := SortDesc(c);
    var r := MostCommon(c, limit);
    assert r == s[..|r|];
    forall e, f | e in c && e !in r && f in r ensures e.1 <= f.1 {
      assert e in multiset(s);
      var j :| 0 <= j < |s| && s[j] == e;
      var i :| 0 <= i < |r| && r[i] == f;
      assert j >= |r|;
      assert s[i] == f;
    }
  }

  lemma {:induction false} GetOfEntry<K>(c: Counts<K>, e: (K, nat))
    requires DistinctKeys(c) && e in c
    ensures Get(c, e.0) == e.1
  {
    if c[0] != e {
      assert e in c[1..];
      GetOfEntry(c[1..], e);
      var j :| 0 <= j < |c[1..]| && c[1..][j] == e;
      assert c[0].0 != c[j + 1].0;
    }
  }

  /** `Counter(xs).most_common(limit)`: ordered by non-increasing count, each
      entry an element of `xs` with its number of occurrences; without a
      limit the counts sum to `|xs|`; with a limit `n` it keeps `n` entries, or
      one per distinct element when there are at most `n`; and an element left
      out occurs no more often than any element kept. */
  lemma MostCommonTally<K>(xs: seq<K>, limit: Option<nat>)
    ensures var c := MostCommon(Tally(xs), limit);
      && NonIncreasing(c)
      && (forall e :: e in c ==> e.0 in xs && e.1 == Occurrences(xs, e.0))
      && (limit.None? ==> Total(c) == |xs|)
      && (limit.Some? ==> |c| == if limit.value < |Tally(xs)| then limit.value else |Tally(xs)|)
      && ((limit.None? || |Tally(xs)| <= limit.value) ==> forall x :: x in xs ==> x in Keys(c))
      && (forall x, e :: x in xs && x !in Keys(c) && e in c ==> Occurrences(xs, x) <= e.1)
  {
    var t := Tally(xs);
    TallyProps(xs);
    MostCommonProps(t, limit);
    forall e | e in MostCommon(t, limit)
      ensures e.0 in xs && e.1 == Occurrences(xs, e.0)
    {
      GetOfEntry(t, e);
      var j :| 0 <= j < |t| && t[j] == e;
      assert Keys(t)[j] == e.0;
    }
    TallyKeptWhole(xs, limit);
    TallyDominates(xs, limit);
  }

  /** Every element of `xs` keeps its entry when nothing is cut off. */
  lemma TallyKeptWhole<K>(xs: seq<K>, limit: Option<nat>)
    ensures (limit.None? || |Tally(xs)| <= limit.value) ==> forall x :: x in xs ==> x in Keys(MostCommon(Tally(xs), limit))
  {
    var t := Tally(xs);
    var c := MostCommon(t, limit);
    if limit.None? || |t| <= limit.value {
      TallyProps(xs);
      forall x | x in xs ensures x in Keys(c) {
        assert x in Keys(t);
        var j :| 0 <= j < |t| && Keys(t)[j] == x;
        KeptWhole(t, limit, t[j]);
        KeyOfEntry(c, t[j]);
      }
    }
  }

  /** An element of `xs` whose entry is cut off occurs no more often than any
      element kept. */
  lemma TallyDominates<K>(xs: seq<K>, limit: Option<nat>)
    ensures var c := MostCommon(Tally(xs), limit);
      forall x, e :: x in xs && x !in Keys(c) && e in c ==> Occurrences(xs, x) <= e.1
  {
    var t := Tally(xs);
    var c := MostCommon(t, limit);
    TallyProps(xs);
    MostCommonDominates(t, limit);
    forall x, e | x in xs && x !in Keys(c) && e in c ensures Occurrences(xs, x) <= e.1 {
      assert x in Keys(t);
      var j :| 0 <= j < |t| && Keys(t)[j] == x;
      var entry := t[j];
      KeyOfEntry(c, entry);
      GetOfEntry(t, entry);
    }
  }

  /** The key of an entry is among the keys. */
  lemma KeyOfEntry<K, V>(c: seq<(K, V)>, e: (K, V))
    ensures e in c ==> e.0 in Keys(c)
  {
    if e in c {
      var i :| 0 <= i < |c| && c[i] == e;
      assert Keys(c)[i] == e.0;
    }
  }

  /** With no limit, or one at least the counter's size, every entry is kept. */
  lemma KeptWhole<K>(c: Counts<K>, limit: Option<nat>, e: (K, nat))
    requires limit.None? || limit.value >= |c|
    requires e in c
    ensures e in MostCommon(c, limit)
  {
    SortDescProps(c);
    assert e in multiset(c);
    assert e in multiset(SortDesc(c));
  }
}
