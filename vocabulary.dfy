/** The vocabulary file `create_data` writes: the blank token, then the characters of the training
    transcripts by decreasing count, cut at the first count below `count_threshold`. */
module Vocabulary {

  /** A `(char, count)` item of the character counter. */
  type Entry = (char, int)

  /** A line of the vocabulary file: `<blank>\t-1`, or a character with its count. */
  datatype Line = Blank | Counted(ch: char, count: int)

  ghost predicate NonIncreasing(s: seq<Entry>)
  {
    forall i, j :: 0 <= i < j < |s| ==> s[i].1 >= s[j].1
  }

  /** Put `x` after every entry of `s` whose count is at least its own: where a stable descending sort
      leaves an item that comes after all of `s`. */
  function InsertDesc(s: seq<Entry>, x: Entry): (r: seq<Entry>)
    ensures multiset(r) == multiset(s) + multiset{x}
    ensures |r| == |s| + 1
  {
    if s == [] then [x]
    else if s[0].1 >= x.1 then
      assert s == [s[0]] + s[1..];
      [s[0]] + InsertDesc(s[1..], x)
    else [x] + s
  }

  /** `sorted(counter.items(), key=lambda x: x[1], reverse=True)`: Python's sort is stable, so this is an
      insertion of each item, in counter order, into the already sorted prefix. */
  function SortDesc(items: seq<Entry>): (r: seq<Entry>)
    ensures multiset(r) == multiset(items)
  {
    if items == [] then []
    else
      Snoc(items);
      InsertDesc(SortDesc(items[..|items| - 1]), items[|items| - 1])
  }

  /** The entries of `s` with count `c`, in order. */
  function WithCount(s: seq<Entry>, c: int): seq<Entry>
  {
    if s == [] then [] else (if s[0].1 == c then [s[0]] else []) + WithCount(s[1..], c)
  }

  ghost predicate AtMost(s: seq<Entry>, bound: int)
  {
    forall i :: 0 <= i < |s| ==> s[i].1 <= bound
  }

  lemma {:induction false} InsertBounded(s: seq<Entry>, x: Entry, bound: int)
    requires AtMost(s, bound) && x.1 <= bound
    ensures AtMost(InsertDesc(s, x), bound)
    decreases |s|
  {
    if s != [] && s[0].1 >= x.1 {
      InsertBounded(s[1..], x, bound);
    }
  }

  lemma {:induction false} InsertKeepsOrder(s: seq<Entry>, x: Entry)
    requires NonIncreasing(s)
    ensures NonIncreasing(InsertDesc(s, x))
    decreases |s|
  {
    if s != [] && s[0].1 >= x.1 {
      var rest := s[1..];
      assert NonIncreasing(rest) && AtMost(rest, s[0].1) by {
        forall i, j | 0 <= i < j < |rest| ensures rest[i].1 >= rest[j].1 {
          assert rest[i] == s[i + 1] && rest[j] == s[j + 1];
        }
        forall i | 0 <= i < |rest| ensures rest[i].1 <= s[0].1 {
          assert rest[i] == s[i + 1];
        }
      }
      InsertKeepsOrder(rest, x);
      InsertBounded(rest, x, s[0].1);
      var r' := InsertDesc(rest, x);
      var r := [s[0]] + r';
      forall i, j | 0 <= i < j < |r| ensures r[i].1 >= r[j].1 {
        assert r[j] == r'[j - 1];
        if i > 0 { assert r[i] == r'[i - 1]; }
      }
    } else if s != [] {
      var r := [x] + s;
      forall i, j | 0 <= i < j < |r| ensures r[i].1 >= r[j].1 {
        assert r[j] == s[j - 1];
        if i > 0 { assert r[i] == s[i - 1]; } else { assert s[0].1 >= s[j - 1].1; }
      }
    }
  }

  lemma {:induction false} InsertKeepsTies(s: seq<Entry>, x: Entry, c: int)
    requires NonIncreasing(s)
    ensures WithCount(InsertDesc(s, x), c) == WithCount(s, c) + (if x.1 == c then [x] else [])
    decreases |s|
  {
    if s == [] {
      WithCountCons(x, [], c);
    } else if s[0].1 >= x.1 {
      var rest := s[1..];
      TailNonIncreasing(s);
      InsertKeepsTies(rest, x, c);
      WithCountCons(s[0], InsertDesc(rest, x), c);
      WithCountCons(s[0], rest, c);
      assert s == [s[0]] + rest;
    } else {
      WithCountCons(x, s, c);
      if x.1 == c {
        NoneWithCount(s, c);
      }
    }
  }

  lemma WithCountCons(h: Entry, t: seq<Entry>, c: int)
    ensures WithCount([h] + t, c) == (if h.1 == c then [h] else []) + WithCount(t, c)
  {
    assert ([h] + t)[1..] == t;
  }

  lemma TailNonIncreasing(s: seq<Entry>)
    requires s != [] && NonIncreasing(s)
    ensures NonIncreasing(s[1..])
  {
    var rest := s[1..];
    forall i, j | 0 <= i < j < |rest| ensures rest[i].1 >= rest[j].1 {
      assert rest[i] == s[i + 1] && rest[j] == s[j + 1];
    }
  }

  /** When every count of a non-increasing `s` is below `c`, none equals `c`. */
  lemma {:induction false} NoneWithCount(s: seq<Entry>, c: int)
    requires NonIncreasing(s) && (s != [] ==> s[0].1 < c)
    ensures WithCount(s, c) == []
    decreases |s|
  {
    if s != [] {
      var rest := s[1..];
      TailNonIncreasing(s);
      if rest != [] { assert rest[0] == s[1]; }
      NoneWithCount(rest, c);
    }
  }

  /** The sort permutes the counter's items, orders them by non-increasing count, and keeps items
      of equal count in counter order. */
  lemma SortDescCorrect(items: seq<Entry>)
    ensures multiset(SortDesc(items)) == multiset(items)
    ensures NonIncreasing(SortDesc(items))
    ensures forall c :: WithCount(SortDesc(items), c) == WithCount(items, c)
  {
    SortDescOrdered(items);
    forall c ensures WithCount(SortDesc(items), c) == WithCount(items, c) {
      SortDescStable(items, c);
    }
  }

  lemma {:induction false} SortDescOrdered(items: seq<Entry>)
    ensures multiset(SortDesc(items)) == multiset(items)
    ensures NonIncreasing(SortDesc(items))
    decreases |items|
  {
    if items != [] {
      var init, last := items[..|items| - 1], items[|items| - 1];
      SortDescOrdered(init);
      Snoc(items);
      InsertKeepsOrder(SortDesc(init), last);
    }
  }

  lemma {:induction false} SortDescStable(items: seq<Entry>, c: int)
    ensures WithCount(SortDesc(items), c) == WithCount(items, c)
    decreases |items|
  {
    if items != [] {
      var init, last := items[..|items| - 1], items[|items| - 1];
      SortDescStable(init, c);
      SortDescOrdered(init);
      InsertKeepsTies(SortDesc(init), last, c);
      WithCountSnoc(items, c);
    }
  }

  lemma WithCountSnoc(items: seq<Entry>, c: int)
    requires items != []
    ensures var init, last := items[..|items| - 1], items[|items| - 1];
      WithCount(items, c) == WithCount(init, c) + (if last.1 == c then [last] else [])
  {
    var init, last := items[..|items| - 1], items[|items| - 1];
    Snoc(items);
    WithCountConcat(init, [last], c);
    assert WithCount([last], c) == (if last.1 == c then [last] else []) + WithCount([], c);
  }

  lemma Snoc(items: seq<Entry>)
    requires items != []
    ensures items == items[..|items| - 1] + [items[|items| - 1]]
  {
  }

  lemma {:induction false} WithCountConcat(a: seq<Entry>, b: seq<Entry>, c: int)
    ensures WithCount(a + b, c) == WithCount(a, c) + WithCount(b, c)
    decreases |a|
  {
    if a == [] {
      assert a + b == b;
    } else {
      var head := if a[0].1 == c then [a[0]] else [];
      var ab := a + b;
      assert ab[0] == a[0] && ab[1..] == a[1..] + b;
      WithCountConcat(a[1..], b, c);
      assert WithCount(ab, c) == head + (WithCount(a[1..], c) + WithCount(b, c));
      assert WithCount(a, c) == head + WithCount(a[1..], c);
    }
  }

  /** How many leading entries of `s` reach `threshold`: the position of the `break`. */
  function FirstBelow(s: seq<Entry>, threshold: int): (k: nat)
    ensures k <= |s|
    ensures forall i :: 0 <= i < k ==> s[i].1 >= threshold
    ensures k < |s| ==> s[k].1 < threshold
  {
    if s == [] || s[0].1 < threshold then 0 else 1 + FirstBelow(s[1..], threshold)
  }

  function AsLines(s: seq<Entry>): (r: seq<Line>)
    ensures |r| == |s| && forall i :: 0 <= i < |s| ==> r[i] == Counted(s[i].0, s[i].1)
  {
    seq(|s|, i requires 0 <= i < |s| => Counted(s[i].0, s[i].1))
  }

  /** The writer loop: the blank line, then one line per sorted entry until the first count below
      the threshold. */
  method WriteVocabulary(sorted: seq<Entry>, threshold: int) returns (lines: seq<Line>)
    ensures lines == [Blank] + AsLines(sorted[..FirstBelow(sorted, threshold)])
  {
    lines := [Blank];
    var i := 0;
    while i < |sorted|
      invariant 0 <= i <= |sorted|
      invariant forall k :: 0 <= k < i ==> sorted[k].1 >= threshold
      invariant lines == [Blank] + AsLines(sorted[..i])
    {
      var (ch, count) := sorted[i];
      if count < threshold {
        break;
      }
      assert sorted[..i + 1] == sorted[..i] + [sorted[i]];
      lines := lines + [Counted(ch, count)];
      i := i + 1;
    }
    PrefixIsFirstBelow(sorted, threshold, i);
  }

  lemma {:induction false} PrefixIsFirstBelow(s: seq<Entry>, threshold: int, k: nat)
    requires k <= |s| && forall i :: 0 <= i < k ==> s[i].1 >= threshold
    requires k < |s| ==> s[k].1 < threshold
    ensures FirstBelow(s, threshold) == k
    decreases k
  {
    if k > 0 {
      PrefixIsFirstBelow(s[1..], threshold, k - 1);
    }
  }

  /** `create_data`'s vocabulary: sort the counter's items and write them out. Because the sort is
      by non-increasing count, stopping at the first count below the threshold writes exactly the
      sorted items that reach it. */
  method CreateVocabulary(items: seq<Entry>, threshold: int) returns (lines: seq<Line>)
    ensures lines == [Blank] + AsLines(Filter(SortDesc(items), threshold))
  {
    var sorted := SortDesc(items);
    lines := WriteVocabulary(sorted, threshold);
    SortDescCorrect(items);
    FilterSorted(sorted, threshold, FirstBelow(sorted, threshold));
  }

  /** The counted characters of the file are the counter's items whose count reaches the threshold,
      each as often as in the counter, by non-increasing count. */
  lemma VocabularyContents(items: seq<Entry>, threshold: int)
    ensures var emitted := Filter(SortDesc(items), threshold);
      && multiset(emitted) == multiset(Filter(items, threshold))
      && (forall x :: x in emitted <==> x in items && x.1 >= threshold)
      && NonIncreasing(emitted)
      && (forall c :: c >= threshold ==> WithCount(emitted, c) == WithCount(items, c))
  {
    var s := SortDesc(items);
    var k := FirstBelow(s, threshold);
    SortDescCorrect(items);
    FilterSorted(s, threshold, k);
    FilterMultiset(items, s, threshold);
    FilterCounts(items, threshold);
    var emitted := s[..k];
    assert NonIncreasing(emitted) by {
      forall i, j | 0 <= i < j < |emitted| ensures emitted[i].1 >= emitted[j].1 {
        assert emitted[i] == s[i] && emitted[j] == s[j];
      }
    }
    forall c | c >= threshold ensures WithCount(Filter(s, threshold), c) == WithCount(items, c) {
      WithCountFilter(s, threshold, c);
    }
    forall x ensures x in emitted <==> x in items && x.1 >= threshold {
      assert x in emitted <==> x in multiset(emitted);
      assert x in items <==> x in multiset(items);
    }
  }

  /** The items of `s` whose count reaches the threshold, in order. */
  function Filter(s: seq<Entry>, threshold: int): seq<Entry>
  {
    if s == [] then [] else (if s[0].1 >= threshold then [s[0]] else []) + Filter(s[1..], threshold)
  }

  /** In a non-increasing sequence the items reaching the threshold are the prefix before the break. */
  lemma {:induction false} FilterSorted(s: seq<Entry>, threshold: int, k: nat)
    requires NonIncreasing(s) && k == FirstBelow(s, threshold)
    ensures Filter(s, threshold) == s[..k]
    decreases |s|
  {
    if s != [] {
      var rest := s[1..];
      TailNonIncreasing(s);
      if s[0].1 >= threshold {
        FilterSorted(rest, threshold, k - 1);
        assert s[..k] == [s[0]] + rest[..k - 1];
      } else {
        BelowAll(rest, threshold, s[0].1);
      }
    }
  }

  lemma {:induction false} BelowAll(s: seq<Entry>, threshold: int, bound: int)
    requires bound < threshold && forall i :: 0 <= i < |s| ==> s[i].1 <= bound
    ensures Filter(s, threshold) == []
    decreases |s|
  {
    if s != [] {
      BelowAll(s[1..], threshold, bound);
    }
  }

  /** Filtering commutes with permuting: two permutations keep the same items, as multisets. */
  lemma FilterMultiset(a: seq<Entry>, b: seq<Entry>, threshold: int)
    requires multiset(a) == multiset(b)
    ensures multiset(Filter(a, threshold)) == multiset(Filter(b, threshold))
  {
    FilterCounts(a, threshold);
    FilterCounts(b, threshold);
  }

  lemma {:induction false} FilterCounts(s: seq<Entry>, threshold: int)
    ensures forall x :: multiset(Filter(s, threshold))[x] == if x.1 >= threshold then multiset(s)[x] else 0
    decreases |s|
  {
    if s != [] {
      FilterCounts(s[1..], threshold);
      assert s == [s[0]] + s[1..];
    }
  }

  /** The entries of count `c` survive the threshold filter together, or not at all. */
  lemma {:induction false} WithCountFilter(s: seq<Entry>, threshold: int, c: int)
    requires c >= threshold
    ensures WithCount(Filter(s, threshold), c) == WithCount(s, c)
    decreases |s|
  {
    if s != [] {
      WithCountFilter(s[1..], threshold, c);
      var head := if s[0].1 >= threshold then [s[0]] else [];
      WithCountConcat(head, Filter(s[1..], threshold), c);
      if head != [] {
        assert WithCount(head, c) == (if s[0].1 == c then [s[0]] else []) + WithCount([], c);
      }
    }
  }
}
