/**
 * The order of the list view: newest first, by `date`, with records of equal
 * date kept in their stored order (the host's array sort is stable).
 */
module DateSort {
  import opened Blogs

  /** Dates never increase from front to back. */
  ghost predicate NewestFirst(l: seq<Blog>) {
    forall i, j :: 0 <= i < j < |l| ==> l[i].date >= l[j].date
  }

  /** The records of `l` dated exactly `d`, in their order in `l`. */
  function DatedAt(l: seq<Blog>, d: Timestamp): seq<Blog> {
    if |l| == 0 then []
    else if l[0].date == d then [l[0]] + DatedAt(l[1..], d)
    else DatedAt(l[1..], d)
  }

  /** Puts `x` into a newest-first list ahead of every record not newer than it. */
  function Insert(x: Blog, l: seq<Blog>): (r: seq<Blog>)
    requires NewestFirst(l)
    ensures NewestFirst(r)
    ensures multiset(r) == multiset(l) + multiset{x}
    ensures |r| == |l| + 1
    ensures r[0] == (if |l| == 0 || x.date >= l[0].date then x else l[0])
  {
    if |l| == 0 || x.date >= l[0].date then [x] + l
    else
      assert l == [l[0]] + l[1..];
      [l[0]] + Insert(x, l[1..])
  }

  /** The list sorted by the comparator `b.date - a.date`: a permutation of
      `l` whose dates never increase. */
  function SortNewestFirst(l: seq<Blog>): (r: seq<Blog>)
    ensures NewestFirst(r)
    ensures multiset(r) == multiset(l)
    ensures |r| == |l|
  {
    if |l| == 0 then []
    else
      assert l == [l[0]] + l[1..];
      Insert(l[0], SortNewestFirst(l[1..]))
  }

  lemma {:induction false} InsertDatedAt(x: Blog, l: seq<Blog>, d: Timestamp)
    requires NewestFirst(l)
    ensures DatedAt(Insert(x, l), d) ==
            (if x.date == d then [x] + DatedAt(l, d) else DatedAt(l, d))
  {
    if |l| == 0 || x.date >= l[0].date {
      assert ([x] + l)[1..] == l;
    } else {
      var r := [l[0]] + Insert(x, l[1..]);
      assert r[1..] == Insert(x, l[1..]);
      InsertDatedAt(x, l[1..], d);
    }
  }

  /** Stability: for every date, the records carrying it appear in the sorted
      list in the same relative order as in the stored list. */
  lemma {:induction false} SortIsStable(l: seq<Blog>, d: Timestamp)
    ensures DatedAt(SortNewestFirst(l), d) == DatedAt(l, d)
  {
    if |l| > 0 {
      SortIsStable(l[1..], d);
      InsertDatedAt(l[0], SortNewestFirst(l[1..]), d);
    }
  }

  /** A list that is already newest first comes back unchanged. */
  lemma {:induction false} SortKeepsSortedList(l: seq<Blog>)
    requires NewestFirst(l)
    ensures SortNewestFirst(l) == l
  {
    if |l| > 0 {
      SortKeepsSortedList(l[1..]);
      assert l == [l[0]] + l[1..];
    }
  }
}
