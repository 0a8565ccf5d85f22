/** Ordering of a file's page rows by page number, as the result readers do
    before reading the stored objects: a stable sort on `pageNumber`. */
module PageOrder {
  import opened Records

  ghost predicate SortedByPage(s: seq<PageRow>)
  {
    forall i, j :: 0 <= i < j < |s| ==> s[i].pageNumber <= s[j].pageNumber
  }

  /** The rows of `s` with page number `n`, in their order in `s`. */
  function WithPage(s: seq<PageRow>, n: int): seq<PageRow>
  {
    if s == [] then []
    else if s[0].pageNumber == n then [s[0]] + WithPage(s[1..], n)
    else WithPage(s[1..], n)
  }

  /** Places `p` into the sorted `s` ahead of every row whose page number is
      not smaller than its own. */
  function Insert(p: PageRow, s: seq<PageRow>): (r: seq<PageRow>)
    requires SortedByPage(s)
    ensures SortedByPage(r)
    ensures multiset(r) == multiset(s) + multiset{p}
    ensures |r| == |s| + 1 && (r[0] == p || (s != [] && r[0] == s[0]))
  {
    if s == [] || p.pageNumber <= s[0].pageNumber then [p] + s
    else
      var rest := Insert(p, s[1..]);
      assert s == [s[0]] + s[1..];
      [s[0]] + rest
  }

  /** The rows in non-decreasing page-number order (the order `sorted` with
      the page number as key produces). */
  function SortByPage(s: seq<PageRow>): (r: seq<PageRow>)
    ensures SortedByPage(r)
    ensures multiset(r) == multiset(s)
    ensures |r| == |s|
  {
    if s == [] then []
    else
      assert s == [s[0]] + s[1..];
      Insert(s[0], SortByPage(s[1..]))
  }

  /** Sorting keeps exactly the rows it was given: each row of the input is
      in the output, and each row of the output is in the input. */
  lemma SortKeepsRows(s: seq<PageRow>)
    ensures forall k :: 0 <= k < |s| ==> s[k] in SortByPage(s)
    ensures forall k :: 0 <= k < |s| ==> SortByPage(s)[k] in s
  {
    var r := SortByPage(s);
    forall k | 0 <= k < |s| ensures s[k] in r {
      assert s[k] in multiset(s);
    }
    forall k | 0 <= k < |s| ensures r[k] in s {
      assert r[k] in multiset(r);
    }
  }

  /** Inserting `p` puts it first among the rows that share its page number
      and moves no other row relative to its equals. */
  lemma {:induction false} InsertKeepsEquals(p: PageRow, s: seq<PageRow>, n: int)
    requires SortedByPage(s)
    ensures WithPage(Insert(p, s), n) ==
      (if p.pageNumber == n then [p] + WithPage(s, n) else WithPage(s, n))
  {
    if s == [] || p.pageNumber <= s[0].pageNumber {
      assert ([p] + s)[1..] == s;
    } else {
      var rest := Insert(p, s[1..]);
      assert ([s[0]] + rest)[1..] == rest;
      InsertKeepsEquals(p, s[1..], n);
    }
  }

  /** The sort is stable: rows with equal page numbers keep their order. */
  lemma {:induction false} SortIsStable(s: seq<PageRow>, n: int)
    ensures WithPage(SortByPage(s), n) == WithPage(s, n)
  {
    if s != [] {
      SortIsStable(s[1..], n);
      InsertKeepsEquals(s[0], SortByPage(s[1..]), n);
    }
  }
}
