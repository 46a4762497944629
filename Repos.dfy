/**
 * Which repositories the portfolio shows, and in what order (renderRepos):
 * drop the skip list and forks, then sort by stars, then size, both descending,
 * with a stable sort as Array.prototype.sort is (section 23.1.3.30 of ECMA-262).
 */
module Repos {
  import opened Wrappers

  /** The fields of one GitHub API repository object that the page reads. */
  datatype Repo = Repo(
    name: string,
    description: Option<string>,
    htmlUrl: string,
    homepage: Option<string>,
    language: Option<string>,
    stars: int,
    size: int,
    fork: bool)

  /** Profile-README and configuration repositories never shown. */
  const SkipRepos: seq<string> := ["Kaustubh-Mestri", "Kaustubh"]

  /** The filter predicate: not on the skip list and not a fork. */
  predicate Listed(r: Repo)
  {
    r.name !in SkipRepos && !r.fork
  }

  /** `a` is a subsequence of `b`: `b` with some elements removed, order kept. */
  ghost predicate IsSubsequence(a: seq<Repo>, b: seq<Repo>)
  {
    a == [] || (b != [] && ((a[0] == b[0] && IsSubsequence(a[1..], b[1..])) || IsSubsequence(a, b[1..])))
  }

  /** repos.filter(r => !SKIP_REPOS.includes(r.name) && !r.fork) */
  function Filter(s: seq<Repo>): seq<Repo>
  {
    if s == [] then []
    else if Listed(s[0]) then [s[0]] + Filter(s[1..])
    else Filter(s[1..])
  }

  /**
   * The filter keeps exactly the listed repositories, each as often as in the
   * input, in their input order.
   */
  lemma {:induction false} FilterContents(s: seq<Repo>)
    ensures forall x :: x in Filter(s) <==> x in s && Listed(x)
    ensures forall x :: x in Filter(s) ==> multiset(Filter(s))[x] == multiset(s)[x]
    ensures multiset(Filter(s)) <= multiset(s)
    ensures IsSubsequence(Filter(s), s)
  {
    if s != [] {
      FilterContents(s[1..]);
      assert s == [s[0]] + s[1..];
    }
  }

  /** A list whose every element passes the filter is its own filter. */
  lemma {:induction false} FilterKeepsListed(s: seq<Repo>)
    requires forall x :: x in s ==> Listed(x)
    ensures Filter(s) == s
  {
    if s != [] {
      FilterKeepsListed(s[1..]);
    }
  }

  /** Filtering a filtered list changes nothing. */
  lemma {:induction false} FilterIdempotent(s: seq<Repo>)
    ensures Filter(Filter(s)) == Filter(s)
  {
    FilterContents(s);
    FilterKeepsListed(Filter(s));
  }

  /** The comparator (a, b) => (b.stargazers_count - a.stargazers_count) || (b.size - a.size). */
  function Compare(a: Repo, b: Repo): int
  {
    if b.stars - a.stars != 0 then b.stars - a.stars else b.size - a.size
  }

  /** The comparator puts `a` first exactly when it has more stars, or as many stars and a larger size. */
  lemma CompareMeaning(a: Repo, b: Repo)
    ensures Compare(a, b) < 0 <==> a.stars > b.stars || (a.stars == b.stars && a.size > b.size)
    ensures Compare(a, b) == 0 <==> a.stars == b.stars && a.size == b.size
    ensures Compare(a, b) == -Compare(b, a)
  {
  }

  /** Compare(a, b) <= 0 is transitive: the comparator is a total preorder. */
  lemma CompareTransitive(a: Repo, b: Repo, c: Repo)
    requires Compare(a, b) <= 0 && Compare(b, c) <= 0
    ensures Compare(a, c) <= 0
  {
  }

  /** Every entry is in comparator order with every later one. */
  predicate Sorted(s: seq<Repo>)
  {
    forall i, j :: 0 <= i < j < |s| ==> Compare(s[i], s[j]) <= 0
  }

  /**
   * In a sorted list, star counts never increase from one entry to the next, and
   * between entries with equal stars the size never increases.
   */
  lemma SortedRanked(s: seq<Repo>, i: int)
    requires Sorted(s) && 0 < i < |s|
    ensures s[i - 1].stars >= s[i].stars
    ensures s[i - 1].stars == s[i].stars ==> s[i - 1].size >= s[i].size
  {
    assert Compare(s[i - 1], s[i]) <= 0;
  }

  /**
   * Inserts `x` into the sorted `t`, after every entry that strictly precedes it and
   * before every other one (`x` came earlier in the input, so it goes first among ties).
   */
  function Insert(x: Repo, t: seq<Repo>): seq<Repo>
  {
    if t == [] then [x]
    else if Compare(t[0], x) < 0 then [t[0]] + Insert(x, t[1..])
    else [x] + t
  }

  /** Insertion adds `x` and loses nothing; the head is `x` or the old head. */
  lemma {:induction false} InsertContents(x: Repo, t: seq<Repo>)
    ensures multiset(Insert(x, t)) == multiset{x} + multiset(t)
    ensures Insert(x, t)[0] == x || (t != [] && Insert(x, t)[0] == t[0])
  {
    if t != [] {
      InsertContents(x, t[1..]);
      assert t == [t[0]] + t[1..];
    }
  }

  /** Inserting into a sorted list keeps it sorted. */
  lemma {:induction false} InsertSorted(x: Repo, t: seq<Repo>)
    requires Sorted(t)
    ensures Sorted(Insert(x, t))
  {
    if t != [] {
      var r := Insert(x, t);
      if Compare(t[0], x) < 0 {
        var rest := Insert(x, t[1..]);
        InsertSorted(x, t[1..]);
        InsertContents(x, t[1..]);
        forall j | 0 < j < |r| ensures Compare(r[0], r[j]) <= 0 {
          assert r[j] == rest[j - 1];
          assert r[j] in multiset(rest);
          assert r[j] == x || r[j] in t[1..];
        }
      } else {
        forall j | 0 < j < |r| ensures Compare(r[0], r[j]) <= 0 {
          assert r[j] == t[j - 1];
          if j > 1 {
            CompareTransitive(x, t[0], t[j - 1]);
          }
        }
      }
    }
  }

  /** The stable sort of `s` under Compare. */
  function Sort(s: seq<Repo>): seq<Repo>
  {
    if s == [] then [] else Insert(s[0], Sort(s[1..]))
  }

  /** The sort yields a sorted permutation of its input. */
  lemma {:induction false} SortContents(s: seq<Repo>)
    ensures Sorted(Sort(s))
    ensures multiset(Sort(s)) == multiset(s)
  {
    if s != [] {
      SortContents(s[1..]);
      InsertContents(s[0], Sort(s[1..]));
      InsertSorted(s[0], Sort(s[1..]));
      assert s == [s[0]] + s[1..];
    }
  }

  /** Entries tied with `key` on both sort keys, in their order in `s`. */
  function Ties(s: seq<Repo>, key: Repo): seq<Repo>
  {
    if s == [] then []
    else if Compare(s[0], key) == 0 then [s[0]] + Ties(s[1..], key)
    else Ties(s[1..], key)
  }

  lemma {:induction false} InsertTies(x: Repo, t: seq<Repo>, key: Repo)
    ensures Ties(Insert(x, t), key) == if Compare(x, key) == 0 then [x] + Ties(t, key) else Ties(t, key)
  {
    if t != [] && Compare(t[0], x) < 0 {
      InsertTies(x, t[1..], key);
      assert Compare(t[0], key) == 0 ==> Compare(x, key) != 0;
      assert Insert(x, t)[1..] == Insert(x, t[1..]);
    } else if t != [] {
      assert ([x] + t)[1..] == t;
    }
  }

  /** Stability: entries tied on both keys come out in their input order. */
  lemma {:induction false} SortStable(s: seq<Repo>, key: Repo)
    ensures Ties(Sort(s), key) == Ties(s, key)
  {
    if s != [] {
      SortStable(s[1..], key);
      InsertTies(s[0], Sort(s[1..]), key);
    }
  }

  /** Sorting an already sorted list changes nothing. */
  lemma {:induction false} SortOfSorted(s: seq<Repo>)
    requires Sorted(s)
    ensures Sort(s) == s
  {
    if s != [] {
      assert Sorted(s[1..]);
      SortOfSorted(s[1..]);
      if |s| > 1 {
        assert Compare(s[1], s[0]) >= 0 by { CompareMeaning(s[0], s[1]); }
      }
      assert [s[0]] + s[1..] == s;
    }
  }

  /** The list renderRepos draws: the filtered repositories, sorted. */
  function Select(s: seq<Repo>): seq<Repo>
  {
    Sort(Filter(s))
  }

  /**
   * The selection holds exactly the listed repositories of the input, each as often
   * as there, in comparator order: an excluded name or a fork never appears.
   */
  lemma {:induction false} SelectContents(s: seq<Repo>)
    ensures forall x :: x in Select(s) <==> x in s && Listed(x)
    ensures multiset(Select(s)) == multiset(Filter(s))
    ensures Sorted(Select(s))
  {
    FilterContents(s);
    SortContents(Filter(s));
    var r := Select(s);
    assert forall x :: x in r <==> x in multiset(r);
    assert forall x :: x in Filter(s) <==> x in multiset(Filter(s));
  }

  /** Selecting from a selection changes nothing. */
  lemma {:induction false} SelectIdempotent(s: seq<Repo>)
    ensures Select(Select(s)) == Select(s)
  {
    var r := Select(s);
    SelectContents(s);
    FilterKeepsListed(r);
    SortOfSorted(r);
  }

  /** Entries tied on both keys are shown in the order the API returned them. */
  lemma {:induction false} SelectKeepsTieOrder(s: seq<Repo>, key: Repo)
    ensures Ties(Select(s), key) == Ties(Filter(s), key)
  {
    SortStable(Filter(s), key);
  }

  /** The example ordering: (5 stars, 10 KB), (5, 20), (10, 1) are shown as (10, 1), (5, 20), (5, 10). */
  lemma SelectExample()
    ensures
      var a := Repo("A", None, "", None, None, 5, 10, false);
      var b := Repo("B", None, "", None, None, 5, 20, false);
      var c := Repo("C", None, "", None, None, 10, 1, false);
      Select([a, b, c]) == [c, b, a]
  {
    var a := Repo("A", None, "", None, None, 5, 10, false);
    var b := Repo("B", None, "", None, None, 5, 20, false);
    var c := Repo("C", None, "", None, None, 10, 1, false);
    FilterKeepsListed([a, b, c]);
    assert [a, b, c][1..] == [b, c] && [b, c][1..] == [c];
    assert Insert(b, [c]) == [c, b];
    assert Insert(a, [b]) == [b, a];
    assert Insert(a, [c, b]) == [c, b, a];
  }
}
