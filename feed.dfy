/**
 * The listing feed: the store query (active rows, optional category, newest
 * first) and the client-side text filter over its result.
 */
module Feed {
  import opened Wrappers
  import opened Text
  import opened Jobs

  /** `.eq("is_active", true)`: a null flag is not true. */
  predicate IsListed(r: Row) {
    r.isActive == Some(true)
  }

  /** `selectedCategory && selectedCategory !== "all"`. */
  predicate CategoryFilterApplies(selected: Option<string>) {
    Truthy(selected) && selected.value != "all"
  }

  /** `.eq("category", selectedCategory)` when the filter applies; a null category never equals. */
  predicate InCategory(r: Row, selected: Option<string>) {
    !CategoryFilterApplies(selected) || r.category == selected
  }

  /**
   * `order("posted_at", {ascending: false})`: newer first, and the store puts
   * rows without `posted_at` before all others in a descending order.
   */
  predicate ComesBefore(a: Row, b: Row) {
    a.postedAt.None? || (b.postedAt.Some? && a.postedAt.value >= b.postedAt.value)
  }

  ghost predicate SortedByPosted(s: seq<Row>) {
    forall i, j :: 0 <= i < j < |s| ==> ComesBefore(s[i], s[j])
  }

  /** The rows of a table, in some order, one entry per key. */
  ghost function TableRows(t: Table): (s: seq<Row>)
    ensures forall r :: r in s <==> r in t.Values
    ensures |s| == |t|
    ensures WellKeyed(t) ==> forall r :: multiset(s)[r] == if r in t.Values then 1 else 0
    decreases |t|
  {
    if t == map[] then []
    else
      var k :| k in t;
      var rest := t - {k};
      assert WellKeyed(t) ==> t[k] !in rest.Values by {
        if WellKeyed(t) {
          forall k' | k' in rest ensures rest[k'] != t[k] {
            assert rest[k'].id == k' != k;
          }
        }
      }
      assert t.Values == rest.Values + {t[k]} by {
        forall r | r in t.Values ensures r in rest.Values + {t[k]} {
          var k' :| k' in t && t[k'] == r;
          if k' != k { assert k' in rest; }
        }
      }
      [t[k]] + TableRows(rest)
  }

  /** The query's `where` part. */
  function Select(rows: seq<Row>, selected: Option<string>): (s: seq<Row>)
    ensures forall r :: r in s <==> r in rows && IsListed(r) && InCategory(r, selected)
    ensures forall r :: multiset(s)[r] == if IsListed(r) && InCategory(r, selected) then multiset(rows)[r] else 0
  {
    if rows == [] then []
    else
      assert rows == [rows[0]] + rows[1..];
      var rest := Select(rows[1..], selected);
      if IsListed(rows[0]) && InCategory(rows[0], selected) then [rows[0]] + rest else rest
  }

  function InsertByPosted(r: Row, s: seq<Row>): (t: seq<Row>)
    ensures multiset(t) == multiset(s) + multiset{r}
  {
    if s == [] then [r]
    else if ComesBefore(r, s[0]) then [r] + s
    else
      assert s == [s[0]] + s[1..];
      [s[0]] + InsertByPosted(r, s[1..])
  }

  lemma ComesBeforeTransitive(a: Row, b: Row, c: Row)
    requires ComesBefore(a, b) && ComesBefore(b, c)
    ensures ComesBefore(a, c)
  {
  }

  lemma {:induction false} InsertKeepsSorted(r: Row, s: seq<Row>)
    requires SortedByPosted(s)
    ensures SortedByPosted(InsertByPosted(r, s))
  {
    if s == [] {
    } else if ComesBefore(r, s[0]) {
      var t := [r] + s;
      forall i, j | 0 <= i < j < |t| ensures ComesBefore(t[i], t[j]) {
        if i == 0 && j > 1 { ComesBeforeTransitive(r, s[0], s[j - 1]); }
      }
    } else {
      InsertKeepsSorted(r, s[1..]);
      var rest := InsertByPosted(r, s[1..]);
      forall x | x in rest ensures ComesBefore(s[0], x) {
        assert x in multiset(rest);
        if x != r {
          assert x in multiset(s[1..]);
          var k :| 0 <= k < |s[1..]| && s[1..][k] == x;
          assert s[k + 1] == x;
        }
      }
      var t := [s[0]] + rest;
      forall i, j | 0 <= i < j < |t| ensures ComesBefore(t[i], t[j]) {
        if i == 0 { assert t[j] in rest; } else { assert t[i] == rest[i - 1] && t[j] == rest[j - 1]; }
      }
    }
  }

  /** The query's `order` part. */
  function SortByPosted(s: seq<Row>): (t: seq<Row>)
    ensures SortedByPosted(t)
    ensures multiset(t) == multiset(s)
  {
    if s == [] then []
    else
      assert s == [s[0]] + s[1..];
      var rest := SortByPosted(s[1..]);
      InsertKeepsSorted(s[0], rest);
      InsertByPosted(s[0], rest)
  }

  /** `fetchJobs`: the active rows of the selected category, newest first. */
  ghost function FetchJobs(t: Table, selected: Option<string>): (jobs: seq<Row>)
    ensures SortedByPosted(jobs)
    ensures forall r :: r in jobs <==> r in t.Values && IsListed(r) && InCategory(r, selected)
    ensures WellKeyed(t) ==>
              forall r :: multiset(jobs)[r] == if r in t.Values && IsListed(r) && InCategory(r, selected) then 1 else 0
  {
    var selectedRows := Select(TableRows(t), selected);
    var jobs := SortByPosted(selectedRows);
    assert forall r :: r in jobs <==> r in multiset(selectedRows);
    jobs
  }

  /** `job.title/company/location.toLowerCase().includes(searchTerm.toLowerCase())`, or an empty term. */
  predicate MatchesSearch(r: Row, term: string, lower: string -> string): (m: bool)
    ensures m <==> || term == ""
                   || (exists i :: OccursAt(lower(r.title), lower(term), i))
                   || (exists i :: OccursAt(lower(r.company), lower(term), i))
                   || (exists i :: OccursAt(lower(r.location), lower(term), i))
  {
    ContainsIffOccurs(lower(r.title), lower(term));
    ContainsIffOccurs(lower(r.company), lower(term));
    ContainsIffOccurs(lower(r.location), lower(term));
    term == ""
    || Contains(lower(r.title), lower(term))
    || Contains(lower(r.company), lower(term))
    || Contains(lower(r.location), lower(term))
  }

  /** A non-empty term matches only by occurring, lower-cased, at some index of one of the three fields. */
  lemma MatchAt(r: Row, term: string, lower: string -> string) returns (i: int)
    requires term != "" && MatchesSearch(r, term, lower)
    ensures || OccursAt(lower(r.title), lower(term), i)
            || OccursAt(lower(r.company), lower(term), i)
            || OccursAt(lower(r.location), lower(term), i)
  {
    if Contains(lower(r.title), lower(term)) {
      i := OccurrenceOf(lower(r.title), lower(term));
    } else if Contains(lower(r.company), lower(term)) {
      i := OccurrenceOf(lower(r.company), lower(term));
    } else {
      i := OccurrenceOf(lower(r.location), lower(term));
    }
  }

  /** An occurrence of the lower-cased term in a lower-cased field is a match. */
  lemma OccurrenceMatches(r: Row, term: string, lower: string -> string, i: int)
    requires || OccursAt(lower(r.title), lower(term), i)
             || OccursAt(lower(r.company), lower(term), i)
             || OccursAt(lower(r.location), lower(term), i)
    ensures MatchesSearch(r, term, lower)
  {
    if OccursAt(lower(r.title), lower(term), i) {
      OccursContains(lower(r.title), lower(term), i);
    } else if OccursAt(lower(r.company), lower(term), i) {
      OccursContains(lower(r.company), lower(term), i);
    } else {
      OccursContains(lower(r.location), lower(term), i);
    }
  }

  /** `a` is `b` with some elements dropped and the rest in the same order. */
  ghost predicate IsSubsequence(a: seq<Row>, b: seq<Row>)
    decreases |b|
  {
    if a == [] then true
    else if b == [] then false
    else (a[0] == b[0] && IsSubsequence(a[1..], b[1..])) || IsSubsequence(a, b[1..])
  }

  /** `filteredJobs`, with `lower` standing for `toLowerCase`. */
  function FilterJobs(jobs: seq<Row>, term: string, lower: string -> string): (shown: seq<Row>)
    ensures forall r :: r in shown <==> r in jobs && MatchesSearch(r, term, lower)
    ensures term == "" ==> shown == jobs
  {
    if jobs == [] then []
    else
      var rest := FilterJobs(jobs[1..], term, lower);
      assert term == "" ==> jobs == [jobs[0]] + jobs[1..];
      if MatchesSearch(jobs[0], term, lower) then [jobs[0]] + rest else rest
  }

  /** The text filter keeps every matching job as often as it was fetched, and drops the others. */
  lemma {:induction false} FilterCounts(jobs: seq<Row>, term: string, lower: string -> string)
    ensures forall r :: multiset(FilterJobs(jobs, term, lower))[r]
                     == if MatchesSearch(r, term, lower) then multiset(jobs)[r] else 0
  {
    if jobs != [] {
      assert jobs == [jobs[0]] + jobs[1..];
      FilterCounts(jobs[1..], term, lower);
    }
  }

  /** The text filter keeps the fetched order: it drops rows and moves none. */
  lemma {:induction false} FilterKeepsOrder(jobs: seq<Row>, term: string, lower: string -> string)
    ensures IsSubsequence(FilterJobs(jobs, term, lower), jobs)
    ensures SortedByPosted(jobs) ==> SortedByPosted(FilterJobs(jobs, term, lower))
  {
    if jobs != [] {
      FilterKeepsOrder(jobs[1..], term, lower);
      var rest := FilterJobs(jobs[1..], term, lower);
      var shown := FilterJobs(jobs, term, lower);
      if MatchesSearch(jobs[0], term, lower) {
        assert shown[1..] == rest;
        if SortedByPosted(jobs) {
          forall x | x in rest ensures ComesBefore(jobs[0], x) {
            var i :| 0 <= i < |jobs[1..]| && jobs[1..][i] == x;
            assert jobs[i + 1] == x;
          }
          forall i, j | 0 <= i < j < |shown| ensures ComesBefore(shown[i], shown[j]) {
            if i == 0 { assert shown[j] in rest; } else { assert shown[i] == rest[i - 1] && shown[j] == rest[j - 1]; }
          }
        }
      } else {
        assert SortedByPosted(jobs) ==> SortedByPosted(jobs[1..]) by {
          if SortedByPosted(jobs) {
            forall i, j | 0 <= i < j < |jobs[1..]| ensures ComesBefore(jobs[1..][i], jobs[1..][j]) {
              assert jobs[1..][i] == jobs[i + 1] && jobs[1..][j] == jobs[j + 1];
            }
          }
        }
        if shown != [] {
          assert IsSubsequence(shown, jobs[1..]);
        }
      }
    }
  }

  /** What the page lists for a selected category and a search term. */
  ghost function Listing(t: Table, selected: Option<string>, term: string, lower: string -> string): (shown: seq<Row>)
    ensures SortedByPosted(shown)
    ensures forall r :: r in shown <==>
              r in t.Values && IsListed(r) && InCategory(r, selected) && MatchesSearch(r, term, lower)
    ensures WellKeyed(t) ==>
              forall r :: multiset(shown)[r]
                       == if r in t.Values && IsListed(r) && InCategory(r, selected) && MatchesSearch(r, term, lower)
                          then 1 else 0
  {
    var jobs := FetchJobs(t, selected);
    FilterKeepsOrder(jobs, term, lower);
    FilterCounts(jobs, term, lower);
    FilterJobs(jobs, term, lower)
  }

  /**
   * The order has no premium-first key: of two listed rows with posting
   * times, the later one comes first whatever their types.
   */
  lemma LaterPostedComesFirst(shown: seq<Row>, i: int, j: int)
    requires SortedByPosted(shown)
    requires 0 <= i < |shown| && 0 <= j < |shown|
    requires shown[i].postedAt.Some? && shown[j].postedAt.Some?
    requires shown[i].postedAt.value > shown[j].postedAt.value
    ensures i < j
  {
  }
}
