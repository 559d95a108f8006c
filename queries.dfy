/** What the query builder's `order`, `maybeSingle` and `single` modifiers do to a result. */
module Queries {
  import opened Wrappers
  import opened Records

  /** `a` may come before `b` in a query ordered by `date` in the given direction. */
  predicate DateBefore(a: InterviewRow, b: InterviewRow, ascending: bool) {
    if ascending then a.date <= b.date else a.date >= b.date
  }

  /** Ordered by `date` in the given direction. */
  predicate SortedByDate(s: seq<InterviewRow>, ascending: bool) {
    forall i, j :: 0 <= i < j < |s| ==> DateBefore(s[i], s[j], ascending)
  }

  /** Insert `x` before the first row that may not come before it. */
  function InsertByDate(x: InterviewRow, s: seq<InterviewRow>, ascending: bool): (r: seq<InterviewRow>)
    ensures |r| == |s| + 1
    ensures multiset(r) == multiset(s) + multiset{x}
  {
    if s == [] || DateBefore(x, s[0], ascending) then [x] + s
    else
      assert s == [s[0]] + s[1..];
      [s[0]] + InsertByDate(x, s[1..], ascending)
  }

  /** Inserting into a sorted list keeps it sorted; the new head is `x` or the old head. */
  lemma {:induction false} InsertByDateSorted(x: InterviewRow, s: seq<InterviewRow>, ascending: bool)
    requires SortedByDate(s, ascending)
    ensures var r := InsertByDate(x, s, ascending);
      SortedByDate(r, ascending) && (r[0] == x || (s != [] && r[0] == s[0]))
  {
    if s == [] || DateBefore(x, s[0], ascending) {
      ConsSorted(x, s, ascending);
    } else {
      var tail := s[1..];
      assert SortedByDate(tail, ascending) by {
        forall i, j | 0 <= i < j < |tail| ensures DateBefore(tail[i], tail[j], ascending) {
          assert tail[i] == s[i + 1] && tail[j] == s[j + 1];
        }
      }
      InsertByDateSorted(x, tail, ascending);
      var rest := InsertByDate(x, tail, ascending);
      ConsSorted(s[0], rest, ascending);
    }
  }

  /** A row that may come before the head of a sorted list may come before all of it. */
  lemma ConsSorted(a: InterviewRow, rest: seq<InterviewRow>, ascending: bool)
    requires SortedByDate(rest, ascending)
    requires rest == [] || DateBefore(a, rest[0], ascending)
    ensures SortedByDate([a] + rest, ascending)
  {
    var r := [a] + rest;
    forall i, j | 0 <= i < j < |r| ensures DateBefore(r[i], r[j], ascending) {
      if i == 0 && j > 1 {
        assert DateBefore(rest[0], rest[j - 1], ascending);
      }
    }
  }

  /**
   * `.order("date", { ascending })`: the same rows in date order. Rows with equal dates keep
   * their table order (the backend leaves that order unspecified).
   */
  function OrderByDate(s: seq<InterviewRow>, ascending: bool): (r: seq<InterviewRow>)
    ensures SortedByDate(r, ascending)
    ensures multiset(r) == multiset(s)
    ensures |r| == |s|
  {
    if s == [] then []
    else
      assert s == [s[0]] + s[1..];
      var rest := OrderByDate(s[1..], ascending);
      InsertByDateSorted(s[0], rest, ascending);
      InsertByDate(s[0], rest, ascending)
  }

  /** `.order("date", { ascending: true })`, the order most queries use. */
  function ByDate(s: seq<InterviewRow>): (r: seq<InterviewRow>)
    ensures SortedByDate(r, true)
    ensures multiset(r) == multiset(s)
    ensures |r| == |s|
  {
    OrderByDate(s, true)
  }

  /** The rows of an ordered query are exactly the rows asked for. */
  lemma OrderByDateMembers(s: seq<InterviewRow>, ascending: bool)
    ensures forall x :: x in OrderByDate(s, ascending) <==> x in s
  {
    forall x ensures x in OrderByDate(s, ascending) <==> x in s {
      assert x in OrderByDate(s, ascending) <==> x in multiset(OrderByDate(s, ascending));
    }
  }

  lemma ByDateMembers(s: seq<InterviewRow>)
    ensures forall x :: x in ByDate(s) <==> x in s
  {
    OrderByDateMembers(s, true);
  }

  /** `.maybeSingle()`: no row, exactly one row, or an error when there are several. */
  function MaybeSingle<T>(rows: seq<T>): (r: Result<Option<T>>)
    ensures r.Ok? <==> |rows| <= 1
    ensures r.Ok? && r.value.Some? ==> |rows| == 1 && r.value.value == rows[0]
    ensures r.Ok? ==> (r.value.None? <==> rows == [])
  {
    if |rows| == 0 then Ok(None)
    else if |rows| == 1 then Ok(Some(rows[0]))
    else Err("JSON object requested, multiple (or no) rows returned")
  }

  /** `.single()`: exactly one row, or an error. */
  function Single<T>(rows: seq<T>): (r: Result<T>)
    ensures r.Ok? <==> |rows| == 1
    ensures r.Ok? ==> r.value == rows[0]
  {
    if |rows| == 1 then Ok(rows[0])
    else Err("JSON object requested, multiple (or no) rows returned")
  }
}
