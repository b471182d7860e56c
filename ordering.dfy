/** ORDER BY entry_date: journal rows in non-decreasing date order. */
module Ordering {
  import opened Dates
  import opened Records

  predicate SortedByDate(s: seq<Entry>)
  {
    forall i, j :: 0 <= i < j < |s| ==> NotAfter(s[i].date, s[j].date)
  }

  /** Places e into an already date-ordered sequence. */
  function InsertByDate(e: Entry, s: seq<Entry>): (r: seq<Entry>)
    requires SortedByDate(s)
    ensures SortedByDate(r)
    ensures multiset(r) == multiset(s) + multiset{e}
  {
    if s == [] then [e]
    else if NotAfter(e.date, s[0].date) then [e] + s
    else
      var tail := InsertByDate(e, s[1..]);
      assert forall x :: x in tail ==> NotAfter(s[0].date, x.date) by {
        forall x | x in tail ensures NotAfter(s[0].date, x.date) {
          assert x in multiset(tail);
          if x != e {
            assert x in multiset(s[1..]);
            var j :| 0 <= j < |s[1..]| && s[1..][j] == x;
            assert s[1..][j] == s[j + 1];
          }
        }
      }
      assert s == [s[0]] + s[1..];
      [s[0]] + tail
  }

  /** The rows of s, in non-decreasing date order. */
  function SortByDate(s: seq<Entry>): (r: seq<Entry>)
    ensures SortedByDate(r)
    ensures multiset(r) == multiset(s)
  {
    if s == [] then []
    else
      assert s == [s[0]] + s[1..];
      InsertByDate(s[0], SortByDate(s[1..]))
  }
}
