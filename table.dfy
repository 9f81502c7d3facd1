/** The rendered table's row visibility: the text search over the cells of
    each row and the inclusive date-range filter. Both set every row's
    visibility from scratch, so whichever ran last decides what is shown. */
module TableView {
  import opened Wrappers

  // ---------------------------------------------------------------------------
  // Text search
  // ---------------------------------------------------------------------------

  /** `toUpperCase` on one character, for the letters a to z. */
  function UpperChar(c: char): char
  {
    if 'a' <= c <= 'z' then (c as int - 32) as char else c
  }

  /** `toUpperCase` on a string, character by character. */
  function ToUpper(s: string): (r: string)
    ensures |r| == |s|
  {
    seq(|s|, i requires 0 <= i < |s| => UpperChar(s[i]))
  }

  /** Upper-casing twice is upper-casing once. */
  lemma ToUpperIdempotent(s: string)
    ensures ToUpper(ToUpper(s)) == ToUpper(s)
  {
  }

  /** `pat` occurs in `text` starting at position `k`. */
  predicate OccursAt(text: string, pat: string, k: int)
  {
    0 <= k && k + |pat| <= |text| && text[k..k + |pat|] == pat
  }

  /** `pat` occurs somewhere in `text`. */
  predicate Contains(text: string, pat: string)
  {
    exists k :: 0 <= k <= |text| - |pat| && OccursAt(text, pat, k)
  }

  /** Occurrences in `text[1..]` are the occurrences in `text` from
      position 1 on, shifted down by one. */
  lemma OccursShift(text: string, pat: string)
    requires text != []
    ensures forall k :: OccursAt(text[1..], pat, k) ==> OccursAt(text, pat, k + 1)
    ensures forall k :: 1 <= k && OccursAt(text, pat, k) ==> OccursAt(text[1..], pat, k - 1)
  {
    forall k | OccursAt(text[1..], pat, k) ensures OccursAt(text, pat, k + 1) {
      assert text[1..][k..k + |pat|] == text[k + 1..k + 1 + |pat|];
    }
    forall k | 1 <= k && OccursAt(text, pat, k) ensures OccursAt(text[1..], pat, k - 1) {
      assert text[1..][k - 1..k - 1 + |pat|] == text[k..k + |pat|];
    }
  }

  /** `text.indexOf(pat)`: the first position at which `pat` occurs, or -1
      when it occurs nowhere. */
  function IndexOf(text: string, pat: string): (r: int)
    ensures r == -1 || (OccursAt(text, pat, r) && forall k :: 0 <= k < r ==> !OccursAt(text, pat, k))
    ensures r == -1 <==> !Contains(text, pat)
    decreases |text|
  {
    if |pat| > |text| then -1
    else if text[..|pat|] == pat then 0
    else
      var r := IndexOf(text[1..], pat);
      OccursShift(text, pat);
      if r == -1 then -1 else r + 1
  }

  /** A row is shown by a search for `query` when one of its cells,
      upper-cased, contains the upper-cased query. */
  predicate RowMatches(cells: seq<string>, query: string)
  {
    exists j :: 0 <= j < |cells| && Contains(ToUpper(cells[j]), ToUpper(query))
  }

  /** The inner loop for one row: look through the cells in order and stop
      at the first whose upper-cased text contains `filter` (the upper-cased
      query). */
  method RowVisible(cells: seq<string>, filter: string) returns (show: bool)
    ensures show <==> exists j :: 0 <= j < |cells| && Contains(ToUpper(cells[j]), filter)
  {
    show := false;
    var j := 0;
    while j < |cells|
      invariant 0 <= j <= |cells|
      invariant forall k :: 0 <= k < j ==> !Contains(ToUpper(cells[k]), filter)
    {
      if IndexOf(ToUpper(cells[j]), filter) > -1 {
        show := true;
        break;
      }
      j := j + 1;
    }
  }

  /** The search does not depend on the case of the query. */
  lemma SearchIgnoresCase(cells: seq<string>, query: string)
    ensures RowMatches(cells, query) <==> RowMatches(cells, ToUpper(query))
  {
    ToUpperIdempotent(query);
  }

  /** An empty query shows every row that has at least one cell. */
  lemma EmptyQueryShowsRow(cells: seq<string>)
    requires cells != []
    ensures RowMatches(cells, "")
  {
    assert OccursAt(ToUpper(cells[0]), ToUpper(""), 0);
  }

  /** A cell that contains some spelling `q` of the query, differing from
      it only in letter case, shows its row. */
  lemma CellShowsRow(cells: seq<string>, j: int, q: string, query: string)
    requires 0 <= j < |cells| && Contains(cells[j], q) && ToUpper(q) == ToUpper(query)
    ensures RowMatches(cells, query)
  {
    var k :| 0 <= k <= |cells[j]| - |q| && OccursAt(cells[j], q, k);
    var up := ToUpper(cells[j]);
    assert |up| == |cells[j]|;
    assert up[k..k + |q|] == ToUpper(q) by {
      forall m | 0 <= m < |q| ensures up[k..k + |q|][m] == ToUpper(q)[m] {
        assert cells[j][k + m] == q[m];
      }
    }
    assert OccursAt(up, ToUpper(query), k);
  }

  /** A search for "food" shows the seed lunch row, whose category is "Food". */
  lemma FoodFindsLunch()
    ensures RowMatches(["2024-10-20", "Lunch", "Food", "12.99", "Edit Delete"], "food")
  {
    var cells := ["2024-10-20", "Lunch", "Food", "12.99", "Edit Delete"];
    assert ToUpper("food") == "FOOD";
    assert ToUpper(cells[2]) == "FOOD";
    assert OccursAt(ToUpper(cells[2]), ToUpper("food"), 0);
  }

  // ---------------------------------------------------------------------------
  // Date range
  // ---------------------------------------------------------------------------

  /** A calendar date as `new Date` reads an ISO `YYYY-MM-DD` text. */
  datatype Date = Date(year: int, month: int, day: int)

  /** `a` is on or before `b`. */
  predicate DateLe(a: Date, b: Date)
  {
    a.year < b.year || (a.year == b.year && (a.month < b.month || (a.month == b.month && a.day <= b.day)))
  }

  /** The order on dates is a total order. */
  lemma DateLeTotalOrder(a: Date, b: Date, c: Date)
    ensures DateLe(a, a)
    ensures DateLe(a, b) && DateLe(b, a) ==> a == b
    ensures DateLe(a, b) && DateLe(b, c) ==> DateLe(a, c)
    ensures DateLe(a, b) || DateLe(b, a)
  {
  }

  /** `date >= start && date <= end`, where each side is a parsed date or
      `None` for a text that did not parse; comparisons with an unparsed date
      are false, so such a row, or any row under an unparsed bound, is hidden. */
  predicate InRange(date: Option<Date>, start: Option<Date>, end: Option<Date>)
  {
    date.Some? && start.Some? && end.Some? && DateLe(start.value, date.value) && DateLe(date.value, end.value)
  }

  /** A range whose end is before its start hides every row. */
  lemma ReversedRangeHidesAll(date: Option<Date>, start: Date, end: Date)
    requires DateLe(end, start) && end != start
    ensures !InRange(date, Some(start), Some(end))
  {
    if InRange(date, Some(start), Some(end)) {
      DateLeTotalOrder(start, date.value, end);
      DateLeTotalOrder(end, start, date.value);
    }
  }

  /** Both ends are included: a one-day range shows exactly that day. */
  lemma OneDayRange(date: Date, day: Date)
    ensures InRange(Some(date), Some(day), Some(day)) <==> date == day
  {
    DateLeTotalOrder(date, day, date);
  }

  /** Widening the range never hides a row that was shown. */
  lemma WiderRangeKeepsRows(date: Option<Date>, s1: Date, e1: Date, s2: Date, e2: Date)
    requires DateLe(s2, s1) && DateLe(e1, e2)
    ensures InRange(date, Some(s1), Some(e1)) ==> InRange(date, Some(s2), Some(e2))
  {
    if InRange(date, Some(s1), Some(e1)) {
      DateLeTotalOrder(s2, s1, date.value);
      DateLeTotalOrder(date.value, e1, e2);
    }
  }

  // ---------------------------------------------------------------------------
  // The rendered table
  // ---------------------------------------------------------------------------

  /** The body rows of a rendered table: the text of each row's cells, and
      for each row whether it is displayed. */
  class Table {
    const cells: seq<seq<string>>
    const shown: array<bool>

    predicate Valid()
    {
      shown.Length == |cells|
    }

    /** A freshly rendered table displays every row. */
    constructor (cells: seq<seq<string>>)
      ensures Valid() && this.cells == cells && fresh(shown)
      ensures forall i :: 0 <= i < shown.Length ==> shown[i]
    {
      this.cells := cells;
      shown := new bool[|cells|](i => true);
    }

    /** Search: each row is hidden, then shown again if one of its cells
        contains the query, ignoring case. */
    method Search(query: string)
      requires Valid()
      modifies shown
      ensures forall i :: 0 <= i < shown.Length ==> shown[i] == RowMatches(cells[i], query)
    {
      var filter := ToUpper(query);
      for i := 0 to shown.Length
        invariant forall k :: 0 <= k < i ==> shown[k] == RowMatches(cells[k], query)
      {
        shown[i] := false;
        var show := RowVisible(cells[i], filter);
        shown[i] := show;
      }
    }

    /** Date filter: each row is shown exactly when the date read from its
        first cell lies in `[start, end]`. `parse` stands for `new Date(text)`,
        `None` for an invalid date. Every rendered row has cells. */
    method ApplyDateFilter(start: Option<Date>, end: Option<Date>, parse: string -> Option<Date>)
      requires Valid()
      requires forall i :: 0 <= i < |cells| ==> cells[i] != []
      modifies shown
      ensures forall i :: 0 <= i < shown.Length ==> shown[i] == InRange(parse(cells[i][0]), start, end)
    {
      for i := 0 to shown.Length
        invariant forall k :: 0 <= k < i ==> shown[k] == InRange(parse(cells[k][0]), start, end)
      {
        shown[i] := InRange(parse(cells[i][0]), start, end);
      }
    }
  }

  /** Searching after filtering by date forgets the filter: what is shown
      then depends on the query alone, so rows outside the range can come
      back. */
  method FilterThenSearch(t: Table, start: Option<Date>, end: Option<Date>,
                          parse: string -> Option<Date>, query: string)
    requires t.Valid()
    requires forall i :: 0 <= i < |t.cells| ==> t.cells[i] != []
    modifies t.shown
    ensures forall i :: 0 <= i < t.shown.Length ==> t.shown[i] == RowMatches(t.cells[i], query)
  {
    t.ApplyDateFilter(start, end, parse);
    t.Search(query);
  }
}
