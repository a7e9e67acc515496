/**
 * The data table's filter (table/index.tsx): the rows whose chosen column
 * contains the typed text, compared without regard to letter case.
 */
module TableFilter {
  import opened Sequences

  /** A data row: column name -> the column's value as `String(...)` renders it. */
  type Row = map<string, string>

  /** `String(item[filterType])`: the column's text, or "undefined" when the row has no such column. */
  function FieldText(row: Row, column: string): string
  {
    if column in row then row[column] else "undefined"
  }

  /** `toLowerCase` on one character; only the ASCII letters A-Z are folded. */
  function LowerChar(c: char): (r: char)
    ensures 'A' <= c <= 'Z' ==> r as int == c as int + 32
    ensures !('A' <= c <= 'Z') ==> r == c
  {
    if 'A' <= c <= 'Z' then (c as int + 32) as char else c
  }

  /** `toLowerCase` on a string, character by character. */
  function Lower(s: string): (r: string)
    ensures |r| == |s|
    ensures forall i :: 0 <= i < |s| ==> r[i] == LowerChar(s[i])
  {
    if s == [] then [] else [LowerChar(s[0])] + Lower(s[1..])
  }

  /** `s.includes(sub)`: `sub` occurs in `s` starting at some position. */
  predicate Includes(s: string, sub: string)
    decreases |s|
  {
    sub <= s || (s != [] && Includes(s[1..], sub))
  }

  /** Whether a row is kept by a non-empty filter. */
  predicate Matches(row: Row, filterType: string, filterValue: string)
  {
    Includes(Lower(FieldText(row, filterType)), Lower(filterValue))
  }

  /**
   * The memoised `data`: all rows when no column or no text is chosen,
   * otherwise the matching rows.
   */
  function FilteredRows(data: seq<Row>, filterType: string, filterValue: string): (r: seq<Row>)
    ensures filterType == "" || filterValue == "" ==> r == data
    ensures filterType != "" && filterValue != "" ==>
      forall row :: row in r <==> row in data && Matches(row, filterType, filterValue)
    ensures filterType != "" && filterValue != "" ==>
      forall row :: multiset(r)[row] == (if Matches(row, filterType, filterValue) then multiset(data)[row] else 0)
  {
    if filterType == "" || filterValue == "" then data
    else Filter(data, (row: Row) => Matches(row, filterType, filterValue))
  }

  /** The filtered rows are a subsequence of the data (dataset order is kept), so never more rows than the data. */
  lemma FilteredRowsKeepOrder(data: seq<Row>, filterType: string, filterValue: string)
    ensures Subsequence(FilteredRows(data, filterType, filterValue), data)
    ensures |FilteredRows(data, filterType, filterValue)| <= |data|
  {
    if filterType == "" || filterValue == "" {
      SubsequenceReflexive(data);
    } else {
      FilterSubsequence(data, (row: Row) => Matches(row, filterType, filterValue));
    }
    SubsequenceLength(FilteredRows(data, filterType, filterValue), data);
  }

  /** Two filter texts that differ only in ASCII letter case select the same rows. */
  lemma FilterIgnoresCase(data: seq<Row>, filterType: string, v1: string, v2: string)
    requires Lower(v1) == Lower(v2)
    ensures FilteredRows(data, filterType, v1) == FilteredRows(data, filterType, v2)
  {
    if filterType != "" && v1 != "" {
      assert |v2| == |Lower(v2)| == |Lower(v1)| == |v1|;
      FilterSameTest(data, (row: Row) => Matches(row, filterType, v1), (row: Row) => Matches(row, filterType, v2));
    } else if filterType != "" {
      assert |v2| == |v1|;
    }
  }
}
