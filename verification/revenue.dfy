/** The quarterly-revenue chart: if the quarterly income statement has a
    "Total Revenue" line item, its per-period values with the missing ones
    dropped are plotted; otherwise a fixed notice is shown instead. */
module Revenue {
  import opened Wrappers

  /** Label of the line item that is charted. */
  const RevenueItem: string := "Total Revenue"

  /** Text shown when the statement has no such line item. */
  const NotFoundNotice: string := "Row 'Total Revenue' not found in the quarterly income statement."

  /** One line item of a statement: a value, or a missing cell, per period,
      in the statement's column order. */
  type Row<P, T> = seq<(P, Option<T>)>

  /** A statement: line items by label. */
  type Statement<P, T> = map<string, Row<P, T>>

  /** What the revenue region shows: the bars of a series, or a notice. */
  datatype Chart<P, T> = Bars(points: seq<(P, T)>) | Notice(text: string)

  /** The row with its missing cells dropped. */
  function DropMissing<P, T>(row: Row<P, T>): (r: seq<(P, T)>)
    ensures |r| <= |row|
    ensures forall i :: 0 <= i < |r| ==> (r[i].0, Some(r[i].1)) in row
  {
    if row == [] then []
    else
      var rest := DropMissing(row[1..]);
      match row[0].1
      case Some(v) => [(row[0].0, v)] + rest
      case None => rest
  }

  /** Positions, counted from `start`, of the non-missing cells of a row, in
      increasing order. */
  function PresentFrom<P, T>(row: Row<P, T>, start: nat): (ix: seq<nat>)
    ensures forall k :: 0 <= k < |ix| ==> start <= ix[k] < start + |row| && row[ix[k] - start].1.Some?
    ensures forall k, m :: 0 <= k < m < |ix| ==> ix[k] < ix[m]
  {
    if row == [] then []
    else
      var tail := PresentFrom(row[1..], start + 1);
      if row[0].1.Some? then [start] + tail else tail
  }

  /** Every non-missing position, counted from `start`, is listed. */
  lemma {:induction false} PresentFromComplete<P, T>(row: Row<P, T>, start: nat)
    ensures forall i :: start <= i < start + |row| && row[i - start].1.Some? ==> i in PresentFrom(row, start)
  {
    if row != [] {
      PresentFromComplete(row[1..], start + 1);
    }
  }

  /** Positions of the non-missing cells of a row, in increasing order. */
  function Present<P, T>(row: Row<P, T>): (ix: seq<nat>)
    ensures forall k :: 0 <= k < |ix| ==> ix[k] < |row| && row[ix[k]].1.Some?
    ensures forall k, m :: 0 <= k < m < |ix| ==> ix[k] < ix[m]
  {
    PresentFrom(row, 0)
  }

  /** Every non-missing position of the row is listed. */
  lemma PresentComplete<P, T>(row: Row<P, T>)
    ensures forall i :: 0 <= i < |row| && row[i].1.Some? ==> i in Present(row)
  {
    PresentFromComplete(row, 0);
  }

  /** The k-th point of the series is the cell at the k-th present position. */
  ghost predicate Matches<P, T>(row: Row<P, T>, start: nat, ix: seq<nat>, r: seq<(P, T)>)
  {
    && |ix| == |r|
    && forall k :: 0 <= k < |ix| ==>
         start <= ix[k] < start + |row| && row[ix[k] - start] == (r[k].0, Some(r[k].1))
  }

  lemma MatchesCons<P, T>(row: Row<P, T>, start: nat, tail: seq<nat>, rest: seq<(P, T)>)
    requires row != [] && row[0].1.Some?
    requires Matches(row[1..], start + 1, tail, rest)
    ensures Matches(row, start, [start] + tail, [(row[0].0, row[0].1.value)] + rest)
  {
  }

  lemma MatchesSkip<P, T>(row: Row<P, T>, start: nat, tail: seq<nat>, rest: seq<(P, T)>)
    requires row != []
    requires Matches(row[1..], start + 1, tail, rest)
    ensures Matches(row, start, tail, rest)
  {
  }

  lemma {:induction false} DropMissingInOrderFrom<P, T>(row: Row<P, T>, start: nat)
    ensures Matches(row, start, PresentFrom(row, start), DropMissing(row))
  {
    if row != [] {
      DropMissingInOrderFrom(row[1..], start + 1);
      if row[0].1.Some? {
        MatchesCons(row, start, PresentFrom(row[1..], start + 1), DropMissing(row[1..]));
      } else {
        MatchesSkip(row, start, PresentFrom(row[1..], start + 1), DropMissing(row[1..]));
      }
    }
  }

  /** The series keeps exactly the non-missing cells in their period order:
      its k-th point is the cell at the k-th present position of the row. */
  lemma {:induction false} DropMissingInOrder<P, T>(row: Row<P, T>)
    ensures Matches(row, 0, Present(row), DropMissing(row))
  {
    DropMissingInOrderFrom(row, 0);
  }

  /** Every non-missing cell of the row is in the series. */
  lemma {:induction false} DropMissingComplete<P, T>(row: Row<P, T>)
    ensures forall i :: 0 <= i < |row| && row[i].1.Some? ==> (row[i].0, row[i].1.value) in DropMissing(row)
  {
    var ix := Present(row);
    var r := DropMissing(row);
    DropMissingInOrder(row);
    PresentComplete(row);
    forall i | 0 <= i < |row| && row[i].1.Some?
      ensures (row[i].0, row[i].1.value) in r
    {
      var k :| 0 <= k < |ix| && ix[k] == i;
      assert row[ix[k]] == (r[k].0, Some(r[k].1));
    }
  }

  /** Dropping missing cells distributes over splitting the periods. */
  lemma {:induction false} DropMissingAppend<P, T>(a: Row<P, T>, b: Row<P, T>)
    ensures DropMissing(a + b) == DropMissing(a) + DropMissing(b)
  {
    if a == [] {
      assert a + b == b;
    } else {
      assert (a + b)[1..] == a[1..] + b;
      DropMissingAppend(a[1..], b);
    }
  }

  /** A series seen as a row with no missing cell. */
  function AsRow<P, T>(points: seq<(P, T)>): (row: Row<P, T>)
    ensures |row| == |points|
  {
    seq(|points|, k requires 0 <= k < |points| => (points[k].0, Some(points[k].1)))
  }

  /** A row without missing cells loses nothing. */
  lemma {:induction false} DropMissingAsRow<P, T>(points: seq<(P, T)>)
    ensures DropMissing(AsRow(points)) == points
  {
    if points != [] {
      assert AsRow(points)[1..] == AsRow(points[1..]);
      DropMissingAsRow(points[1..]);
    }
  }

  /** Dropping missing cells twice is dropping them once. */
  lemma DropMissingIdempotent<P, T>(row: Row<P, T>)
    ensures DropMissing(AsRow(DropMissing(row))) == DropMissing(row)
  {
    DropMissingAsRow(DropMissing(row));
  }

  /** What the revenue region shows for a quarterly income statement: the
      bars are the "Total Revenue" row's non-missing cells, all of them, in
      period order; without that row, the fixed notice. */
  function SelectRevenue<P, T>(statement: Statement<P, T>): (c: Chart<P, T>)
    ensures c.Bars? <==> RevenueItem in statement
    ensures c.Notice? ==> c.text == NotFoundNotice
    ensures c.Bars? ==> Matches(statement[RevenueItem], 0, Present(statement[RevenueItem]), c.points)
    ensures c.Bars? ==> forall i :: 0 <= i < |statement[RevenueItem]| && statement[RevenueItem][i].1.Some? ==>
      (statement[RevenueItem][i].0, statement[RevenueItem][i].1.value) in c.points
  {
    if RevenueItem in statement then
      var row := statement[RevenueItem];
      DropMissingInOrder(row);
      DropMissingComplete(row);
      Bars(DropMissing(row))
    else Notice(NotFoundNotice)
  }

  /** The chart depends on the statement only through its "Total Revenue"
      row: statements that agree on that row, whatever their other line
      items, give the same chart. */
  lemma SelectRevenueOnlyReadsRevenue<P, T>(a: Statement<P, T>, b: Statement<P, T>)
    requires RevenueItem in a <==> RevenueItem in b
    requires RevenueItem in a ==> a[RevenueItem] == b[RevenueItem]
    ensures SelectRevenue(a) == SelectRevenue(b)
  {
  }
}
