/**
 * The shape of the report rows: the scalar prefix follows the selected
 * columns, and when the columns come in selection-list order (as the
 * selection list yields them) every row has one cell per column holding
 * that column's value, so it lines up with the header row.
 */
module Rows {
  import opened Documents
  import opened OrderedDict
  import opened Accumulator
  import opened Pipeline

  /** A column's place in the selection list. */
  function Position(c: Column): nat {
    match c
    case JobId => 0
    case ClientName => 1
    case JobName => 2
    case JobStage => 3
    case JobPriority => 4
    case JobPrice => 5
    case LaborType => 6
    case QuotedMinutes => 7
    case WorkedMinutes => 8
  }

  /** Every column of `h` comes before place `n` of the selection list. */
  ghost predicate Below(h: seq<Column>, n: nat) {
    h == [] || (Position(h[|h| - 1]) < n && Below(h[..|h| - 1], n))
  }

  /** Columns as the selection list yields them: in list order, each at most once. */
  ghost predicate Ascending(h: seq<Column>) {
    h == [] || (Ascending(h[..|h| - 1]) && Below(h[..|h| - 1], Position(h[|h| - 1])))
  }

  /** A column at or after place `n` is not among columns before it. */
  lemma {:induction false} BelowExcludes(h: seq<Column>, n: nat, c: Column)
    requires Below(h, n) && n <= Position(c)
    ensures c !in h
  {
    if h != [] {
      BelowExcludes(h[..|h| - 1], n, c);
      assert h == h[..|h| - 1] + [h[|h| - 1]];
    }
  }

  /** The selected columns that are not time columns, in header order. */
  function ScalarColumns(h: seq<Column>): (r: seq<Column>)
    ensures forall c :: c in r <==> c in h && !IsTimeColumn(c)
  {
    if h == [] then []
    else ScalarColumns(h[..|h| - 1]) + if IsTimeColumn(h[|h| - 1]) then [] else [h[|h| - 1]]
  }

  /** What a row for task `task` with minutes `p` holds under column `c`. */
  function Cell(d: Detail, c: Column, task: string, p: Pair): Value {
    match c
    case LaborType => Str(task)
    case QuotedMinutes => Int(p.quoted)
    case WorkedMinutes => Int(p.worked)
    case _ => FieldOf(d, c)
  }

  /** The row that lines up with the header `h`: one cell per column, in column order. */
  function RowOf(d: Detail, h: seq<Column>, task: string, p: Pair): Row {
    if h == [] then []
    else RowOf(d, h[..|h| - 1], task, p) + [Cell(d, h[|h| - 1], task, p)]
  }

  /** A row has one cell per column of the header, and the cell under each column is that column's value. */
  lemma {:induction false} RowOfCells(d: Detail, h: seq<Column>, task: string, p: Pair)
    ensures |RowOf(d, h, task, p)| == |h|
    ensures forall i :: 0 <= i < |h| ==> RowOf(d, h, task, p)[i] == Cell(d, h[i], task, p)
  {
    if h != [] {
      RowOfCells(d, h[..|h| - 1], task, p);
    }
  }

  /** The tasks listed in `order` other than "TOTALS", in order. */
  function NonTotals(order: seq<string>): (r: seq<string>)
    ensures forall k :: k in r <==> k in order && k != Totals
  {
    if order == [] then []
    else NonTotals(order[..|order| - 1]) + if order[|order| - 1] == Totals then [] else [order[|order| - 1]]
  }

  /** The scalar prefix is the detail's fields under the selected non-time columns, in header order. */
  lemma {:induction false} ScalarPrefixShape(d: Detail, h: seq<Column>, task: string, p: Pair)
    ensures ScalarPrefix(d, h) == RowOf(d, ScalarColumns(h), task, p)
  {
    if h != [] {
      var pre := h[..|h| - 1];
      var c := h[|h| - 1];
      ScalarPrefixShape(d, pre, task, p);
      if IsTimeColumn(c) {
        assert ScalarColumns(h) == ScalarColumns(pre) + [] == ScalarColumns(pre);
        assert ScalarPrefix(d, h) == ScalarPrefix(d, pre) + [] == ScalarPrefix(d, pre);
      } else {
        assert ScalarColumns(h) == ScalarColumns(pre) + [c];
        RowOfSnoc(d, ScalarColumns(pre), c, task, p);
      }
    }
  }

  /** The cells after the scalar prefix: that task's name, then its quoted and worked minutes, each when selected. */
  function TimeCells(h: seq<Column>, task: string, p: Pair): seq<Value> {
    (if LaborType in h then [Str(task)] else []) + MinuteCells(h, p)
  }

  /** Appending a column after columns that all come before it appends its cell when it is a time column. */
  lemma TimeCellsSnoc(d: Detail, pre: seq<Column>, c: Column, task: string, p: Pair)
    requires Below(pre, Position(c))
    ensures TimeCells(pre + [c], task, p) == TimeCells(pre, task, p) + if IsTimeColumn(c) then [Cell(d, c, task, p)] else []
    ensures !IsTimeColumn(c) ==> TimeCells(pre, task, p) == []
  {
    BelowExcludes(pre, Position(c), WorkedMinutes);
    if c != WorkedMinutes {
      BelowExcludes(pre, Position(c), QuotedMinutes);
      if c != QuotedMinutes {
        BelowExcludes(pre, Position(c), LaborType);
      }
    }
  }

  /** One row per non-"TOTALS" task, in order: the prefix, that task's name, then its minute cells. */
  lemma {:induction false} LaborRowsShape(prefix: seq<Value>, h: seq<Column>, order: seq<string>, t: Table)
    ensures var rows := LaborRows(prefix, h, order, t); var ks := NonTotals(order);
      && |rows| == |ks|
      && forall i :: 0 <= i < |ks| ==> rows[i] == prefix + [Str(ks[i])] + MinuteCells(h, At(t, ks[i]))
  {
    if order != [] {
      LaborRowsShape(prefix, h, order[..|order| - 1], t);
    }
  }

  /** The row of `pre + [c]` is the row of `pre` and then the cell under `c`. */
  lemma RowOfSnoc(d: Detail, pre: seq<Column>, c: Column, task: string, p: Pair)
    ensures RowOf(d, pre + [c], task, p) == RowOf(d, pre, task, p) + [Cell(d, c, task, p)]
  {
    assert (pre + [c])[..|pre|] == pre;
  }

  /** The scalar prefix of `pre + [c]` gains the field under `c` when `c` is not a time column. */
  lemma ScalarPrefixSnoc(d: Detail, pre: seq<Column>, c: Column, task: string, p: Pair)
    ensures ScalarPrefix(d, pre + [c]) == ScalarPrefix(d, pre) + if IsTimeColumn(c) then [] else [Cell(d, c, task, p)]
  {
    assert (pre + [c])[..|pre|] == pre;
  }

  /** One more column, after all the others, keeps a row's pieces equal to its cells. */
  lemma RowPiecesStep(d: Detail, pre: seq<Column>, c: Column, task: string, p: Pair)
    requires Below(pre, Position(c))
    requires ScalarPrefix(d, pre) + TimeCells(pre, task, p) == RowOf(d, pre, task, p)
    ensures ScalarPrefix(d, pre + [c]) + TimeCells(pre + [c], task, p) == RowOf(d, pre + [c], task, p)
  {
    TimeCellsSnoc(d, pre, c, task, p);
    ScalarPrefixSnoc(d, pre, c, task, p);
    RowOfSnoc(d, pre, c, task, p);
    var sp := ScalarPrefix(d, pre);
    var tc := TimeCells(pre, task, p);
    var x := [Cell(d, c, task, p)];
    if IsTimeColumn(c) {
      SnocRight(sp, tc, x);
    } else {
      SnocLeft(sp, x);
    }
  }

  lemma SnocRight(a: seq<Value>, b: seq<Value>, x: seq<Value>)
    ensures a + (b + x) == (a + b) + x
  {
  }

  lemma SnocLeft(a: seq<Value>, x: seq<Value>)
    ensures (a + x) + [] == (a + []) + x
  {
  }

  /** With columns in selection-list order, a row's pieces are exactly its cells. */
  lemma {:induction false} RowPiecesLineUp(d: Detail, h: seq<Column>, task: string, p: Pair)
    requires Ascending(h)
    ensures ScalarPrefix(d, h) + TimeCells(h, task, p) == RowOf(d, h, task, p)
  {
    if h != [] {
      var pre := h[..|h| - 1];
      RowPiecesLineUp(d, pre, task, p);
      assert h == pre + [h[|h| - 1]];
      RowPiecesStep(d, pre, h[|h| - 1], task, p);
    }
  }

  /**
   * With columns in selection-list order, "Labor Type" selected gives one
   * row per non-"TOTALS" task of the table, in insertion order, each lined
   * up with the header; otherwise exactly one row, lined up with the header,
   * holding the "TOTALS" minutes.
   */
  lemma RowsForMatchHeader(d: Detail, h: seq<Column>, t: Table)
    requires Ascending(h)
    ensures var rows := RowsFor(ScalarPrefix(d, h), h, t); var ks := NonTotals(t.order);
      && (LaborType in h ==> |rows| == |ks| && forall i :: 0 <= i < |ks| ==> rows[i] == RowOf(d, h, ks[i], At(t, ks[i])))
      && (LaborType !in h ==> rows == [RowOf(d, h, Totals, At(t, Totals))])
  {
    var ks := NonTotals(t.order);
    if LaborType in h {
      LaborRowsShape(ScalarPrefix(d, h), h, t.order, t);
      forall i | 0 <= i < |ks|
        ensures ScalarPrefix(d, h) + [Str(ks[i])] + MinuteCells(h, At(t, ks[i])) == RowOf(d, h, ks[i], At(t, ks[i]))
      {
        RowPiecesLineUp(d, h, ks[i], At(t, ks[i]));
      }
    } else {
      RowPiecesLineUp(d, h, Totals, At(t, Totals));
      assert TimeCells(h, Totals, At(t, Totals)) == MinuteCells(h, At(t, Totals));
    }
  }
}
