/** The spreadsheet as the rest of the model sees it: named columns, each
    either numeric (integer cells) or categorical (text cells). The numeric
    flag stands for the column's inferred dtype. */
module Tables {
  import opened Outcome

  datatype Column = NumCol(name: string, values: seq<int>) | CatCol(name: string, labels: seq<string>)
  {
    function Length(): nat {
      match this
      case NumCol(_, vs) => |vs|
      case CatCol(_, ls) => |ls|
    }

    /** The first `n` cells of the column, keeping its name and kind. */
    function Take(n: nat): (c: Column)
      ensures c.name == name && c.NumCol? == NumCol?
      ensures c.Length() == if n < Length() then n else Length()
    {
      match this
      case NumCol(nm, vs) => NumCol(nm, vs[..if n < |vs| then n else |vs|])
      case CatCol(nm, ls) => CatCol(nm, ls[..if n < |ls| then n else |ls|])
    }
  }

  datatype Table = Table(columns: seq<Column>)

  function RowCount(t: Table): nat {
    if |t.columns| == 0 then 0 else t.columns[0].Length()
  }

  /** Every column has the same number of cells. */
  predicate WellFormed(t: Table) {
    forall i :: 0 <= i < |t.columns| ==> t.columns[i].Length() == RowCount(t)
  }

  /** pandas' `DataFrame.empty`: no columns or no rows. */
  predicate IsEmpty(t: Table) {
    |t.columns| == 0 || RowCount(t) == 0
  }

  function Min(a: nat, b: nat): nat {
    if a < b then a else b
  }

  /** `DataFrame.head(n)`: the first `n` rows of every column. */
  function Head(t: Table, n: nat): (h: Table)
    ensures |h.columns| == |t.columns|
    ensures forall i :: 0 <= i < |t.columns| ==> h.columns[i] == t.columns[i].Take(n)
  {
    Table(seq(|t.columns|, i requires 0 <= i < |t.columns| => t.columns[i].Take(n)))
  }

  /** A preview keeps every column, name and kind, and exactly
      `min(n, rows)` rows of a well-formed table, each column a prefix of
      the original one. */
  lemma HeadKeepsPrefix(t: Table, n: nat)
    requires WellFormed(t)
    ensures WellFormed(Head(t, n)) && RowCount(Head(t, n)) == Min(n, RowCount(t))
    ensures forall i :: 0 <= i < |t.columns| ==>
      var c := Head(t, n).columns[i];
      c.name == t.columns[i].name && c.NumCol? == t.columns[i].NumCol?
      && (c.NumCol? ==> c.values == t.columns[i].values[..c.Length()])
      && (c.CatCol? ==> c.labels == t.columns[i].labels[..c.Length()])
  {
  }

  /** The column called `name`, the first one when several share it. */
  function Lookup(t: Table, name: string): (r: Option<Column>)
    ensures r.Some? <==> exists i :: 0 <= i < |t.columns| && t.columns[i].name == name
    ensures r.Some? ==> r.value in t.columns && r.value.name == name
    decreases |t.columns|
  {
    if |t.columns| == 0 then None
    else if t.columns[0].name == name then Some(t.columns[0])
    else
      var r := Lookup(Table(t.columns[1..]), name);
      assert forall i :: 0 < i < |t.columns| ==> t.columns[i] == t.columns[1..][i - 1];
      r
  }
}
