/**
 * The generic table component: a header cell per column descriptor and, for
 * every data row, one body cell per column holding either the column's
 * custom renderer applied to the row or the row's raw field.
 */
module DataTable {
  import opened Js

  /** A data row: a record of field values by name. */
  type Record<V> = map<string, V>

  /** A column descriptor `{key, label, render?}`; `label` is spelled `title` here. */
  datatype Column<!V> = Column(key: string, title: string, render: Option<Record<V> -> V>)

  /** The rendered grid; a body cell is `None` where `row[key]` is undefined. */
  datatype Table<V> = Table(header: seq<string>, body: seq<seq<Option<V>>>)

  /** `col.render ? col.render(row) : row[col.key]`. */
  function Cell<V>(col: Column<V>, row: Record<V>): (c: Option<V>)
    ensures col.render.Some? ==> c == Some(col.render.value(row))
    ensures col.render.None? ==> (c.Some? <==> col.key in row)
    ensures col.render.None? && c.Some? ==> c.value == row[col.key]
  {
    match col.render
    case Some(f) => Some(f(row))
    case None => if col.key in row then Some(row[col.key]) else None
  }

  function Render<V>(columns: seq<Column<V>>, data: seq<Record<V>>): (t: Table<V>)
    ensures |t.header| == |columns|
    ensures forall i :: 0 <= i < |columns| ==> t.header[i] == columns[i].title
    ensures |t.body| == |data|
    ensures forall j :: 0 <= j < |data| ==> |t.body[j]| == |columns|
    ensures forall j, i :: 0 <= j < |data| && 0 <= i < |columns| ==>
      t.body[j][i] == Cell(columns[i], data[j])
  {
    Table(
      seq(|columns|, i requires 0 <= i < |columns| => columns[i].title),
      seq(|data|, j requires 0 <= j < |data| =>
        seq(|columns|, i requires 0 <= i < |columns| => Cell(columns[i], data[j]))))
  }

  /** The number of body cells, row by row. */
  function CellCount<V>(body: seq<seq<Option<V>>>): nat
    decreases |body|
  {
    if |body| == 0 then 0 else |body[0]| + CellCount(body[1..])
  }

  lemma {:induction false} UniformCellCount<V>(body: seq<seq<Option<V>>>, width: nat)
    requires forall j :: 0 <= j < |body| ==> |body[j]| == width
    ensures CellCount(body) == width * |body|
    decreases |body|
  {
    if |body| > 0 {
      UniformCellCount(body[1..], width);
      assert width * |body| == width + width * (|body| - 1);
    }
  }

  /** The body is a grid: columns times rows cells in all. */
  lemma GridSize<V>(columns: seq<Column<V>>, data: seq<Record<V>>)
    ensures CellCount(Render(columns, data).body) == |columns| * |data|
  {
    UniformCellCount(Render(columns, data).body, |columns|);
  }
}
