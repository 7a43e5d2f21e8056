/**
 * A collapsible section: a header that toggles expansion, an optional formula
 * that is always shown when present, and an optional table shown only while
 * expanded.
 */
module Section {
  import opened Common

  /** A table cell holds text or a number. */
  datatype Cell = Text(text: string) | Number(number: real)

  /** The optional `tableData` prop. */
  datatype TableData = TableData(headers: seq<string>, rows: seq<seq<Cell>>)

  /** The rendered table: one header cell per header, one row per data row, one cell per entry. */
  datatype Row = Row(cells: seq<Cell>)
  datatype RenderedTable = RenderedTable(headerCells: seq<string>, bodyRows: seq<Row>)

  /** What the section renders below its header and description. */
  datatype SectionView = SectionView(formulaBlock: Option<string>, table: Option<RenderedTable>)

  /** JavaScript truthiness of the optional formula: absent and empty both render nothing. */
  predicate FormulaShown(formula: Option<string>): (shown: bool)
    ensures shown <==> formula.Some? && |formula.value| > 0
  {
    formula.Some? && formula.value != ""
  }

  /** The `<thead>`/`<tbody>` mapping over the table data. */
  function RenderTable(data: TableData): (t: RenderedTable)
    ensures t.headerCells == data.headers
    ensures |t.bodyRows| == |data.rows|
    ensures forall i :: 0 <= i < |data.rows| ==> t.bodyRows[i].cells == data.rows[i]
  {
    RenderedTable(
      seq(|data.headers|, i requires 0 <= i < |data.headers| => data.headers[i]),
      seq(|data.rows|, i requires 0 <= i < |data.rows| => Row(seq(|data.rows[i]|, j requires 0 <= j < |data.rows[i]| => data.rows[i][j]))))
  }

  /**
   * The section body: the formula block iff a non-empty formula is given,
   * whatever the expansion; the table iff expanded and table data is given.
   */
  function Render(isExpanded: bool, formula: Option<string>, tableData: Option<TableData>): (v: SectionView)
    ensures v.formulaBlock.Some? <==> FormulaShown(formula)
    ensures v.formulaBlock.Some? ==> v.formulaBlock == formula
    ensures v.table.Some? <==> isExpanded && tableData.Some?
    ensures v.table.Some? ==> |v.table.value.headerCells| == |tableData.value.headers|
    ensures v.table.Some? ==> |v.table.value.bodyRows| == |tableData.value.rows|
  {
    SectionView(
      if FormulaShown(formula) then formula else None,
      if isExpanded && tableData.Some? then Some(RenderTable(tableData.value)) else None)
  }

  /** Total number of body cells in rows of data. */
  function CellCount(rows: seq<seq<Cell>>): nat
  {
    if rows == [] then 0 else CellCount(rows[..|rows| - 1]) + |rows[|rows| - 1]|
  }

  /** Total number of `<td>` elements in rendered rows. */
  function RenderedCellCount(rows: seq<Row>): nat
  {
    if rows == [] then 0 else RenderedCellCount(rows[..|rows| - 1]) + |rows[|rows| - 1].cells|
  }

  /** The table renders exactly one `<td>` per data entry. */
  lemma {:induction false} OneCellPerEntry(data: TableData)
    ensures RenderedCellCount(RenderTable(data).bodyRows) == CellCount(data.rows)
    decreases |data.rows|
  {
    var rows := data.rows;
    if rows != [] {
      var init := TableData(data.headers, rows[..|rows| - 1]);
      OneCellPerEntry(init);
      assert RenderTable(data).bodyRows[..|rows| - 1] == RenderTable(init).bodyRows;
    }
  }

  /** Collapsing or expanding changes only the table: the formula block is unaffected. */
  lemma ExpansionOnlyAffectsTable(formula: Option<string>, tableData: Option<TableData>)
    ensures Render(true, formula, tableData).formulaBlock == Render(false, formula, tableData).formulaBlock
    ensures Render(false, formula, tableData).table == None
  {
  }

  /** The section's props and its one piece of state. */
  class SectionState {
    const formula: Option<string>
    const tableData: Option<TableData>
    var isExpanded: bool

    constructor (formula: Option<string>, tableData: Option<TableData>)
      ensures this.formula == formula && this.tableData == tableData
      ensures !isExpanded
    {
      this.formula := formula;
      this.tableData := tableData;
      isExpanded := false;
    }

    /** A click on the header flips the expansion. */
    method ClickHeader()
      modifies this
      ensures isExpanded == !old(isExpanded)
    {
      isExpanded := !isExpanded;
    }

    /** What the section shows in its current state. */
    function View(): (v: SectionView)
      reads this
      ensures v.table.Some? <==> isExpanded && tableData.Some?
      ensures v.table.Some? ==> v.table.value == RenderTable(tableData.value)
      ensures v.formulaBlock.Some? <==> FormulaShown(formula)
    {
      Render(isExpanded, formula, tableData)
    }
  }

  /** Two header clicks restore the original expansion and view. */
  method ClickHeaderTwice(s: SectionState)
    modifies s
    ensures s.isExpanded == old(s.isExpanded)
    ensures s.View() == old(s.View())
  {
    s.ClickHeader();
    s.ClickHeader();
  }
}
