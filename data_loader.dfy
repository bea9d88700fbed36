/** The data loader (`load_data`): once the CSV text is parsed into a table,
    it rejects an empty table, then a table without a `close` column, and
    otherwise hands the table back unchanged. */
module DataLoader {
  import opened Values

  /** A parsed CSV table: the header's column names and the data rows, every
      cell numeric. */
  datatype Table = Table(columns: seq<string>, rows: seq<seq<real>>) {

    /** Every row has one cell per column. */
    predicate WellFormed() {
      forall r | r in rows :: |r| == |columns|
    }

    /** `DataFrame.empty`: one of the two axes has length zero. */
    predicate IsEmpty() {
      |rows| == 0 || |columns| == 0
    }
  }

  const EmptyMessage: string := "Input CSV is empty"
  const MissingCloseMessage: string := "Required 'close' column missing"

  /** `load_data` after parsing. The emptiness check comes first, so an empty
      table is reported as empty even when it also lacks `close`. */
  function LoadData(df: Table): (r: Result<Table>)
    ensures r.Ok? <==> !df.IsEmpty() && "close" in df.columns
    ensures r.Ok? ==> r.value == df
    ensures df.IsEmpty() ==> r.error == ValueError(EmptyMessage)
    ensures !df.IsEmpty() && "close" !in df.columns ==> r.error == ValueError(MissingCloseMessage)
  {
    if df.IsEmpty() then Err(ValueError(EmptyMessage))
    else if "close" !in df.columns then Err(ValueError(MissingCloseMessage))
    else Ok(df)
  }

  /** A table `LoadData` accepts is accepted again: validation is idempotent.
      This is an instance of `LoadData`'s contract and needs no proof steps. */
  lemma LoadDataIdempotent(df: Table)
    requires LoadData(df).Ok?
    ensures LoadData(LoadData(df).value) == LoadData(df)
  {
  }

  /** Position of the first column called `name`. */
  function IndexOf(columns: seq<string>, name: string): (j: nat)
    requires name in columns
    ensures j < |columns| && columns[j] == name
    ensures forall k | 0 <= k < j :: columns[k] != name
  {
    if columns[0] == name then 0 else 1 + IndexOf(columns[1..], name)
  }

  /** `df['close']`: the `close` cell of every row, in row order. */
  function CloseColumn(df: Table): (c: seq<real>)
    requires df.WellFormed() && "close" in df.columns
    ensures |c| == |df.rows|
  {
    var j := IndexOf(df.columns, "close");
    seq(|df.rows|, i requires 0 <= i < |df.rows| => assert df.rows[i] in df.rows; df.rows[i][j])
  }

  /** Row `i` of the `close` column is the cell of row `i` under the first
      `close` header. */
  lemma CloseColumnCells(df: Table)
    requires df.WellFormed() && "close" in df.columns
    ensures forall i | 0 <= i < |df.rows| ::
      df.rows[i] in df.rows && CloseColumn(df)[i] == df.rows[i][IndexOf(df.columns, "close")]
  {
  }
}
