/**
 * The pandas DataFrames the scraper fills: an ordered column list and a
 * sequence of rows, each row a map from column to cell (None for a missing
 * value). Only the operations the scraper uses are modelled: creation with
 * a column list (modules/extract.py:193-199), adding a column of None
 * (210-217), appending a row that gives only Province and City (227-231),
 * the write of one value into one column of every row of a city (79-82,
 * 142-149), and the list of the City column (234), which is `Cities`.
 */
module Tables {
  import opened Wrappers
  import opened Schema

  type Row = map<Column, Option<string>>

  function ColumnSet(columns: seq<Column>): (keys: set<Column>)
  {
    set c | c in columns
  }

  /** The cell of `row` at `column`, None when the row has no such column. */
  function Cell(row: Row, column: Column): (cell: Option<string>)
  {
    if column in row then row[column] else None
  }

  /** The row belongs to the city: its City cell holds that name. */
  predicate IsCityRow(row: Row, city: string)
  {
    Cell(row, City) == Some(city)
  }

  /** The row appended for a heading: Province and City filled, every other column None. */
  function NewRow(columns: seq<Column>, province: string, city: string): (row: Row)
  {
    map c | c in columns :: if c == Province then Some(province) else if c == City then Some(city) else None
  }

  /** Sets `column` to `value` in every row of the city, as a masked `.loc` assignment does. */
  function WriteWhere(rows: seq<Row>, city: string, column: Column, value: string): (written: seq<Row>)
  {
    seq(|rows|, i requires 0 <= i < |rows| =>
      if IsCityRow(rows[i], city) then rows[i][column := Some(value)] else rows[i])
  }

  /**
   * Writes, one field after another, the extracted value of each field of
   * `fs` into its column in the rows of the city.
   */
  function WriteColumns(rows: seq<Row>, city: string, fs: seq<Field>, values: map<Field, string>): (written: seq<Row>)
    requires forall f | f in fs :: f in values
  {
    if fs == [] then rows
    else
      var last := fs[|fs| - 1];
      WriteWhere(WriteColumns(rows, city, fs[..|fs| - 1], values), city, Value(last), values[last])
  }

  /** `row` with the column of every field of `fs` set to its extracted value. */
  function Overwrite(row: Row, fs: seq<Field>, values: map<Field, string>): (written: Row)
    requires forall f | f in fs :: f in values
  {
    if fs == [] then row
    else
      var last := fs[|fs| - 1];
      Overwrite(row, fs[..|fs| - 1], values)[Value(last) := Some(values[last])]
  }

  /** The cells of an overwritten row: the fields' values, and elsewhere the row's own cells. */
  lemma {:induction false} OverwriteCells(row: Row, fs: seq<Field>, values: map<Field, string>)
    requires forall f | f in fs :: f in values
    ensures Overwrite(row, fs, values).Keys == row.Keys + (set f | f in fs :: Value(f))
    ensures forall c ::
      Cell(Overwrite(row, fs, values), c) == (if c.Value? && c.field in fs then Some(values[c.field]) else Cell(row, c))
  {
    if fs != [] {
      var front, last := fs[..|fs| - 1], fs[|fs| - 1];
      assert fs == front + [last];
      OverwriteCells(row, front, values);
    }
  }

  /** The City cell of every row, in row order. */
  function Cities(rows: seq<Row>): (cities: seq<string>)
    requires forall i | 0 <= i < |rows| :: Cell(rows[i], City).Some?
    ensures |cities| == |rows|
    ensures forall i | 0 <= i < |rows| :: Cell(rows[i], City) == Some(cities[i])
  {
    seq(|rows|, i requires 0 <= i < |rows| => Cell(rows[i], City).value)
  }

  /** Sets `column` to None in every row, as assigning None to a whole column does. */
  function ClearColumn(rows: seq<Row>, column: Column): (cleared: seq<Row>)
  {
    seq(|rows|, i requires 0 <= i < |rows| => rows[i][column := None])
  }

  /** Every row has exactly the given columns as keys. */
  ghost predicate Shaped(rows: seq<Row>, columns: seq<Column>)
  {
    forall i | 0 <= i < |rows| :: rows[i].Keys == ColumnSet(columns)
  }

  /**
   * A masked write changes only the rows of that city and, in them, only
   * the written column; it keeps the row count and the rows' columns.
   */
  lemma WriteWhereFrame(rows: seq<Row>, city: string, column: Column, value: string, columns: seq<Column>)
    requires Shaped(rows, columns) && column in columns
    ensures Shaped(WriteWhere(rows, city, column, value), columns)
    ensures |WriteWhere(rows, city, column, value)| == |rows|
    ensures forall i | 0 <= i < |rows| ::
      var r := WriteWhere(rows, city, column, value)[i];
      (IsCityRow(rows[i], city) ==> Cell(r, column) == Some(value))
      && (forall k | k != column :: Cell(r, k) == Cell(rows[i], k))
    ensures forall i | 0 <= i < |rows| && !IsCityRow(rows[i], city) :: WriteWhere(rows, city, column, value)[i] == rows[i]
  {
  }

  /**
   * The field loop writes, in each row of the city and only there, the
   * column of every field of `fs`; all other rows are left as they were.
   */
  lemma {:induction false} WriteColumnsRows(rows: seq<Row>, city: string, fs: seq<Field>, values: map<Field, string>)
    requires forall f | f in fs :: f in values
    ensures |WriteColumns(rows, city, fs, values)| == |rows|
    ensures forall i | 0 <= i < |rows| ::
      WriteColumns(rows, city, fs, values)[i]
        == if IsCityRow(rows[i], city) then Overwrite(rows[i], fs, values) else rows[i]
  {
    if fs != [] {
      var front, last := fs[..|fs| - 1], fs[|fs| - 1];
      assert fs == front + [last];
      WriteColumnsRows(rows, city, front, values);
      var mid := WriteColumns(rows, city, front, values);
      forall i | 0 <= i < |rows|
        ensures WriteWhere(mid, city, Value(last), values[last])[i]
          == if IsCityRow(rows[i], city) then Overwrite(rows[i], fs, values) else rows[i]
      {
        if IsCityRow(rows[i], city) {
          OverwriteCells(rows[i], front, values);
        }
      }
    }
  }

  /** Writing columns the rows already have keeps every row's columns. */
  lemma WriteColumnsShaped(rows: seq<Row>, city: string, fs: seq<Field>, values: map<Field, string>, columns: seq<Column>)
    requires forall f | f in fs :: f in values && Value(f) in columns
    requires Shaped(rows, columns)
    ensures Shaped(WriteColumns(rows, city, fs, values), columns)
  {
    WriteColumnsRows(rows, city, fs, values);
    forall i | 0 <= i < |rows| && IsCityRow(rows[i], city)
      ensures Overwrite(rows[i], fs, values).Keys == ColumnSet(columns)
    {
    }
  }

  /** A DataFrame whose cells the scraper writes in place. */
  class Table {
    var columns: seq<Column>
    var rows: seq<Row>

    ghost predicate Valid()
      reads this
    {
      Shaped(rows, columns)
    }

    /** An empty frame with the given columns. */
    constructor (columns: seq<Column>)
      ensures Valid()
      ensures this.columns == columns && rows == []
    {
      this.columns := columns;
      rows := [];
    }

    /** Assigns None to a whole column: a new last column, or an existing one cleared. */
    method AddColumn(column: Column)
      requires Valid()
      modifies this
      ensures Valid()
      ensures columns == if column in old(columns) then old(columns) else old(columns) + [column]
      ensures rows == ClearColumn(old(rows), column)
    {
      if column !in columns {
        columns := columns + [column];
      }
      rows := ClearColumn(rows, column);
    }

    /** Concatenates a one-row frame giving only Province and City; the other cells are None. */
    method AppendRow(province: string, city: string)
      requires Valid() && Province in columns && City in columns
      modifies this
      ensures Valid()
      ensures columns == old(columns)
      ensures rows == old(rows) + [NewRow(columns, province, city)]
    {
      rows := rows + [NewRow(columns, province, city)];
    }

    /** Sets `column` to `value` in every row of the city, for a column the frame has. */
    method SetWhereCity(city: string, column: Column, value: string)
      requires Valid() && column in columns
      modifies this
      ensures Valid()
      ensures columns == old(columns)
      ensures rows == WriteWhere(old(rows), city, column, value)
    {
      WriteWhereFrame(rows, city, column, value, columns);
      rows := WriteWhere(rows, city, column, value);
    }

    /** Writes the value of each field of `fs`, one after another, into its column in the rows of the city. */
    method SetFieldsWhereCity(city: string, fs: seq<Field>, values: map<Field, string>)
      requires Valid() && forall f | f in fs :: f in values && Value(f) in columns
      modifies this
      ensures Valid()
      ensures columns == old(columns)
      ensures rows == WriteColumns(old(rows), city, fs, values)
    {
      for i := 0 to |fs|
        invariant Valid() && columns == old(columns)
        invariant rows == WriteColumns(old(rows), city, fs[..i], values)
      {
        assert fs[..i + 1][..i] == fs[..i];
        SetWhereCity(city, Value(fs[i]), values[fs[i]]);
      }
      assert fs[..|fs|] == fs;
    }
  }
}
