/**
 * The scrape of one city (modules/extract.py:32-155): load the city's
 * profile page, check that it is the city's page, write its population
 * into the city's rows of all four tables, read every field from the four
 * tabs, and write each table's fields into the city's rows.
 *
 * `CityStep` says what one scrape does to the rows of the four tables and
 * which exception, if any, it raises; `ScrapeCity` performs it on the four
 * tables in place.
 */
module Scrape {
  import opened Wrappers
  import opened Schema
  import opened Text
  import opened Tables
  import opened Extraction

  /** The rows of the four tables. */
  datatype Snapshot = Snapshot(talent: seq<Row>, infra: seq<Row>, business: seq<Row>, digital: seq<Row>)

  /** The tables after a scrape, and the exception it raised, if any. */
  datatype Step = Step(after: Snapshot, raised: Option<Error>)

  function RowsOf(s: Snapshot, c: Category): (rows: seq<Row>)
  {
    match c
    case Talent => s.talent
    case Infrastructure => s.infra
    case BusinessEnvironment => s.business
    case DigitalParameters => s.digital
  }

  /** The same masked write into all four tables. */
  function WriteEach(s: Snapshot, city: string, column: Column, value: string): (written: Snapshot)
  {
    Snapshot(
      WriteWhere(s.talent, city, column, value), WriteWhere(s.infra, city, column, value),
      WriteWhere(s.business, city, column, value), WriteWhere(s.digital, city, column, value))
  }

  /** Each table's own fields written into the city's rows. */
  function WriteFields(s: Snapshot, city: string, values: map<Field, string>): (written: Snapshot)
    requires forall f: Field :: f in values
  {
    Snapshot(
      WriteColumns(s.talent, city, ColumnFields(Talent), values),
      WriteColumns(s.infra, city, ColumnFields(Infrastructure), values),
      WriteColumns(s.business, city, ColumnFields(BusinessEnvironment), values),
      WriteColumns(s.digital, city, ColumnFields(DigitalParameters), values))
  }

  /**
   * The outcome of a scrape on the loaded `page`, given what reading its
   * four tabs yields. A page whose title does not name the city is skipped
   * when errors are skipped and otherwise fails the assertion; a page
   * without a `score` element fails the indexing; the population is written
   * before the tabs are read, so a failure while reading leaves it written.
   */
  function Outcome(s: Snapshot, city: string, page: Page, found: Result<map<Field, string>, Error>, skip: bool): (step: Step)
    requires found.Ok? ==> forall f: Field :: f in found.value
  {
    if !Contains(page.title, city) then
      if skip then Step(s, None) else Step(s, Some(IdentityMismatch(city, page.title)))
    else if |page.scores| == 0 then Step(s, Some(PopulationMissing))
    else
      var populated := WriteEach(s, city, Population, StripCommas(page.scores[0]));
      match found
      case Err(e) => Step(populated, Some(e))
      case Ok(values) => Step(WriteFields(populated, city, values), None)
  }

  /** One city scrape: its profile page loaded and its tabs read. */
  function CityStep(s: Snapshot, city: string, browser: Browser, skip: bool): (step: Step)
  {
    var page := browser(CityUrl(city));
    var found := FieldMap(page);
    assert found.Ok? ==> forall f: Field :: f in found.value by {
      if found.Ok? {
        FieldMapValues(page);
      }
    }
    Outcome(s, city, page, found, skip)
  }

  /** Every table has exactly its own columns in each row. */
  ghost predicate Shapely(s: Snapshot)
  {
    forall c: Category :: Shaped(RowsOf(s, c), Columns(c))
  }

  /** The Province, City and Population cells of a row. */
  function Skeleton(row: Row): (Option<string>, Option<string>, Option<string>)
  {
    (Cell(row, Province), Cell(row, City), Cell(row, Population))
  }

  /**
   * The four tables have the same number of rows and, row by row, the same
   * Province, City and Population.
   */
  ghost predicate Aligned(s: Snapshot)
  {
    |s.infra| == |s.talent| && |s.business| == |s.talent| && |s.digital| == |s.talent|
    && forall n | 0 <= n < |s.talent| ::
      Skeleton(s.infra[n]) == Skeleton(s.talent[n])
      && Skeleton(s.business[n]) == Skeleton(s.talent[n])
      && Skeleton(s.digital[n]) == Skeleton(s.talent[n])
  }

  /** The cells of a row of the city after its fields are written: the values of `c`'s fields, elsewhere unchanged. */
  lemma WriteFieldsRows(s: Snapshot, city: string, values: map<Field, string>, c: Category)
    requires forall f: Field :: f in values
    ensures |RowsOf(WriteFields(s, city, values), c)| == |RowsOf(s, c)|
    ensures forall n | 0 <= n < |RowsOf(s, c)| ::
      var r := RowsOf(s, c)[n]; var r' := RowsOf(WriteFields(s, city, values), c)[n];
      (!IsCityRow(r, city) ==> r' == r)
      && (IsCityRow(r, city) ==> r'.Keys == r.Keys + (set f | f in ColumnFields(c) :: Value(f)))
      && forall k :: Cell(r', k) == if IsCityRow(r, city) && k.Value? && k.field in ColumnFields(c) then Some(values[k.field]) else Cell(r, k)
  {
    WriteColumnsRows(RowsOf(s, c), city, ColumnFields(c), values);
    forall n | 0 <= n < |RowsOf(s, c)| && IsCityRow(RowsOf(s, c)[n], city) {
      OverwriteCells(RowsOf(s, c)[n], ColumnFields(c), values);
    }
  }

  /**
   * A skipped or mismatched page leaves the tables untouched, and the
   * scrape raises the failed assertion exactly when errors are not skipped.
   */
  lemma CityStepWrongPage(s: Snapshot, city: string, browser: Browser, skip: bool)
    requires !Contains(browser(CityUrl(city)).title, city)
    ensures CityStep(s, city, browser, skip).after == s
    ensures CityStep(s, city, browser, skip).raised ==
      if skip then None else Some(IdentityMismatch(city, browser(CityUrl(city)).title))
  {
  }

  /**
   * A scrape raises nothing exactly when the page is skipped, or when it is
   * the city's page, has a population and every tab is readable.
   */
  lemma CityStepRaises(s: Snapshot, city: string, browser: Browser, skip: bool)
    ensures var page := browser(CityUrl(city));
      CityStep(s, city, browser, skip).raised.None? <==>
        (!Contains(page.title, city) && skip)
        || (Contains(page.title, city) && |page.scores| > 0
            && Readable(page, Talent, Selector) && Readable(page, Infrastructure, Selector)
            && Readable(page, BusinessEnvironment, Selector) && Readable(page, DigitalParameters, Selector))
  {
    FieldMapOk(browser(CityUrl(city)));
  }

  /** The frame of an outcome, whatever the page and the read yield; see `CityStepFrame`. */
  lemma OutcomeFrame(s: Snapshot, city: string, page: Page, found: Result<map<Field, string>, Error>, skip: bool, c: Category)
    requires found.Ok? ==> forall f: Field :: f in found.value
    ensures var rows := RowsOf(s, c); var rows' := RowsOf(Outcome(s, city, page, found, skip).after, c);
      |rows'| == |rows|
      && (forall n | 0 <= n < |rows| && !IsCityRow(rows[n], city) :: rows'[n] == rows[n])
      && (forall n, k | 0 <= n < |rows| && k != Population && !(k.Value? && k.field in ColumnFields(c)) ::
            Cell(rows'[n], k) == Cell(rows[n], k))
  {
    if Contains(page.title, city) && |page.scores| > 0 {
      var populated := WriteEach(s, city, Population, StripCommas(page.scores[0]));
      if found.Ok? {
        WriteFieldsRows(populated, city, found.value, c);
      }
    }
  }

  /** An outcome keeps the Province and City of every row; see `CityStepFrame`. */
  lemma OutcomeKeepsNames(s: Snapshot, city: string, page: Page, found: Result<map<Field, string>, Error>, skip: bool, c: Category)
    requires found.Ok? ==> forall f: Field :: f in found.value
    ensures var rows := RowsOf(s, c); var rows' := RowsOf(Outcome(s, city, page, found, skip).after, c);
      |rows'| == |rows|
      && forall n | 0 <= n < |rows| ::
        Cell(rows'[n], Province) == Cell(rows[n], Province) && Cell(rows'[n], City) == Cell(rows[n], City)
  {
    if Contains(page.title, city) && |page.scores| > 0 {
      var populated := WriteEach(s, city, Population, StripCommas(page.scores[0]));
      if found.Ok? {
        WriteFieldsRows(populated, city, found.value, c);
      }
    }
  }

  /**
   * A scrape changes only the rows of the city and, in them, only the
   * Population cell and the table's own field columns; the row count stays.
   */
  lemma CityStepFrame(s: Snapshot, city: string, browser: Browser, skip: bool, c: Category)
    ensures var rows := RowsOf(s, c); var rows' := RowsOf(CityStep(s, city, browser, skip).after, c);
      |rows'| == |rows|
      && (forall n | 0 <= n < |rows| && !IsCityRow(rows[n], city) :: rows'[n] == rows[n])
      && (forall n, k | 0 <= n < |rows| && k != Population && !(k.Value? && k.field in ColumnFields(c)) ::
            Cell(rows'[n], k) == Cell(rows[n], k))
    ensures var rows := RowsOf(s, c); var rows' := RowsOf(CityStep(s, city, browser, skip).after, c);
      forall n | 0 <= n < |rows| ::
        Cell(rows'[n], Province) == Cell(rows[n], Province) && Cell(rows'[n], City) == Cell(rows[n], City)
  {
    var page := browser(CityUrl(city));
    if FieldMap(page).Ok? {
      FieldMapValues(page);
    }
    OutcomeFrame(s, city, page, FieldMap(page), skip, c);
    OutcomeKeepsNames(s, city, page, FieldMap(page), skip, c);
  }

  /** Writing the population, and then a table's fields, keeps the table's rows to its columns. */
  lemma PopulateShaped(rows: seq<Row>, city: string, population: string, c: Category)
    requires Shaped(rows, Columns(c))
    ensures Shaped(WriteWhere(rows, city, Population, population), Columns(c))
    ensures forall values: map<Field, string> | forall f: Field :: f in values ::
      Shaped(WriteColumns(WriteWhere(rows, city, Population, population), city, ColumnFields(c), values), Columns(c))
  {
    ColumnFieldsAreColumns(c);
    WriteWhereFrame(rows, city, Population, population, Columns(c));
    forall values: map<Field, string> | forall f: Field :: f in values
      ensures Shaped(WriteColumns(WriteWhere(rows, city, Population, population), city, ColumnFields(c), values), Columns(c))
    {
      WriteColumnsShaped(WriteWhere(rows, city, Population, population), city, ColumnFields(c), values, Columns(c));
    }
  }

  /** An outcome keeps every table's columns; see `CityStepShapely`. */
  lemma OutcomeShapely(s: Snapshot, city: string, page: Page, found: Result<map<Field, string>, Error>, skip: bool)
    requires found.Ok? ==> forall f: Field :: f in found.value
    requires Shapely(s)
    ensures Shapely(Outcome(s, city, page, found, skip).after)
  {
    if Contains(page.title, city) && |page.scores| > 0 {
      var population := StripCommas(page.scores[0]);
      forall c: Category ensures Shaped(RowsOf(WriteEach(s, city, Population, population), c), Columns(c)) {
        PopulateShaped(RowsOf(s, c), city, population, c);
      }
      if found.Ok? {
        forall c: Category
          ensures Shaped(RowsOf(WriteFields(WriteEach(s, city, Population, population), city, found.value), c), Columns(c))
        {
          PopulateShaped(RowsOf(s, c), city, population, c);
        }
      }
    }
  }

  /** A scrape keeps every row of every table to exactly that table's columns. */
  lemma CityStepShapely(s: Snapshot, city: string, browser: Browser, skip: bool)
    requires Shapely(s)
    ensures Shapely(CityStep(s, city, browser, skip).after)
  {
    var page := browser(CityUrl(city));
    if FieldMap(page).Ok? {
      FieldMapValues(page);
    }
    OutcomeShapely(s, city, page, FieldMap(page), skip);
  }

  /** What an outcome that raises nothing on the city's page writes; see `CityStepWrites`. */
  lemma OutcomeWrites(s: Snapshot, city: string, page: Page, found: Result<map<Field, string>, Error>, skip: bool, c: Category)
    requires found.Ok? ==> forall f: Field :: f in found.value
    requires Contains(page.title, city) && Outcome(s, city, page, found, skip).raised.None?
    ensures |page.scores| > 0 && found.Ok?
      && var rows := RowsOf(s, c); var rows' := RowsOf(Outcome(s, city, page, found, skip).after, c);
      |rows'| == |rows|
      && forall n | 0 <= n < |rows| && IsCityRow(rows[n], city) ::
        Cell(rows'[n], Population) == Some(StripCommas(page.scores[0]))
        && forall f | f in ColumnFields(c) :: Cell(rows'[n], Value(f)) == Some(found.value[f])
  {
    var populated := WriteEach(s, city, Population, StripCommas(page.scores[0]));
    WriteFieldsRows(populated, city, found.value, c);
  }

  /**
   * A scrape that raises nothing on the city's page leaves, in every row of
   * the city, the page's first score without commas as Population and, in
   * each of the table's field columns, the text read for that field.
   */
  lemma CityStepWrites(s: Snapshot, city: string, browser: Browser, skip: bool, c: Category)
    requires Contains(browser(CityUrl(city)).title, city)
    requires CityStep(s, city, browser, skip).raised.None?
    ensures var page := browser(CityUrl(city)); var rows := RowsOf(s, c); var rows' := RowsOf(CityStep(s, city, browser, skip).after, c);
      |page.scores| > 0 && FieldMap(page).Ok? && (forall f: Field :: f in FieldMap(page).value)
      && |rows'| == |rows|
      && forall n | 0 <= n < |rows| && IsCityRow(rows[n], city) ::
        Cell(rows'[n], Population) == Some(StripCommas(page.scores[0]))
        && forall f | f in ColumnFields(c) :: Cell(rows'[n], Value(f)) == Some(FieldMap(page).value[f])
  {
    var page := browser(CityUrl(city));
    if FieldMap(page).Ok? {
      FieldMapValues(page);
    }
    OutcomeWrites(s, city, page, FieldMap(page), skip, c);
  }

  /** An outcome keeps the four tables aligned; see `CityStepAligned`. */
  lemma OutcomeAligned(s: Snapshot, city: string, page: Page, found: Result<map<Field, string>, Error>, skip: bool)
    requires found.Ok? ==> forall f: Field :: f in found.value
    requires Aligned(s)
    ensures Aligned(Outcome(s, city, page, found, skip).after)
  {
    if Contains(page.title, city) && |page.scores| > 0 {
      var populated := WriteEach(s, city, Population, StripCommas(page.scores[0]));
      assert Aligned(populated);
      if found.Ok? {
        var values := found.value;
        WriteFieldsRows(populated, city, values, Talent);
        WriteFieldsRows(populated, city, values, Infrastructure);
        WriteFieldsRows(populated, city, values, BusinessEnvironment);
        WriteFieldsRows(populated, city, values, DigitalParameters);
        var after := WriteFields(populated, city, values);
        forall n | 0 <= n < |after.talent|
          ensures Skeleton(after.infra[n]) == Skeleton(populated.infra[n])
          ensures Skeleton(after.business[n]) == Skeleton(populated.business[n])
          ensures Skeleton(after.digital[n]) == Skeleton(populated.digital[n])
          ensures Skeleton(after.talent[n]) == Skeleton(populated.talent[n])
        {
        }
      }
    }
  }

  /** A scrape keeps the four tables aligned: it writes the same population into the same rows of each. */
  lemma CityStepAligned(s: Snapshot, city: string, browser: Browser, skip: bool)
    requires Aligned(s)
    ensures Aligned(CityStep(s, city, browser, skip).after)
  {
    var page := browser(CityUrl(city));
    if FieldMap(page).Ok? {
      FieldMapValues(page);
    }
    OutcomeAligned(s, city, page, FieldMap(page), skip);
  }

  /** The four tables of a preview, all different objects. */
  ghost predicate Bound(talent: Table, infra: Table, business: Table, digital: Table)
    reads talent, infra, business, digital
  {
    talent != infra && talent != business && talent != digital
    && infra != business && infra != digital && business != digital
    && talent.Valid() && talent.columns == Columns(Talent)
    && infra.Valid() && infra.columns == Columns(Infrastructure)
    && business.Valid() && business.columns == Columns(BusinessEnvironment)
    && digital.Valid() && digital.columns == Columns(DigitalParameters)
  }

  function Snap(talent: Table, infra: Table, business: Table, digital: Table): (s: Snapshot)
    reads talent, infra, business, digital
  {
    Snapshot(talent.rows, infra.rows, business.rows, digital.rows)
  }

  /** Scrapes one city into the four tables in place; the result is the exception raised, if any. */
  method ScrapeCity(city: string, browser: Browser, skip: bool, talent: Table, infra: Table, business: Table, digital: Table)
      returns (raised: Option<Error>)
    requires Bound(talent, infra, business, digital)
    modifies talent, infra, business, digital
    ensures Bound(talent, infra, business, digital)
    ensures Snap(talent, infra, business, digital) == CityStep(old(Snap(talent, infra, business, digital)), city, browser, skip).after
    ensures raised == CityStep(old(Snap(talent, infra, business, digital)), city, browser, skip).raised
  {
    var page := browser(CityUrl(city));
    if !Contains(page.title, city) {
      if skip {
        return None;
      }
      return Some(IdentityMismatch(city, page.title));
    }
    if |page.scores| == 0 {
      return Some(PopulationMissing);
    }
    var population := StripCommas(page.scores[0]);
    ColumnFieldsAreColumns(Talent);
    ColumnFieldsAreColumns(Infrastructure);
    ColumnFieldsAreColumns(BusinessEnvironment);
    ColumnFieldsAreColumns(DigitalParameters);
    talent.SetWhereCity(city, Population, population);
    infra.SetWhereCity(city, Population, population);
    business.SetWhereCity(city, Population, population);
    digital.SetWhereCity(city, Population, population);
    var found := FieldMap(page);
    if found.Err? {
      return Some(found.error);
    }
    FieldMapValues(page);
    talent.SetFieldsWhereCity(city, ColumnFields(Talent), found.value);
    infra.SetFieldsWhereCity(city, ColumnFields(Infrastructure), found.value);
    business.SetFieldsWhereCity(city, ColumnFields(BusinessEnvironment), found.value);
    digital.SetFieldsWhereCity(city, ColumnFields(DigitalParameters), found.value);
    return None;
  }
}
