/**
 * The preview of a province (modules/extract.py:158-250): load the
 * province page and check its title, create the four tables, give them
 * their columns, append one row per municipality heading, then scrape the
 * cities of the Talent table's City column one after another.
 *
 * `PreviewSpec` is the result as a value; `Preview` builds the four tables
 * in place and returns them.
 */
module Preview {
  import opened Wrappers
  import opened Schema
  import opened Text
  import opened Tables
  import opened Extraction
  import opened Scrape

  /** The city names of the municipality headings, or the first element that has no heading. */
  function Headings(found: seq<Option<string>>): (names: Result<seq<string>, Error>)
  {
    if found == [] then Ok([])
    else
      match Headings(found[..|found| - 1])
      case Err(e) => Err(e)
      case Ok(names) =>
        if found[|found| - 1].Some? then Ok(names + [found[|found| - 1].value])
        else Err(HeadingMissing(|found| - 1))
  }

  /**
   * The headings are read exactly when every element has one, and then in
   * element order; otherwise the failure names the first element without.
   */
  lemma {:induction false} HeadingsRead(found: seq<Option<string>>)
    ensures Headings(found).Ok? <==> forall i | 0 <= i < |found| :: found[i].Some?
    ensures Headings(found).Ok? ==>
      |Headings(found).value| == |found|
      && forall i | 0 <= i < |found| :: found[i] == Some(Headings(found).value[i])
    ensures Headings(found).Err? ==>
      Headings(found).error.HeadingMissing?
      && var i := Headings(found).error.index;
      i < |found| && found[i].None? && forall j | 0 <= j < i :: found[j].Some?
  {
    if found != [] {
      var front := found[..|found| - 1];
      HeadingsRead(front);
      assert forall i | 0 <= i < |front| :: front[i] == found[i];
    }
  }

  /** The rows appended for the headings: Province and City filled, every other column None. */
  function SeedRows(columns: seq<Column>, province: string, names: seq<string>): (rows: seq<Row>)
  {
    seq(|names|, n requires 0 <= n < |names| => NewRow(columns, province, names[n]))
  }

  /** The four tables once the heading rows are appended. */
  function Seed(province: string, names: seq<string>): (seeded: Snapshot)
  {
    Snapshot(
      SeedRows(Columns(Talent), province, names), SeedRows(Columns(Infrastructure), province, names),
      SeedRows(Columns(BusinessEnvironment), province, names), SeedRows(Columns(DigitalParameters), province, names))
  }

  /** Appending the row of one more heading seeds the longer list of names. */
  lemma SeedRowsAppend(columns: seq<Column>, province: string, names: seq<string>, name: string)
    ensures SeedRows(columns, province, names + [name]) == SeedRows(columns, province, names) + [NewRow(columns, province, name)]
  {
  }

  /**
   * Seeding gives each table one row per heading, in heading order, with
   * the province and the heading's name and every other column None.
   */
  lemma SeedRowsCells(province: string, names: seq<string>, c: Category)
    ensures |RowsOf(Seed(province, names), c)| == |names|
    ensures forall n | 0 <= n < |names| ::
      var row := RowsOf(Seed(province, names), c)[n];
      row.Keys == ColumnSet(Columns(c))
      && Cell(row, Province) == Some(province) && Cell(row, City) == Some(names[n])
      && forall k | k != Province && k != City :: Cell(row, k) == None
  {
    ColumnFieldsAreColumns(c);
  }

  lemma SeedShapely(province: string, names: seq<string>)
    ensures Shapely(Seed(province, names))
  {
    forall c: Category ensures Shaped(RowsOf(Seed(province, names), c), Columns(c)) {
      SeedRowsCells(province, names, c);
    }
  }

  lemma SeedAligned(province: string, names: seq<string>)
    ensures Aligned(Seed(province, names))
  {
    SeedRowsCells(province, names, Talent);
    SeedRowsCells(province, names, Infrastructure);
    SeedRowsCells(province, names, BusinessEnvironment);
    SeedRowsCells(province, names, DigitalParameters);
  }

  lemma SeedCities(province: string, names: seq<string>)
    ensures forall n | 0 <= n < |names| :: Cell(Seed(province, names).talent[n], City).Some?
    ensures Cities(Seed(province, names).talent) == names
  {
    SeedRowsCells(province, names, Talent);
  }

  /** The seeded tables have their columns, agree row by row, and list the headings as their cities. */
  lemma SeedWellFormed(province: string, names: seq<string>)
    ensures Shapely(Seed(province, names)) && Aligned(Seed(province, names))
    ensures forall n | 0 <= n < |names| :: Cell(Seed(province, names).talent[n], City).Some?
    ensures Cities(Seed(province, names).talent) == names
  {
    SeedShapely(province, names);
    SeedAligned(province, names);
    SeedCities(province, names);
  }

  /** The cities scraped one after another; the first exception stops the loop and is raised. */
  function RunCities(s: Snapshot, cities: seq<string>, browser: Browser, skip: bool): (run: Step)
  {
    if cities == [] then Step(s, None)
    else
      var done := RunCities(s, cities[..|cities| - 1], browser, skip);
      if done.raised.Some? then done
      else CityStep(done.after, cities[|cities| - 1], browser, skip)
  }

  /** Once a city has raised, the cities after it change nothing. */
  lemma {:induction false} RunCitiesStops(s: Snapshot, cities: seq<string>, more: seq<string>, browser: Browser, skip: bool)
    requires RunCities(s, cities, browser, skip).raised.Some?
    ensures RunCities(s, cities + more, browser, skip) == RunCities(s, cities, browser, skip)
  {
    if more == [] {
      assert cities + more == cities;
    } else {
      var front := more[..|more| - 1];
      RunCitiesStops(s, cities, front, browser, skip);
      assert (cities + more)[..|cities + more| - 1] == cities + front;
      assert cities + more != [];
      assert RunCities(s, cities + more, browser, skip) == RunCities(s, cities + front, browser, skip);
    }
  }

  /** The loop over the first n + 1 cities is the loop over the first n followed by city n. */
  lemma RunCitiesNext(s: Snapshot, cities: seq<string>, n: nat, browser: Browser, skip: bool)
    requires n < |cities|
    ensures RunCities(s, cities[..n + 1], browser, skip) ==
      var done := RunCities(s, cities[..n], browser, skip);
      if done.raised.Some? then done else CityStep(done.after, cities[n], browser, skip)
  {
    assert cities[..n + 1][..n] == cities[..n];
  }

  /** A loop whose city n raises ends there. */
  lemma RunCitiesStopsAt(s: Snapshot, cities: seq<string>, n: nat, browser: Browser, skip: bool)
    requires n < |cities| && RunCities(s, cities[..n + 1], browser, skip).raised.Some?
    ensures RunCities(s, cities, browser, skip) == RunCities(s, cities[..n + 1], browser, skip)
  {
    RunCitiesStops(s, cities[..n + 1], cities[n + 1..], browser, skip);
    assert cities[..n + 1] + cities[n + 1..] == cities;
  }

  /** The city loop keeps every table's columns and the agreement of the four tables. */
  lemma {:induction false} RunCitiesWellFormed(s: Snapshot, cities: seq<string>, browser: Browser, skip: bool)
    requires Shapely(s) && Aligned(s)
    ensures Shapely(RunCities(s, cities, browser, skip).after) && Aligned(RunCities(s, cities, browser, skip).after)
  {
    if cities != [] {
      var front := cities[..|cities| - 1];
      RunCitiesWellFormed(s, front, browser, skip);
      var done := RunCities(s, front, browser, skip);
      if done.raised.None? {
        CityStepShapely(done.after, cities[|cities| - 1], browser, skip);
        CityStepAligned(done.after, cities[|cities| - 1], browser, skip);
      }
    }
  }

  /** The city loop keeps the row count of table `c` and the Province and City of every row. */
  lemma {:induction false} RunCitiesKeeps(s: Snapshot, cities: seq<string>, browser: Browser, skip: bool, c: Category)
    ensures var rows := RowsOf(s, c); var rows' := RowsOf(RunCities(s, cities, browser, skip).after, c);
      |rows'| == |rows|
      && forall n | 0 <= n < |rows| ::
        Cell(rows'[n], Province) == Cell(rows[n], Province) && Cell(rows'[n], City) == Cell(rows[n], City)
  {
    if cities != [] {
      var front := cities[..|cities| - 1];
      RunCitiesKeeps(s, front, browser, skip, c);
      var done := RunCities(s, front, browser, skip);
      if done.raised.None? {
        var last := cities[|cities| - 1];
        CityStepFrame(done.after, last, browser, skip, c);
        var rows := RowsOf(s, c); var mid := RowsOf(done.after, c); var rows' := RowsOf(CityStep(done.after, last, browser, skip).after, c);
        forall n | 0 <= n < |rows|
          ensures Cell(rows'[n], Province) == Cell(rows[n], Province) && Cell(rows'[n], City) == Cell(rows[n], City)
        {
          assert Cell(rows'[n], Province) == Cell(mid[n], Province);
          assert Cell(rows'[n], City) == Cell(mid[n], City);
        }
      }
    }
  }

  /** Some city of `cities` names the row. */
  predicate Visited(row: Row, cities: seq<string>)
  {
    Cell(row, City).Some? && Cell(row, City).value in cities
  }

  /**
   * What a completed city loop leaves in a row of table `c` that started as
   * `row`: when the page of the row's city names it, that page's first score
   * without commas as Population and the text read for each of the table's
   * fields; otherwise, the page having been skipped, the row as it was.
   */
  ghost predicate Scraped(row: Row, row': Row, c: Category, browser: Browser)
    requires Cell(row, City).Some?
  {
    var page := browser(CityUrl(Cell(row, City).value));
    if Contains(page.title, Cell(row, City).value) then
      |page.scores| > 0 && FieldMap(page).Ok? && (forall f: Field :: f in FieldMap(page).value)
      && Cell(row', Population) == Some(StripCommas(page.scores[0]))
      && forall f | f in ColumnFields(c) :: Cell(row', Value(f)) == Some(FieldMap(page).value[f])
    else row' == row
  }

  /**
   * A city loop that raises nothing leaves every row of a visited city as
   * `Scraped` says and every other row as it was.
   */
  lemma {:induction false} RunCitiesFills(s: Snapshot, cities: seq<string>, browser: Browser, skip: bool, c: Category)
    requires RunCities(s, cities, browser, skip).raised.None?
    ensures var rows := RowsOf(s, c); var rows' := RowsOf(RunCities(s, cities, browser, skip).after, c);
      |rows'| == |rows|
      && forall n | 0 <= n < |rows| ::
        if Visited(rows[n], cities) then Scraped(rows[n], rows'[n], c, browser) else rows'[n] == rows[n]
  {
    if cities != [] {
      var front, last := cities[..|cities| - 1], cities[|cities| - 1];
      var done := RunCities(s, front, browser, skip);
      RunCitiesFills(s, front, browser, skip, c);
      RunCitiesKeeps(s, front, browser, skip, c);
      CityStepFrame(done.after, last, browser, skip, c);
      var page := browser(CityUrl(last));
      if Contains(page.title, last) {
        CityStepWrites(done.after, last, browser, skip, c);
      } else {
        CityStepWrongPage(done.after, last, browser, skip);
      }
      var rows := RowsOf(s, c); var mid := RowsOf(done.after, c); var rows' := RowsOf(RunCities(s, cities, browser, skip).after, c);
      forall n | 0 <= n < |rows|
        ensures if Visited(rows[n], cities) then Scraped(rows[n], rows'[n], c, browser) else rows'[n] == rows[n]
      {
        assert Cell(mid[n], City) == Cell(rows[n], City);
        if !IsCityRow(rows[n], last) {
          assert Visited(rows[n], cities) == Visited(rows[n], front);
        }
      }
    }
  }

  /**
   * The tables of the "simple" mode as a value: every municipality must
   * have a heading, and the cities are then scraped in the order of the
   * Talent table's City column.
   */
  function Tabulate(province: string, found: seq<Option<string>>, browser: Browser, skip: bool): (tables: Result<Snapshot, Error>)
  {
    match Headings(found)
    case Err(e) => Err(e)
    case Ok(names) =>
      var seeded := Seed(province, names);
      SeedWellFormed(province, names);
      var run := RunCities(seeded, Cities(seeded.talent), browser, skip);
      if run.raised.Some? then Err(run.raised.value) else Ok(run.after)
  }

  /**
   * The preview as a value: the province page must name the province, and
   * only the "simple" mode binds the tables it returns.
   */
  function PreviewSpec(province: string, mode: string, skip: bool, browser: Browser): (result: Result<Snapshot, Error>)
  {
    var page := browser(ProvinceUrl(province));
    if !Contains(page.title, province) then Err(IdentityMismatch(province, page.title))
    else if mode != "simple" then Err(ResultUnbound)
    else Tabulate(province, page.municipalities, browser, skip)
  }

  /**
   * A preview fails the title assertion when the province page does not
   * name the province, leaves the tables unbound in any mode but "simple",
   * and fails on the first municipality without a heading.
   */
  lemma PreviewFails(province: string, mode: string, skip: bool, browser: Browser)
    ensures var page := browser(ProvinceUrl(province));
      !Contains(page.title, province) ==> PreviewSpec(province, mode, skip, browser) == Err(IdentityMismatch(province, page.title))
    ensures var page := browser(ProvinceUrl(province));
      Contains(page.title, province) && mode != "simple" ==> PreviewSpec(province, mode, skip, browser) == Err(ResultUnbound)
    ensures var page := browser(ProvinceUrl(province));
      Contains(page.title, province) && mode == "simple" && Headings(page.municipalities).Err? ==>
        PreviewSpec(province, mode, skip, browser) == Err(Headings(page.municipalities).error)
  {
  }

  /**
   * A successful preview returns four tables with their own columns, one
   * row per heading in heading order holding the province and the heading's
   * name, the same Population in each table, each row filled from its
   * city's page as `Scraped` says, and no Senior High schools column.
   */
  lemma PreviewResult(province: string, mode: string, skip: bool, browser: Browser, c: Category)
    requires PreviewSpec(province, mode, skip, browser).Ok?
    ensures var page := browser(ProvinceUrl(province));
      Contains(page.title, province) && mode == "simple" && Headings(page.municipalities).Ok?
    ensures var names := Headings(browser(ProvinceUrl(province)).municipalities).value; var out := PreviewSpec(province, mode, skip, browser).value;
      Shapely(out) && Aligned(out)
      && |RowsOf(out, c)| == |names|
      && forall n | 0 <= n < |names| ::
        Cell(RowsOf(out, c)[n], Province) == Some(province)
        && Cell(RowsOf(out, c)[n], City) == Some(names[n])
        && Scraped(NewRow(Columns(c), province, names[n]), RowsOf(out, c)[n], c, browser)
        && Value(SchoolsOfferingSeniorHigh) !in RowsOf(out, c)[n]
  {
    var page := browser(ProvinceUrl(province));
    var names := Headings(page.municipalities).value;
    var seeded := Seed(province, names);
    SeedWellFormed(province, names);
    SeedRowsCells(province, names, c);
    RunCitiesWellFormed(seeded, names, browser, skip);
    RunCitiesKeeps(seeded, names, browser, skip, c);
    RunCitiesFills(seeded, names, browser, skip, c);
    ColumnsWellFormed(c);
    var out := PreviewSpec(province, mode, skip, browser).value;
    forall n | 0 <= n < |names|
      ensures Value(SchoolsOfferingSeniorHigh) !in RowsOf(out, c)[n]
    {
      assert RowsOf(out, c)[n].Keys == ColumnSet(Columns(c));
    }
  }

  /** The four tables a preview returns. */
  datatype Frames = Frames(talent: Table, infra: Table, business: Table, digital: Table)

  /** Gives a new table the columns of its category, each assigned None in turn. */
  method AddFieldColumns(t: Table, c: Category)
    requires t.Valid() && t.columns == BaseColumns && t.rows == []
    modifies t
    ensures t.Valid() && t.columns == Columns(c) && t.rows == []
  {
    ColumnsWellFormed(c);
    var fs := ColumnFields(c);
    for i := 0 to |fs|
      invariant t.Valid() && t.rows == []
      invariant t.columns == BaseColumns + CategoryColumns(c)[..i]
    {
      assert Columns(c)[..|BaseColumns| + i] == t.columns;
      assert Value(fs[i]) == Columns(c)[|BaseColumns| + i];
      t.AddColumn(Value(fs[i]));
      assert CategoryColumns(c)[..i + 1] == CategoryColumns(c)[..i] + [Value(fs[i])];
    }
    assert CategoryColumns(c)[..|fs|] == CategoryColumns(c);
  }

  /** Appends to the four tables, in order, one row per municipality heading; the result is the names or the failure. */
  method SeedTables(province: string, found: seq<Option<string>>, talent: Table, infra: Table, business: Table, digital: Table)
      returns (result: Result<seq<string>, Error>)
    requires Bound(talent, infra, business, digital)
    requires talent.rows == [] && infra.rows == [] && business.rows == [] && digital.rows == []
    modifies talent, infra, business, digital
    ensures Bound(talent, infra, business, digital)
    ensures result == Headings(found)
    ensures result.Ok? ==> Snap(talent, infra, business, digital) == Seed(province, result.value)
  {
    BaseColumnsPresent();
    ghost var names: seq<string> := [];
    for i := 0 to |found|
      invariant Bound(talent, infra, business, digital)
      invariant Headings(found[..i]) == Ok(names)
      invariant talent.rows == SeedRows(Columns(Talent), province, names)
      invariant infra.rows == SeedRows(Columns(Infrastructure), province, names)
      invariant business.rows == SeedRows(Columns(BusinessEnvironment), province, names)
      invariant digital.rows == SeedRows(Columns(DigitalParameters), province, names)
    {
      assert found[..i + 1][..i] == found[..i];
      if found[i].None? {
        HeadingsRead(found[..i + 1]);
        HeadingsRead(found);
        return Err(HeadingMissing(i));
      }
      SeedRowsAppend(Columns(Talent), province, names, found[i].value);
      SeedRowsAppend(Columns(Infrastructure), province, names, found[i].value);
      SeedRowsAppend(Columns(BusinessEnvironment), province, names, found[i].value);
      SeedRowsAppend(Columns(DigitalParameters), province, names, found[i].value);
      talent.AppendRow(province, found[i].value);
      infra.AppendRow(province, found[i].value);
      business.AppendRow(province, found[i].value);
      digital.AppendRow(province, found[i].value);
      names := names + [found[i].value];
    }
    assert found[..|found|] == found;
    return Headings(found);
  }

  /** Scrapes the cities in order into the four tables, stopping at the first exception, which it returns. */
  method ScrapeCities(cities: seq<string>, browser: Browser, skip: bool, talent: Table, infra: Table, business: Table, digital: Table)
      returns (raised: Option<Error>)
    requires Bound(talent, infra, business, digital)
    modifies talent, infra, business, digital
    ensures Bound(talent, infra, business, digital)
    ensures Step(Snap(talent, infra, business, digital), raised)
      == RunCities(old(Snap(talent, infra, business, digital)), cities, browser, skip)
  {
    ghost var start := Snap(talent, infra, business, digital);
    for n := 0 to |cities|
      invariant Bound(talent, infra, business, digital)
      invariant RunCities(start, cities[..n], browser, skip) == Step(Snap(talent, infra, business, digital), None)
    {
      RunCitiesNext(start, cities, n, browser, skip);
      raised := ScrapeCity(cities[n], browser, skip, talent, infra, business, digital);
      if raised.Some? {
        RunCitiesStopsAt(start, cities, n, browser, skip);
        return;
      }
    }
    assert cities[..|cities|] == cities;
    return None;
  }

  /** Seeds the four empty tables from the headings and scrapes their cities; the result is the exception raised, if any. */
  method FillTables(province: string, found: seq<Option<string>>, browser: Browser, skip: bool,
                    talent: Table, infra: Table, business: Table, digital: Table)
      returns (raised: Option<Error>)
    requires Bound(talent, infra, business, digital)
    requires talent.rows == [] && infra.rows == [] && business.rows == [] && digital.rows == []
    modifies talent, infra, business, digital
    ensures Bound(talent, infra, business, digital)
    ensures raised.None? <==> Tabulate(province, found, browser, skip).Ok?
    ensures raised.Some? ==> raised.value == Tabulate(province, found, browser, skip).error
    ensures raised.None? ==> Snap(talent, infra, business, digital) == Tabulate(province, found, browser, skip).value
  {
    var seeded := SeedTables(province, found, talent, infra, business, digital);
    if seeded.Err? {
      return Some(seeded.error);
    }
    SeedWellFormed(province, seeded.value);
    var cities := Cities(talent.rows);
    raised := ScrapeCities(cities, browser, skip, talent, infra, business, digital);
  }

  /** Builds and fills the four tables of a province; the result is the tables or the exception raised. */
  method Preview(province: string, mode: string, skip: bool, browser: Browser) returns (result: Result<Frames, Error>)
    ensures result.Ok? <==> PreviewSpec(province, mode, skip, browser).Ok?
    ensures result.Err? ==> result.error == PreviewSpec(province, mode, skip, browser).error
    ensures result.Ok? ==>
      var f := result.value;
      fresh(f.talent) && fresh(f.infra) && fresh(f.business) && fresh(f.digital)
      && Bound(f.talent, f.infra, f.business, f.digital)
      && Snap(f.talent, f.infra, f.business, f.digital) == PreviewSpec(province, mode, skip, browser).value
  {
    var page := browser(ProvinceUrl(province));
    if !Contains(page.title, province) {
      return Err(IdentityMismatch(province, page.title));
    }
    var talent := new Table(BaseColumns);
    var infra := new Table(BaseColumns);
    var business := new Table(BaseColumns);
    var digital := new Table(BaseColumns);
    if mode != "simple" {
      return Err(ResultUnbound);
    }
    AddFieldColumns(talent, Talent);
    AddFieldColumns(infra, Infrastructure);
    AddFieldColumns(business, BusinessEnvironment);
    AddFieldColumns(digital, DigitalParameters);

    var raised := FillTables(province, page.municipalities, browser, skip, talent, infra, business, digital);
    if raised.Some? {
      return Err(raised.value);
    }
    return Ok(Frames(talent, infra, business, digital));
  }
}
