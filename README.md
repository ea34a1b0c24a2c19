# digicitiesph extractor, modelled in Dafny

This project models the extraction core of digicitiesph, `modules/extract.py`. The extractor
takes a province of the Philippines and reads the Digital Cities PH profile pages. It builds
four tables: Talent, Infrastructure, Business Environment and Digital Parameters. Each table
has one row per municipality of the province.

A preview runs in this order:

- It loads the province page, addressed by a lower-cased, `%20`-joined slug of the name.
- It asserts that the page title contains the province name.
- It creates the four tables with the columns Province, City and Population, then adds the
  table's own columns, all None.
- It appends one row per municipality heading.
- It scrapes each city of the Talent table's City column in turn.

A city scrape runs in this order:

- It loads the city page. If the title does not name the city, the page is skipped when errors
  are skipped; otherwise the title assertion fails.
- It takes the first `score` element, without commas, as the population and writes it into the
  city's rows of all four tables.
- It clicks each of the four navigation tabs and reads that tab's fields. Talent values and the
  minimum wage lose their commas.
- It writes each table's fields into the city's rows.

Modules:

- `Wrappers`: Option and Result.
- `Text`: Python's `split`, `lower`, `'%20'.join`, `replace(',', '')` and substring `in`.
- `Schema`: the fields, their labels, selectors, tabs and table columns.
- `Tables`: the pandas operations the extractor uses. A `Table` class holds the column list and
  the rows, and its methods update them in place.
- `Extraction`: pages, URLs and reading the four tabs.
- `Scrape`: one city, as the value `CityStep` and the in-place method `ScrapeCity`.
- `Preview`: the province. `PreviewSpec` is the value; the in-place method `Preview` builds the
  tables and its loops are proved against `Headings`, `Seed` and `RunCities`.

The browser is a parameter, `Browser = string -> Page`, mapping a URL to the page it shows once
loaded. A page gives:

- its title;
- the texts of its `score` elements;
- the `h6` heading of each `municipality` element;
- the tab locators that become clickable;
- the text each field locator finds after a given tab is clicked.

Selenium's exceptions become `Error` values. Any exception ends a preview, so a preview either
returns the four tables or the first exception.

## Model

| member | source | states |
|---|---|---|
| Text.Lower | modules/extract.py:56 | Lower-casing keeps the length, turns each upper-case letter into its lower-case partner and keeps every other character, so no upper-case letter remains |
| Text.WordsKeepText | modules/extract.py:55 | Splitting a name on whitespace keeps every non-space character, in order |
| Text.SlugIsClean | modules/extract.py:55-57 | A city or province slug contains no whitespace and no upper-case letter |
| Text.SlugOfOneWord | modules/extract.py:55-57 | The slug of a one-word name is that name lower-cased |
| Text.SlugOfTwoWords | modules/extract.py:163-165 | Two words separated by any run of whitespace give the lower-cased words joined by `%20` |
| Text.StripCommas | modules/extract.py:77 | The stored text contains no comma and is no longer than the original |
| Text.StripCommasLength | modules/extract.py:92-100 | Removing commas drops exactly the commas: the length is the number of other characters |
| Text.StripCommasIdempotent | modules/extract.py:122 | Stripping commas twice gives the same text as stripping once |
| Text.StripCommasSeparator | modules/extract.py:77 | A comma between two comma-free parts is dropped and the parts are joined |
| Text.StripCommasExample | modules/extract.py:77 | "12,345" is stored as "12345" |
| Text.ContainsIff | modules/extract.py:72 | The title test holds exactly when the name occurs somewhere in the title |
| Schema.FieldsCoverColumns | modules/extract.py:205-208 | Each tab reads exactly its table's columns, in column order; the Talent tab also reads the Senior High schools count |
| Schema.FieldsApart | modules/extract.py:92-139 | No tab reads a field twice, and no two tabs read the same field |
| Schema.ColumnsWellFormed | modules/extract.py:193-217 | A table has no repeated column, and the Senior High schools count is a column of no table |
| Schema.ColumnFieldsAreColumns | modules/extract.py:210-217 | Province, City, Population and each scraped field of a table are columns of that table |
| Tables.OverwriteCells | modules/extract.py:142-149 | After the field loop, a row of the city holds each field's value and keeps its other cells |
| Tables.WriteWhereFrame | modules/extract.py:79-82 | A masked write sets the column in the city's rows only, changes no other cell, and keeps the row count and columns |
| Tables.WriteColumnsRows | modules/extract.py:142-149 | The field loop rewrites only the rows of the city; every other row is unchanged |
| Tables.Cities | modules/extract.py:234 | The city list has one entry per row, each the row's City cell, in row order |
| Tables.Table.AddColumn | modules/extract.py:210-217 | Assigning None to a column adds it last if new and sets it to None in every row |
| Tables.Table.AppendRow | modules/extract.py:227-231 | Concatenating a heading row appends one row with Province and City set and every other column None |
| Tables.Table.SetWhereCity | modules/extract.py:79-82 | The masked `.loc` write updates the rows in place as `WriteWhere` says; the columns stay |
| Tables.Table.SetFieldsWhereCity | modules/extract.py:142-149 | The per-column write loop leaves the rows as `WriteColumns` says |
| Extraction.CityUrl | modules/extract.py:55-58 | The city URL is the site root, `cities/`, the slug and `/`, with no whitespace after the root |
| Extraction.ProvinceUrl | modules/extract.py:163-167 | The province URL is the site root, `provinces/`, the slug and `/`, with no whitespace after the root |
| Extraction.ReadFieldsOk | modules/extract.py:92-100 | Reading a tab's fields succeeds exactly when every field locator finds an element |
| Extraction.ReadFieldsValues | modules/extract.py:108-116 | A successful read binds each field to the text its locator found, normalised, and keeps earlier entries |
| Extraction.ReadTabOk | modules/extract.py:118-121 | Reading a tab succeeds exactly when the tab becomes clickable and all its locators find elements |
| Extraction.ReadTabValues | modules/extract.py:133-139 | A tab read adds exactly the tab's fields, each bound to the text read on that tab |
| Extraction.FieldMapOk | modules/extract.py:89-139 | A city page yields its values exactly when all four tabs are readable |
| Extraction.FieldMapValues | modules/extract.py:89-139 | The values hold every field, each the text found on its own tab, normalised |
| Extraction.NumericFieldsPlain | modules/extract.py:92-100 | Every Talent value and the minimum wage is stored without a comma |
| Scrape.CityStepWrongPage | modules/extract.py:61-72 | A page whose title lacks the city name changes no table; it is skipped when errors are skipped and otherwise fails the assertion |
| Scrape.CityStepRaises | modules/extract.py:61-139 | A scrape raises nothing exactly when the page is skipped, or it is the city's page with a population and four readable tabs |
| Scrape.CityStepFrame | modules/extract.py:79-149 | A scrape changes only the city's rows and, in them, only Population and the table's own field columns; row count, Province and City stay |
| Scrape.CityStepShapely | modules/extract.py:79-149 | A scrape keeps every row of every table to exactly that table's columns |
| Scrape.CityStepWrites | modules/extract.py:77-149 | A completed scrape leaves, in each city row, the first score without commas as Population and each field's text in its column |
| Scrape.CityStepAligned | modules/extract.py:79-82 | The population is written identically into all four tables, so the tables keep the same Province, City and Population row by row |
| Scrape.ScrapeCity | modules/extract.py:32-155 | The in-place scrape leaves the four tables as `CityStep` says and raises what it raises |
| Preview.HeadingsRead | modules/extract.py:224-226 | The headings are read exactly when every element has one, in element order; otherwise the first element without one is named |
| Preview.SeedRowsCells | modules/extract.py:224-231 | After seeding, each table has one row per heading in heading order: the province, the heading's name, and None elsewhere |
| Preview.SeedWellFormed | modules/extract.py:224-234 | The seeded tables have their columns and agree row by row, and their City column lists the headings |
| Preview.RunCitiesStops | modules/extract.py:235-237 | Once a city raises, the cities after it change nothing |
| Preview.RunCitiesWellFormed | modules/extract.py:235-237 | The city loop keeps every table's columns and the row-by-row agreement of the four tables |
| Preview.RunCitiesKeeps | modules/extract.py:235-237 | The city loop keeps the row count and the Province and City of every row |
| Preview.RunCitiesFills | modules/extract.py:235-237 | A completed loop leaves each visited city's rows filled from its page, or unchanged when skipped; other rows stay |
| Preview.PreviewFails | modules/extract.py:183-202 | A preview fails the title assertion, leaves the result unbound in any mode but "simple", or fails on the first heading missing |
| Preview.PreviewResult | modules/extract.py:158-250 | A successful preview has one row per heading, in order, with province and name, filled from the city page; Population agrees across tables; no Senior High schools column |
| Preview.AddFieldColumns | modules/extract.py:210-217 | Adding a table's columns one by one gives exactly the table's column list, still with no rows |
| Preview.SeedTables | modules/extract.py:224-231 | The heading loop appends the rows `Seed` gives, or stops at the first heading missing |
| Preview.ScrapeCities | modules/extract.py:234-237 | The city loop leaves the tables, and raises what, `RunCities` gives over the City column |
| Preview.FillTables | modules/extract.py:224-237 | Seeding then scraping gives the tables or the exception `Tabulate` gives |
| Preview.Preview | modules/extract.py:158-250 | The preview returns four new, distinct tables holding `PreviewSpec`'s rows, or its exception |

## Left out

- Selenium is reduced to the `Browser` function. Not modelled: driver set-up (`use_driver`),
  implicit waits, the fixed sleeps, `driver.quit` and the per-wait timeouts.
- The wait for the city title is modelled as "the title lacks the city name". The model does
  not capture a title that changes after the wait gives up.
- The province wait only logs when it times out. Only the title assertion after it is modelled.
- Logging, timing output, `print` and Streamlit's `st.cache_data` caching are left out. None of
  them changes the tables.
- `export` (zip, Excel and CSV output) is left out, as file I/O. Its CSV branch writes every
  table into one shared `BytesIO` buffer. That buffer is not part of this model.
- Advanced mode is left out. Its branches are `pass`, so only the unbound tables it leaves are
  modelled, as `ResultUnbound`.
- `app.py` and `modules/chromedriver_fix_latest.py` are not part of this model.
- Text.Lower: lower-cases ASCII and Latin-1 letters only. Python's full Unicode case mapping
  is not modelled.
- Fields and columns are constructors, not strings. `Schema.Label` gives each one's exact text.
  The model assumes, without a proof, that the texts are pairwise different.
- Writes into a column a table does not have are not modelled, because every write in the
  extractor targets an existing column. pandas would enlarge the table for such a write.
- A province with no municipality headings gives four empty tables; the code raises no error
  for an empty province.
- The browser returns the same page for a URL throughout a preview. A city listed twice is
  therefore scraped with the same outcome both times, and a wait that times out on one visit
  and succeeds on another is not modelled.
