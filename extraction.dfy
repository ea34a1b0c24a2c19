/**
 * What the scraper reads from the Digital Cities PH site. The browser is a
 * function from URL to the page it shows once loaded; a page offers its
 * title, the texts of its `score` elements, the `h6` heading of each
 * `municipality` element (None when an element has no heading), the tab
 * locators that become clickable, and the text each field locator finds
 * once a given tab has been clicked. Selenium's exceptions become `Error`
 * values.
 */
module Extraction {
  import opened Wrappers
  import opened Schema
  import opened Text

  datatype Page = Page(
    title: string,
    scores: seq<string>,
    municipalities: seq<Option<string>>,
    clickable: set<Locator>,
    texts: map<(Locator, Locator), string>)

  type Browser = string -> Page

  datatype Error =
    | IdentityMismatch(expected: string, title: string)  // a failed title assertion
    | PopulationMissing                                  // no `score` element to index
    | TabNotClickable(tab: Category)                     // the wait for a tab timed out
    | ElementMissing(field: Field)                       // a field locator found nothing
    | HeadingMissing(index: nat)                         // a municipality without an h6
    | ResultUnbound                                      // a mode other than "simple" leaves the tables unbound

  const SiteRoot: string := "http://www.digitalcitiesph.com/location-profiles/"

  /** The profile page of a city, addressed by its slug. */
  function CityUrl(name: string): (url: string)
    ensures url == SiteRoot + "cities/" + Slug(name) + "/"
    ensures NoSpace(url[|SiteRoot|..])
  {
    SlugIsClean(name);
    var url := SiteRoot + "cities/" + Slug(name) + "/";
    assert url[|SiteRoot|..] == "cities/" + Slug(name) + "/";
    url
  }

  /** The profile page of a province, addressed by its slug. */
  function ProvinceUrl(name: string): (url: string)
    ensures url == SiteRoot + "provinces/" + Slug(name) + "/"
    ensures NoSpace(url[|SiteRoot|..])
  {
    SlugIsClean(name);
    var url := SiteRoot + "provinces/" + Slug(name) + "/";
    assert url[|SiteRoot|..] == "provinces/" + Slug(name) + "/";
    url
  }

  /** The stored text of a field: thousands separators removed from numeric ones. */
  function Normalise(f: Field, text: string): (stored: string)
  {
    if Numeric(f) then StripCommas(text) else text
  }

  /** Reads the fields `fs` of the clicked tab `tab` into `acc`, in order. */
  function ReadFields(page: Page, tab: Locator, locate: Field -> Locator, fs: seq<Field>, acc: map<Field, string>): (read: Result<map<Field, string>, Error>)
  {
    if fs == [] then Ok(acc)
    else
      match ReadFields(page, tab, locate, fs[..|fs| - 1], acc)
      case Err(e) => Err(e)
      case Ok(m) =>
        var f := fs[|fs| - 1];
        if (tab, locate(f)) in page.texts then Ok(m[f := Normalise(f, page.texts[(tab, locate(f))])])
        else Err(ElementMissing(f))
  }

  /** Waits for the tab of `c` to be clickable, clicks it and reads its fields. */
  function ReadTab(page: Page, c: Category, locate: Field -> Locator, acc: map<Field, string>): (read: Result<map<Field, string>, Error>)
  {
    if TabLocator(c) !in page.clickable then Err(TabNotClickable(c))
    else ReadFields(page, TabLocator(c), locate, Fields(c), acc)
  }

  /**
   * The extracted values of a city page, or the first failure: the four
   * tabs read in turn, each adding its fields to what the previous ones read.
   */
  function FieldMap(page: Page): (values: Result<map<Field, string>, Error>)
  {
    match ReadTab(page, Talent, Selector, map[])
    case Err(e) => Err(e)
    case Ok(m1) =>
      match ReadTab(page, Infrastructure, Selector, m1)
      case Err(e) => Err(e)
      case Ok(m2) =>
        match ReadTab(page, BusinessEnvironment, Selector, m2)
        case Err(e) => Err(e)
        case Ok(m3) => ReadTab(page, DigitalParameters, Selector, m3)
  }

  /** Each locator of the fields `fs` finds a text once `tab` has been clicked. */
  ghost predicate Present(page: Page, tab: Locator, locate: Field -> Locator, fs: seq<Field>)
  {
    forall j | 0 <= j < |fs| :: (tab, locate(fs[j])) in page.texts
  }

  /** The tab of `c` becomes clickable and each of its field locators then finds a text. */
  ghost predicate Readable(page: Page, c: Category, locate: Field -> Locator)
  {
    TabLocator(c) in page.clickable && Present(page, TabLocator(c), locate, Fields(c))
  }

  /** The text the locator of `f` finds once the tab of `f` has been clicked, normalised. */
  ghost function Reading(page: Page, locate: Field -> Locator, f: Field): (text: string)
    requires (TabLocator(TabOf(f)), locate(f)) in page.texts
  {
    Normalise(f, page.texts[(TabLocator(TabOf(f)), locate(f))])
  }

  /** Reading fields succeeds exactly when every locator finds a text. */
  lemma {:induction false} ReadFieldsOk(page: Page, tab: Locator, locate: Field -> Locator, fs: seq<Field>, acc: map<Field, string>)
    ensures ReadFields(page, tab, locate, fs, acc).Ok? <==> Present(page, tab, locate, fs)
  {
    if fs != [] {
      var front := fs[..|fs| - 1];
      ReadFieldsOk(page, tab, locate, front, acc);
      assert forall j | 0 <= j < |front| :: front[j] == fs[j];
    }
  }

  /**
   * A successful read adds exactly the fields of `fs`, each bound to the
   * normalised text its locator found, and keeps every other entry of `acc`.
   */
  lemma {:induction false} ReadFieldsValues(page: Page, tab: Locator, locate: Field -> Locator, fs: seq<Field>, acc: map<Field, string>)
    requires ReadFields(page, tab, locate, fs, acc).Ok?
    ensures Present(page, tab, locate, fs)
    ensures forall f :: f in ReadFields(page, tab, locate, fs, acc).value <==> f in acc || f in fs
    ensures forall f | f in fs :: ReadFields(page, tab, locate, fs, acc).value[f] == Normalise(f, page.texts[(tab, locate(f))])
    ensures forall f | f in acc && f !in fs :: ReadFields(page, tab, locate, fs, acc).value[f] == acc[f]
  {
    ReadFieldsOk(page, tab, locate, fs, acc);
    if fs != [] {
      var front := fs[..|fs| - 1];
      assert fs == front + [fs[|fs| - 1]];
      ReadFieldsValues(page, tab, locate, front, acc);
    }
  }

  /** Reading a tab succeeds exactly when it is readable. */
  lemma ReadTabOk(page: Page, c: Category, locate: Field -> Locator, acc: map<Field, string>)
    ensures ReadTab(page, c, locate, acc).Ok? <==> Readable(page, c, locate)
  {
    ReadFieldsOk(page, TabLocator(c), locate, Fields(c), acc);
  }

  /**
   * A successful tab read adds exactly the tab's fields, each bound to the
   * normalised text found on that tab, and keeps every other entry.
   */
  lemma ReadTabValues(page: Page, c: Category, locate: Field -> Locator, acc: map<Field, string>)
    requires ReadTab(page, c, locate, acc).Ok?
    ensures forall f :: f in ReadTab(page, c, locate, acc).value <==> f in acc || f in Fields(c)
    ensures forall f | f in Fields(c) ::
      (TabLocator(TabOf(f)), locate(f)) in page.texts && ReadTab(page, c, locate, acc).value[f] == Reading(page, locate, f)
    ensures forall f | f in acc && f !in Fields(c) :: ReadTab(page, c, locate, acc).value[f] == acc[f]
  {
    ReadFieldsValues(page, TabLocator(c), locate, Fields(c), acc);
    FieldsPlaced(c);
    forall f | f in Fields(c) ensures TabOf(f) == c {
      var j :| 0 <= j < |Fields(c)| && Fields(c)[j] == f;
    }
  }

  /** A city page yields its values exactly when all four tabs are readable. */
  lemma FieldMapOk(page: Page)
    ensures FieldMap(page).Ok? <==>
      Readable(page, Talent, Selector) && Readable(page, Infrastructure, Selector)
      && Readable(page, BusinessEnvironment, Selector) && Readable(page, DigitalParameters, Selector)
  {
    var m0: map<Field, string> := map[];
    ReadTabOk(page, Talent, Selector, m0);
    if ReadTab(page, Talent, Selector, m0).Ok? {
      var m1 := ReadTab(page, Talent, Selector, m0).value;
      ReadTabOk(page, Infrastructure, Selector, m1);
      if ReadTab(page, Infrastructure, Selector, m1).Ok? {
        var m2 := ReadTab(page, Infrastructure, Selector, m1).value;
        ReadTabOk(page, BusinessEnvironment, Selector, m2);
        if ReadTab(page, BusinessEnvironment, Selector, m2).Ok? {
          var m3 := ReadTab(page, BusinessEnvironment, Selector, m2).value;
          ReadTabOk(page, DigitalParameters, Selector, m3);
        }
      }
    }
  }

  /**
   * The values of a city page hold every field, each bound to the text its
   * locator found on its tab, commas removed from numeric fields.
   */
  lemma FieldMapValues(page: Page)
    requires FieldMap(page).Ok?
    ensures forall f :: f in FieldMap(page).value
    ensures forall f :: (TabLocator(TabOf(f)), Selector(f)) in page.texts && FieldMap(page).value[f] == Reading(page, Selector, f)
  {
    var m0: map<Field, string> := map[];
    var m1 := ReadTab(page, Talent, Selector, m0).value;
    var m2 := ReadTab(page, Infrastructure, Selector, m1).value;
    var m3 := ReadTab(page, BusinessEnvironment, Selector, m2).value;
    var m4 := ReadTab(page, DigitalParameters, Selector, m3).value;
    ReadTabValues(page, Talent, Selector, m0);
    ReadTabValues(page, Infrastructure, Selector, m1);
    ReadTabValues(page, BusinessEnvironment, Selector, m2);
    ReadTabValues(page, DigitalParameters, Selector, m3);
    forall f ensures f in m4 && (TabLocator(TabOf(f)), Selector(f)) in page.texts && m4[f] == Reading(page, Selector, f) {
      FieldListed(f);
      FieldsApart(TabOf(f), Talent);
      FieldsApart(TabOf(f), Infrastructure);
      FieldsApart(TabOf(f), BusinessEnvironment);
      FieldsApart(TabOf(f), DigitalParameters);
    }
  }

  /** Every Talent value, and the minimum wage, reaches the field map without a comma. */
  lemma NumericFieldsPlain(page: Page, f: Field)
    requires FieldMap(page).Ok? && Numeric(f)
    ensures f in FieldMap(page).value && ',' !in FieldMap(page).value[f]
  {
    FieldMapValues(page);
  }
}
