/**
 * The fixed schema of the four category tables: the fields the extractor
 * reads from each navigation tab (modules/extract.py:89-139), where it reads
 * them, which of them lose their thousands separators, and the column list
 * of each table (193-217).
 *
 * Column names and field names are strings in the program, used only as
 * dictionary keys and column labels; here each is a constructor of `Field`
 * or `Column`, and `Label` and `ColumnName` give its exact text. The texts
 * are taken to be pairwise different, so keying by constructor loses nothing.
 */
module Schema {

  /** The four tabs and tables, in the order the extractor visits the tabs and returns the tables. */
  datatype Category = Talent | Infrastructure | BusinessEnvironment | DigitalParameters

  /** One value read from a city page. */
  datatype Field =
    // Talent
    | TotalGraduates | HigherEducationGraduates | TechnicalVocationalGraduates | SeniorHighGraduates
    | CentersOfExcellence | CentersOfDevelopment | HigherEducationInstitutions
    | TechnicalVocationalInstitutions | SchoolsOfferingSeniorHigh
    // Infrastructure
    | OfficeRealEstate | TelcoInfrastructure | InternetBandwidth | PowerSupply
    | TransportationAccess | HotelAvailability | HospitalBeds | RecreationalAndTouristAttractions
    // Business Environment
    | MinimumWageNonagri | MonthlyOfficeSpaceRental | GradeA | GradeB | GradeC | MonthlyPowerRates
    | PezaItParks | DisasterPreparednessPlan | CrimeSolutionEfficiency
    // Digital Parameters
    | OpenInnovationEcosystem | NumberOfStartups | InnovationPolicyAndIncentives | NumberOfUnicorns

  /** A column of a category table: the three leading columns, then scraped fields. */
  datatype Column = Province | City | Population | Value(field: Field)

  /** The text of a field: its key among the extracted values and its column name. */
  function Label(f: Field): (text: string)
  {
    match f
    case TotalGraduates => "Total Graduates"
    case HigherEducationGraduates => "Higher Education Graduates"
    case TechnicalVocationalGraduates => "Technical Vocational Graduates"
    case SeniorHighGraduates => "Senior High Graduates"
    case CentersOfExcellence => "Number of Center of Excellence"
    case CentersOfDevelopment => "Number of Center of Development"
    case HigherEducationInstitutions => "Number of Higher Education Institutions"
    case TechnicalVocationalInstitutions => "Number of Technical Vocational Institutions"
    case SchoolsOfferingSeniorHigh => "Number of Schools offering Senior High"
    case OfficeRealEstate => "Office Real Estate"
    case TelcoInfrastructure => "Telco Infrastructure"
    case InternetBandwidth => "Internet Bandwidth"
    case PowerSupply => "Power Supply"
    case TransportationAccess => "Transportation Access"
    case HotelAvailability => "Hotel Availability"
    case HospitalBeds => "Hospital Beds"
    case RecreationalAndTouristAttractions => "Recreational and Tourist Attractions"
    case MinimumWageNonagri => "(Cost) Minimum Wage Nonagri"
    case MonthlyOfficeSpaceRental => "(Cost) Monthly Office Space Rental per sqm"
    case GradeA => "(Cost) Grade A"
    case GradeB => "(Cost) Grade B"
    case GradeC => "(Cost) Grade C"
    case MonthlyPowerRates => "(Cost) Monthly Power Rates"
    case PezaItParks => "PEZA IT Parks/Centers"
    case DisasterPreparednessPlan => "Disaster Preparedness Plan"
    case CrimeSolutionEfficiency => "Average Crime Solution Efficiency"
    case OpenInnovationEcosystem => "Open Innovation Ecosystem"
    case NumberOfStartups => "Number of Startups"
    case InnovationPolicyAndIncentives => "Innovation Policy and Incentives"
    case NumberOfUnicorns => "Number of Unicorns"
  }

  /** The header text of a column. */
  function ColumnName(col: Column): (name: string)
  {
    match col
    case Province => "Province"
    case City => "City"
    case Population => "Population"
    case Value(f) => Label(f)
  }

  /** How the page is queried: a CSS selector or an XPath expression. */
  datatype Locator = Css(selector: string) | XPath(path: string)

  /** The navigation tab that must be clicked before the category's panel can be read. */
  function TabLocator(c: Category): (tab: Locator)
  {
    match c
    case Talent => Css(".filter-nav > li:nth-child(1)")
    case Infrastructure => Css(".filter-nav > li:nth-child(2)")
    case BusinessEnvironment => Css(".filter-nav > li:nth-child(3)")
    case DigitalParameters => Css(".filter-nav > li:nth-child(4)")
  }

  /** Where a field is read once its tab has been clicked. */
  function Selector(f: Field): (locator: Locator)
  {
    match f
    case TotalGraduates => Css("div:nth-child(1) > .details-overall > .score")
    case HigherEducationGraduates => Css("#talentAccordion1 > .card > .card-link > span")
    case TechnicalVocationalGraduates => Css("#talentAccordion2 .collapsed > span")
    case SeniorHighGraduates => Css("#talentAccordion3 > .card > .collapsed > span")
    case CentersOfExcellence => Css("#talentAccordion4 span")
    case CentersOfDevelopment => Css("#talentAccordion5 span")
    case HigherEducationInstitutions => Css("#talentAccordion6 span")
    case TechnicalVocationalInstitutions => Css("#talentAccordion7 span")
    case SchoolsOfferingSeniorHigh => Css("#talentAccordion8 span")
    case OfficeRealEstate => Css("#infraAccordion9 .card-link > span")
    case TelcoInfrastructure => Css("#infraAccordion10 span")
    case InternetBandwidth => Css("#infraAccordion11 .collapsed > span")
    case PowerSupply => Css("#infraAccordion12 .collapsed > span")
    case TransportationAccess => XPath("//div[@id='infraAccordion13']/div/a/span")
    case HotelAvailability => XPath("(//div[@id='infraAccordion11']/div/a/span)[2]")
    case HospitalBeds => XPath("(//div[@id='infraAccordion12']/div/a/span)[2]")
    case RecreationalAndTouristAttractions => XPath("(//div[@id='infraAccordion13']/div/a/span)[2]")
    case MinimumWageNonagri => Css("li:nth-child(1) > span")
    case MonthlyOfficeSpaceRental => Css("li:nth-child(2) > span")
    case GradeA => Css("li:nth-child(3) > span")
    case GradeB => Css("li:nth-child(4) > span")
    case GradeC => Css("li:nth-child(5) > span")
    case MonthlyPowerRates => Css("li:nth-child(6) > span")
    case PezaItParks => Css(".collapsed > span")
    case DisasterPreparednessPlan => Css("#businessAccordion11 span")
    case CrimeSolutionEfficiency => Css("#businessAccordion12 span")
    case OpenInnovationEcosystem => Css("#digitalAccordion11 span")
    case NumberOfStartups => Css("#digitalAccordion13 span")
    case InnovationPolicyAndIncentives => Css("#digitalAccordion14 span")
    case NumberOfUnicorns => Css("#digitalAccordion15 span")
  }

  /** The fields read from each tab, in the order the extractor reads them (simple mode). */
  function Fields(c: Category): (fs: seq<Field>)
  {
    match c
    case Talent => [
      TotalGraduates, HigherEducationGraduates, TechnicalVocationalGraduates, SeniorHighGraduates,
      CentersOfExcellence, CentersOfDevelopment, HigherEducationInstitutions,
      TechnicalVocationalInstitutions, SchoolsOfferingSeniorHigh]
    case Infrastructure => [
      OfficeRealEstate, TelcoInfrastructure, InternetBandwidth, PowerSupply,
      TransportationAccess, HotelAvailability, HospitalBeds, RecreationalAndTouristAttractions]
    case BusinessEnvironment => [
      MinimumWageNonagri, MonthlyOfficeSpaceRental, GradeA, GradeB, GradeC, MonthlyPowerRates,
      PezaItParks, DisasterPreparednessPlan, CrimeSolutionEfficiency]
    case DigitalParameters => [
      OpenInnovationEcosystem, NumberOfStartups, InnovationPolicyAndIncentives, NumberOfUnicorns]
  }

  /** Whether a field's text is stored with its commas removed. */
  predicate Numeric(f: Field)
  {
    TabOf(f) == Talent || f == MinimumWageNonagri
  }

  /** The scraped columns of each table, in column order. */
  function ColumnFields(c: Category): (fs: seq<Field>)
  {
    match c
    case Talent => [
      TotalGraduates, HigherEducationGraduates, TechnicalVocationalGraduates, SeniorHighGraduates,
      CentersOfExcellence, CentersOfDevelopment, HigherEducationInstitutions,
      TechnicalVocationalInstitutions]
    case Infrastructure => [
      OfficeRealEstate, TelcoInfrastructure, InternetBandwidth, PowerSupply,
      TransportationAccess, HotelAvailability, HospitalBeds, RecreationalAndTouristAttractions]
    case BusinessEnvironment => [
      MinimumWageNonagri, MonthlyOfficeSpaceRental, GradeA, GradeB, GradeC, MonthlyPowerRates,
      PezaItParks, DisasterPreparednessPlan, CrimeSolutionEfficiency]
    case DigitalParameters => [
      OpenInnovationEcosystem, NumberOfStartups, InnovationPolicyAndIncentives, NumberOfUnicorns]
  }

  /** Every table starts with these three columns. */
  const BaseColumns: seq<Column> := [Province, City, Population]

  function CategoryColumns(c: Category): (cols: seq<Column>)
    ensures |cols| == |ColumnFields(c)|
    ensures forall i | 0 <= i < |cols| :: cols[i] == Value(ColumnFields(c)[i])
  {
    seq(|ColumnFields(c)|, i requires 0 <= i < |ColumnFields(c)| => Value(ColumnFields(c)[i]))
  }

  /** The full, ordered column list of the table of category `c`. */
  function Columns(c: Category): (columns: seq<Column>)
  {
    BaseColumns + CategoryColumns(c)
  }

  /** The tab a field is read from. */
  function TabOf(f: Field): (c: Category)
  {
    match f
    case TotalGraduates | HigherEducationGraduates | TechnicalVocationalGraduates | SeniorHighGraduates
      | CentersOfExcellence | CentersOfDevelopment | HigherEducationInstitutions
      | TechnicalVocationalInstitutions | SchoolsOfferingSeniorHigh => Talent
    case OfficeRealEstate | TelcoInfrastructure | InternetBandwidth | PowerSupply
      | TransportationAccess | HotelAvailability | HospitalBeds | RecreationalAndTouristAttractions => Infrastructure
    case MinimumWageNonagri | MonthlyOfficeSpaceRental | GradeA | GradeB | GradeC | MonthlyPowerRates
      | PezaItParks | DisasterPreparednessPlan | CrimeSolutionEfficiency => BusinessEnvironment
    case OpenInnovationEcosystem | NumberOfStartups | InnovationPolicyAndIncentives | NumberOfUnicorns => DigitalParameters
  }

  /** The position at which a field is read within its tab. */
  function Position(f: Field): (index: nat)
  {
    match f
    case TotalGraduates | OfficeRealEstate | MinimumWageNonagri | OpenInnovationEcosystem => 0
    case HigherEducationGraduates | TelcoInfrastructure | MonthlyOfficeSpaceRental | NumberOfStartups => 1
    case TechnicalVocationalGraduates | InternetBandwidth | GradeA | InnovationPolicyAndIncentives => 2
    case SeniorHighGraduates | PowerSupply | GradeB | NumberOfUnicorns => 3
    case CentersOfExcellence | TransportationAccess | GradeC => 4
    case CentersOfDevelopment | HotelAvailability | MonthlyPowerRates => 5
    case HigherEducationInstitutions | HospitalBeds | PezaItParks => 6
    case TechnicalVocationalInstitutions | RecreationalAndTouristAttractions | DisasterPreparednessPlan => 7
    case SchoolsOfferingSeniorHigh | CrimeSolutionEfficiency => 8
  }

  ghost predicate Distinct<T>(s: seq<T>)
  {
    forall i, j | 0 <= i < j < |s| :: s[i] != s[j]
  }

  ghost predicate Disjoint<T>(a: seq<T>, b: seq<T>)
  {
    forall i, j | 0 <= i < |a| && 0 <= j < |b| :: a[i] != b[j]
  }

  lemma {:induction false} DistinctConcat<T>(a: seq<T>, b: seq<T>)
    requires Distinct(a) && Distinct(b) && Disjoint(a, b)
    ensures Distinct(a + b)
  {
    forall i, j | 0 <= i < j < |a + b|
      ensures (a + b)[i] != (a + b)[j]
    {
      if j < |a| {
      } else if i < |a| {
        assert (a + b)[j] == b[j - |a|];
      } else {
        assert (a + b)[i] == b[i - |a|] && (a + b)[j] == b[j - |a|];
      }
    }
  }

  lemma {:induction false} DisjointConcat<T>(a: seq<T>, b: seq<T>, c: seq<T>)
    requires Disjoint(a, c) && Disjoint(b, c)
    ensures Disjoint(a + b, c)
  {
    forall i, j | 0 <= i < |a + b| && 0 <= j < |c| ensures (a + b)[i] != c[j] {
      if i >= |a| {
        assert (a + b)[i] == b[i - |a|];
      }
    }
  }

  /**
   * Each tab reads exactly its table's columns in column order; the Talent
   * tab reads one more field, the number of schools offering Senior High.
   */
  lemma FieldsCoverColumns(c: Category)
    ensures Fields(c) == ColumnFields(c) + (if c == Talent then [SchoolsOfferingSeniorHigh] else [])
  {
  }

  ghost predicate Placed(c: Category)
  {
    forall j | 0 <= j < |Fields(c)| :: TabOf(Fields(c)[j]) == c && Position(Fields(c)[j]) == j
  }

  lemma TalentPlaced() ensures Placed(Talent) {}
  lemma InfrastructurePlaced() ensures Placed(Infrastructure) {}
  lemma BusinessPlaced() ensures Placed(BusinessEnvironment) {}
  lemma DigitalPlaced() ensures Placed(DigitalParameters) {}

  /** The j-th field read from the tab of `c` belongs to that tab, at position j. */
  lemma FieldsPlaced(c: Category)
    ensures Placed(c)
  {
    match c
    case Talent => TalentPlaced();
    case Infrastructure => InfrastructurePlaced();
    case BusinessEnvironment => BusinessPlaced();
    case DigitalParameters => DigitalPlaced();
  }

  /** Every field is read from its own tab. */
  lemma FieldListed(f: Field)
    ensures f in Fields(TabOf(f))
  {
  }

  /** No tab reads a field twice and no two tabs read the same field. */
  lemma FieldsApart(c: Category, d: Category)
    ensures Distinct(Fields(c))
    ensures c != d ==> Disjoint(Fields(c), Fields(d))
  {
    FieldsPlaced(c);
    FieldsPlaced(d);
  }

  /** The table of category `c` has no repeated column. */
  lemma ColumnsDistinct(c: Category)
    ensures Distinct(Columns(c))
  {
    FieldsCoverColumns(c);
    FieldsApart(c, c);
    assert Distinct(CategoryColumns(c)) by {
      forall i, j | 0 <= i < j < |CategoryColumns(c)|
        ensures CategoryColumns(c)[i] != CategoryColumns(c)[j]
      {
        assert Fields(c)[i] == ColumnFields(c)[i] && Fields(c)[j] == ColumnFields(c)[j];
      }
    }
    DistinctConcat(BaseColumns, CategoryColumns(c));
  }

  /** The extra Talent field is not a column of the table of category `c`. */
  lemma SeniorHighNotColumn(c: Category)
    ensures Value(SchoolsOfferingSeniorHigh) !in Columns(c)
  {
    FieldsCoverColumns(c);
    FieldsApart(c, c);
    if Value(SchoolsOfferingSeniorHigh) in Columns(c) {
      var i :| 0 <= i < |Columns(c)| && Columns(c)[i] == Value(SchoolsOfferingSeniorHigh);
      assert ColumnFields(c)[i - |BaseColumns|] == SchoolsOfferingSeniorHigh;
      FieldsPlaced(c);
      assert false;
    }
  }

  /**
   * The table of category `c` has no repeated column, and the extra Talent
   * field is not a column of any table.
   */
  lemma ColumnsWellFormed(c: Category)
    ensures Distinct(Columns(c))
    ensures Value(SchoolsOfferingSeniorHigh) !in Columns(c)
  {
    ColumnsDistinct(c);
    SeniorHighNotColumn(c);
  }

  /** Each scraped field of a table is one of its columns, after Province, City and Population. */
  lemma ColumnFieldsAreColumns(c: Category)
    ensures Province in Columns(c) && City in Columns(c) && Population in Columns(c)
    ensures forall f | f in ColumnFields(c) :: Value(f) in Columns(c)
  {
    forall f | f in ColumnFields(c) ensures Value(f) in Columns(c) {
      var i :| 0 <= i < |ColumnFields(c)| && ColumnFields(c)[i] == f;
      assert Columns(c)[|BaseColumns| + i] == Value(f);
    }
  }

  /** Every table has the Province, City and Population columns. */
  lemma BaseColumnsPresent()
    ensures forall c: Category :: Province in Columns(c) && City in Columns(c) && Population in Columns(c)
  {
    forall c: Category ensures Province in Columns(c) && City in Columns(c) && Population in Columns(c) {
      assert Columns(c)[..3] == BaseColumns;
    }
  }
}
