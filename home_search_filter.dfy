/**
 * The four-field filter bar of the home page: its fields are renamed to the
 * search screen's filter names, the non-empty ones are put into a query, and
 * the arrow navigates to the search screen with that query.
 */
module HomeSearchFilter {
  import opened Wrappers
  import opened UrlQuery
  import SearchPage

  const SEARCH_PATH: string := "/scholarships/search?"

  datatype HomeField = Level | CountryField | Field | Deadline

  /** The fields in the order the state object declares them. */
  const HOME_FIELDS: seq<HomeField> := [Level, CountryField, Field, Deadline]

  /** `filterMapping`: the search filter each home field stands for. */
  function Mapped(h: HomeField): SearchPage.FilterKey {
    match h
    case Level => SearchPage.Levels
    case CountryField => SearchPage.Country
    case Field => SearchPage.FieldOfStudy
    case Deadline => SearchPage.DeadlineBefore
  }

  datatype HomeFilters = HomeFilters(level: string, country: string, field: string, deadline: string) {
    function Get(h: HomeField): string {
      match h
      case Level => level
      case CountryField => country
      case Field => field
      case Deadline => deadline
    }

    /** `{...prev, [name]: value}`. */
    function Set(h: HomeField, value: string): (r: HomeFilters)
      ensures r.Get(h) == value
      ensures forall g :: g != h ==> r.Get(g) == Get(g)
    {
      match h
      case Level => this.(level := value)
      case CountryField => this.(country := value)
      case Field => this.(field := value)
      case Deadline => this.(deadline := value)
    }
  }

  const EMPTY_HOME: HomeFilters := HomeFilters("", "", "", "")

  /** The query for `fields`: a pair per non-empty field, under its mapped name, in field order. */
  function HomeParamsOf(hf: HomeFilters, fields: seq<HomeField>): Params {
    if fields == [] then []
    else if hf.Get(fields[0]) != "" then
      [(SearchPage.KeyName(Mapped(fields[0])), hf.Get(fields[0]))] + HomeParamsOf(hf, fields[1..])
    else HomeParamsOf(hf, fields[1..])
  }

  function HomeParams(hf: HomeFilters): Params {
    HomeParamsOf(hf, HOME_FIELDS)
  }

  /** The search screen's filter record holding the four home values and nothing else. */
  function AsSearchFilters(hf: HomeFilters): (f: SearchPage.Filters)
    ensures forall h :: f.Get(Mapped(h)) == hf.Get(h)
    ensures f.fund_type == "" && f.sponsor_type == "" && f.scholarship_category == "" && f.language_requirement == ""
  {
    SearchPage.NO_FILTERS.(levels := hf.level, country := hf.country, field_of_study := hf.field,
                           deadline_before := hf.deadline)
  }

  /**
   * The home query is exactly the search screen's own query for the same
   * values: same names, same order, same values, empty fields dropped.
   */
  lemma HomeQueryIsSearchQuery(hf: HomeFilters)
    ensures HomeParams(hf) == SearchPage.QueryParams(AsSearchFilters(hf))
  {
    var f := AsSearchFilters(hf);
    SearchSideClosed(f);
    HomeSideClosed(hf);
    assert Mapped(Level) == SearchPage.Levels && Mapped(CountryField) == SearchPage.Country;
    assert Mapped(Field) == SearchPage.FieldOfStudy && Mapped(Deadline) == SearchPage.DeadlineBefore;
  }

  /** The search query of a record whose four other filters are empty, written out. */
  lemma SearchSideClosed(f: SearchPage.Filters)
    requires f.fund_type == "" && f.sponsor_type == "" && f.scholarship_category == "" && f.language_requirement == ""
    ensures SearchPage.QueryParams(f) ==
      Piece(SearchPage.KeyName(SearchPage.Levels), f.Get(SearchPage.Levels)) +
      (Piece(SearchPage.KeyName(SearchPage.Country), f.Get(SearchPage.Country)) +
      (Piece(SearchPage.KeyName(SearchPage.FieldOfStudy), f.Get(SearchPage.FieldOfStudy)) +
       Piece(SearchPage.KeyName(SearchPage.DeadlineBefore), f.Get(SearchPage.DeadlineBefore))))
  {
    var ks := SearchPage.FILTER_KEYS;
    var unused := [SearchPage.FundType, SearchPage.SponsorType, SearchPage.ScholarshipCategory];
    assert ks == [SearchPage.Levels] + ([SearchPage.Country] + ([SearchPage.FieldOfStudy] +
      (unused + ([SearchPage.DeadlineBefore] + [SearchPage.LanguageRequirement]))));
    FilterParamsAppend(f, [SearchPage.Levels], [SearchPage.Country] + ([SearchPage.FieldOfStudy] +
      (unused + ([SearchPage.DeadlineBefore] + [SearchPage.LanguageRequirement]))));
    FilterParamsAppend(f, [SearchPage.Country], [SearchPage.FieldOfStudy] +
      (unused + ([SearchPage.DeadlineBefore] + [SearchPage.LanguageRequirement])));
    FilterParamsAppend(f, [SearchPage.FieldOfStudy], unused + ([SearchPage.DeadlineBefore] + [SearchPage.LanguageRequirement]));
    FilterParamsAppend(f, unused, [SearchPage.DeadlineBefore] + [SearchPage.LanguageRequirement]);
    FilterParamsAppend(f, [SearchPage.DeadlineBefore], [SearchPage.LanguageRequirement]);
    OneKey(f, SearchPage.Levels);
    OneKey(f, SearchPage.Country);
    OneKey(f, SearchPage.FieldOfStudy);
    OneKey(f, SearchPage.DeadlineBefore);
    OneKey(f, SearchPage.LanguageRequirement);
    UnusedKeysEmpty(f);
  }

  /** The four filters the home bar never sets add nothing to the query. */
  lemma UnusedKeysEmpty(f: SearchPage.Filters)
    requires f.fund_type == "" && f.sponsor_type == "" && f.scholarship_category == ""
    ensures SearchPage.FilterParams(f, [SearchPage.FundType, SearchPage.SponsorType, SearchPage.ScholarshipCategory]) == []
  {
    OneKey(f, SearchPage.FundType);
    OneKey(f, SearchPage.SponsorType);
    OneKey(f, SearchPage.ScholarshipCategory);
    FilterParamsAppend(f, [SearchPage.FundType], [SearchPage.SponsorType] + [SearchPage.ScholarshipCategory]);
    FilterParamsAppend(f, [SearchPage.SponsorType], [SearchPage.ScholarshipCategory]);
    assert [SearchPage.FundType, SearchPage.SponsorType, SearchPage.ScholarshipCategory] ==
      [SearchPage.FundType] + ([SearchPage.SponsorType] + [SearchPage.ScholarshipCategory]);
  }

  /** The query of a single key. */
  lemma OneKey(f: SearchPage.Filters, k: SearchPage.FilterKey)
    ensures SearchPage.FilterParams(f, [k]) == Piece(SearchPage.KeyName(k), f.Get(k))
  {
    assert [k][1..] == [];
  }

  /** The search query of a concatenation of key lists is the concatenation of their queries. */
  lemma {:induction false} FilterParamsAppend(f: SearchPage.Filters, a: seq<SearchPage.FilterKey>, b: seq<SearchPage.FilterKey>)
    ensures SearchPage.FilterParams(f, a + b) == SearchPage.FilterParams(f, a) + SearchPage.FilterParams(f, b)
  {
    if a == [] {
      assert a + b == b;
    } else {
      var head := Piece(SearchPage.KeyName(a[0]), f.Get(a[0]));
      assert (a + b)[0] == a[0] && (a + b)[1..] == a[1..] + b;
      calc {
        SearchPage.FilterParams(f, a + b);
        head + SearchPage.FilterParams(f, a[1..] + b);
        { FilterParamsAppend(f, a[1..], b); }
        head + (SearchPage.FilterParams(f, a[1..]) + SearchPage.FilterParams(f, b));
        (head + SearchPage.FilterParams(f, a[1..])) + SearchPage.FilterParams(f, b);
        SearchPage.FilterParams(f, a) + SearchPage.FilterParams(f, b);
      }
    }
  }

  /** The home query, written out field by field. */
  lemma HomeSideClosed(hf: HomeFilters)
    ensures HomeParams(hf) ==
      Piece(SearchPage.KeyName(Mapped(Level)), hf.Get(Level)) +
      (Piece(SearchPage.KeyName(Mapped(CountryField)), hf.Get(CountryField)) +
      (Piece(SearchPage.KeyName(Mapped(Field)), hf.Get(Field)) +
       Piece(SearchPage.KeyName(Mapped(Deadline)), hf.Get(Deadline))))
  {
    var hs := HOME_FIELDS;
    assert hs[4..] == [] && hs[0..] == hs;
    HomeStepAt(hf, 3);
    HomeStepAt(hf, 2);
    HomeStepAt(hf, 1);
    HomeStepAt(hf, 0);
  }

  lemma HomeStepAt(hf: HomeFilters, i: nat)
    requires i < |HOME_FIELDS|
    ensures HomeParamsOf(hf, HOME_FIELDS[i..]) ==
      Piece(SearchPage.KeyName(Mapped(HOME_FIELDS[i])), hf.Get(HOME_FIELDS[i])) + HomeParamsOf(hf, HOME_FIELDS[i + 1..])
  {
    var hs := HOME_FIELDS[i..];
    assert hs[0] == HOME_FIELDS[i] && hs[1..] == HOME_FIELDS[i + 1..];
  }

  /** A pair for a non-empty value, nothing for an empty one. */
  function Piece(name: string, value: string): Params {
    if value != "" then [(name, value)] else []
  }

  /** Each home field is found in the query under its mapped name exactly when it is non-empty, with its value. */
  lemma HomeQueryGet(hf: HomeFilters, h: HomeField)
    ensures Get(HomeParams(hf), SearchPage.KeyName(Mapped(h))) == if hf.Get(h) != "" then Some(hf.Get(h)) else None
  {
    HomeQueryIsSearchQuery(hf);
    SearchPage.FilterParamsGet(AsSearchFilters(hf), SearchPage.FILTER_KEYS, Mapped(h));
    SearchPage.KeysListedAndNamed(Mapped(h), Mapped(h));
  }

  /** Every pair of the query is a non-empty home field under its mapped name, so the search screen reads it back. */
  lemma HomeQueryPairs(hf: HomeFilters)
    ensures forall i :: 0 <= i < |HomeParams(hf)| ==>
      exists h :: HomeParams(hf)[i] == (SearchPage.KeyName(Mapped(h)), hf.Get(h)) && hf.Get(h) != ""
  {
    var f := AsSearchFilters(hf);
    var ps := HomeParams(hf);
    HomeQueryIsSearchQuery(hf);
    SearchPage.FilterParamsPairs(f, SearchPage.FILTER_KEYS);
    forall i | 0 <= i < |ps|
      ensures exists h :: ps[i] == (SearchPage.KeyName(Mapped(h)), hf.Get(h)) && hf.Get(h) != ""
    {
      var k :| k in SearchPage.FILTER_KEYS && ps[i] == (SearchPage.KeyName(k), f.Get(k)) && f.Get(k) != "";
      var h := HomeFieldFor(f, k);
      assert ps[i] == (SearchPage.KeyName(Mapped(h)), hf.Get(h));
    }
  }

  /** The home field behind a non-empty filter of a record built from the home bar. */
  function HomeFieldFor(f: SearchPage.Filters, k: SearchPage.FilterKey): (h: HomeField)
    requires f.fund_type == "" && f.sponsor_type == "" && f.scholarship_category == "" && f.language_requirement == ""
    requires f.Get(k) != ""
    ensures Mapped(h) == k
  {
    match k
    case Levels => Level
    case Country => CountryField
    case FieldOfStudy => Field
    case DeadlineBefore => Deadline
  }

  /** Following the arrow fills exactly the four mapped filters of a fresh search screen. */
  lemma ArrowReachesSearchFilters(hf: HomeFilters)
    ensures SearchPage.FromUrl(SearchPage.NO_FILTERS, Parse(Serialize(HomeParams(hf)))) == AsSearchFilters(hf)
  {
    HomeQueryIsSearchQuery(hf);
    SearchPage.UrlRoundTrip(AsSearchFilters(hf));
  }

  /** The navigation target: always the search path with its `?`, even for an empty query. */
  function Destination(ps: Params): (url: string)
    ensures |url| >= |SEARCH_PATH| && url[..|SEARCH_PATH|] == SEARCH_PATH
    ensures ps == [] ==> url == SEARCH_PATH
  {
    SEARCH_PATH + Serialize(ps)
  }

  class HomeSearchFilter {
    var values: HomeFilters

    constructor ()
      ensures values == EMPTY_HOME
    {
      values := EMPTY_HOME;
    }

    /** `handleFilterChange`: only the named field changes. */
    method HandleFilterChange(h: HomeField, value: string)
      modifies this
      ensures values == old(values).Set(h, value)
    {
      values := values.Set(h, value);
    }

    /** `handleArrowClick`: the loop appends each non-empty field under its mapped name; the result is where the router goes. */
    method HandleArrowClick() returns (url: string)
      ensures url == Destination(HomeParams(values))
    {
      var ps: Params := [];
      var i := 0;
      assert HOME_FIELDS[0..] == HOME_FIELDS;
      while i < |HOME_FIELDS|
        invariant 0 <= i <= |HOME_FIELDS|
        invariant ps + HomeParamsOf(values, HOME_FIELDS[i..]) == HomeParams(values)
      {
        var h := HOME_FIELDS[i];
        assert HOME_FIELDS[i..][1..] == HOME_FIELDS[i + 1..];
        if values.Get(h) != "" {
          ps := ps + [(SearchPage.KeyName(Mapped(h)), values.Get(h))];
        }
        i := i + 1;
      }
      assert HOME_FIELDS[i..] == [];
      assert ps == HomeParams(values);
      url := Destination(ps);
    }
  }
}
