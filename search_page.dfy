/**
 * The advanced search screen: eight text filters read from and written to the
 * address, the listing request built from the non-empty ones, the sort
 * selector, the option lists (de-duplicated by id) shown beside the results,
 * and the bookmark toggle that keeps the signed-in user's saved ids.
 */
module SearchPage {
  import opened Wrappers
  import opened Text
  import opened JsValues
  import opened Http
  import opened Storage
  import opened UrlQuery

  const SCHOLARSHIPS_URL: string := "http://localhost:8000/api/scholarships/"
  const SAVED_URL: string := "http://localhost:8000/api/user/saved-scholarships/"
  const FETCH_FAILED_PREFIX: string := "Failed to fetch scholarships: "
  const ALREADY_EXISTS: string := "already exists"

  // ---------------------------------------------------------------- filters

  datatype FilterKey =
    | Levels | Country | FieldOfStudy | FundType | SponsorType | ScholarshipCategory | DeadlineBefore | LanguageRequirement

  /** The filter keys in the order the record declares them. */
  const FILTER_KEYS: seq<FilterKey> :=
    [Levels, Country, FieldOfStudy, FundType, SponsorType, ScholarshipCategory, DeadlineBefore, LanguageRequirement]

  /** The name a filter goes by in the record, in the address and in the listing request. */
  function KeyName(k: FilterKey): string {
    match k
    case Levels => "levels"
    case Country => "country"
    case FieldOfStudy => "field_of_study"
    case FundType => "fund_type"
    case SponsorType => "sponsor_type"
    case ScholarshipCategory => "scholarship_category"
    case DeadlineBefore => "deadline_before"
    case LanguageRequirement => "language_requirement"
  }

  /** Every key is listed, and different keys have different names. */
  lemma KeysListedAndNamed(k: FilterKey, l: FilterKey)
    ensures k in FILTER_KEYS
    ensures k != l ==> KeyName(k) != KeyName(l)
  {
  }

  datatype Filters = Filters(
    levels: string, country: string, field_of_study: string, fund_type: string,
    sponsor_type: string, scholarship_category: string, deadline_before: string, language_requirement: string)
  {
    function Get(k: FilterKey): string {
      match k
      case Levels => levels
      case Country => country
      case FieldOfStudy => field_of_study
      case FundType => fund_type
      case SponsorType => sponsor_type
      case ScholarshipCategory => scholarship_category
      case DeadlineBefore => deadline_before
      case LanguageRequirement => language_requirement
    }

    /** `{...prev, [key]: value}`. */
    function Set(k: FilterKey, value: string): (r: Filters)
      ensures r.Get(k) == value
      ensures forall l :: l != k ==> r.Get(l) == Get(l)
    {
      match k
      case Levels => this.(levels := value)
      case Country => this.(country := value)
      case FieldOfStudy => this.(field_of_study := value)
      case FundType => this.(fund_type := value)
      case SponsorType => this.(sponsor_type := value)
      case ScholarshipCategory => this.(scholarship_category := value)
      case DeadlineBefore => this.(deadline_before := value)
      case LanguageRequirement => this.(language_requirement := value)
    }
  }

  const NO_FILTERS: Filters := Filters("", "", "", "", "", "", "", "")

  lemma NoFiltersEmpty(k: FilterKey)
    ensures NO_FILTERS.Get(k) == ""
  {
  }

  /** Two filter records that agree on every key are the same record. */
  lemma FiltersEqual(a: Filters, b: Filters)
    requires forall k :: a.Get(k) == b.Get(k)
    ensures a == b
  {
    assert a.Get(Levels) == b.Get(Levels) && a.Get(Country) == b.Get(Country);
    assert a.Get(FieldOfStudy) == b.Get(FieldOfStudy) && a.Get(FundType) == b.Get(FundType);
    assert a.Get(SponsorType) == b.Get(SponsorType) && a.Get(ScholarshipCategory) == b.Get(ScholarshipCategory);
    assert a.Get(DeadlineBefore) == b.Get(DeadlineBefore) && a.Get(LanguageRequirement) == b.Get(LanguageRequirement);
  }

  // ------------------------------------------------------ the listing query

  /** The pairs the listing request carries for `keys`: one per key whose filter is non-empty, in key order. */
  function FilterParams(f: Filters, keys: seq<FilterKey>): Params {
    if keys == [] then []
    else if f.Get(keys[0]) != "" then [(KeyName(keys[0]), f.Get(keys[0]))] + FilterParams(f, keys[1..])
    else FilterParams(f, keys[1..])
  }

  /** The query of the listing request for a filter record. */
  function QueryParams(f: Filters): Params {
    FilterParams(f, FILTER_KEYS)
  }

  /** A key's name is found in the query exactly when its filter is non-empty, with the filter's value. */
  lemma {:induction false} FilterParamsGet(f: Filters, keys: seq<FilterKey>, k: FilterKey)
    ensures Get(FilterParams(f, keys), KeyName(k)) == if k in keys && f.Get(k) != "" then Some(f.Get(k)) else None
  {
    if keys != [] {
      FilterParamsGet(f, keys[1..], k);
      KeysListedAndNamed(keys[0], k);
      assert k in keys <==> k == keys[0] || k in keys[1..];
    }
  }

  /** Every pair of the query names a filter and carries its non-empty value. */
  lemma {:induction false} FilterParamsPairs(f: Filters, keys: seq<FilterKey>)
    ensures forall i :: 0 <= i < |FilterParams(f, keys)| ==>
      exists k :: k in keys && FilterParams(f, keys)[i] == (KeyName(k), f.Get(k)) && f.Get(k) != ""
  {
    if keys != [] {
      FilterParamsPairs(f, keys[1..]);
      var ps := FilterParams(f, keys);
      var rest := FilterParams(f, keys[1..]);
      forall i | 0 <= i < |FilterParams(f, keys)|
        ensures exists k :: k in keys && FilterParams(f, keys)[i] == (KeyName(k), f.Get(k)) && f.Get(k) != ""
      {
        if f.Get(keys[0]) != "" && i == 0 {
          assert keys[0] in keys && ps[0] == (KeyName(keys[0]), f.Get(keys[0]));
        } else {
          var j := if f.Get(keys[0]) != "" then i - 1 else i;
          assert ps[i] == rest[j];
          var k :| k in keys[1..] && rest[j] == (KeyName(k), f.Get(k)) && f.Get(k) != "";
          assert k in keys && ps[i] == (KeyName(k), f.Get(k)) && f.Get(k) != "";
        }
      }
    } else {
      assert FilterParams(f, keys) == [];
    }
  }

  /**
   * The listing query holds exactly the non-empty filters: each under its own
   * name with its value, nothing else, and it survives the trip through the
   * address unchanged.
   */
  lemma QueryHoldsNonEmptyFilters(f: Filters)
    ensures forall k :: Get(QueryParams(f), KeyName(k)) == if f.Get(k) != "" then Some(f.Get(k)) else None
    ensures forall i :: 0 <= i < |QueryParams(f)| ==>
      exists k :: QueryParams(f)[i] == (KeyName(k), f.Get(k)) && f.Get(k) != ""
    ensures Parse(Serialize(QueryParams(f))) == QueryParams(f)
    ensures QueryParams(f) == [] <==> f == NO_FILTERS
  {
    forall k ensures Get(QueryParams(f), KeyName(k)) == if f.Get(k) != "" then Some(f.Get(k)) else None {
      FilterParamsGet(f, FILTER_KEYS, k);
      KeysListedAndNamed(k, k);
    }
    FilterParamsPairs(f, FILTER_KEYS);
    ParseSerialize(QueryParams(f));
    if QueryParams(f) == [] {
      forall k ensures f.Get(k) == NO_FILTERS.Get(k) {
        assert Get(QueryParams(f), KeyName(k)).None?;
        NoFiltersEmpty(k);
      }
      FiltersEqual(f, NO_FILTERS);
    } else {
      var k :| QueryParams(f)[0] == (KeyName(k), f.Get(k)) && f.Get(k) != "";
      NoFiltersEmpty(k);
    }
  }

  /**
   * The loop of the listing effect: `Object.entries(filters).forEach`, appending
   * every non-empty value under its key.
   */
  method BuildQuery(f: Filters) returns (ps: Params)
    ensures ps == QueryParams(f)
  {
    ps := [];
    var i := 0;
    while i < |FILTER_KEYS|
      invariant 0 <= i <= |FILTER_KEYS|
      invariant ps + FilterParams(f, FILTER_KEYS[i..]) == QueryParams(f)
    {
      var k := FILTER_KEYS[i];
      ghost var rest := FilterParams(f, FILTER_KEYS[i + 1..]);
      assert FILTER_KEYS[i..][1..] == FILTER_KEYS[i + 1..];
      if f.Get(k) != "" {
        assert FilterParams(f, FILTER_KEYS[i..]) == [(KeyName(k), f.Get(k))] + rest;
        assert ps + [(KeyName(k), f.Get(k))] + rest == ps + ([(KeyName(k), f.Get(k))] + rest);
        ps := ps + [(KeyName(k), f.Get(k))];
      } else {
        assert FilterParams(f, FILTER_KEYS[i..]) == rest;
      }
      i := i + 1;
    }
  }

  /** The listing request: always a `?`, followed by the query (empty when no filter is set). */
  function ListingFetch(ps: Params): Fetch {
    Fetch(GET, SCHOLARSHIPS_URL + "?" + Serialize(ps), None, None)
  }

  // ------------------------------------------------- filters from the address

  /** The value the address gives a filter: the first one under its name, when it is non-empty. */
  function UrlValue(ps: Params, k: FilterKey): Option<string> {
    var v := Get(ps, KeyName(k));
    if v.Some? && v.value != "" then v else None
  }

  /** One step of the address loop: a non-empty value replaces the filter. */
  function ApplyUrlValue(f: Filters, ps: Params, k: FilterKey): Filters {
    var v := UrlValue(ps, k);
    if v.Some? then f.Set(k, v.value) else f
  }

  function ApplyUrlValues(f: Filters, ps: Params, keys: seq<FilterKey>): Filters
    decreases |keys|
  {
    if keys == [] then f else ApplyUrlValues(ApplyUrlValue(f, ps, keys[0]), ps, keys[1..])
  }

  /** The filters after reading the address, starting from `f`. */
  function FromUrl(f: Filters, ps: Params): Filters {
    ApplyUrlValues(f, ps, FILTER_KEYS)
  }

  lemma {:induction false} ApplyUrlValuesGet(f: Filters, ps: Params, keys: seq<FilterKey>, k: FilterKey)
    ensures ApplyUrlValues(f, ps, keys).Get(k) == if k in keys && UrlValue(ps, k).Some? then UrlValue(ps, k).value else f.Get(k)
    decreases |keys|
  {
    if keys != [] {
      ApplyUrlValuesGet(ApplyUrlValue(f, ps, keys[0]), ps, keys[1..], k);
      assert k in keys <==> k == keys[0] || k in keys[1..];
    }
  }

  /**
   * Reading the address overwrites a filter exactly when its parameter is
   * present and non-empty; with no such parameter the filters are unchanged.
   */
  lemma FromUrlOverwritesNonEmpty(f: Filters, ps: Params)
    ensures forall k :: FromUrl(f, ps).Get(k) == if UrlValue(ps, k).Some? then UrlValue(ps, k).value else f.Get(k)
    ensures (forall k :: UrlValue(ps, k).None?) ==> FromUrl(f, ps) == f
  {
    forall k ensures FromUrl(f, ps).Get(k) == if UrlValue(ps, k).Some? then UrlValue(ps, k).value else f.Get(k) {
      ApplyUrlValuesGet(f, ps, FILTER_KEYS, k);
      KeysListedAndNamed(k, k);
    }
    if forall k :: UrlValue(ps, k).None? {
      FiltersEqual(FromUrl(f, ps), f);
    }
  }

  /** Whether the address gives a value to one of `keys`. */
  predicate AnyUrlValueIn(ps: Params, keys: seq<FilterKey>) {
    keys != [] && (UrlValue(ps, keys[0]).Some? || AnyUrlValueIn(ps, keys[1..]))
  }

  lemma {:induction false} AnyUrlValueInKeys(ps: Params, keys: seq<FilterKey>)
    ensures AnyUrlValueIn(ps, keys) <==> exists k :: k in keys && UrlValue(ps, k).Some?
  {
    if keys != [] {
      AnyUrlValueInKeys(ps, keys[1..]);
      assert forall k :: k in keys <==> k == keys[0] || k in keys[1..];
    }
  }

  /** Some filter has a value in the address exactly when one of the listed keys does. */
  lemma AnyUrlValue(ps: Params)
    ensures AnyUrlValueIn(ps, FILTER_KEYS) <==> exists k :: UrlValue(ps, k).Some?
  {
    AnyUrlValueInKeys(ps, FILTER_KEYS);
    if k :| UrlValue(ps, k).Some? {
      KeysListedAndNamed(k, k);
    }
  }
  /**
   * The loop of the page's first effect: each key whose address value is
   * non-empty replaces its filter, and the flag records whether any did.
   */
  method ReadFiltersFromUrl(start: Filters, ps: Params) returns (next: Filters, changed: bool)
    ensures next == FromUrl(start, ps)
    ensures forall k :: next.Get(k) == if UrlValue(ps, k).Some? then UrlValue(ps, k).value else start.Get(k)
    ensures changed <==> exists k :: UrlValue(ps, k).Some?
    ensures !changed ==> next == start
  {
    next := start;
    changed := false;
    var i := 0;
    assert FILTER_KEYS[0..] == FILTER_KEYS;
    while i < |FILTER_KEYS|
      invariant 0 <= i <= |FILTER_KEYS|
      invariant ApplyUrlValues(next, ps, FILTER_KEYS[i..]) == FromUrl(start, ps)
      invariant (changed || AnyUrlValueIn(ps, FILTER_KEYS[i..])) == AnyUrlValueIn(ps, FILTER_KEYS)
      invariant !changed ==> next == start
    {
      var k := FILTER_KEYS[i];
      assert FILTER_KEYS[i..][1..] == FILTER_KEYS[i + 1..];
      var value := Get(ps, KeyName(k));
      if value.Some? && value.value != "" {
        next := next.Set(k, value.value);
        changed := true;
      }
      i := i + 1;
    }
    AnyUrlValue(ps);
    FromUrlOverwritesNonEmpty(start, ps);
  }


  /** The address written from a filter record gives the same record back on a fresh screen. */
  lemma UrlRoundTrip(f: Filters)
    ensures FromUrl(NO_FILTERS, Parse(Serialize(QueryParams(f)))) == f
  {
    var ps := QueryParams(f);
    ParseSerialize(ps);
    var g := FromUrl(NO_FILTERS, ps);
    forall k ensures g.Get(k) == f.Get(k) {
      KeysListedAndNamed(k, k);
      NoFiltersEmpty(k);
      FilterParamsGet(f, FILTER_KEYS, k);
      ApplyUrlValuesGet(NO_FILTERS, ps, FILTER_KEYS, k);
    }
    FiltersEqual(g, f);
  }

  // ------------------------------------------------------------------- sort

  datatype SortField = Deadline | Title | CountryName | OpenDate | CreatedAt | LevelsField | FieldOfStudyField
  datatype Direction = Asc | Desc
  datatype SortConfig = SortConfig(field: SortField, direction: Direction)

  /** `handleSort`: the same field while ascending turns descending; anything else sorts ascending. */
  function NextSort(prev: SortConfig, field: SortField): (r: SortConfig)
    ensures r.field == field
    ensures r.direction == Desc <==> prev == SortConfig(field, Asc)
  {
    SortConfig(field, if prev.field == field && prev.direction == Asc then Desc else Asc)
  }

  /** Choosing one field repeatedly alternates its direction, starting from ascending for a new field. */
  lemma SortToggles(prev: SortConfig, field: SortField)
    ensures NextSort(NextSort(prev, field), field).direction != NextSort(prev, field).direction
    ensures prev.field != field ==> NextSort(prev, field) == SortConfig(field, Asc)
    ensures NextSort(NextSort(NextSort(prev, field), field), field) == NextSort(prev, field)
  {
  }

  // -------------------------------------------------------- option lists

  /** `self.findIndex(x => key(x) === k)`. */
  function FindIndex<T, K(==)>(xs: seq<T>, key: T -> K, k: K): (i: int)
    ensures -1 <= i < |xs|
    ensures i >= 0 ==> key(xs[i]) == k && forall j :: 0 <= j < i ==> key(xs[j]) != k
    ensures i == -1 ==> forall j :: 0 <= j < |xs| ==> key(xs[j]) != k
  {
    if xs == [] then -1
    else if key(xs[0]) == k then 0
    else
      var r := FindIndex(xs[1..], key, k);
      if r < 0 then -1 else r + 1
  }

  function KeepFirsts<T, K(==)>(xs: seq<T>, key: T -> K, from: nat): seq<T>
    requires from <= |xs|
    decreases |xs| - from
  {
    if from == |xs| then []
    else if FindIndex(xs, key, key(xs[from])) == from then [xs[from]] + KeepFirsts(xs, key, from + 1)
    else KeepFirsts(xs, key, from + 1)
  }

  /** `xs.filter((x, index, self) => index === self.findIndex(y => key(y) === key(x)))`. */
  function Dedup<T, K(==)>(xs: seq<T>, key: T -> K): seq<T> {
    KeepFirsts(xs, key, 0)
  }

  /** The keys of a list. */
  ghost function KeySet<T, K>(xs: seq<T>, key: T -> K): set<K> {
    set j | 0 <= j < |xs| :: key(xs[j])
  }

  /** The reference de-duplication: walk the list once, remembering the keys seen so far. */
  function DedupSeen<T, K(==)>(xs: seq<T>, key: T -> K, seen: set<K>): seq<T> {
    if xs == [] then []
    else if key(xs[0]) in seen then DedupSeen(xs[1..], key, seen)
    else [xs[0]] + DedupSeen(xs[1..], key, seen + {key(xs[0])})
  }

  /** An element is the first of its key exactly when no earlier element has that key. */
  lemma FirstIffUnseen<T, K>(xs: seq<T>, key: T -> K, from: nat)
    requires from < |xs|
    ensures FindIndex(xs, key, key(xs[from])) == from <==> key(xs[from]) !in KeySet(xs[..from], key)
  {
    var k := key(xs[from]);
    var pre := xs[..from];
    var i := FindIndex(xs, key, k);
    assert i != -1 by { assert key(xs[from]) == k; }
    assert i <= from;
    if k in KeySet(pre, key) {
      var j :| 0 <= j < from && key(pre[j]) == k;
      assert pre[j] == xs[j];
      assert i <= j;
    } else {
      forall j | 0 <= j < from ensures key(xs[j]) != k {
        assert pre[j] == xs[j];
        assert key(pre[j]) in KeySet(pre, key);
      }
    }
  }

  lemma KeySetGrows<T, K>(xs: seq<T>, key: T -> K, from: nat)
    requires from < |xs|
    ensures KeySet(xs[..from + 1], key) == KeySet(xs[..from], key) + {key(xs[from])}
  {
    var a := xs[..from + 1];
    assert a[from] == xs[from];
    forall j | 0 <= j < from ensures a[j] == xs[..from][j] {}
  }

  lemma {:induction false} KeepFirstsIsDedupSeen<T, K>(xs: seq<T>, key: T -> K, from: nat)
    requires from <= |xs|
    ensures KeepFirsts(xs, key, from) == DedupSeen(xs[from..], key, KeySet(xs[..from], key))
    decreases |xs| - from
  {
    if from < |xs| {
      KeepFirstsIsDedupSeen(xs, key, from + 1);
      FirstIffUnseen(xs, key, from);
      KeySetGrows(xs, key, from);
      var seen := KeySet(xs[..from], key);
      assert xs[from..][0] == xs[from] && xs[from..][1..] == xs[from + 1..];
      if key(xs[from]) in seen {
        assert seen + {key(xs[from])} == seen;
      }
    }
  }

  /** The index-based filter and the seen-set walk keep the same elements. */
  lemma DedupAgreesWithSeenSet<T, K>(xs: seq<T>, key: T -> K)
    ensures Dedup(xs, key) == DedupSeen(xs, key, {})
  {
    KeepFirstsIsDedupSeen(xs, key, 0);
    assert xs[0..] == xs && KeySet(xs[..0], key) == {};
  }

  lemma {:induction false} KeepFirstsShape<T, K>(xs: seq<T>, key: T -> K, from: nat)
    requires from <= |xs|
    ensures forall p :: 0 <= p < |KeepFirsts(xs, key, from)| ==>
      var i := FindIndex(xs, key, key(KeepFirsts(xs, key, from)[p]));
      from <= i && KeepFirsts(xs, key, from)[p] == xs[i]
    ensures forall p, q :: 0 <= p < q < |KeepFirsts(xs, key, from)| ==>
      FindIndex(xs, key, key(KeepFirsts(xs, key, from)[p])) < FindIndex(xs, key, key(KeepFirsts(xs, key, from)[q]))
    ensures forall i :: from <= i < |xs| && FindIndex(xs, key, key(xs[i])) == i ==> xs[i] in KeepFirsts(xs, key, from)
    decreases |xs| - from
  {
    if from < |xs| {
      KeepFirstsShape(xs, key, from + 1);
      var r := KeepFirsts(xs, key, from);
      var rest := KeepFirsts(xs, key, from + 1);
      if FindIndex(xs, key, key(xs[from])) == from {
        assert r == [xs[from]] + rest;
        assert forall p :: 0 < p < |r| ==> r[p] == rest[p - 1];
        assert r[0] == xs[from];
        forall p, q | 0 <= p < q < |r|
          ensures FindIndex(xs, key, key(r[p])) < FindIndex(xs, key, key(r[q]))
        {
          if p > 0 {
            assert r[p] == rest[p - 1] && r[q] == rest[q - 1];
          } else {
            assert r[q] == rest[q - 1];
          }
        }
      } else {
        assert r == rest;
      }
    }
  }

  /**
   * The option filter keeps, in list order, exactly the first element of each
   * id: every element kept is the first of its id, ids strictly follow their
   * first positions (so no id repeats), and every id of the list is kept.
   */
  lemma DedupKeepsFirstOccurrences<T, K>(xs: seq<T>, key: T -> K)
    ensures forall p :: 0 <= p < |Dedup(xs, key)| ==>
      0 <= FindIndex(xs, key, key(Dedup(xs, key)[p])) && Dedup(xs, key)[p] == xs[FindIndex(xs, key, key(Dedup(xs, key)[p]))]
    ensures forall p, q :: 0 <= p < q < |Dedup(xs, key)| ==>
      FindIndex(xs, key, key(Dedup(xs, key)[p])) < FindIndex(xs, key, key(Dedup(xs, key)[q]))
    ensures forall p, q :: 0 <= p < q < |Dedup(xs, key)| ==> key(Dedup(xs, key)[p]) != key(Dedup(xs, key)[q])
    ensures forall i :: 0 <= i < |xs| ==> xs[FindIndex(xs, key, key(xs[i]))] in Dedup(xs, key)
  {
    KeepFirstsShape(xs, key, 0);
    var r := Dedup(xs, key);
    forall i | 0 <= i < |xs| ensures xs[FindIndex(xs, key, key(xs[i]))] in r {
      var j := FindIndex(xs, key, key(xs[i]));
      assert FindIndex(xs, key, key(xs[j])) == j;
    }
  }

  /** `s.field || []` spread by `flatMap`: an array contributes its elements, any other value itself. */
  function Spread(v: JsValue): seq<JsValue> {
    if v.Arr? then v.items else [v]
  }

  function FlatField(ss: seq<JsValue>, field: string): seq<JsValue> {
    if ss == [] then [] else Spread(Or(Prop(ss[0], field), Arr([]))) + FlatField(ss[1..], field)
  }

  function IdOf(v: JsValue): JsValue { Prop(v, "id") }

  /** The options of one selector: every scholarship's entries under `field`, one per id. */
  function FieldOptions(scholarships: JsValue, field: string): seq<JsValue> {
    if scholarships.Arr? then Dedup(FlatField(scholarships.items, field), IdOf) else []
  }

  /** `s.country_detail?.name || s.country_name`. */
  function CountryOf(s: JsValue): JsValue {
    Or(Prop(Prop(s, "country_detail"), "name"), Prop(s, "country_name"))
  }

  function NamedCountries(ss: seq<JsValue>): seq<JsValue> {
    if ss == [] then []
    else if Truthy(CountryOf(ss[0])) then [CountryOf(ss[0])] + NamedCountries(ss[1..])
    else NamedCountries(ss[1..])
  }

  /** The country names offered, each once, in order of first appearance (before the sort). */
  function CountryOptions(scholarships: JsValue): seq<JsValue> {
    if scholarships.Arr? then Dedup(NamedCountries(scholarships.items), (v: JsValue) => v) else []
  }

  /** Each selector offers every id of its entries once, as first seen; countries likewise by name. */
  lemma OptionsAreDistinct(scholarships: JsValue, field: string)
    ensures forall p, q :: 0 <= p < q < |FieldOptions(scholarships, field)| ==>
      IdOf(FieldOptions(scholarships, field)[p]) != IdOf(FieldOptions(scholarships, field)[q])
    ensures forall p, q :: 0 <= p < q < |CountryOptions(scholarships)| ==>
      CountryOptions(scholarships)[p] != CountryOptions(scholarships)[q]
  {
    if scholarships.Arr? {
      DedupKeepsFirstOccurrences(FlatField(scholarships.items, field), IdOf);
      DedupKeepsFirstOccurrences(NamedCountries(scholarships.items), (v: JsValue) => v);
    }
  }

  /**
   * The selectors offer exactly the entries' ids (one entry per id) and the
   * entries' truthy countries, and nothing when the listing is not an array.
   */
  lemma OptionsCoverEntries(scholarships: JsValue, field: string)
    ensures !scholarships.Arr? ==> FieldOptions(scholarships, field) == [] && CountryOptions(scholarships) == []
    ensures scholarships.Arr? ==>
      forall o :: o in FieldOptions(scholarships, field) ==> o in FlatField(scholarships.items, field)
    ensures scholarships.Arr? ==>
      forall v :: v in FlatField(scholarships.items, field) ==>
        exists o :: o in FieldOptions(scholarships, field) && IdOf(o) == IdOf(v)
    ensures scholarships.Arr? ==>
      forall c :: c in CountryOptions(scholarships) <==> c in NamedCountries(scholarships.items)
    ensures forall c :: c in CountryOptions(scholarships) ==> Truthy(c)
  {
    if scholarships.Arr? {
      DedupCovers(FlatField(scholarships.items, field), IdOf);
      DedupCovers(NamedCountries(scholarships.items), (v: JsValue) => v);
      NamedCountriesTruthy(scholarships.items);
    }
  }

  /** A de-duplicated list holds only elements of the list and one element for every key of it. */
  lemma DedupCovers<T, K>(xs: seq<T>, key: T -> K)
    ensures forall o :: o in Dedup(xs, key) ==> o in xs
    ensures forall v :: v in xs ==> exists o :: o in Dedup(xs, key) && key(o) == key(v)
  {
    DedupKeepsFirstOccurrences(xs, key);
    var r := Dedup(xs, key);
    forall o | o in r ensures o in xs {
      var p :| 0 <= p < |r| && r[p] == o;
      assert xs[FindIndex(xs, key, key(r[p]))] == o;
    }
    forall v | v in xs ensures exists o :: o in r && key(o) == key(v) {
      var i :| 0 <= i < |xs| && xs[i] == v;
      var o := xs[FindIndex(xs, key, key(xs[i]))];
      assert o in r && key(o) == key(v);
    }
  }

  /** Only truthy countries are named. */
  lemma {:induction false} NamedCountriesTruthy(ss: seq<JsValue>)
    ensures forall c :: c in NamedCountries(ss) ==> Truthy(c)
  {
    if ss != [] {
      NamedCountriesTruthy(ss[1..]);
    }
  }

  // ------------------------------------------------------------ saved ids

  /** `GET saved-scholarships/` with the stored token. */
  function SavedListFetch(token: string): Fetch {
    Fetch(GET, SAVED_URL, None, Some(token))
  }

  /** `POST saved-scholarships/` with `{scholarship: id}`. */
  function SaveFetch(id: int, token: string): Fetch {
    Fetch(POST, SAVED_URL, Some(Obj([("scholarship", Num(id))])), Some(token))
  }

  /** `DELETE saved-scholarships/<record id>/`. */
  function DeleteFetch(record: JsValue, token: string): Fetch {
    Fetch(DELETE, SAVED_URL + ToStr(Prop(record, "id")) + "/", None, Some(token))
  }

  /** The number `Number(record.scholarship)` gives for a saved record, `None` for `NaN`. */
  function SavedNumber(record: JsValue): Option<int> {
    ToNumber(Prop(record, "scholarship"))
  }

  /** The ids of a list of saved records; `None` when a record is `null`, which throws. */
  function SavedIdsOf(records: seq<JsValue>): Option<set<int>> {
    if records == [] then Some({})
    else if !HasProperties(records[0]) then None
    else
      var rest := SavedIdsOf(records[1..]);
      if rest.None? then None
      else
        var n := SavedNumber(records[0]);
        Some(if n.Some? then rest.value + {n.value} else rest.value)
  }

  /**
   * The ids are found exactly when every record has properties, and then they
   * are exactly the numbers read from the records.
   */
  lemma {:induction false} SavedIdsOfSpec(records: seq<JsValue>)
    ensures SavedIdsOf(records).Some? <==> forall i :: 0 <= i < |records| ==> HasProperties(records[i])
    ensures SavedIdsOf(records).Some? ==>
      forall i :: 0 <= i < |records| && SavedNumber(records[i]).Some? ==> SavedNumber(records[i]).value in SavedIdsOf(records).value
    ensures SavedIdsOf(records).Some? ==>
      forall x :: x in SavedIdsOf(records).value ==> exists i :: 0 <= i < |records| && SavedNumber(records[i]) == Some(x)
  {
    if records != [] {
      SavedIdsOfSpec(records[1..]);
      var rest := SavedIdsOf(records[1..]);
      assert forall i :: 1 <= i < |records| ==> records[i] == records[1..][i - 1];
      if HasProperties(records[0]) && rest.None? {
        var i :| 0 <= i < |records[1..]| && !HasProperties(records[1..][i]);
        assert !HasProperties(records[i + 1]);
      }
      if HasProperties(records[0]) && rest.Some? {
        forall x | x in rest.value
          ensures exists i :: 0 <= i < |records| && SavedNumber(records[i]) == Some(x)
        {
          var j :| 0 <= j < |records[1..]| && SavedNumber(records[1..][j]) == Some(x);
          assert records[j + 1] == records[1..][j];
        }
      }
    }
  }

  /**
   * `new Set(data.map(saved => Number(saved.scholarship)))` on the listing body;
   * `None` when the body is not a list (there is no `map`) or holds a `null`
   * record. Ids that read as `NaN` are not kept.
   */
  function SavedIds(data: JsValue): (r: Option<set<int>>)
    ensures r.Some? ==> data.Arr?
  {
    if data.Arr? then SavedIdsOf(data.items) else None
  }

  /** What the search for the saved record of an id finds: the record, nothing, or a thrown TypeError. */
  datatype Search = Hit(record: JsValue) | Miss | Throws

  /** `items.find(item => item.scholarship === id)`: a `null` item met before the match throws. */
  function FindSaved(items: seq<JsValue>, id: int): (r: Search)
    ensures r.Hit? ==> exists i :: 0 <= i < |items| && items[i] == r.record && Prop(r.record, "scholarship") == Num(id)
    ensures r.Miss? <==> forall i :: 0 <= i < |items| ==> HasProperties(items[i]) && Prop(items[i], "scholarship") != Num(id)
  {
    if items == [] then Miss
    else if !HasProperties(items[0]) then Throws
    else if Prop(items[0], "scholarship") == Num(id) then Hit(items[0])
    else
      var r := FindSaved(items[1..], id);
      assert forall i :: 1 <= i < |items| ==> items[i] == items[1..][i - 1];
      if r.Hit? then
        var i :| 0 <= i < |items[1..]| && items[1..][i] == r.record && Prop(r.record, "scholarship") == Num(id);
        assert items[i + 1] == r.record;
        r
      else r
  }

  /** Every item before index `i` is readable and is not the record of `id`. */
  predicate NoMatchBefore(items: seq<JsValue>, id: int, i: nat)
    requires i <= |items|
  {
    forall j :: 0 <= j < i ==> HasProperties(items[j]) && Prop(items[j], "scholarship") != Num(id)
  }

  /**
   * `find` stops at the first item that throws or matches: a hit is the first
   * match, and the search throws exactly when an unreadable item comes first.
   */
  lemma {:induction false} FindSavedIsFirst(items: seq<JsValue>, id: int)
    ensures FindSaved(items, id).Hit? ==>
      exists i :: 0 <= i < |items| && items[i] == FindSaved(items, id).record
        && Prop(items[i], "scholarship") == Num(id) && NoMatchBefore(items, id, i)
    ensures FindSaved(items, id).Throws? <==>
      exists i :: 0 <= i < |items| && !HasProperties(items[i]) && NoMatchBefore(items, id, i)
    decreases |items|
  {
    if items == [] {
    } else if !HasProperties(items[0]) || Prop(items[0], "scholarship") == Num(id) {
      assert NoMatchBefore(items, id, 0);
      if FindSaved(items, id).Throws? {
        assert !HasProperties(items[0]);
      } else {
        forall i | 0 < i <= |items|
          ensures !NoMatchBefore(items, id, i)
        {
          assert Prop(items[0], "scholarship") == Num(id);
        }
      }
    } else {
      var tail := items[1..];
      FindSavedIsFirst(tail, id);
      assert FindSaved(items, id) == FindSaved(tail, id);
      forall i | 0 <= i < |tail|
        ensures NoMatchBefore(items, id, i + 1) <==> NoMatchBefore(tail, id, i)
      {
        if NoMatchBefore(tail, id, i) {
          forall j | 0 <= j < i + 1
            ensures HasProperties(items[j]) && Prop(items[j], "scholarship") != Num(id)
          {
            if j > 0 { assert items[j] == tail[j - 1]; }
          }
        }
        if NoMatchBefore(items, id, i + 1) {
          forall j | 0 <= j < i
            ensures HasProperties(tail[j]) && Prop(tail[j], "scholarship") != Num(id)
          {
            assert tail[j] == items[j + 1];
          }
        }
      }
      if FindSaved(items, id).Hit? {
        var i :| 0 <= i < |tail| && tail[i] == FindSaved(tail, id).record
          && Prop(tail[i], "scholarship") == Num(id) && NoMatchBefore(tail, id, i);
        assert items[i + 1] == tail[i];
      }
      if FindSaved(items, id).Throws? {
        var i :| 0 <= i < |tail| && !HasProperties(tail[i]) && NoMatchBefore(tail, id, i);
        assert items[i + 1] == tail[i];
      }
      if exists i :: 0 <= i < |items| && !HasProperties(items[i]) && NoMatchBefore(items, id, i) {
        var i :| 0 <= i < |items| && !HasProperties(items[i]) && NoMatchBefore(items, id, i);
        assert i > 0;
        assert tail[i - 1] == items[i];
      }
    }
  }

  /** The saved record the unsave path deletes, given the listing reply: `find`'s first match (see `FindSavedIsFirst`). */
  function UnsaveTarget(listReply: Exchange, id: int): (t: Search)
    ensures listReply.NetworkError? ==> t.Throws?
    ensures listReply.Response? && !IsOk(listReply.status) ==> t.Miss?
    ensures Succeeded(listReply) && (listReply.body.NotJson? || !listReply.body.value.Arr?) ==> t.Throws?
    ensures t.Hit? ==>
      && Succeeded(listReply) && listReply.body.Json? && listReply.body.value.Arr?
      && t.record in listReply.body.value.items && Prop(t.record, "scholarship") == Num(id)
    ensures Succeeded(listReply) && listReply.body.Json? && listReply.body.value.Arr? ==>
      (t.Miss? <==> forall v :: v in listReply.body.value.items ==> HasProperties(v) && Prop(v, "scholarship") != Num(id))
    ensures Succeeded(listReply) && listReply.body.Json? && listReply.body.value.Arr? ==>
      t == FindSaved(listReply.body.value.items, id)
  {
    match listReply
    case NetworkError(_) => Throws
    case Response(status, _, body) =>
      if !IsOk(status) then Miss
      else if body.NotJson? || !body.value.Arr? then Throws
      else FindSaved(body.value.items, id)
  }

  /** `errorData[0]?.includes(text)` on the first complaint: a string holds it as a substring, an array as an element. */
  predicate Includes(v: JsValue, text: string) {
    match v
    case Str(s) => Contains(s, text)
    case Arr(items) => Str(text) in items
    case _ => false
  }

  /** A 400 whose parsed body (or `{}`) has a truthy `non_field_errors` whose first entry mentions "already exists". */
  predicate AlreadySaved(reply: Exchange)
    ensures AlreadySaved(reply) ==> reply.Response? && reply.status == 400 && !Succeeded(reply)
    ensures reply.Response? && reply.body.NotJson? ==> !AlreadySaved(reply)
    ensures reply.Response? && reply.status == 400 && reply.body.Json? && reply.body.value.Obj?
            && Prop(reply.body.value, "non_field_errors").Arr?
            && Prop(reply.body.value, "non_field_errors").items != []
            && Includes(Prop(reply.body.value, "non_field_errors").items[0], ALREADY_EXISTS) ==>
      AlreadySaved(reply)
  {
    reply.Response? && reply.status == 400 &&
    var data := if reply.body.Json? then reply.body.value else Obj([]);
    HasProperties(data) && Truthy(Prop(data, "non_field_errors"))
    && Includes(First(Prop(data, "non_field_errors")), ALREADY_EXISTS)
  }

  /** The save request counts as done: an ok status, or the backend saying the bookmark already exists. */
  predicate SaveAccepted(reply: Exchange)
    ensures reply.NetworkError? ==> !SaveAccepted(reply)
    ensures reply.Response? && reply.status != 400 ==> (SaveAccepted(reply) <==> IsOk(reply.status))
    ensures reply.Response? && reply.status == 400 ==> (SaveAccepted(reply) <==> AlreadySaved(reply))
  {
    Succeeded(reply) || AlreadySaved(reply)
  }

  /** The listing body is kept whole when it parses; otherwise the old list stays and the error is set. */
  function ListingError(reply: Exchange): (e: Option<string>)
    ensures e.None? <==> Succeeded(reply) && reply.body.Json? && HasProperties(reply.body.value)
    ensures reply.Response? && !IsOk(reply.status) ==>
      e == Some(FETCH_FAILED_PREFIX + IntToDecimal(reply.status) + " " + reply.statusText)
    ensures reply.NetworkError? ==> e == Some(reply.message)
    ensures Succeeded(reply) && reply.body.NotJson? ==> e == Some(reply.body.message)
    ensures Succeeded(reply) && reply.body.Json? && !HasProperties(reply.body.value) ==>
      e == Some(PropertyReadMessage(reply.body.value, "results"))
  {
    match reply
    case NetworkError(m) => Some(m)
    case Response(status, statusText, body) =>
      if !IsOk(status) then Some(FETCH_FAILED_PREFIX + IntToDecimal(status) + " " + statusText)
      else if body.NotJson? then Some(body.message)
      else if !HasProperties(body.value) then Some(PropertyReadMessage(body.value, "results"))
      else None
  }

  class SearchPage {
    var filters: Filters
    var sort: SortConfig
    var isDropdownOpen: bool
    var scholarships: JsValue
    var loading: bool
    var error: Option<string>
    var saving: set<int>
    var saved: set<int>
    const store: LocalStorage

    constructor (store: LocalStorage)
      ensures this.store == store && filters == NO_FILTERS && sort == SortConfig(Deadline, Asc) && !isDropdownOpen
      ensures scholarships == Arr([]) && loading && error.None? && saving == {} && saved == {}
    {
      this.store := store;
      filters := NO_FILTERS;
      sort := SortConfig(Deadline, Asc);
      isDropdownOpen := false;
      scholarships := Arr([]);
      loading := true;
      error := None;
      saving := {};
      saved := {};
    }

    /** `handleFilterChange`: only the named filter changes. */
    method HandleFilterChange(k: FilterKey, value: string)
      modifies this
      ensures filters == old(filters).Set(k, value)
      ensures sort == old(sort) && isDropdownOpen == old(isDropdownOpen) && saved == old(saved) && saving == old(saving)
      ensures scholarships == old(scholarships) && error == old(error) && loading == old(loading)
    {
      filters := filters.Set(k, value);
    }

    /** `clearAllFilters`: every filter empty, so the listing query is empty. */
    method ClearAllFilters()
      modifies this
      ensures filters == NO_FILTERS && QueryParams(filters) == []
      ensures unchanged(this`sort, this`isDropdownOpen, this`saved, this`saving, this`scholarships, this`error, this`loading)
    {
      filters := NO_FILTERS;
    }

    /** `handleSort`: the sort moves on and the dropdown closes. */
    method HandleSort(field: SortField)
      modifies this
      ensures sort == NextSort(old(sort), field) && !isDropdownOpen
      ensures filters == old(filters) && saved == old(saved) && saving == old(saving)
      ensures scholarships == old(scholarships) && error == old(error) && loading == old(loading)
    {
      sort := NextSort(sort, field);
      isDropdownOpen := false;
    }

    /** The sort button: `setIsDropdownOpen(prev => !prev)`. */
    method ToggleDropdown()
      modifies this
      ensures isDropdownOpen == !old(isDropdownOpen)
      ensures sort == old(sort) && filters == old(filters) && saved == old(saved) && saving == old(saving)
      ensures scholarships == old(scholarships) && error == old(error) && loading == old(loading)
    {
      isDropdownOpen := !isDropdownOpen;
    }

    /**
     * The address effect: each of the eight names is looked up and a non-empty
     * value replaces its filter; `changed` tells whether any did.
     */
    method InitFromUrl(ps: Params) returns (changed: bool)
      modifies this
      ensures filters == FromUrl(old(filters), ps)
      ensures forall k :: filters.Get(k) == if UrlValue(ps, k).Some? then UrlValue(ps, k).value else old(filters).Get(k)
      ensures changed <==> exists k :: UrlValue(ps, k).Some?
      ensures !changed ==> filters == old(filters)
      ensures unchanged(this`sort, this`isDropdownOpen, this`saved, this`saving, this`scholarships, this`error, this`loading)
    {
      var next;
      next, changed := ReadFiltersFromUrl(filters, ps);
      if changed {
        filters := next;
      }
    }

    /**
     * The listing effect: the request carries the non-empty filters; a good
     * reply replaces the list with `data.results || []`; any failure sets the
     * error and keeps the old list. A success does not clear an earlier error.
     */
    method FetchScholarships(reply: Exchange) returns (call: Fetch)
      modifies this
      ensures call == ListingFetch(QueryParams(old(filters)))
      ensures !loading
      ensures ListingError(reply).None? ==>
        scholarships == Or(Prop(reply.body.value, "results"), Arr([])) && error == old(error)
      ensures ListingError(reply).Some? ==> scholarships == old(scholarships) && error == ListingError(reply)
      ensures filters == old(filters) && sort == old(sort) && isDropdownOpen == old(isDropdownOpen)
      ensures saved == old(saved) && saving == old(saving)
    {
      loading := true;
      var ps := BuildQuery(filters);
      call := ListingFetch(ps);
      var failure := ListingError(reply);
      if failure.Some? {
        error := failure;
      } else {
        scholarships := Or(Prop(reply.body.value, "results"), Arr([]));
      }
      loading := false;
    }

    /**
     * `fetchSavedScholarships`, run when a user is signed in: with a stored token,
     * an ok reply that maps cleanly replaces the saved ids; anything else keeps them.
     */
    method FetchSavedScholarships(reply: Exchange) returns (calls: seq<Fetch>)
      modifies this
      ensures !HasTruthy(store.items, AUTH_TOKEN) ==> calls == [] && saved == old(saved)
      ensures HasTruthy(store.items, AUTH_TOKEN) ==> calls == [SavedListFetch(store.items[AUTH_TOKEN])]
      ensures Succeeded(reply) && reply.body.Json? && SavedIds(reply.body.value).Some? && calls != [] ==>
        saved == SavedIds(reply.body.value).value
      ensures !(Succeeded(reply) && reply.body.Json? && SavedIds(reply.body.value).Some?) ==> saved == old(saved)
      ensures filters == old(filters) && sort == old(sort) && isDropdownOpen == old(isDropdownOpen) && saving == old(saving)
      ensures scholarships == old(scholarships) && error == old(error) && loading == old(loading)
    {
      calls := [];
      if !HasTruthy(store.items, AUTH_TOKEN) {
        return;
      }
      calls := [SavedListFetch(store.items[AUTH_TOKEN])];
      if Succeeded(reply) && reply.body.Json? {
        var ids := SavedIds(reply.body.value);
        if ids.Some? {
          saved := ids.value;
        }
      }
    }

    /**
     * `handleSaveScholarship`: signed out, nothing happens. Otherwise the id is
     * marked busy and unmarked at the end whatever happens; a saved id is removed
     * only after its record was found and deleted; an unsaved id is added when the
     * backend accepts it or says it already exists; every thrown failure alerts.
     */
    method HandleSaveScholarship(id: int, isAuthenticated: bool, listReply: Exchange, deleteReply: Exchange, saveReply: Exchange)
      returns (calls: seq<Fetch>, alerted: bool)
      modifies this
      ensures !isAuthenticated ==> calls == [] && !alerted && saved == old(saved) && saving == old(saving)
      ensures isAuthenticated ==> saving == old(saving) - {id}
      ensures saved - {id} == old(saved) - {id}
      ensures isAuthenticated && !HasTruthy(store.items, AUTH_TOKEN) ==> calls == [] && alerted && saved == old(saved)
      ensures isAuthenticated && HasTruthy(store.items, AUTH_TOKEN) && id !in old(saved) ==>
        && calls == [SaveFetch(id, store.items[AUTH_TOKEN])]
        && (id in saved <==> SaveAccepted(saveReply))
        && (alerted <==> !SaveAccepted(saveReply))
      ensures isAuthenticated && HasTruthy(store.items, AUTH_TOKEN) && id in old(saved) ==>
        && calls == [SavedListFetch(store.items[AUTH_TOKEN])] +
                    (if UnsaveTarget(listReply, id).Hit? then [DeleteFetch(UnsaveTarget(listReply, id).record, store.items[AUTH_TOKEN])] else [])
        && (id !in saved <==> UnsaveTarget(listReply, id).Hit? && Succeeded(deleteReply))
        && (alerted <==> UnsaveTarget(listReply, id).Throws? || (UnsaveTarget(listReply, id).Hit? && deleteReply.NetworkError?))
      ensures filters == old(filters) && sort == old(sort) && isDropdownOpen == old(isDropdownOpen)
      ensures scholarships == old(scholarships) && error == old(error) && loading == old(loading)
    {
      calls := [];
      alerted := false;
      if !isAuthenticated {
        return;
      }
      saving := saving + {id};
      if !HasTruthy(store.items, AUTH_TOKEN) {
        alerted := true;
      } else {
        var token := store.items[AUTH_TOKEN];
        if id in saved {
          calls := [SavedListFetch(token)];
          var target := UnsaveTarget(listReply, id);
          match target {
            case Throws =>
              alerted := true;
            case Miss =>
            case Hit(record) =>
              calls := calls + [DeleteFetch(record, token)];
              if deleteReply.NetworkError? {
                alerted := true;
              } else if Succeeded(deleteReply) {
                saved := saved - {id};
              }
          }
        } else {
          calls := [SaveFetch(id, token)];
          if SaveAccepted(saveReply) {
            saved := saved + {id};
          } else {
            alerted := true;
          }
        }
      }
      saving := saving - {id};
    }
  }
}
