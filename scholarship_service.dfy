/**
 * The scholarship endpoints of the API layer: the filtered listing, whose
 * query keeps every filter that is set (`0` and `false` included), the
 * single-scholarship and option reads, keyword search and the featured list
 * with their default limits, and the signed-in user's saved list and
 * applications, which always travel with the bearer token.
 */
module ScholarshipService {
  import opened Wrappers
  import opened Text
  import opened JsValues
  import opened Http
  import opened ApiService
  import opened UrlEncoding
  import opened UrlQuery

  const LISTING: string := "scholarships/"
  const FILTER_OPTIONS: string := "scholarships/filter-options/"
  const SAVED: string := "user/saved-scholarships/"
  const APPLICATIONS: string := "user/applications/"
  const SEARCH_LIMIT: int := 10
  const FEATURED_LIMIT: int := 8

  /** `value !== undefined && value !== null && value !== ''`. */
  predicate IsSet(v: JsValue) {
    !v.Undefined? && !v.Null? && v != Str("")
  }

  /** The query pairs for a filter object's entries: each set value as `String(value)`, in entry order. */
  function FilterQuery(filters: seq<(string, JsValue)>): Params {
    if filters == [] then []
    else if IsSet(filters[0].1) then [(filters[0].0, ToStr(filters[0].1))] + FilterQuery(filters[1..])
    else FilterQuery(filters[1..])
  }

  /**
   * The listing query keeps each set filter, in entry order, with its string
   * form (so `0` and `false` survive as "0" and "false"), and drops the rest.
   */
  lemma FilterQueryKeepsSetValues(filters: seq<(string, JsValue)>)
    ensures |FilterQuery(filters)| <= |filters|
    ensures FilterQuery(filters) == [] <==> forall i :: 0 <= i < |filters| ==> !IsSet(filters[i].1)
    ensures forall i :: 0 <= i < |FilterQuery(filters)| ==>
      exists j :: 0 <= j < |filters| && IsSet(filters[j].1) && FilterQuery(filters)[i] == (filters[j].0, ToStr(filters[j].1))
    ensures forall j :: 0 <= j < |filters| && IsSet(filters[j].1) ==> (filters[j].0, ToStr(filters[j].1)) in FilterQuery(filters)
  {
    FilterQueryPairsFromSetFilters(filters);
    FilterQuerySetFiltersKept(filters);
    forall i | 0 <= i < |FilterQuery(filters)|
      ensures exists j :: 0 <= j < |filters| && IsSet(filters[j].1) && FilterQuery(filters)[i] == (filters[j].0, ToStr(filters[j].1))
    {
      assert FilterQuery(filters)[i] in FilterQuery(filters);
    }
    if FilterQuery(filters) != [] {
      assert 0 < |FilterQuery(filters)|;
    }
  }

  /** Each query pair is the string form of a set filter. */
  lemma {:induction false} FilterQueryPairsFromSetFilters(filters: seq<(string, JsValue)>)
    ensures forall p :: p in FilterQuery(filters) ==>
      exists j :: 0 <= j < |filters| && IsSet(filters[j].1) && p == (filters[j].0, ToStr(filters[j].1))
  {
    if filters != [] {
      FilterQueryPairsFromSetFilters(filters[1..]);
      var head := (filters[0].0, ToStr(filters[0].1));
      var rest := FilterQuery(filters[1..]);
      assert FilterQuery(filters) == (if IsSet(filters[0].1) then [head] + rest else rest);
      forall p | p in FilterQuery(filters)
        ensures exists j :: 0 <= j < |filters| && IsSet(filters[j].1) && p == (filters[j].0, ToStr(filters[j].1))
      {
        if p in rest {
          var j :| 0 <= j < |filters[1..]| && IsSet(filters[1..][j].1) && p == (filters[1..][j].0, ToStr(filters[1..][j].1));
          assert filters[j + 1] == filters[1..][j];
        } else {
          assert IsSet(filters[0].1) && p == head;
        }
      }
    }
  }

  /** Every set filter is in the query under its string form, and there are no more pairs than filters. */
  lemma {:induction false} FilterQuerySetFiltersKept(filters: seq<(string, JsValue)>)
    ensures |FilterQuery(filters)| <= |filters|
    ensures forall j :: 0 <= j < |filters| && IsSet(filters[j].1) ==> (filters[j].0, ToStr(filters[j].1)) in FilterQuery(filters)
  {
    if filters != [] {
      FilterQuerySetFiltersKept(filters[1..]);
      var q := FilterQuery(filters);
      var rest := FilterQuery(filters[1..]);
      forall j | 0 <= j < |filters| && IsSet(filters[j].1)
        ensures (filters[j].0, ToStr(filters[j].1)) in q
      {
        if j == 0 {
          assert q[0] == (filters[0].0, ToStr(filters[0].1));
        } else {
          assert filters[j] == filters[1..][j - 1];
          assert (filters[1..][j - 1].0, ToStr(filters[1..][j - 1].1)) in rest;
          assert q == rest || q == [q[0]] + rest;
        }
      }
    }
  }

  /** The query of two runs of entries is the first run's query followed by the second's: the order of the entries is kept. */
  lemma {:induction false} FilterQueryAppend(a: seq<(string, JsValue)>, b: seq<(string, JsValue)>)
    ensures FilterQuery(a + b) == FilterQuery(a) + FilterQuery(b)
    decreases |a|
  {
    if a == [] {
      assert a + b == b;
    } else {
      assert (a + b)[1..] == a[1..] + b;
      FilterQueryAppend(a[1..], b);
    }
  }

  /** Numbers and booleans are kept under their JavaScript string forms. */
  lemma ZeroAndFalseAreKept(name: string)
    ensures FilterQuery([(name, Num(0))]) == [(name, "0")]
    ensures FilterQuery([(name, Bool(false))]) == [(name, "false")]
    ensures FilterQuery([(name, Str("")), (name, Null), (name, Undefined)]) == []
  {
    assert [(name, Str("")), (name, Null), (name, Undefined)][1..] == [(name, Null), (name, Undefined)];
    assert [(name, Null), (name, Undefined)][1..] == [(name, Undefined)];
    assert [(name, Undefined)][1..] == [];
    assert FilterQuery([(name, Undefined)]) == FilterQuery([]) == [];
    assert FilterQuery([(name, Null), (name, Undefined)]) == FilterQuery([(name, Undefined)]);
  }

  /** The `forEach` loop of `getScholarships`, appending each set value. */
  method BuildFilterQuery(filters: seq<(string, JsValue)>) returns (ps: Params)
    ensures ps == FilterQuery(filters)
  {
    ps := [];
    var i := 0;
    while i < |filters|
      invariant 0 <= i <= |filters|
      invariant ps + FilterQuery(filters[i..]) == FilterQuery(filters)
    {
      assert filters[i..][1..] == filters[i + 1..];
      var (key, value) := filters[i];
      if value != Undefined && value != Null && value != Str("") {
        ps := ps + [(key, ToStr(value))];
      }
      i := i + 1;
    }
    assert filters[i..] == [];
  }

  /** `scholarships/`, followed by `?` and the query only when the query is non-empty. */
  function ListingEndpoint(ps: Params): (endpoint: string)
    ensures ps == [] <==> endpoint == LISTING
    ensures ps != [] ==> endpoint == LISTING + "?" + Serialize(ps)
  {
    var q := Serialize(ps);
    if q == "" then
      assert LISTING + "" == LISTING;
      LISTING
    else
      assert |LISTING + "?" + q| > |LISTING|;
      LISTING + "?" + q
  }

  /** `getScholarships(filters)`: a public GET of the listing. */
  method GetScholarships(filters: seq<(string, JsValue)>) returns (call: Call)
    ensures call == Call(GET, ListingEndpoint(FilterQuery(filters)), None, false)
    ensures call.endpoint == LISTING <==> forall i :: 0 <= i < |filters| ==> !IsSet(filters[i].1)
  {
    var ps := BuildFilterQuery(filters);
    FilterQueryKeepsSetValues(filters);
    call := DefaultCall(GET, ListingEndpoint(ps), None);
  }

  /** `getScholarshipById(id)`. */
  function ScholarshipById(id: JsValue): (c: Call)
    ensures c.verb == GET && !c.authenticated
    ensures c.endpoint == LISTING + ToStr(id) + "/"
  {
    DefaultCall(GET, LISTING + ToStr(id) + "/", None)
  }

  /** `getFilterOptions()`. */
  function FilterOptions(): (c: Call)
    ensures c == Call(GET, FILTER_OPTIONS, None, false)
  {
    DefaultCall(GET, FILTER_OPTIONS, None)
  }

  /** The query of `searchScholarships`: the encoded keyword and the limit, 10 unless given. */
  function SearchQuery(keyword: string, limit: Option<int>): string {
    "search=" + EncodeUriComponent(keyword) + "&limit=" + IntToDecimal(limit.GetOr(SEARCH_LIMIT))
  }

  /** `searchScholarships(keyword, limit = 10)`. */
  function SearchScholarships(keyword: string, limit: Option<int>): (c: Call)
    ensures c.verb == GET && !c.authenticated
    ensures c.endpoint == LISTING + "?" + SearchQuery(keyword, limit)
  {
    DefaultCall(GET, LISTING + "?" + SearchQuery(keyword, limit), None)
  }

  /** The keyword reaches the backend intact: the query parses back to the keyword and the limit. */
  lemma SearchQueryParses(keyword: string, limit: Option<int>)
    ensures Parse(SearchQuery(keyword, limit)) == [("search", keyword), ("limit", IntToDecimal(limit.GetOr(SEARCH_LIMIT)))]
  {
    var first := "search=" + EncodeUriComponent(keyword);
    var second := "limit=" + IntToDecimal(limit.GetOr(SEARCH_LIMIT));
    SearchQuerySplits(keyword, limit);
    ParseTwoPieces(first, second);
    KeywordPieceParses(keyword);
    LimitPieceParses(limit.GetOr(SEARCH_LIMIT));
  }

  lemma KeywordPieceParses(keyword: string)
    ensures ParsePiece("search=" + EncodeUriComponent(keyword)) == ("search", keyword)
  {
    var e := EncodeUriComponent(keyword);
    assert '=' !in e by { SearchPartsPlain(keyword, 0); }
    assert "search" + "=" + e == "search=" + e;
    assert ParsePiece("search" + "=" + e) == ("search", FormDecode(e)) by {
      assert forall i :: 0 <= i < |"search"| ==> IsAsciiLetter("search"[i]);
      PlainPieceParses("search", e);
    }
    UriComponentRoundTrip(keyword);
  }

  lemma LimitPieceParses(limit: int)
    ensures ParsePiece("limit=" + IntToDecimal(limit)) == ("limit", IntToDecimal(limit))
  {
    var n := IntToDecimal(limit);
    SearchPartsPlain("", limit);
    assert "limit" + "=" + n == "limit=" + n;
    PlainPieceParses("limit", n);
    PlainDecimalDecodes(limit);
  }

  lemma ParseTwoPieces(a: string, b: string)
    requires a != "" && b != ""
    ensures ParsePieces([a, b]) == [ParsePiece(a), ParsePiece(b)]
  {
    assert [a, b][0] == a && [a, b][1..] == [b] && [b][0] == b && [b][1..] == [];
    assert ParsePieces([b]) == [ParsePiece(b)] + ParsePieces([]);
    assert ParsePieces([a, b]) == [ParsePiece(a)] + ParsePieces([b]);
  }

  /** Neither the escaped keyword nor a decimal holds `&` or `=`. */
  lemma SearchPartsPlain(keyword: string, n: int)
    ensures '&' !in EncodeUriComponent(keyword) && '=' !in EncodeUriComponent(keyword)
    ensures '&' !in IntToDecimal(n) && '=' !in IntToDecimal(n)
  {
    var e := EncodeUriComponent(keyword);
    assert forall i :: 0 <= i < |e| ==> e[i] != '&' && e[i] != '=';
    var d := IntToDecimal(n);
    IntToDecimalChars(n);
    assert forall i :: 0 <= i < |d| ==> d[i] != '&' && d[i] != '=';
  }

  lemma SearchQuerySplits(keyword: string, limit: Option<int>)
    ensures Split(SearchQuery(keyword, limit), '&') ==
      ["search=" + EncodeUriComponent(keyword), "limit=" + IntToDecimal(limit.GetOr(SEARCH_LIMIT))]
  {
    var first := "search=" + EncodeUriComponent(keyword);
    var second := "limit=" + IntToDecimal(limit.GetOr(SEARCH_LIMIT));
    SearchPartsPlain(keyword, limit.GetOr(SEARCH_LIMIT));
    assert '&' !in first && '&' !in second;
    SplitJoin([first, second], '&');
    assert [first, second][1..] == [second];
    assert Join([first, second], "&") == SearchQuery(keyword, limit);
  }

  /** The characters of a decimal rendering. */
  lemma IntToDecimalChars(n: int)
    ensures forall i :: 0 <= i < |IntToDecimal(n)| ==> IsDigit(IntToDecimal(n)[i]) || IntToDecimal(n)[i] == '-'
  {
    if n < 0 {
      var s := IntToDecimal(n);
      assert s == "-" + NatToDecimal(-n);
    }
  }

  /** A decimal rendering decodes to itself. */
  lemma PlainDecimalDecodes(n: int)
    ensures FormDecode(IntToDecimal(n)) == IntToDecimal(n)
  {
    var s := IntToDecimal(n);
    IntToDecimalChars(n);
    PlainTextDecodes(s);
  }

  /** Text made of letters, digits and `-` decodes to itself. */
  lemma {:induction false} PlainTextDecodes(s: string)
    requires forall i :: 0 <= i < |s| ==> IsDigit(s[i]) || IsAsciiLetter(s[i]) || s[i] == '-'
    ensures FormBytes(s) == Utf8Of(s)
    ensures FormDecode(s) == s
  {
    if s != [] {
      PlainTextDecodes(s[1..]);
      assert s == [s[0]] + s[1..];
      PlainCharBytes(s[0], s[1..]);
      assert Utf8Of(s) == Utf8(s[0]) + Utf8Of(s[1..]);
    }
    DecodeUtf8Of(s);
  }

  /** `name=value` with a plain name and no `=` in the value splits back into the two halves. */
  lemma PlainPieceParses(name: string, value: string)
    requires forall i :: 0 <= i < |name| ==> IsAsciiLetter(name[i])
    requires '=' !in value
    ensures ParsePiece(name + "=" + value) == (name, FormDecode(value))
  {
    var piece := name + "=" + value;
    assert piece[|name|] == '=';
    assert forall j :: 0 <= j < |name| ==> piece[j] == name[j];
    assert IndexOf(piece, '=') == |name|;
    assert piece[..|name|] == name;
    assert piece[|name| + 1..] == value;
    PlainTextDecodes(name);
  }

  /** `getFeaturedScholarships(limit = 8)`. */
  function FeaturedScholarships(limit: Option<int>): (c: Call)
    ensures c.verb == GET && !c.authenticated
    ensures c.endpoint == LISTING + "?is_featured=true&limit=" + IntToDecimal(limit.GetOr(FEATURED_LIMIT))
  {
    DefaultCall(GET, LISTING + "?is_featured=true&limit=" + IntToDecimal(limit.GetOr(FEATURED_LIMIT)), None)
  }

  /** `getSavedScholarships()`. */
  function SavedScholarships(): (c: Call)
    ensures c.verb == GET && c.endpoint == SAVED && c.body.None?
    ensures c.authenticated && c.authenticated != DefaultAuthenticated(c.verb)
  {
    Call(GET, SAVED, None, true)
  }

  /** `saveScholarship(id)`. */
  function SaveScholarship(id: int): (c: Call)
    ensures c.verb == POST && c.endpoint == SAVED
    ensures c.body.Some? && c.body.value.Obj? && Keys(c.body.value) == ["scholarship"]
    ensures Prop(c.body.value, "scholarship") == Num(id)
    ensures c.authenticated && c.authenticated != DefaultAuthenticated(c.verb)
  {
    Call(POST, SAVED, Some(Obj([("scholarship", Num(id))])), true)
  }

  /** `removeSavedScholarship(savedId)`. */
  function RemoveSavedScholarship(savedId: int): (c: Call)
    ensures c.verb == DELETE && c.body.None? && c.authenticated
    ensures |SAVED| < |c.endpoint| && c.endpoint[..|SAVED|] == SAVED && c.endpoint[|c.endpoint| - 1] == '/'
    ensures ToNumber(Str(c.endpoint[|SAVED|..|c.endpoint| - 1])) == Some(savedId)
  {
    IdSegmentReadsBack(SAVED, savedId);
    EndpointPrefix(SAVED, IntToDecimal(savedId));
    Call(DELETE, SAVED + IntToDecimal(savedId) + "/", None, true)
  }

  /** The id segment of an endpoint `prefix + id + "/"` reads back as the id. */
  lemma IdSegmentReadsBack(prefix: string, id: int)
    ensures ToNumber(Str((prefix + IntToDecimal(id) + "/")[|prefix|..|prefix| + |IntToDecimal(id)|])) == Some(id)
  {
    var digits := IntToDecimal(id);
    NumberOfDecimal(id);
    assert (prefix + digits + "/")[|prefix|..|prefix| + |digits|] == digits;
  }

  /** An endpoint `prefix + segment + "/"` starts with the prefix. */
  lemma EndpointPrefix(prefix: string, segment: string)
    ensures (prefix + segment + "/")[..|prefix|] == prefix
  {
    assert (prefix + segment + "/")[..|prefix|] == (prefix + segment)[..|prefix|];
  }

  /** `getApplications()`. */
  function Applications(): (c: Call)
    ensures c.verb == GET && c.endpoint == APPLICATIONS && c.body.None?
    ensures c.authenticated && c.authenticated != DefaultAuthenticated(c.verb)
  {
    Call(GET, APPLICATIONS, None, true)
  }

  /**
   * Every call about the signed-in user carries the token, overriding the
   * unauthenticated default of GET and POST; the public reads do not.
   */
  lemma UserCallsAreAuthenticated(id: int, savedId: int, filters: seq<(string, JsValue)>, key: JsValue, keyword: string, limit: Option<int>)
    ensures SavedScholarships().authenticated && SaveScholarship(id).authenticated
    ensures RemoveSavedScholarship(savedId).authenticated && Applications().authenticated
    ensures !DefaultAuthenticated(GET) && !DefaultAuthenticated(POST)
    ensures !ScholarshipById(key).authenticated && !FilterOptions().authenticated
    ensures !SearchScholarships(keyword, limit).authenticated && !FeaturedScholarships(limit).authenticated
    ensures RemoveSavedScholarship(savedId).endpoint == SAVED + IntToDecimal(savedId) + "/"
  {
  }
}
