/**
 * The saved-scholarships page of the profile: it loads the signed-in user's
 * saved records, removes one on request, and labels each deadline with a
 * "days left" or "Expired" badge.
 */
module SavedPage {
  import opened Wrappers
  import opened Text
  import opened JsValues
  import opened Http
  import opened Storage

  const SAVED_URL: string := "http://localhost:8000/api/user/saved-scholarships/"
  const NOT_LOGGED_IN: string := "You must be logged in to view saved scholarships"
  const SESSION_EXPIRED: string := "Your session has expired. Please log in again."
  const FETCH_FAILED_PREFIX: string := "Failed to fetch saved scholarships: "
  const NO_TOKEN: string := "Authentication token not found"
  const REMOVE_FAILED: string := "Failed to remove scholarship"
  const REMOVED: string := "Scholarship removed successfully"

  /** Milliseconds in a day, `1000 * 60 * 60 * 24`. */
  const MS_PER_DAY: int := 86400000

  // ---------------------------------------------------------------------------
  // Removing a record from the list
  // ---------------------------------------------------------------------------

  /** `prev.filter(item => item.id !== id)`. */
  function Without(items: seq<JsValue>, id: JsValue): (r: seq<JsValue>)
    ensures |r| <= |items|
  {
    if items == [] then []
    else if Prop(items[0], "id") != id then [items[0]] + Without(items[1..], id)
    else Without(items[1..], id)
  }

  /** Exactly the records with another id are kept. */
  lemma {:induction false} WithoutMembers(items: seq<JsValue>, id: JsValue)
    ensures forall x :: x in Without(items, id) <==> x in items && Prop(x, "id") != id
  {
    if items != [] {
      WithoutMembers(items[1..], id);
      WithoutStep(items, id);
      assert forall x :: x in items <==> x == items[0] || x in items[1..];
    }
  }

  /** The filter works piece by piece, so the kept records stay in their order. */
  lemma {:induction false} WithoutDistributes(a: seq<JsValue>, b: seq<JsValue>, id: JsValue)
    ensures Without(a + b, id) == Without(a, id) + Without(b, id)
  {
    if a == [] {
      assert a + b == b;
    } else {
      var head := if Prop(a[0], "id") != id then [a[0]] else [];
      assert (a + b)[1..] == a[1..] + b;
      assert (a + b)[0] == a[0];
      WithoutStep(a + b, id);
      WithoutStep(a, id);
      calc {
        Without(a + b, id);
        head + Without(a[1..] + b, id);
        { WithoutDistributes(a[1..], b, id); }
        head + (Without(a[1..], id) + Without(b, id));
        (head + Without(a[1..], id)) + Without(b, id);
        Without(a, id) + Without(b, id);
      }
    }
  }

  lemma WithoutStep(items: seq<JsValue>, id: JsValue)
    requires items != []
    ensures Without(items, id) == (if Prop(items[0], "id") != id then [items[0]] else []) + Without(items[1..], id)
  {
  }

  /** A list without the id is left as it is. */
  lemma {:induction false} WithoutAbsent(items: seq<JsValue>, id: JsValue)
    requires forall i :: 0 <= i < |items| ==> Prop(items[i], "id") != id
    ensures Without(items, id) == items
  {
    if items != [] {
      WithoutAbsent(items[1..], id);
      assert [items[0]] + items[1..] == items;
    }
  }

  /** Removing twice removes nothing more. */
  lemma WithoutIdempotent(items: seq<JsValue>, id: JsValue)
    ensures Without(Without(items, id), id) == Without(items, id)
  {
    var r := Without(items, id);
    WithoutMembers(items, id);
    assert forall i :: 0 <= i < |r| ==> r[i] in r;
    WithoutAbsent(r, id);
  }

  /** The list value after the filter: arrays are filtered, anything else is kept. */
  function RemoveFrom(list: JsValue, id: JsValue): (r: JsValue)
    ensures list.Arr? ==> r == Arr(Without(list.items, id))
    ensures !list.Arr? ==> r == list
  {
    match list
    case Arr(items) => Arr(Without(items, id))
    case _ => list
  }

  // ---------------------------------------------------------------------------
  // Loading the list
  // ---------------------------------------------------------------------------

  /** The result of the load effect once a token was found: the new list, or the error shown. */
  datatype Outcome = Loaded(list: JsValue) | Failed(message: string)

  /** `GET saved-scholarships/` with the bearer token. */
  function ListFetch(token: string): Fetch {
    Fetch(GET, SAVED_URL, None, Some(token))
  }

  /**
   * What the load makes of the reply: a rejected `fetch` or body shows its
   * message, a 401 asks to log in again, any other non-ok status is reported
   * with its number, a `null` body fails reading `results`, and otherwise the
   * list becomes `data.results || []`.
   */
  function LoadOutcome(reply: Exchange): (o: Outcome)
    ensures reply.Response? && reply.status == 401 ==> o == Failed(SESSION_EXPIRED)
    ensures reply.Response? && !IsOk(reply.status) && reply.status != 401 ==>
      o == Failed(FETCH_FAILED_PREFIX + IntToDecimal(reply.status))
    ensures reply.NetworkError? ==> o == Failed(reply.message)
    ensures o.Loaded? <==> Succeeded(reply) && reply.body.Json? && HasProperties(reply.body.value)
    ensures o.Loaded? ==> Truthy(o.list) || o.list == Arr([])
  {
    match reply
    case NetworkError(m) => Failed(m)
    case Response(status, _, body) =>
      if !IsOk(status) then
        if status == 401 then Failed(SESSION_EXPIRED) else Failed(FETCH_FAILED_PREFIX + IntToDecimal(status))
      else if body.NotJson? then Failed(body.message)
      else if !HasProperties(body.value) then Failed(PropertyReadMessage(body.value, "results"))
      else Loaded(Or(Prop(body.value, "results"), Arr([])))
  }

  /** Any non-ok status other than 401 is named in the error, whatever the reply's text and body. */
  lemma StatusErrorNamesStatus(status: int, statusText: string, body: Parsed)
    requires !IsOk(status) && status != 401
    ensures LoadOutcome(Response(status, statusText, body)).Failed?
    ensures Contains(LoadOutcome(Response(status, statusText, body)).message, IntToDecimal(status))
  {
    ContainsAt(FETCH_FAILED_PREFIX + IntToDecimal(status), IntToDecimal(status), |FETCH_FAILED_PREFIX|);
  }

  // ---------------------------------------------------------------------------
  // The deadline badge
  // ---------------------------------------------------------------------------

  /** `Math.ceil(a / b)` for a positive divisor. */
  function CeilDiv(a: int, b: int): (q: int)
    requires b > 0
    ensures (q - 1) * b < a <= q * b
  {
    -((-a) / b)
  }

  /**
   * `Math.ceil((deadline - now) / MS_PER_DAY)` for instants in milliseconds; an
   * unparseable deadline (`NaN`) is `None`.
   */
  function DaysToDeadline(deadline: Option<int>, now: int): (days: Option<int>)
    ensures days.Some? <==> deadline.Some?
    ensures days.Some? ==> (days.value - 1) * MS_PER_DAY < deadline.value - now <= days.value * MS_PER_DAY
  {
    match deadline
    case None => None
    case Some(d) => Some(CeilDiv(d - now, MS_PER_DAY))
  }

  /** The badge under the deadline: a count for the coming month, "Expired" once due, nothing otherwise. */
  function Badge(days: Option<int>): (b: Option<string>)
    ensures b == Some("Expired") <==> days.Some? && days.value <= 0
    ensures days.Some? && 1 <= days.value <= 30 ==> b == Some(IntToDecimal(days.value) + " days left")
    ensures b.None? <==> days.None? || days.value > 30
  {
    match days
    case None => None
    case Some(n) =>
      if n > 0 && n <= 30 then Some(IntToDecimal(n) + " days left")
      else if n <= 0 then Some("Expired")
      else None
  }

  /**
   * In terms of the instants: a scholarship is expired exactly when its deadline
   * is not after now, and counts down exactly when it falls within thirty days.
   */
  lemma BadgeOfInstants(deadline: int, now: int)
    ensures Badge(DaysToDeadline(Some(deadline), now)) == Some("Expired") <==> deadline <= now
    ensures (Badge(DaysToDeadline(Some(deadline), now)).Some? && Badge(DaysToDeadline(Some(deadline), now)) != Some("Expired"))
      <==> now < deadline <= now + 30 * MS_PER_DAY
  {
    var n := DaysToDeadline(Some(deadline), now).value;
    var diff := deadline - now;
    assert (n - 1) * MS_PER_DAY < diff <= n * MS_PER_DAY;
    if n <= 0 {
      assert diff <= 0;
    } else if n <= 30 {
      assert 0 < diff;
      assert diff <= 30 * MS_PER_DAY;
    } else {
      assert (n - 1) * MS_PER_DAY >= 30 * MS_PER_DAY;
    }
  }

  /** The header line `N scholarship(s) saved`, shown only for a non-empty list. */
  function CountLine(count: nat): (line: Option<string>)
    ensures line.None? <==> count == 0
    ensures count == 1 ==> line == Some("1 scholarship saved")
    ensures count > 1 ==> line == Some(IntToDecimal(count) + " scholarships saved")
  {
    if count == 0 then None
    else
      assert IntToDecimal(1) == "1" by { assert NatToDecimal(1) == [DigitChar(1)]; }
      assert count != 1 ==> IntToDecimal(count) + " scholarship" + "s" + " saved" == IntToDecimal(count) + " scholarships saved";
      assert count == 1 ==> IntToDecimal(count) + " scholarship" + "" + " saved" == "1 scholarship saved";
      Some(IntToDecimal(count) + " scholarship" + (if count != 1 then "s" else "") + " saved")
  }

  // ---------------------------------------------------------------------------
  // The page
  // ---------------------------------------------------------------------------

  /** `DELETE saved-scholarships/<id>/` with the bearer token. */
  function RemoveFetch(id: JsValue, token: string): Fetch {
    Fetch(DELETE, SAVED_URL + ToStr(id) + "/", None, Some(token))
  }

  class SavedScholarshipsPage {
    var saved: JsValue
    var loading: bool
    var error: Option<string>
    var successMessage: Option<string>
    const store: LocalStorage

    constructor (store: LocalStorage)
      ensures this.store == store && saved == Arr([]) && loading && error.None? && successMessage.None?
    {
      this.store := store;
      saved := Arr([]);
      loading := true;
      error := None;
      successMessage := None;
    }

    /**
     * The load effect: without a token it reports that and asks nothing; with
     * one, a good reply replaces the list and any failure keeps it and shows
     * the error. Loading always ends.
     */
    method FetchSavedScholarships(reply: Exchange) returns (calls: seq<Fetch>)
      modifies this
      ensures !loading && successMessage == old(successMessage)
      ensures !HasTruthy(store.items, AUTH_TOKEN) ==> calls == [] && error == Some(NOT_LOGGED_IN) && saved == old(saved)
      ensures HasTruthy(store.items, AUTH_TOKEN) ==> calls == [ListFetch(store.items[AUTH_TOKEN])]
      ensures HasTruthy(store.items, AUTH_TOKEN) && LoadOutcome(reply).Loaded? ==>
        saved == LoadOutcome(reply).list && error.None?
      ensures HasTruthy(store.items, AUTH_TOKEN) && LoadOutcome(reply).Failed? ==>
        saved == old(saved) && error == Some(LoadOutcome(reply).message)
    {
      loading := true;
      error := None;
      calls := [];
      if !HasTruthy(store.items, AUTH_TOKEN) {
        error := Some(NOT_LOGGED_IN);
        loading := false;
        return;
      }
      calls := [ListFetch(store.items[AUTH_TOKEN])];
      var outcome := LoadOutcome(reply);
      match outcome {
        case Loaded(list) => saved := list;
        case Failed(message) => error := Some(message);
      }
      loading := false;
    }

    /**
     * `handleRemove`: both banners are cleared first; without a token, or when
     * the request fails, the error is shown and the list kept; on an ok reply
     * the records with that id leave the list and the success banner shows.
     */
    method HandleRemove(id: JsValue, reply: Exchange) returns (calls: seq<Fetch>)
      modifies this
      ensures loading == old(loading)
      ensures !HasTruthy(store.items, AUTH_TOKEN) ==>
        calls == [] && error == Some(NO_TOKEN) && successMessage.None? && saved == old(saved)
      ensures HasTruthy(store.items, AUTH_TOKEN) ==> calls == [RemoveFetch(id, store.items[AUTH_TOKEN])]
      ensures HasTruthy(store.items, AUTH_TOKEN) && Succeeded(reply) ==>
        saved == RemoveFrom(old(saved), id) && error.None? && successMessage == Some(REMOVED)
      ensures HasTruthy(store.items, AUTH_TOKEN) && !Succeeded(reply) ==>
        saved == old(saved) && successMessage.None? &&
        error == Some(if reply.NetworkError? then reply.message else REMOVE_FAILED)
    {
      error := None;
      successMessage := None;
      calls := [];
      if !HasTruthy(store.items, AUTH_TOKEN) {
        error := Some(NO_TOKEN);
        return;
      }
      calls := [RemoveFetch(id, store.items[AUTH_TOKEN])];
      match reply {
        case NetworkError(m) =>
          error := Some(m);
        case Response(status, _, _) =>
          if !IsOk(status) {
            error := Some(REMOVE_FAILED);
          } else {
            saved := RemoveFrom(saved, id);
            successMessage := Some(REMOVED);
          }
      }
    }
  }
}
