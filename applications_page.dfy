/**
 * The applications page of the profile: it loads the signed-in user's
 * applications, falling back to an empty list with an error on any failure,
 * and shows each application's status as a coloured label.
 */
module ApplicationsPage {
  import opened Wrappers
  import opened JsValues
  import opened Http
  import opened Storage

  const APPLICATIONS_URL: string := "http://localhost:8000/api/user/applications/"
  const NO_TOKEN: string := "Authentication token not found"
  const FETCH_FAILED: string := "Failed to fetch applications"

  /** The colours of the status labels. */
  datatype Tone = Yellow | Blue | Purple | Green | Red | Gray

  datatype Badge = Badge(text: string, tone: Tone)

  /** The statuses the backend defines. */
  const KNOWN_STATUSES: seq<string> := ["pending", "submitted", "under_review", "approved", "rejected"]

  /** `getStatusBadge`: a fixed label and colour per known status, the raw status in gray otherwise. */
  function StatusBadge(status: string): (b: Badge)
    ensures status == "pending" ==> b == Badge("Pending", Yellow)
    ensures status == "submitted" ==> b == Badge("Submitted", Blue)
    ensures status == "under_review" ==> b == Badge("Under Review", Purple)
    ensures status == "approved" ==> b == Badge("Approved", Green)
    ensures status == "rejected" ==> b == Badge("Rejected", Red)
    ensures status !in KNOWN_STATUSES ==> b == Badge(status, Gray)
  {
    match status
    case "pending" => Badge("Pending", Yellow)
    case "submitted" => Badge("Submitted", Blue)
    case "under_review" => Badge("Under Review", Purple)
    case "approved" => Badge("Approved", Green)
    case "rejected" => Badge("Rejected", Red)
    case _ => Badge(status, Gray)
  }

  /** The colour tells the status apart: gray exactly for unknown statuses, and distinct known statuses get distinct colours. */
  lemma ToneIdentifiesStatus(s: string, t: string)
    ensures StatusBadge(s).tone == Gray <==> s !in KNOWN_STATUSES
    ensures s in KNOWN_STATUSES && t in KNOWN_STATUSES && StatusBadge(s).tone == StatusBadge(t).tone ==> s == t
  {
  }

  /** `GET user/applications/` with the bearer token. */
  function ApplicationsFetch(token: string): Fetch {
    Fetch(GET, APPLICATIONS_URL, None, Some(token))
  }

  /** The list and error the load ends with once a token was found. */
  datatype Outcome = Loaded(list: JsValue) | Failed(message: string)

  /**
   * What the load makes of the reply: a rejected `fetch` or body shows its
   * message, a non-ok status the fixed message, a `null` body fails reading
   * `results`; otherwise the list is `data.results || data || []`.
   */
  function LoadOutcome(reply: Exchange): (o: Outcome)
    ensures reply.NetworkError? ==> o == Failed(reply.message)
    ensures reply.Response? && !IsOk(reply.status) ==> o == Failed(FETCH_FAILED)
    ensures o.Loaded? <==> Succeeded(reply) && reply.body.Json? && HasProperties(reply.body.value)
    ensures o.Loaded? && Truthy(Prop(reply.body.value, "results")) ==> o.list == Prop(reply.body.value, "results")
    ensures o.Loaded? && !Truthy(Prop(reply.body.value, "results")) && Truthy(reply.body.value) ==> o.list == reply.body.value
    ensures o.Loaded? ==> Truthy(o.list) || o.list == Arr([])
  {
    match reply
    case NetworkError(m) => Failed(m)
    case Response(status, _, body) =>
      if !IsOk(status) then Failed(FETCH_FAILED)
      else if body.NotJson? then Failed(body.message)
      else if !HasProperties(body.value) then Failed(PropertyReadMessage(body.value, "results"))
      else Loaded(Or(Or(Prop(body.value, "results"), body.value), Arr([])))
  }

  class ApplicationsPageState {
    var applications: JsValue
    var loading: bool
    var error: Option<string>
    const store: LocalStorage

    constructor (store: LocalStorage)
      ensures this.store == store && applications == Arr([]) && loading && error.None?
    {
      this.store := store;
      applications := Arr([]);
      loading := true;
      error := None;
    }

    /**
     * The load effect: every failure (no token, a non-ok status, a rejected
     * request or body) leaves an empty list and an error; a good reply sets
     * the list and no error. Loading always ends.
     */
    method FetchApplications(reply: Exchange) returns (calls: seq<Fetch>)
      modifies this
      ensures !loading
      ensures !HasTruthy(store.items, AUTH_TOKEN) ==> calls == [] && applications == Arr([]) && error == Some(NO_TOKEN)
      ensures HasTruthy(store.items, AUTH_TOKEN) ==> calls == [ApplicationsFetch(store.items[AUTH_TOKEN])]
      ensures HasTruthy(store.items, AUTH_TOKEN) && LoadOutcome(reply).Loaded? ==>
        applications == LoadOutcome(reply).list && error.None?
      ensures HasTruthy(store.items, AUTH_TOKEN) && LoadOutcome(reply).Failed? ==>
        applications == Arr([]) && error == Some(LoadOutcome(reply).message)
      ensures error.Some? <==> applications == Arr([]) && (!HasTruthy(store.items, AUTH_TOKEN) || LoadOutcome(reply).Failed?)
    {
      loading := true;
      error := None;
      calls := [];
      if !HasTruthy(store.items, AUTH_TOKEN) {
        error := Some(NO_TOKEN);
        applications := Arr([]);
      } else {
        calls := [ApplicationsFetch(store.items[AUTH_TOKEN])];
        var outcome := LoadOutcome(reply);
        match outcome {
          case Loaded(list) => applications := list;
          case Failed(message) =>
            error := Some(message);
            applications := Arr([]);
        }
      }
      loading := false;
    }
  }
}
