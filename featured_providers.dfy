/**
 * The featured-scholarships strip of the home page: it loads the featured
 * scholarships in either of the backend's list shapes, scrolls sideways in
 * steps of 300 pixels, and shows its arrows only where there is more to see.
 */
module FeaturedProviders {
  import opened Wrappers
  import opened Text
  import opened JsValues
  import opened Http

  const FEATURED_URL: string := "http://localhost:8000/api/scholarships/?is_featured=true"
  const FETCH_FAILED_PREFIX: string := "Failed to fetch featured scholarships: "
  const DEFAULT_IMAGE: string := "/images/providers/scholarship-default.jpg"
  const SCROLL_AMOUNT: int := 300

  // ---------------------------------------------------------------------------
  // Loading
  // ---------------------------------------------------------------------------

  /** The one request of the strip: a public GET of the featured listing. */
  function FeaturedFetch(): Fetch {
    Fetch(GET, FEATURED_URL, None, None)
  }

  /**
   * The list in the body: an array is taken as it is (a plain list), otherwise
   * a truthy `results` (a paginated page), otherwise nothing.
   */
  function Normalize(data: JsValue): (list: JsValue)
    requires HasProperties(data)
    ensures data.Arr? ==> list == data
    ensures !data.Arr? && Truthy(Prop(data, "results")) ==> list == Prop(data, "results")
    ensures !data.Arr? && !Truthy(Prop(data, "results")) ==> list == Arr([])
  {
    if data.Arr? then data
    else if Truthy(Prop(data, "results")) then Prop(data, "results")
    else Arr([])
  }

  /** Both shapes the backend answers with give the same list. */
  lemma ShapesAgree(items: seq<JsValue>, count: int)
    ensures Normalize(Arr(items)) == Normalize(Obj([("count", Num(count)), ("results", Arr(items))]))
  {
    var entries := [("count", Num(count)), ("results", Arr(items))];
    LookupFirstMatch(entries, "results", 1);
  }

  /** The list and error the load ends with. */
  datatype Outcome = Loaded(list: JsValue) | Failed(message: string)

  /**
   * What the load makes of the reply: a rejected request or body shows its
   * message, a non-ok status is reported with its number, a `null` body fails
   * reading `results`, and otherwise the body is normalised.
   */
  function LoadOutcome(reply: Exchange): (o: Outcome)
    ensures reply.NetworkError? ==> o == Failed(reply.message)
    ensures reply.Response? && !IsOk(reply.status) ==> o == Failed(FETCH_FAILED_PREFIX + IntToDecimal(reply.status))
    ensures o.Loaded? <==> Succeeded(reply) && reply.body.Json? && HasProperties(reply.body.value)
    ensures o.Loaded? ==> o.list == Normalize(reply.body.value)
  {
    match reply
    case NetworkError(m) => Failed(m)
    case Response(status, _, body) =>
      if !IsOk(status) then Failed(FETCH_FAILED_PREFIX + IntToDecimal(status))
      else if body.NotJson? then Failed(body.message)
      else if !HasProperties(body.value) then Failed(PropertyReadMessage(body.value, "results"))
      else Loaded(Normalize(body.value))
  }

  // ---------------------------------------------------------------------------
  // Scrolling and arrows
  // ---------------------------------------------------------------------------

  /** The measurements of the mounted scroll container. */
  datatype Container = Container(scrollWidth: int, clientWidth: int)

  datatype Direction = Left | Right

  /** The position a scroll button records: left clamps at zero, right adds a step. */
  function Scrolled(position: int, direction: Direction): (p: int)
    ensures direction == Left ==> p == if position - SCROLL_AMOUNT > 0 then position - SCROLL_AMOUNT else 0
    ensures direction == Left ==> p >= 0 && p <= (if position > 0 then position else 0)
    ensures direction == Right ==> p == position + SCROLL_AMOUNT
  {
    match direction
    case Left => if 0 > position - SCROLL_AMOUNT then 0 else position - SCROLL_AMOUNT
    case Right => position + SCROLL_AMOUNT
  }

  /** Going right and then left returns to the start; going left and then right does only away from the edge. */
  lemma ScrollsUndo(position: int)
    requires position >= 0
    ensures Scrolled(Scrolled(position, Right), Left) == position
    ensures Scrolled(Scrolled(position, Left), Right) == position <==> position >= SCROLL_AMOUNT
  {
  }

  /** How many elements `providers.length` counts, `None` where it is `undefined`. */
  function Length(v: JsValue): (n: Option<nat>)
    ensures v.Arr? ==> n == Some(|v.items|)
    ensures v.Str? ==> n == Some(|v.s|)
    ensures !v.Arr? && !v.Str? ==> n.None?
  {
    match v
    case Arr(items) => Some(|items|)
    case Str(s) => Some(|s|)
    case _ => None
  }

  /** The left arrow: once the strip has moved. */
  predicate ShowLeftArrow(position: int) {
    position > 0
  }

  /** The right arrow: with a container, while content lies beyond the view; before one is mounted, for more than five entries. */
  predicate ShowRightArrow(container: Option<Container>, position: int, providers: JsValue) {
    match container
    case Some(c) => c.scrollWidth > c.clientWidth + position
    case None => Length(providers).Some? && Length(providers).value > 5
  }

  /** Scrolling left far enough always hides the left arrow, and each right step shows it. */
  lemma LeftArrowFollowsPosition(position: int)
    requires position >= 0
    ensures ShowLeftArrow(Scrolled(position, Right))
    ensures position <= SCROLL_AMOUNT ==> !ShowLeftArrow(Scrolled(position, Left))
    ensures ShowLeftArrow(Scrolled(position, Left)) <==> position > SCROLL_AMOUNT
  {
  }

  /** Without a container, the right arrow depends only on the list: shown for six or more entries, not for a non-list. */
  lemma RightArrowWithoutContainer(items: seq<JsValue>, position: int, other: JsValue)
    requires !other.Arr? && !other.Str?
    ensures ShowRightArrow(None, position, Arr(items)) <==> |items| > 5
    ensures !ShowRightArrow(None, position, other)
  {
  }

  // ---------------------------------------------------------------------------
  // Rendering
  // ---------------------------------------------------------------------------

  /** What the strip shows in its container. */
  datatype View = Skeletons | ErrorText(message: string) | NoneAvailable | Cards(items: seq<JsValue>)

  function Render(loading: bool, error: Option<string>, providers: JsValue): (v: View)
    ensures v.Cards? <==> !loading && error.None? && providers.Arr? && providers.items != []
    ensures v.Cards? ==> v.items == providers.items
    ensures v == NoneAvailable <==> !loading && error.None? && !(providers.Arr? && providers.items != [])
    ensures v.ErrorText? <==> !loading && error.Some?
  {
    if loading then Skeletons
    else if error.Some? then ErrorText(error.value)
    else if !providers.Arr? || providers.items == [] then NoneAvailable
    else Cards(providers.items)
  }

  /** One card: its picture (or the default), its country line (or "Global"), and where a click leads. */
  datatype Card = Card(image: string, countryLine: string, href: string)

  function CardOf(provider: JsValue): (c: Card)
    ensures Truthy(Prop(provider, "image")) ==> c.image == ToStr(Prop(provider, "image"))
    ensures !Truthy(Prop(provider, "image")) ==> c.image == DEFAULT_IMAGE
    ensures Truthy(Prop(provider, "country_name")) ==> c.countryLine == ToStr(Prop(provider, "country_name"))
    ensures !Truthy(Prop(provider, "country_name")) ==> c.countryLine == "Global"
    ensures c.href == "/scholarships/" + ToStr(Prop(provider, "id"))
  {
    Card(OrText(Prop(provider, "image"), DEFAULT_IMAGE),
         OrText(Prop(provider, "country_name"), "Global"),
         "/scholarships/" + ToStr(Prop(provider, "id")))
  }

  // ---------------------------------------------------------------------------
  // The component
  // ---------------------------------------------------------------------------

  class FeaturedStrip {
    var providers: JsValue
    var loading: bool
    var error: Option<string>
    var scrollPosition: int

    /** The scroll position never goes below zero. */
    predicate Valid()
      reads this
    {
      scrollPosition >= 0
    }

    constructor ()
      ensures providers == Arr([]) && loading && error.None? && scrollPosition == 0
      ensures Valid()
    {
      providers := Arr([]);
      loading := true;
      error := None;
      scrollPosition := 0;
    }

    /**
     * The load effect: a good reply replaces the list, a failure sets the error
     * and keeps the list; an earlier error is not cleared. Loading always ends.
     */
    method FetchFeatured(reply: Exchange) returns (call: Fetch)
      modifies this
      ensures call == FeaturedFetch() && !loading && scrollPosition == old(scrollPosition)
      ensures LoadOutcome(reply).Loaded? ==> providers == LoadOutcome(reply).list && error == old(error)
      ensures LoadOutcome(reply).Failed? ==> providers == old(providers) && error == Some(LoadOutcome(reply).message)
    {
      loading := true;
      call := FeaturedFetch();
      var outcome := LoadOutcome(reply);
      match outcome {
        case Loaded(list) => providers := list;
        case Failed(message) => error := Some(message);
      }
      loading := false;
    }

    /** `scroll(direction)`: nothing happens until the container is mounted. */
    method Scroll(direction: Direction, container: Option<Container>)
      requires Valid()
      modifies this
      ensures Valid()
      ensures container.None? ==> scrollPosition == old(scrollPosition)
      ensures container.Some? ==> scrollPosition == Scrolled(old(scrollPosition), direction)
      ensures providers == old(providers) && loading == old(loading) && error == old(error)
    {
      if container.Some? {
        if direction == Left {
          scrollPosition := if 0 > scrollPosition - SCROLL_AMOUNT then 0 else scrollPosition - SCROLL_AMOUNT;
        } else {
          scrollPosition := scrollPosition + SCROLL_AMOUNT;
        }
      }
    }
  }
}
