/**
 * The plain scholarship list component: it loads the listing once, shows a
 * fixed message when that fails, and renders each scholarship as a card with
 * a shortened description and, when there is one, its amount.
 */
module ScholarshipList {
  import opened Wrappers
  import opened Text
  import opened JsValues
  import opened ApiService

  const LOAD_FAILED: string := "Failed to load scholarships. Please try again later."
  const TEASER_LENGTH: nat := 150
  const ELLIPSIS: string := "..."

  // ---------------------------------------------------------------------------
  // Cards
  // ---------------------------------------------------------------------------

  /** `description.substring(0, 150)` followed by `...` when the description is longer. */
  function Teaser(description: string): (t: string)
    ensures |description| <= TEASER_LENGTH ==> t == description
    ensures |description| > TEASER_LENGTH ==> |t| == TEASER_LENGTH + |ELLIPSIS| && t[..TEASER_LENGTH] == description[..TEASER_LENGTH]
    ensures |description| > TEASER_LENGTH ==> t[TEASER_LENGTH..] == ELLIPSIS
    ensures |t| <= TEASER_LENGTH + |ELLIPSIS|
  {
    var cut := if |description| < TEASER_LENGTH then |description| else TEASER_LENGTH;
    description[..cut] + (if |description| > TEASER_LENGTH then ELLIPSIS else "")
  }

  /**
   * The teaser always starts with the description's head, and shows the
   * description unchanged exactly when it is short or already ends, at
   * character 150, in the ellipsis.
   */
  lemma TeaserKeepsHead(description: string)
    ensures var k := if |description| < TEASER_LENGTH then |description| else TEASER_LENGTH;
      |Teaser(description)| >= k && Teaser(description)[..k] == description[..k]
    ensures Teaser(description) == description <==>
      |description| <= TEASER_LENGTH || (|description| == TEASER_LENGTH + |ELLIPSIS| && description[TEASER_LENGTH..] == ELLIPSIS)
  {
    var t := Teaser(description);
    if |description| > TEASER_LENGTH {
      assert t == description[..TEASER_LENGTH] + ELLIPSIS;
      if |description| == TEASER_LENGTH + |ELLIPSIS| && description[TEASER_LENGTH..] == ELLIPSIS {
        assert description == description[..TEASER_LENGTH] + description[TEASER_LENGTH..];
      }
    }
  }

  /** What sits in the amount slot of a card. */
  datatype AmountSlot = Nothing | StrayText(text: string) | AmountLine(amount: JsValue)

  /**
   * The slot as written, `{amount && <p>…</p>}`: a truthy amount gives the
   * line, and a falsy one is itself rendered, which React shows as text only
   * for a number, so an amount of `0` leaves a bare "0" in the card.
   */
  function AmountAsWritten(amount: JsValue): (slot: AmountSlot)
    ensures Truthy(amount) ==> slot == AmountLine(amount)
    ensures amount == Num(0) ==> slot == StrayText("0")
    ensures !Truthy(amount) && !amount.Num? ==> slot == Nothing
  {
    if Truthy(amount) then AmountLine(amount)
    else if amount.Num? then StrayText(IntToDecimal(amount.n))
    else Nothing
  }

  /** A zero amount hides the line but shows a stray "0". */
  lemma ZeroAmountLeavesZero()
    ensures AmountAsWritten(Num(0)) == StrayText("0")
    ensures AmountAsWritten(Null) == Nothing
  {
    assert IntToDecimal(0) == "0" by { assert NatToDecimal(0) == [DigitChar(0)]; }
  }

  /** The slot as intended: the amount line for a truthy amount, nothing at all otherwise. */
  function AmountShown(amount: JsValue): (slot: AmountSlot)
    ensures slot.AmountLine? <==> Truthy(amount)
    ensures slot.AmountLine? ==> slot.amount == amount
    ensures !slot.StrayText?
  {
    if Truthy(amount) then AmountLine(amount) else Nothing
  }

  /** The intended slot agrees with the written one except for a zero amount, where it shows nothing. */
  lemma AmountShownDiffersOnlyAtZero(amount: JsValue)
    ensures AmountShown(amount) != AmountAsWritten(amount) <==> amount == Num(0)
    ensures AmountShown(Num(0)) == Nothing && AmountShown(Null) == Nothing
  {
    if amount == Num(0) {
      ZeroAmountLeavesZero();
    }
  }

  /** A rendered card; `teaser` is `None` where reading the description would throw. */
  datatype Card = Card(title: JsValue, provider: JsValue, amount: AmountSlot, teaser: Option<string>)

  /**
   * One card, with the intended amount slot: it matches the slot as written
   * for every amount but `0`, where it leaves the stray "0" out. The teaser
   * is cut from the record's own `description`; a description that is not a
   * string has no `substring`, so the card has no teaser there.
   */
  function CardOf(scholarship: JsValue): (c: Card)
    ensures c.amount == AmountShown(Prop(scholarship, "amount"))
    ensures Prop(scholarship, "amount") != Num(0) ==> c.amount == AmountAsWritten(Prop(scholarship, "amount"))
    ensures Prop(scholarship, "description").Str? ==> c.teaser == Some(Teaser(Prop(scholarship, "description").s))
    ensures !Prop(scholarship, "description").Str? ==> c.teaser.None?
    ensures c.title == Prop(scholarship, "title") && c.provider == Prop(scholarship, "provider")
  {
    AmountShownDiffersOnlyAtZero(Prop(scholarship, "amount"));
    var description := Prop(scholarship, "description");
    Card(Prop(scholarship, "title"), Prop(scholarship, "provider"), AmountShown(Prop(scholarship, "amount")),
         if description.Str? then Some(Teaser(description.s)) else None)
  }

  // ---------------------------------------------------------------------------
  // Loading and the view
  // ---------------------------------------------------------------------------

  /** What the component shows. */
  datatype View = LoadingText | ErrorPanel(message: string) | NoneFound | Cards(items: seq<JsValue>)

  function Render(loading: bool, error: Option<string>, scholarships: JsValue): (v: View)
    ensures loading ==> v == LoadingText
    ensures !loading && error.Some? ==> v == ErrorPanel(error.value)
    ensures v.Cards? <==> !loading && error.None? && scholarships.Arr? && scholarships.items != []
    ensures v.Cards? ==> v.items == scholarships.items
  {
    if loading then LoadingText
    else if error.Some? then ErrorPanel(error.value)
    else if scholarships.Arr? && scholarships.items != [] then Cards(scholarships.items)
    else NoneFound
  }

  class ScholarshipListState {
    var scholarships: JsValue
    var loading: bool
    var error: Option<string>

    constructor ()
      ensures scholarships == Arr([]) && loading && error.None?
    {
      scholarships := Arr([]);
      loading := true;
      error := None;
    }

    /**
     * The load effect, given how the listing request settled: a resolved
     * page gives `results || []` and clears the error; a rejection, or a
     * `null` page whose `results` cannot be read, sets the fixed message and
     * keeps the list. Loading always ends.
     */
    method FetchScholarships(result: ApiResult)
      modifies this
      ensures !loading
      ensures result.Ok? && HasProperties(result.data) ==>
        scholarships == Or(Prop(result.data, "results"), Arr([])) && error.None?
      ensures !(result.Ok? && HasProperties(result.data)) ==>
        scholarships == old(scholarships) && error == Some(LOAD_FAILED)
      ensures error.None? ==> Truthy(scholarships) || scholarships == Arr([])
    {
      loading := true;
      if result.Ok? && HasProperties(result.data) {
        scholarships := Or(Prop(result.data, "results"), Arr([]));
        error := None;
      } else {
        error := Some(LOAD_FAILED);
      }
      loading := false;
    }
  }
}
