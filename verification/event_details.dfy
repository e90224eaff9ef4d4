/**
 * The event page: the stock flags over the event's nullable ticket count, and `handleReserve`,
 * which checks login, names and quantity in that order before sending the visitor to checkout.
 */
module EventDetails {
  import opened Common
  import opened JsText
  import opened ApiClient

  /** The members of the fetched event record the page's logic reads. */
  datatype EventInfo = EventInfo(id: nat, availableTickets: Option<nat>)

  /** `event?.available_tickets`, with a missing event giving `undefined`. */
  function Available(event: Option<EventInfo>): Option<nat> {
    if event.Some? then event.value.availableTickets else None
  }

  /** `isLowStock`: a truthy count (neither null nor 0) of at most five. */
  predicate IsLowStock(event: Option<EventInfo>): (low: bool)
    ensures low ==> event.Some? && event.value.availableTickets.Some?
    ensures event.Some? && event.value.availableTickets.Some? ==>
      (low <==> 1 <= event.value.availableTickets.value <= 5)
  {
    var available := Available(event);
    available.Some? && available.value != 0 && available.value <= 5
  }

  /** `isOutOfStock`: the count is exactly 0; a missing event or a null count is not sold out. */
  predicate IsOutOfStock(event: Option<EventInfo>): (out: bool)
    ensures out <==> event.Some? && event.value.availableTickets == Some(0)
  {
    Available(event) == Some(0)
  }

  /** The page never shows both badges: a sold-out event is not low on stock. */
  lemma StockFlagsExclusive(event: Option<EventInfo>)
    ensures !(IsLowStock(event) && IsOutOfStock(event))
    ensures IsLowStock(event) || IsOutOfStock(event) ==> Available(event).Some? && Available(event).value <= 5
  {
  }

  const LoginMessage: string := "You must be logged in to buy tickets."
  const NamesMessage: string := "Please enter your name and surname."
  const QuantityMessage: string := "Please select a valid quantity."
  const CheckoutPrefix: string := "/checkout/"

  /** A navigation target: a path and the query string's key/value pairs, in order. */
  datatype Location = Location(pathname: string, query: seq<(string, string)>)

  /** What `handleReserve` does: show a message, or navigate. */
  datatype ReserveStep = Refuse(message: string) | Proceed(target: Location)

  /** `/checkout/${event?.id}` */
  function CheckoutTarget(event: Option<EventInfo>): string {
    CheckoutPrefix + if event.Some? then DecimalString(event.value.id) else "undefined"
  }

  /**
   * The decision of `handleReserve`. The checks run in a fixed order (token, then names, then
   * quantity) and the first that fails gives the message. A quantity above the stock is only
   * refused when the stock is truthy, so a null or zero count lets any positive quantity through.
   * On success the query carries the quantity and the names exactly as typed, untrimmed.
   */
  function ReserveDecision(token: Option<string>, name: string, surname: string,
                           quantity: int, event: Option<EventInfo>): (d: ReserveStep)
    ensures !Truthy(token) ==> d == Refuse(LoginMessage)
    ensures Truthy(token) && (IsBlank(name) || IsBlank(surname)) ==> d == Refuse(NamesMessage)
    ensures (Truthy(token) && !IsBlank(name) && !IsBlank(surname)
             && (quantity < 1 || (Available(event).Some? && 0 < Available(event).value < quantity)))
            ==> d == Refuse(QuantityMessage)
    ensures d.Proceed? <==>
      (Truthy(token) && !IsBlank(name) && !IsBlank(surname) && quantity >= 1
       && (Available(event) == None || Available(event) == Some(0) || quantity <= Available(event).value))
    ensures d.Proceed? ==>
      d.target == Location(CheckoutTarget(event),
                           [("quantity", DecimalString(quantity)), ("name", name), ("surname", surname)])
  {
    if !Truthy(token) then Refuse(LoginMessage)
    else if Trim(name) == "" || Trim(surname) == "" then Refuse(NamesMessage)
    else if quantity < 1 || (Available(event).Some? && Available(event).value != 0 && quantity > Available(event).value)
    then Refuse(QuantityMessage)
    else Proceed(Location(CheckoutTarget(event),
                          [("quantity", DecimalString(quantity)), ("name", name), ("surname", surname)]))
  }

  /** A visitor who is not logged in is stopped first, whatever the names and quantity. */
  lemma LoginCheckComesFirst(token: Option<string>, event: Option<EventInfo>)
    requires !Truthy(token)
    ensures forall n: string, s: string, q: int :: ReserveDecision(token, n, s, q, event) == Refuse(LoginMessage)
  {
  }

  /** Blank names are reported even when the quantity is also invalid. */
  lemma NamesCheckBeforeQuantity(token: Option<string>, name: string, surname: string, event: Option<EventInfo>)
    requires Truthy(token) && IsBlank(name)
    ensures forall q: int :: ReserveDecision(token, name, surname, q, event) == Refuse(NamesMessage)
  {
  }

  class EventDetailsPage {
    var event: Option<EventInfo>
    var quantity: int
    var name: string
    var surname: string
    var message: string
    /** Where `navigate` sent the visitor, if anywhere. */
    var navigation: Option<Location>

    constructor (event: Option<EventInfo>)
      ensures this.event == event && quantity == 1 && name == "" && surname == ""
      ensures message == "" && navigation == None
    {
      this.event := event;
      quantity := 1;
      name, surname, message := "", "", "";
      navigation := None;
    }

    /** `handleReserve`: the stored access token is read at the moment of the click. */
    method HandleReserve(b: Browser)
      modifies this`message, this`navigation
      ensures var d := ReserveDecision(b.GetItem(AccessKey), name, surname, quantity, event);
        && (d.Refuse? ==> message == d.message && navigation == old(navigation))
        && (d.Proceed? ==> navigation == Some(d.target) && message == old(message))
    {
      var token := b.GetItem(AccessKey);
      if !Truthy(token) {
        message := LoginMessage;
        return;
      }
      if Trim(name) == "" || Trim(surname) == "" {
        message := NamesMessage;
        return;
      }
      var available := Available(event);
      if quantity < 1 || (available.Some? && available.value != 0 && quantity > available.value) {
        message := QuantityMessage;
        return;
      }
      navigation := Some(Location(CheckoutTarget(event),
                                  [("quantity", DecimalString(quantity)), ("name", name), ("surname", surname)]));
    }

    /** Whether the purchase form (names, quantity, total) is rendered. */
    predicate FormShown()
      reads this
    {
      event.Some? && !IsOutOfStock(event)
    }

    /**
     * A click on the purchase button. The button only exists once the event is loaded, and when
     * the event is sold out it is rendered disabled, so the click does nothing.
     */
    method ClickBuy(b: Browser)
      modifies this`message, this`navigation
      ensures event.None? || IsOutOfStock(event) ==> message == old(message) && navigation == old(navigation)
      ensures event.Some? && !IsOutOfStock(event) ==>
        var d := ReserveDecision(b.GetItem(AccessKey), name, surname, quantity, event);
        && (d.Refuse? ==> message == d.message && navigation == old(navigation))
        && (d.Proceed? ==> navigation == Some(d.target) && message == old(message))
    {
      if event.Some? && !IsOutOfStock(event) {
        HandleReserve(b);
      }
    }
  }

  /** A sold-out event shows neither the purchase form nor an active button. */
  lemma SoldOutHidesPurchase(page: EventDetailsPage)
    requires IsOutOfStock(page.event)
    ensures !page.FormShown()
  {
  }
}
