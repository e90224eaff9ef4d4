/**
 * The backend's two records. An `Event` is an object the code updates in place before it is
 * persisted (`save` fills in the available tickets on the first save); a `Reservation` is a row
 * read and filtered by the views.
 */
module Models {
  import opened Common

  /**
   * `DecimalField(max_digits=10, decimal_places=2)`, held in cents: at most ten digits in all,
   * so the magnitude stays below 10^10 cents. The field has no lower bound.
   */
  const PriceLimitCents: int := 10_000_000_000

  predicate PriceFits(cents: int) {
    -PriceLimitCents < cents < PriceLimitCents
  }

  /** `default=0.00` */
  const DefaultPriceCents: int := 0

  /** The reservation quantity's `default=1`. */
  const DefaultQuantity: nat := 1

  class Event {
    /** The primary key: absent until the first save. */
    var pk: Option<nat>
    var name: string
    var description: string
    var location: string
    var startTime: int
    var endTime: int
    /** The organizing user's id. */
    var organizer: nat
    var priceCents: int
    /** `PositiveIntegerField(null=True)`: a count or null. */
    var totalTickets: Option<nat>
    var availableTickets: Option<nat>

    ghost predicate Valid()
      reads this
    {
      PriceFits(priceCents)
    }

    /** An unsaved instance, as the ORM builds it from field values. */
    constructor (name: string, description: string, location: string, startTime: int, endTime: int,
                 organizer: nat, priceCents: int, totalTickets: Option<nat>, availableTickets: Option<nat>)
      requires PriceFits(priceCents)
      ensures Valid() && pk == None
      ensures this.name == name && this.description == description && this.location == location
      ensures this.startTime == startTime && this.endTime == endTime && this.organizer == organizer
      ensures this.priceCents == priceCents
      ensures this.totalTickets == totalTickets && this.availableTickets == availableTickets
    {
      pk := None;
      this.name, this.description, this.location := name, description, location;
      this.startTime, this.endTime := startTime, endTime;
      this.organizer, this.priceCents := organizer, priceCents;
      this.totalTickets, this.availableTickets := totalTickets, availableTickets;
    }

    /**
     * `Event.save`: on the first save (no primary key yet) with a total set, the available count
     * becomes the total, whatever was supplied; otherwise it is left alone. The database then
     * assigns `newPk` to an instance that had no key.
     */
    method Save(newPk: nat)
      requires Valid()
      modifies this`pk, this`availableTickets
      ensures Valid()
      ensures old(pk).None? && old(totalTickets).Some? ==> availableTickets == old(totalTickets)
      ensures old(pk).None? && old(totalTickets).None? ==> availableTickets == old(availableTickets)
      ensures old(pk).Some? ==> availableTickets == old(availableTickets)
      ensures pk == if old(pk).None? then Some(newPk) else old(pk)
    {
      if pk.None? && totalTickets.Some? {
        availableTickets := totalTickets;
      }
      pk := if pk.None? then Some(newPk) else pk;
    }
  }

  /**
   * Saving a new event twice: the second save keeps what the first one set, so the available
   * count is the total (when one was given) however often the event is saved again.
   */
  method CreateAndResave(e: Event, firstPk: nat, laterPk: nat)
    requires e.Valid() && e.pk.None? && e.totalTickets.Some?
    modifies e
    ensures e.availableTickets == e.totalTickets && e.pk == Some(firstPk)
  {
    e.Save(firstPk);
    e.Save(laterPk);
  }

  /** A reservation row; `name` and `surname` are nullable. */
  datatype Reservation = Reservation(id: nat, event: nat, user: nat, name: Option<string>,
                                     surname: Option<string>, quantity: nat, createdAt: int)

  /** The field names `Reservation` declares; there is no `canceled` among them. */
  const ReservationFields: set<string> := {"id", "event", "user", "name", "surname", "quantity", "created_at"}
}
