/**
 * The REST views' rules: who may call which endpoint, which reservations each query reaches, and
 * what the create hooks fill in on the server's side. Queries are modelled as Django lookups
 * (`filter(field=value, ...)`) over the reservation rows, so that a lookup on a name the model
 * does not know fails the way the ORM fails it.
 */
module Views {
  import opened Common
  import opened Models

  /** `request.user`: the anonymous user, or an account with its staff flag. */
  datatype User = Anonymous | Account(id: nat, isStaff: bool)

  /** `permissions.SAFE_METHODS` */
  const SafeMethods: set<string> := {"GET", "HEAD", "OPTIONS"}

  /**
   * `IsAdminOrReadOnly.has_permission`: reading is open to everyone; any other method needs a
   * staff account (the anonymous user is never staff).
   */
  function IsAdminOrReadOnly(verb: string, user: User): (allowed: bool)
    ensures verb in SafeMethods ==> allowed
    ensures verb !in SafeMethods ==> (allowed <==> user.Account? && user.isStaff)
  {
    if verb in SafeMethods then true
    else user.Account? && user.isStaff
  }

  /** The four API views. */
  datatype View = EventList | EventDetail | ReservationListCreate | ReservationDetail

  /**
   * The permission classes of each view: `IsAdminOrReadOnly` on the event list, `AllowAny` on an
   * event's detail, `IsAuthenticated` on both reservation views.
   */
  function Permitted(view: View, verb: string, user: User): (allowed: bool)
    ensures view == EventDetail ==> allowed
    ensures view.ReservationListCreate? || view.ReservationDetail? ==> (allowed <==> user.Account?)
    ensures view == EventList ==> allowed == IsAdminOrReadOnly(verb, user)
  {
    match view
    case EventList => IsAdminOrReadOnly(verb, user)
    case EventDetail => true
    case ReservationListCreate => user.Account?
    case ReservationDetail => user.Account?
  }

  /** Anyone may list and read events; only staff may create one. */
  lemma EventListAccess(user: User)
    ensures Permitted(EventList, "GET", Anonymous)
    ensures Permitted(EventList, "POST", user) <==> user.Account? && user.isStaff
    ensures !Permitted(EventList, "POST", Anonymous)
  {
  }

  /** No reservation endpoint answers an anonymous caller, whatever the method. */
  lemma ReservationsNeedLogin(verb: string)
    ensures !Permitted(ReservationListCreate, verb, Anonymous)
    ensures !Permitted(ReservationDetail, verb, Anonymous)
  {
  }

  /** Where a view is open to some caller, it is open to every staff account too. */
  lemma StaffIsNeverRefused(view: View, verb: string, user: User, id: nat)
    requires Permitted(view, verb, user)
    ensures Permitted(view, verb, Account(id, true))
  {
  }

  // ---------------------------------------------------------------- lookups over reservations

  /** A value a column can hold or a lookup can compare with; `None` in a lookup means `IS NULL`. */
  datatype Value = IntValue(n: int) | StrValue(s: string) | BoolValue(b: bool) | NullValue

  /** One keyword argument of `filter(...)`: an exact lookup on a field. */
  datatype Lookup = Lookup(field: string, value: Value)

  /** What `filter` gives: the selected rows, or the `FieldError` the ORM raises for an unknown field. */
  datatype QueryResult = Rows(rows: seq<Reservation>) | FieldError(field: string)

  function NullableText(s: Option<string>): Value {
    if s.Some? then StrValue(s.value) else NullValue
  }

  /**
   * The names a lookup on `Reservation` may use: the declared fields, `pk` for the primary key,
   * and the `_id` column names of the two foreign keys.
   */
  const LookupNames: set<string> := ReservationFields + {"pk", "event_id", "user_id"}

  /** A row's column by lookup name; `None` for a name the model does not know. */
  function Column(r: Reservation, field: string): (v: Option<Value>)
    ensures v.Some? <==> field in LookupNames
    ensures field == "id" || field == "pk" ==> v == Some(IntValue(r.id))
    ensures field == "event" || field == "event_id" ==> v == Some(IntValue(r.event))
    ensures field == "user" || field == "user_id" ==> v == Some(IntValue(r.user))
  {
    if field == "id" || field == "pk" then Some(IntValue(r.id))
    else if field == "event" || field == "event_id" then Some(IntValue(r.event))
    else if field == "user" || field == "user_id" then Some(IntValue(r.user))
    else if field == "name" then Some(NullableText(r.name))
    else if field == "surname" then Some(NullableText(r.surname))
    else if field == "quantity" then Some(IntValue(r.quantity))
    else if field == "created_at" then Some(IntValue(r.createdAt))
    else None
  }

  /** The row satisfies every lookup. */
  predicate Matches(r: Reservation, lookups: seq<Lookup>) {
    forall l :: l in lookups ==> Column(r, l.field) == Some(l.value)
  }

  /**
   * The first lookup, in the given order, that names an unknown field. Which of several unknown
   * names Django reports is not modelled.
   */
  function FirstUndeclared(lookups: seq<Lookup>): (f: Option<string>)
    ensures f.None? <==> forall l :: l in lookups ==> l.field in LookupNames
    ensures f.Some? ==> f.value !in LookupNames && exists l :: l in lookups && l.field == f.value
  {
    if lookups == [] then None
    else if lookups[0].field !in LookupNames then Some(lookups[0].field)
    else FirstUndeclared(lookups[1..])
  }

  /** The rows that match, in their original order. */
  function Select(rows: seq<Reservation>, lookups: seq<Lookup>): (out: seq<Reservation>)
    ensures |out| <= |rows|
    ensures forall r :: r in out <==> r in rows && Matches(r, lookups)
  {
    if rows == [] then []
    else if Matches(rows[0], lookups) then [rows[0]] + Select(rows[1..], lookups)
    else Select(rows[1..], lookups)
  }

  /** Selection keeps order: selecting from two runs of rows is selecting from each, in turn. */
  lemma {:induction false} SelectAppend(a: seq<Reservation>, b: seq<Reservation>, lookups: seq<Lookup>)
    ensures Select(a + b, lookups) == Select(a, lookups) + Select(b, lookups)
  {
    if a == [] {
      assert a + b == b;
    } else {
      assert (a + b)[0] == a[0] && (a + b)[1..] == a[1..] + b;
      SelectAppend(a[1..], b, lookups);
      if Matches(a[0], lookups) {
        assert [a[0]] + (Select(a[1..], lookups) + Select(b, lookups))
            == ([a[0]] + Select(a[1..], lookups)) + Select(b, lookups);
      }
    }
  }

  /**
   * `Reservation.objects.filter(**lookups)`: a `FieldError` exactly when some lookup names a field
   * the model does not know, and otherwise the rows that satisfy every lookup.
   */
  function Filter(rows: seq<Reservation>, lookups: seq<Lookup>): (res: QueryResult)
    ensures res.FieldError? <==> exists l :: l in lookups && l.field !in LookupNames
    ensures res.FieldError? ==> res.field !in LookupNames
    ensures res.Rows? ==> forall r :: r in res.rows <==> r in rows && Matches(r, lookups)
  {
    var undeclared := FirstUndeclared(lookups);
    if undeclared.Some? then FieldError(undeclared.value) else Rows(Select(rows, lookups))
  }

  function OwnerLookup(user: nat): Lookup {
    Lookup("user", IntValue(user))
  }

  /**
   * `ReservationListCreate.get_queryset` as written: owner and `canceled=False`. `Reservation`
   * has no `canceled` field, so the query fails on every request, for every user and every
   * table, with the error naming that field.
   */
  function ListQueryAsWritten(rows: seq<Reservation>, user: nat): (res: QueryResult)
    ensures res == FieldError("canceled")
  {
    Filter(rows, [OwnerLookup(user), Lookup("canceled", BoolValue(false))])
  }

  /**
   * The owner-scoped query both reservation views are meant to answer: exactly the requester's
   * reservations, in the model's table order.
   */
  function OwnReservations(rows: seq<Reservation>, user: nat): (own: seq<Reservation>)
    ensures forall r :: r in own <==> r in rows && r.user == user
    ensures forall k :: 0 <= k < |own| ==> own[k].user == user
  {
    var res := Filter(rows, [OwnerLookup(user)]);
    assert forall r :: Matches(r, [OwnerLookup(user)]) <==> r.user == user by {
      forall r ensures Matches(r, [OwnerLookup(user)]) <==> r.user == user {
        assert OwnerLookup(user) in [OwnerLookup(user)];
      }
    }
    res.rows
  }

  /** The owner filter on a user's own rows keeps all of them, in order. */
  lemma {:induction false} OwnRowsAreKept(rows: seq<Reservation>, user: nat)
    requires forall k :: 0 <= k < |rows| ==> rows[k].user == user
    ensures OwnReservations(rows, user) == rows
  {
    if rows != [] {
      assert rows == [rows[0]] + rows[1..];
      SelectAppend([rows[0]], rows[1..], [OwnerLookup(user)]);
      OwnRowsAreKept(rows[1..], user);
      assert Matches(rows[0], [OwnerLookup(user)]);
      assert Select([], [OwnerLookup(user)]) == [];
    }
  }

  /** `ReservationDetail.get_queryset`: the requester's reservations only. */
  function DetailQuery(rows: seq<Reservation>, user: nat): (res: QueryResult)
    ensures res.Rows? && res.rows == OwnReservations(rows, user)
  {
    Filter(rows, [OwnerLookup(user)])
  }

  /**
   * The object a detail request (retrieve, update or destroy) acts on: the reservation with that
   * id in the requester's queryset, or `None`, which the view answers with 404.
   */
  function Retrieve(rows: seq<Reservation>, user: nat, id: nat): (found: Option<Reservation>)
    ensures found.Some? ==> found.value in rows && found.value.user == user && found.value.id == id
    ensures found.None? <==> !exists r :: r in rows && r.user == user && r.id == id
  {
    var hits := Select(DetailQuery(rows, user).rows, [Lookup("id", IntValue(id))]);
    if hits == [] then
      assert forall r :: r in rows && r.user == user && r.id == id ==> Matches(r, [Lookup("id", IntValue(id))]);
      None
    else
      assert hits[0] in hits;
      assert Lookup("id", IntValue(id)) in [Lookup("id", IntValue(id))];
      Some(hits[0])
  }

  /** Reservation ids are primary keys: no two rows share one. */
  predicate UniqueIds(rows: seq<Reservation>) {
    forall i, j :: 0 <= i < j < |rows| ==> rows[i].id != rows[j].id
  }

  /** Another user's reservation is not found: it is outside the requester's queryset. */
  lemma OthersReservationIsNotFound(rows: seq<Reservation>, user: nat, r: Reservation)
    requires UniqueIds(rows) && r in rows && r.user != user
    ensures Retrieve(rows, user, r.id) == None
  {
  }

  /**
   * What a full update (`PUT`) may change: the serializer's writable fields. `user` is
   * read-only, so it is not among them.
   */
  datatype ReservationChanges = Changes(event: nat, name: Option<string>, surname: Option<string>, quantity: nat)

  /** The table after an update through the detail view, or `None` for 404. */
  function Updated(rows: seq<Reservation>, user: nat, id: nat, c: ReservationChanges): (out: Option<seq<Reservation>>)
    ensures out.None? <==> Retrieve(rows, user, id).None?
    ensures out.Some? ==> |out.value| == |rows|
    ensures out.Some? ==> forall k :: 0 <= k < |rows| ==> out.value[k].user == rows[k].user && out.value[k].id == rows[k].id
    ensures out.Some? ==> forall k :: 0 <= k < |rows| && (rows[k].user != user || rows[k].id != id) ==> out.value[k] == rows[k]
    ensures out.Some? ==> forall k :: 0 <= k < |rows| && rows[k].user == user && rows[k].id == id ==>
              out.value[k] == rows[k].(event := c.event, name := c.name, surname := c.surname, quantity := c.quantity)
  {
    if Retrieve(rows, user, id).None? then None
    else Some(seq(|rows|, k requires 0 <= k < |rows| =>
                if rows[k].user == user && rows[k].id == id
                then rows[k].(event := c.event, name := c.name, surname := c.surname, quantity := c.quantity)
                else rows[k]))
  }

  /** The table after a delete through the detail view, or `None` for 404. */
  function Deleted(rows: seq<Reservation>, user: nat, id: nat): (out: Option<seq<Reservation>>)
    ensures out.None? <==> Retrieve(rows, user, id).None?
    ensures out.Some? ==> forall r :: r in out.value <==> r in rows && (r.user != user || r.id != id)
  {
    if Retrieve(rows, user, id).None? then None
    else
      Some(RemoveOwned(rows, user, id))
  }

  /** The rows other than the requester's row with that id, in order. */
  function RemoveOwned(rows: seq<Reservation>, user: nat, id: nat): (out: seq<Reservation>)
    ensures forall r :: r in out <==> r in rows && (r.user != user || r.id != id)
  {
    if rows == [] then []
    else if rows[0].user == user && rows[0].id == id then RemoveOwned(rows[1..], user, id)
    else [rows[0]] + RemoveOwned(rows[1..], user, id)
  }

  /** A detail request by one user never changes or removes another user's reservations. */
  lemma DetailRequestsSpareOthers(rows: seq<Reservation>, user: nat, id: nat, c: ReservationChanges, r: Reservation)
    requires r in rows && r.user != user
    ensures Updated(rows, user, id, c).Some? ==> r in Updated(rows, user, id, c).value
    ensures Deleted(rows, user, id).Some? ==> r in Deleted(rows, user, id).value
  {
  }

  // ---------------------------------------------------------------- creation hooks

  /** The body of a reservation `POST`; a `user` sent by the client is read-only and ignored. */
  datatype ReservationInput = ReservationInput(event: nat, user: Option<nat>, name: Option<string>,
                                               surname: Option<string>, quantity: Option<nat>)

  /**
   * `ReservationListCreate.perform_create`: the row the serializer saves, owned by the requester,
   * with the quantity defaulting to 1. The id and the creation time come from the database.
   */
  function PerformCreate(requester: nat, data: ReservationInput, id: nat, now: int): (r: Reservation)
    ensures r.user == requester && r.id == id && r.createdAt == now
    ensures r.event == data.event && r.name == data.name && r.surname == data.surname
    ensures r.quantity == (if data.quantity.Some? then data.quantity.value else DefaultQuantity)
  {
    Reservation(id, data.event, requester, data.name, data.surname,
                if data.quantity.Some? then data.quantity.value else DefaultQuantity, now)
  }

  /** The client cannot choose the owner: whatever `user` it sends, the same row is created. */
  lemma ClientUserIsIgnored(requester: nat, data: ReservationInput, claimed: Option<nat>, id: nat, now: int)
    ensures PerformCreate(requester, data.(user := claimed), id, now) == PerformCreate(requester, data, id, now)
  {
  }

  /**
   * A new reservation joins its creator's own reservations, once, and leaves everyone else's
   * unchanged. The queryset has no ordering, so the first clause is what holds in any order; the
   * second places the new row last in the model's table order.
   */
  lemma {:induction false} CreatedReservationIsListed(rows: seq<Reservation>, requester: nat,
                                                      data: ReservationInput, id: nat, now: int, other: nat)
    requires other != requester
    ensures multiset(OwnReservations(rows + [PerformCreate(requester, data, id, now)], requester))
            == multiset(OwnReservations(rows, requester)) + multiset{PerformCreate(requester, data, id, now)}
    ensures OwnReservations(rows + [PerformCreate(requester, data, id, now)], requester)
            == OwnReservations(rows, requester) + [PerformCreate(requester, data, id, now)]
    ensures OwnReservations(rows + [PerformCreate(requester, data, id, now)], other)
            == OwnReservations(rows, other)
  {
    var created := PerformCreate(requester, data, id, now);
    SelectAppend(rows, [created], [OwnerLookup(requester)]);
    SelectAppend(rows, [created], [OwnerLookup(other)]);
    assert OwnerLookup(requester) in [OwnerLookup(requester)];
    assert OwnerLookup(other) in [OwnerLookup(other)];
    assert [created][1..] == [];
    assert Matches(created, [OwnerLookup(requester)]);
    assert !Matches(created, [OwnerLookup(other)]);
  }

  /** The body of an event `POST`: the list serializer's fields only. */
  datatype EventInput = EventInput(name: string, startTime: int, endTime: int, location: string,
                                   priceCents: Option<int>)

  /**
   * `EventList.create` with its `perform_create`: refused unless the caller may post to the
   * list; otherwise a new event organized by the caller and saved once. The list serializer has
   * no ticket fields and no description, so both counts start out null and the description empty.
   */
  method CreateEvent(user: User, data: EventInput, newPk: nat) returns (created: Option<Event>)
    requires data.priceCents.Some? ==> PriceFits(data.priceCents.value)
    ensures created.None? <==> !Permitted(EventList, "POST", user)
    ensures created.Some? ==> fresh(created.value) && created.value.Valid()
    ensures created.Some? ==> user.Account? && created.value.organizer == user.id
    ensures created.Some? ==> created.value.pk == Some(newPk)
    ensures created.Some? ==> created.value.totalTickets == None && created.value.availableTickets == None
    ensures created.Some? ==> created.value.name == data.name && created.value.location == data.location
    ensures created.Some? ==> created.value.startTime == data.startTime && created.value.endTime == data.endTime
    ensures created.Some? ==> created.value.description == ""
    ensures created.Some? ==>
              created.value.priceCents == (if data.priceCents.Some? then data.priceCents.value else DefaultPriceCents)
  {
    if !Permitted(EventList, "POST", user) {
      return None;
    }
    var price := if data.priceCents.Some? then data.priceCents.value else DefaultPriceCents;
    var e := new Event(data.name, "", data.location, data.startTime, data.endTime, user.id, price, None, None);
    e.Save(newPk);
    return Some(e);
  }
}
