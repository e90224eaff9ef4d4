# PPM ticketing system: a Dafny model of its request and purchase logic

The ticketing system is a Django REST back end with a React front end. Visitors browse events,
pick a quantity and their names on an event's page, and pay on a checkout page. Every
authenticated call from the front end goes through one wrapper, `apiFetch`. The wrapper adds the
stored bearer token. On a 401 it asks the refresh endpoint once for a new access token and then
retries once, or it logs the user out.

This project models that logic and proves what it promises.

- `js_text.dfy` (modules `Common`, `JsText`): the JavaScript string operations the pages rely on.
  These are the digit filter (`replace(/[^0-9]/g, '')`), `trim`, truthiness of a stored string
  and `toString` on non-negative safe integers.
- `api_client.dfy` (module `ApiClient`): `apiFetch`, `refreshAccessToken` and `forceLogOut`.
  - `localStorage` and `window.location.href` are the fields of a `Browser` object.
  - The network is a `Network` object. It holds the answers it will give, one per call, and the
    log of the requests it was sent.
  - `ApiFetch` is an imperative method. It is proved equal to `ApiFetchSpec`, a state machine over
    the starting store and the network's answers, and the lemmas are proved about that function.
  - The token writes of the login, sign-up and header components are modelled here too.
- `checkout.dfy` (module `Checkout`): the card-number and expiry formatters, the CVC filter and
  `handleSubmit`.
  - `FormatCardNumber` keeps the source's loop over groups of four. It is proved equal to
    `FormattedCardNumber`, whose shape (grouping, spaces, length, idempotence) is proved by lemmas.
  - `CheckoutPage` is the component's state. Its handlers are methods on it.
- `event_details.dfy` (module `EventDetails`): the stock badges, the reserve decision and the
  purchase button of the event page.
- `models.dfy` (module `Models`): the `Event` record with its `save` override, and the
  `Reservation` row.
- `views.dfy` (module `Views`): the permission rules, the reservation querysets and the create
  hooks.
  - Querysets are modelled as Django exact lookups over the reservation rows.
  - A lookup may name a declared field, `pk`, or a foreign key's `_id` column. Any other name
    fails with `FieldError`, as in the ORM.

The base URL of the API (`VITE_API_URL`) is a parameter (`apiUrl`). Clocks and database keys are
parameters too (`now`, `id`, `newPk`).

## Model

| member | source | states |
|---|---|---|
| JsText.KeepDigits | frontend/src/pages/checkout/Checkout.tsx:57 | the digit filter returns only digits, never more characters than it was given, and a string of digits unchanged |
| JsText.KeepDigitsAppend | frontend/src/pages/checkout/Checkout.tsx:57 | filtering a concatenation is the concatenation of the filtered parts, so the filter keeps the digits' order |
| JsText.KeepDigitsKeepsEveryDigit | frontend/src/pages/checkout/Checkout.tsx:57 | the filter drops nothing exactly when every character is a digit (both directions) |
| JsText.Trim | frontend/src/pages/checkout/Checkout.tsx:95-103 | `trim` gives the empty string exactly when the input is all whitespace; otherwise the result starts and ends with a non-whitespace character |
| JsText.TrimCutsOnlyTheEnds | frontend/src/pages/checkout/Checkout.tsx:118-122 | the result of `trim` is a slice of the input with only whitespace before it and after it |
| JsText.DecimalString | frontend/src/pages/eventDetails/EventDetails.tsx:91 | `toString` of a count up to 2^53 - 1 is all digits, denotes exactly that count, and starts with 0 only for zero |
| JsText.DecimalStringInjective | frontend/src/pages/eventDetails/EventDetails.tsx:91 | two counts print the same exactly when they are equal |
| ApiClient.LoggedOut | frontend/src/apiClient.ts:28-30 | logging out removes both token keys and keeps every other key with its value |
| ApiClient.LoggedOutIdempotent | frontend/src/apiClient.ts:28-30 | removing the tokens twice leaves the same store as once |
| ApiClient.ForceLogOut | frontend/src/apiClient.ts:28-32 | `forceLogOut` leaves the store logged out and the location at `/login` |
| ApiClient.ForceLogOutTwice | frontend/src/apiClient.ts:28-32 | a second forced logout neither fails on the missing keys nor changes the outcome |
| ApiClient.RefreshRequest | frontend/src/apiClient.ts:9-13 | the refresh call is a POST to `/auth/token/refresh/` with only the JSON content type (no bearer credential) and a body holding only the refresh token |
| ApiClient.RefreshOutcome | frontend/src/apiClient.ts:8-26 | the refresh settles with a token exactly when the answer is ok with a non-empty `access`; it rejects exactly when `fetch` rejects or an ok body does not parse; otherwise it settles with null |
| ApiClient.RefreshAccessToken | frontend/src/apiClient.ts:8-26 | one POST carrying only the refresh token as JSON; the store gains the new access token only when one is returned, and the refresh token in the answer is never stored |
| ApiClient.IndexKeysMembership | frontend/src/apiClient.ts:79 | the index keys of an array of length n are exactly the decimal forms of 0 … n-1 |
| ApiClient.SpreadPairs | frontend/src/apiClient.ts:79 | spreading an array of header pairs yields exactly the index keys "0", "1", …, each mapped to its pair's `name,value` |
| ApiClient.FirstHeaders | frontend/src/apiClient.ts:38-48 | a stored token overrides any caller `Authorization`; the caller's plain-object headers override the JSON default; nothing else is added |
| ApiClient.RetryHeaders | frontend/src/apiClient.ts:74-82 | the retry carries `Bearer <new token>` over whatever the caller's headers spread to, and the JSON default unless the caller set `Content-Type` |
| ApiClient.PairHeadersOnlyReachTheRetry | frontend/src/apiClient.ts:42-81 | headers given as an array of pairs are dropped from the first call but reach the retry, the first pair as `"0": "name,value"` |
| ApiClient.ApiFetchSpec | frontend/src/apiClient.ts:34-85 | at most three calls: the request, then the refresh only with a truthy refresh token, then the retry with the stored new token; the location is unchanged unless the user was logged out to `/login`; the refresh token is never written and only the access token can change |
| ApiClient.ApiFetch | frontend/src/apiClient.ts:34-85 | the requests sent, the result, the store and the location are exactly those of `ApiFetchSpec` on the starting state; each call sent consumes one of the network's answers |
| ApiClient.OtherStatusPassesThrough | frontend/src/apiClient.ts:56-59 | a first answer other than 401 is returned after one call with the store and location untouched |
| ApiClient.UnauthorizedWithoutRefreshTokenLogsOut | frontend/src/apiClient.ts:62-65 | a 401 without a truthy refresh token logs out and returns the 401 after one call |
| ApiClient.FailedRefreshLogsOut | frontend/src/apiClient.ts:67-72 | a 401 followed by a refresh that yields no token logs out and returns the original 401 after exactly two calls |
| ApiClient.SuccessfulRefreshRetriesOnce | frontend/src/apiClient.ts:74-84 | a 401 followed by a successful refresh stores the new token and retries exactly once with it; the retry's outcome is the result |
| ApiClient.RejectionPropagates | frontend/src/apiClient.ts:50-67 | a rejected `fetch` or an unparseable refresh body rejects the whole call with no logout and no change of state |
| ApiClient.RefreshScenario | frontend/src/apiClient.ts:34-84 | with A1/R1 stored, a 401 refreshes with R1, the retry carries `Bearer A2` and the store ends with A2/R1 |
| ApiClient.StoreTokens | frontend/src/pages/login/Login.tsx:32-33 | login (and sign-up, SignUp.tsx:42-43) store the access token and the refresh token, or the empty string when the answer has none |
| ApiClient.LogOut | frontend/src/components/header/Header.tsx:14-15 | the header's logout removes both tokens and keeps everything else |
| ApiClient.LoginWithoutRefreshThenUnauthorized | frontend/src/pages/login/Login.tsx:33 | after a login whose answer had no refresh token, the first 401 logs out at once without calling the refresh endpoint |
| Checkout.FirstCardRun | frontend/src/pages/checkout/Checkout.tsx:58-59 | the first `\d{4,16}` match exists exactly when there are at least four digits, and is then the first `min(16, n)` of them |
| Checkout.GroupedAppend | frontend/src/pages/checkout/Checkout.tsx:61-65 | grouping whole groups followed by more digits puts exactly one space at the seam |
| Checkout.GroupedAt | frontend/src/pages/checkout/Checkout.tsx:61-65 | a grouping of n digits has n + (n-1)/4 characters, with a space at every k with k mod 5 = 4 and the digits in order elsewhere |
| Checkout.KeepDigitsGrouped | frontend/src/pages/checkout/Checkout.tsx:61-65 | removing the spaces from a grouping gives the digits back |
| Checkout.GroupedEnds | frontend/src/pages/checkout/Checkout.tsx:61-65 | a grouping starts with the first digit and ends with the last |
| Checkout.GroupedSpaces | frontend/src/pages/checkout/Checkout.tsx:61-65 | a grouping of digits holds spaces exactly at the positions k mod 5 = 4 and digits elsewhere |
| Checkout.FormattedCardNumber | frontend/src/pages/checkout/Checkout.tsx:56-69 | the formatted card number never exceeds the card field's `maxLength` of 19 |
| Checkout.FormatCardNumber | frontend/src/pages/checkout/Checkout.tsx:56-69 | the loop over groups of four returns exactly `FormattedCardNumber(value)` |
| Checkout.CardNumberGrouping | frontend/src/pages/checkout/Checkout.tsx:56-69 | with four or more digits the result is the first min(16, n) digits in groups of four, at most 19 characters (the field's `maxLength`), with no space at either end |
| Checkout.CardNumberShortInput | frontend/src/pages/checkout/Checkout.tsx:64-68 | with fewer than four digits the bare digits are returned |
| Checkout.CardNumberDigitsArePrefix | frontend/src/pages/checkout/Checkout.tsx:56-69 | the result holds only digits and single spaces, and its digits are a prefix of the input's digits |
| Checkout.CardNumberIdempotent | frontend/src/pages/checkout/Checkout.tsx:56-69 | formatting a formatted card number changes nothing |
| Checkout.FormattedExpiry | frontend/src/pages/checkout/Checkout.tsx:71-77 | the result's digits are the first four of the input's; a slash is at position 2 exactly when there are two digits or more; everything else is a digit; at most 5 characters |
| Checkout.ExpiryIdempotent | frontend/src/pages/checkout/Checkout.tsx:71-77 | formatting a formatted expiry changes nothing |
| Checkout.SubmitRejection | frontend/src/pages/checkout/Checkout.tsx:89-103 | quantity, then names, then card fields are checked in that order, the first failing check gives the message, and nothing is rejected exactly when all pass |
| Checkout.CheckoutPayload | frontend/src/pages/checkout/Checkout.tsx:115-123 | the body has the seven members `event_id`, `quantity`, `name`, `surname`, `card_number`, `expiry`, `cvc` in that order, the first two as given and the rest strings |
| Checkout.PayloadFieldsAreTidy | frontend/src/pages/checkout/Checkout.tsx:115-123 | a payload that passed the checks carries the event id and quantity as given and the trimmed name, surname, card number, expiry and CVC, each non-empty with no whitespace at either end |
| Checkout.Interpolated | frontend/src/pages/checkout/Checkout.tsx:113 | a template literal prints a stored token as itself and a missing one as `null` |
| Checkout.CheckoutInit | frontend/src/pages/checkout/Checkout.tsx:109-114 | the checkout request is a POST of the payload with exactly the JSON type and `Bearer <token>` as its own headers, `Bearer null` when no token is stored |
| Checkout.CheckoutWithoutTokenSendsBearerNull | frontend/src/pages/checkout/Checkout.tsx:111-114 | with no stored token the checkout call carries the literal `Bearer null` |
| Checkout.Outcome | frontend/src/pages/checkout/Checkout.tsx:126-143 | an ok answer leads to `/reservations`; otherwise the backend's `error`, the fixed fallback, or the platform error is shown |
| Checkout.CheckoutPage.constructor | frontend/src/pages/checkout/Checkout.tsx:17-25 | the form starts with the query's quantity and names, empty card fields, no error and not loading |
| Checkout.CheckoutPage.OnCardNumberChange | frontend/src/pages/checkout/Checkout.tsx:79-82 | the card field holds the formatted input |
| Checkout.CheckoutPage.OnExpiryChange | frontend/src/pages/checkout/Checkout.tsx:84-87 | the expiry field holds the formatted input |
| Checkout.CheckoutPage.OnCvcChange | frontend/src/pages/checkout/Checkout.tsx:300 | the CVC field holds the input's digits only |
| Checkout.CheckoutPage.ShowOutcome | frontend/src/pages/checkout/Checkout.tsx:126-143 | the page redirects or shows the error exactly as `Outcome` says, and changes nothing else |
| Checkout.CheckoutPage.HandleSubmit | frontend/src/pages/checkout/Checkout.tsx:89-144 | a failed check shows its message and sends nothing; otherwise the trimmed payload goes through `apiFetch` and the page ends not loading, showing the outcome |
| Checkout.CheckoutPage.Post | frontend/src/pages/checkout/Checkout.tsx:105-144 | the calls, store and location are those of `ApiFetchSpec` on the checkout request, with one network answer consumed per call; the error is cleared on success |
| EventDetails.IsLowStock | frontend/src/pages/eventDetails/EventDetails.tsx:102 | an event is low on stock exactly when its count is known and between 1 and 5; a null count or no event is never low |
| EventDetails.IsOutOfStock | frontend/src/pages/eventDetails/EventDetails.tsx:103 | an event is sold out exactly when its count is 0; a null count is not sold out |
| EventDetails.StockFlagsExclusive | frontend/src/pages/eventDetails/EventDetails.tsx:102-103 | an event is never both low on stock and sold out, and either badge means a known count of at most five |
| EventDetails.ReserveDecision | frontend/src/pages/eventDetails/EventDetails.tsx:73-100 | login, then names, then quantity are checked in order; a quantity above the stock is refused only when the stock is truthy; on success the target is `/checkout/<id>` with the quantity and untrimmed names |
| EventDetails.LoginCheckComesFirst | frontend/src/pages/eventDetails/EventDetails.tsx:74-78 | without a token the login message is shown whatever the names and quantity |
| EventDetails.NamesCheckBeforeQuantity | frontend/src/pages/eventDetails/EventDetails.tsx:80-88 | blank names are reported whatever the quantity |
| EventDetails.EventDetailsPage.constructor | frontend/src/pages/eventDetails/EventDetails.tsx:22-28 | the page starts with quantity 1, empty names and no message |
| EventDetails.EventDetailsPage.HandleReserve | frontend/src/pages/eventDetails/EventDetails.tsx:73-100 | the page shows the refusal or navigates exactly as `ReserveDecision` says, on the token stored at the click |
| EventDetails.EventDetailsPage.ClickBuy | frontend/src/pages/eventDetails/EventDetails.tsx:319-334 | a click on a missing or sold-out event's button changes nothing; otherwise it runs `handleReserve` |
| EventDetails.SoldOutHidesPurchase | frontend/src/pages/eventDetails/EventDetails.tsx:234 | a sold-out event does not show the purchase form |
| Models.Event.constructor | backend/api/models.py:4-15 | an unsaved event has no key and holds the given fields, with a price of at most ten digits in cents |
| Models.Event.Save | backend/api/models.py:17-20 | the first save with a total sets the available count to it; the first save without a total and every later save leave the available count as it was; the key is assigned once |
| Models.CreateAndResave | backend/api/models.py:17-20 | saving a new event with a total and then saving it again leaves the available count equal to the total and the first key |
| Views.IsAdminOrReadOnly | backend/api/views.py:5-10 | safe methods are always allowed; any other method is allowed exactly for a staff account |
| Views.Permitted | backend/api/views.py:12-37 | event detail allows anyone; both reservation views allow exactly logged-in users; the event list follows `IsAdminOrReadOnly` |
| Views.EventListAccess | backend/api/views.py:7-10 | an anonymous GET on the event list is allowed (as backend/api/tests.py:24-27 expects); a POST is allowed exactly for staff |
| Views.ReservationsNeedLogin | backend/api/views.py:25-37 | no reservation endpoint answers an anonymous caller, whatever the method |
| Views.StaffIsNeverRefused | backend/api/views.py:5-37 | whatever is allowed to some caller is allowed to every staff account |
| Views.Column | backend/api/models.py:25-31 | a column exists exactly for the fields `Reservation` declares, `pk` and the foreign keys' `_id` names, which read the same values as `id`, `event` and `user` |
| Views.Select | backend/api/views.py:30 | the selected rows are exactly the table's rows that satisfy every lookup |
| Views.SelectAppend | backend/api/views.py:30 | selection keeps the model's table order |
| Views.Filter | backend/api/views.py:30 | `filter` fails with `FieldError` exactly when a lookup names an unknown field, and otherwise returns the matching rows |
| Views.ListQueryAsWritten | backend/api/views.py:29-30 | the list query as written fails with `FieldError("canceled")` for every user and every table |
| Views.OwnReservations | backend/api/views.py:39-40 | the owner filter returns exactly the requester's reservations |
| Views.OwnRowsAreKept | backend/api/views.py:39-40 | the owner filter keeps all of the requester's rows, in the model's table order |
| Views.DetailQuery | backend/api/views.py:39-40 | the detail queryset is the requester's reservations |
| Views.Retrieve | backend/api/views.py:35-40 | a detail request finds a reservation only when it is the requester's and has that id, and finds one whenever such a row exists |
| Views.OthersReservationIsNotFound | backend/api/views.py:39-40 | another user's reservation is answered as not found |
| Views.Updated | backend/api/views.py:35-40 | an update changes only the requester's row with that id, never an owner or an id, and is refused exactly when no such row exists |
| Views.Deleted | backend/api/views.py:35-40 | a delete removes only the requester's row with that id and is refused exactly when no such row exists |
| Views.RemoveOwned | backend/api/views.py:35-40 | removal keeps exactly the rows that are not the requester's row with that id |
| Views.DetailRequestsSpareOthers | backend/api/views.py:39-40 | an update or delete by one user never touches another user's reservation |
| Views.PerformCreate | backend/api/views.py:32-33 | a created reservation belongs to the requester, with the quantity defaulting to 1 (backend/api/models.py:30) |
| Views.ClientUserIsIgnored | backend/api/serializers.py:18 | the `user` the client sends has no effect on the created row |
| Views.CreatedReservationIsListed | backend/api/views.py:32-33 | a new reservation joins its creator's own list exactly once (as a multiset, whatever the order) and changes no one else's list; in the model's table order it comes last |
| Views.CreateEvent | backend/api/views.py:12-18 | a POST on the event list is refused exactly when not allowed; otherwise the event is organized by the caller, saved once, and its name, location, start and end time are the request's, and its ticket counts are null because the list serializer has no ticket fields |

## Left out

- The fetch of the event on both pages (`fetchEvent`, and the sold-out check and price load in the checkout page's effect) is left out. They are loading code around the logic; their results are the inputs of the modelled functions.
- Date formatting (`toLocaleDateString`, `strftime`) and the price totals (`parseFloat(price) * quantity`, `toFixed(2)`) are left out. They are locale-dependent and floating-point.
- `parseInt` of the query's quantity and `Number(e.target.value)` are not modelled, so quantities are integers. `NaN` and fractional quantities are outside the model.
- `JsText.DecimalString`: exact only for counts up to `Number.MAX_SAFE_INTEGER` (2^53 - 1). JavaScript numbers are doubles: above 2^53 `toString` prints the shortest digits that round-trip (`2**60` prints as `1152921504606847000`), and from 10^21 on it prints exponent form (`1e+21`). A quantity typed as `1e21` on an event with a null stock reaches the query of EventDetails.tsx:91 as `1e+21`, while `EventDetails.ReserveDecision` prints all 22 digits.
- `URLSearchParams` percent-encoding of the query string is not modelled. The navigation target keeps the key/value pairs in order.
- `JSON.stringify` escaping is not modelled. The body is kept as a JSON value.
- A Django `PositiveIntegerField`'s upper bound depends on the database backend, so ticket counts and quantities are unbounded `nat`s.
- Header names are compared exactly. The case-insensitive merging a `Headers` object performs in `fetch` is not modelled.
- `ApiClient.RefreshOutcome`: a non-string `access` member (a number, say) is not modelled. The body's members are strings or absent.
- `Checkout.CheckoutPage.OnCvcChange`: the input's `maxLength={4}` is enforced by the browser before the change handler runs, so it is not modelled.
- Concurrent `apiFetch` calls (two refreshes in flight at once) are not modelled. Each call runs alone against the store.
- The header's `navigate('/')` after logout is not modelled. `Browser.href` records only full-page assignments to `window.location.href`; the two pages keep their router target in a field of their own (`navigation`, `redirect`).
- `ApiClient.ApiFetch`: a `Request` object as `input` is not modelled. `input` is a URL string, as every caller passes.
- DRF dispatch (status codes for a refused permission, 405 for unsupported methods, serializer validation such as an unknown event id) is left out. Only the permission decision and the data each view reaches are modelled.
- `Views.Updated`: partial updates (`PATCH`) are not modelled separately. A full update names every writable field.
- `Models.Event.Save`: `created_at` and `updated_at` are set by the database and are not modelled.
- Related lookups across foreign keys (`event__name`) and lookup suffixes (`quantity__gt`) are not modelled. The model answers such a name with `FieldError`.
- `__str__` of both models is display-only and is left out.
- `Views.CreatedReservationIsListed`, `Views.SelectAppend`, `Views.OwnRowsAreKept`: neither reservation queryset (views.py:30, :40) calls `order_by`, and `Reservation` declares no `Meta.ordering`, so the database chooses the order of the rows. The model returns them in its table order, and `Views.Updated` keeps an edited row in place. Statements about order hold for that order only; the multiset clause of `Views.CreatedReservationIsListed` is the order-free promise.

## Findings

| source | as written | input that shows it | evidently intended | confidence | as-written member | corrected member |
|---|---|---|---|---|---|---|
| backend/api/views.py:29-30 | the reservation list filters on `canceled=False`, but `Reservation` (backend/api/models.py:25-31) declares no `canceled` field, so building the queryset raises `FieldError` | any authenticated GET on the reservation list, for any user and any table | the list returns the requester's own reservations; no reservation can be canceled, so the extra lookup would exclude nothing | high, not executed | Views.ListQueryAsWritten | Views.OwnReservations |

A POST to the same view does not build the list queryset, so creating a reservation is not
affected. `Views.CreatedReservationIsListed` therefore states the list behaviour with the
corrected query.
