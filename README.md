# Nitrous backend store: a Dafny model

The Nitrous backend is a REST API over an in-memory store. The store has five
collections: events, categories, journeys, merch items and users. They are
seeded at start-up and read and changed directly by the HTTP handlers. This
project models that store and the handlers that act on it:

- listing and filtering events; looking events up; creating, updating and
  deleting them;
- listing and looking up categories, journeys and merch items;
- booking a journey, which takes one of its remaining slots;
- registering, logging in, and looking up the current user.

Each handler is a method that takes the store and returns a `Response`. The
variants of `Response` match the handler's status codes: `Ok` (200),
`Created` (201), `BadRequest` (400), `InvalidState` (400, no slots left),
`Unauthorized` (401), `NotFound` (404), `Conflict` (409) and `ServerError`
(500).

Files:

- `seqs.dfy` holds `Option` and `Result`, plus the generic scans the handlers
  are built from: the index of the first match (`IndexOf`), filtering in order
  (`Filter`) and pairwise distinctness (`Distinct`).
- `models.dfy` holds the records, the validation rules from the request
  structs' binding tags, and the JSON form of events, journeys and users.
- `http.dfy` holds `Response`, Go's nil-versus-empty slice (`Slice`), the list
  body (`Listing`), and request binding (`ShouldBind`).
- `database.dfy` holds the store as a class with five `seq` fields. Its
  constructor is `InitDB`. It also holds the seed data and the facts proved
  about the seed.
- `events.dfy`, `catalogue.dfy` and `auth.dfy` hold the handlers of
  `handlers/events.go`, `handlers/other.go` and `handlers/auth.go`.

The foreign calls are oracles:

- `uuid.New()` is a parameter: `uuid: nat -> string` while seeding, and one
  fresh id per call in the handlers.
- `time.Now()` is a parameter in the same way: `clock: nat -> Instant` while
  seeding, one `now` per call in the handlers.
- The JSON decoder's result is a `Payload` parameter.
- The validator's e-mail syntax check is a parameter `isEmail`.
- bcrypt hashing and comparison, and `utils.GenerateJWT`, are the three
  functions of a `Crypto` value. Hashing and token issue may fail (`None`).

Four behaviours of the Go code that a reader might not expect:

- A category filter with no matches returns a nil slice, so the JSON holds
  `"events": null` and not an empty list. The same holds for the live filter.
- Seeded events have no `CreatedAt`, so it stays at Go's zero time.
- Delete keeps the remaining events in their order.
- Booking reads and decrements `SlotsLeft` without a lock, so it is not
  atomic. The model covers one request at a time.

## Model

| member | source | states |
|---|---|---|
| `Seqs.IndexOf` | nitrous-backend/handlers/events.go:55-62 | The scan result is -1 exactly when the key is absent. Otherwise it is the index of the first occurrence: the key sits there and occurs nowhere earlier. |
| `Seqs.Filter` | nitrous-backend/handlers/events.go:20-24 | The filter keeps exactly the elements that are in the input and satisfy the predicate, and it is never longer than the input. |
| `Seqs.FilterAppend` | nitrous-backend/handlers/events.go:20-24 | Filtering a concatenation gives the filtered first part followed by the filtered second part, so filtering keeps store order. |
| `Models.LoginErrors` | nitrous-backend/models/models.go:61-64 | A login request binds without errors if and only if the email is present and well-formed and the password is present. Only Email and Password are ever reported. |
| `Models.RegisterErrors` | nitrous-backend/models/models.go:67-71 | A registration binds without errors if and only if the email is present and well-formed, the password has at least 8 characters, and the name is present. `min` is reported exactly when the password is non-empty but shorter than 8. |
| `Models.UserJsonHidesHash` | nitrous-backend/models/models.go:52-58 | Two users that differ only in password hash serialise identically, and no key of a serialised user is `passwordHash`. |
| `Models.EventJsonOmitsEmpty` | nitrous-backend/models/models.go:6-16 | An event's JSON has a `time` key exactly when `Time` is non-empty. It has a `thumbnailUrl` key exactly when `ThumbnailURL` is non-empty. |
| `Models.JourneyJsonOmitsEmpty` | nitrous-backend/models/models.go:30-40 | A journey's JSON has a `thumbnailUrl` key exactly when `ThumbnailURL` is non-empty. |
| `Http.ShouldBind` | nitrous-backend/handlers/auth.go:19-22 | Binding succeeds exactly when the body decodes and its binding tags report nothing. On success the decoded request is returned unchanged. |
| `Database.Store.constructor` | nitrous-backend/database/db.go:21-31 | `InitDB` sets events, categories, journeys and merch items to the seed data and leaves users empty. The new store is consistent: no journey has negative slots and no email repeats. |
| `Database.SeedEvents` | nitrous-backend/database/db.go:37-94 | Six events. The i-th gets the i-th `uuid.New()` value, a zero `CreatedAt` and no thumbnail. |
| `Database.SeedCategories` | nitrous-backend/database/db.go:96-135 | Four categories, whose ids are the 7th to 10th `uuid.New()` values in order. |
| `Database.SeedJourneys` | nitrous-backend/database/db.go:137-170 | Three journeys, whose ids are the 11th to 13th `uuid.New()` values in order. Each has at least one slot and no thumbnail. |
| `Database.SeedMerch` | nitrous-backend/database/db.go:172-181 | Six merch items, whose ids are the 14th to 19th `uuid.New()` values in order. |
| `Database.SeedShape` | nitrous-backend/database/db.go:37-181 | The seed has 6 events, 4 categories, 3 journeys and 6 merch items. The live events are exactly the first and the third. |
| `Database.SeedCategoriesCoverEvents` | nitrous-backend/database/db.go:96-135 | The seeded category slugs are pairwise distinct, and every seeded event's category is one of them. |
| `Database.SeedSlots` | nitrous-backend/database/db.go:137-170 | The seeded journeys have 12, 6 and 3 slots, so none is negative. |
| `Database.SeedIdsDistinct` | nitrous-backend/database/db.go:37-181 | If `uuid.New()` never repeats a value, the 19 seeded entities have pairwise distinct ids. |
| `EventHandlers.GetEvents` | nitrous-backend/handlers/events.go:14-33 | With a category, the reply holds exactly that category's events in store order. Without one, it holds the whole store. It is always 200, `count` is the length of the list, and the list is nil exactly when a category matched nothing. |
| `EventHandlers.GetLiveEvents` | nitrous-backend/handlers/events.go:36-49 | The reply holds exactly the live events in store order, and `count` is their number. An empty result is nil. |
| `EventHandlers.GetEventByID` | nitrous-backend/handlers/events.go:52-63 | The reply is the first event with the id, or NotFound "Event not found". The store is not modified. |
| `EventHandlers.CreateEvent` | nitrous-backend/handlers/events.go:66-80 | An undecodable body gives BadRequest and nothing changes. Otherwise the payload, with its id replaced by the fresh id and its creation time by now, is appended last and returned as Created. A consistent store stays consistent. |
| `EventHandlers.UpdateEvent` | nitrous-backend/handlers/events.go:83-103 | A malformed body gives BadRequest before any lookup. An absent id gives NotFound and nothing changes. Otherwise the first slot with the id is replaced by the payload, keeping the old id and CreatedAt, and every other slot and the length stay the same. A consistent store stays consistent. |
| `EventHandlers.DeleteEvent` | nitrous-backend/handlers/events.go:106-118 | An absent id gives NotFound and nothing changes. Otherwise the first event with the id is removed and the others keep their order. A consistent store stays consistent. |
| `EventHandlers.CreatedEventListedLast` | nitrous-backend/handlers/events.go:77 | After a create, any filtered listing is the old listing with the new event added at the end, and only if the event matches the filter. |
| `EventHandlers.CreatedEventIsFound` | nitrous-backend/handlers/events.go:74-77 | With a fresh id, lookup by that id finds the new event in the last slot, and distinct ids stay distinct. |
| `EventHandlers.UpdatedEventIsFound` | nitrous-backend/handlers/events.go:92-97 | An update leaves the sequence of ids unchanged, so lookup finds the updated event at the same index. |
| `EventHandlers.DeletedEventIsGone` | nitrous-backend/handlers/events.go:109-117 | With distinct ids, a delete shortens the store by one and leaves no event with that id, so a second delete gives NotFound. The remaining ids stay distinct. |
| `CatalogueHandlers.GetCategories` | nitrous-backend/handlers/other.go:11-16 | The reply is every category, with `count` equal to the length of the list. Nothing changes. |
| `CatalogueHandlers.GetCategoryBySlug` | nitrous-backend/handlers/other.go:19-30 | The reply is the first category with the slug, or NotFound "Category not found". |
| `CatalogueHandlers.GetJourneys` | nitrous-backend/handlers/other.go:33-38 | The reply is every journey, with `count` equal to the length of the list. Nothing changes. |
| `CatalogueHandlers.GetJourneyByID` | nitrous-backend/handlers/other.go:41-52 | The reply is the first journey with the id, or NotFound "Journey not found". |
| `CatalogueHandlers.Book` | nitrous-backend/handlers/other.go:55-76 | An absent id gives NotFound with no change. A found journey with no slots left gives InvalidState "No slots available" with no change. Otherwise only that journey changes: its slots drop by exactly one, its other fields stay the same, and it is returned. |
| `CatalogueHandlers.BookJourney` | nitrous-backend/handlers/other.go:55-76 | The reply and the new journeys are exactly those of `Book`. A consistent store stays consistent. |
| `CatalogueHandlers.BookKeepsSlotsNonNegative` | nitrous-backend/handlers/other.go:60-65 | If every journey's slots are non-negative before a booking, they still are afterwards. No booking changes any journey's id. |
| `CatalogueHandlers.RepeatedBookings` | nitrous-backend/handlers/other.go:60-65 | Starting from s ≥ 0 slots, n bookings in a row succeed min(n, s) times and leave s − min(n, s) slots. Once the slots are used up, the next booking gives InvalidState. |
| `CatalogueHandlers.GetMerchItems` | nitrous-backend/handlers/other.go:79-84 | The reply is every merch item, with `count` equal to the length of the list. Nothing changes. |
| `CatalogueHandlers.GetMerchItemByID` | nitrous-backend/handlers/other.go:87-98 | The reply is the first merch item with the id, or NotFound "Merch item not found". |
| `AuthHandlers.Register` | nitrous-backend/handlers/auth.go:16-61 | The reply and the new users are exactly those of the registration function `Enrol`. A consistent store stays consistent. |
| `AuthHandlers.Enrol` | nitrous-backend/handlers/auth.go:16-61 | Registration, as a function of the users before it. The users change only on Created or on the token failure. When they change, the request bound, its email was not yet stored, and exactly one user was appended: the fresh id, the request's email and name, the oracle's hash of the password, and the current time. A Created reply carries that user. A body that fails to bind gives BadRequest with the users unchanged. A bound request with a new email, a successful hash and a token is Created. |
| `AuthHandlers.RegisterConflicts` | nitrous-backend/handlers/auth.go:25-30 | Registration gives Conflict if and only if the request binds and its email exactly equals a stored one, whatever the password and name. Every reply other than Created and the token failure leaves the users unchanged. |
| `AuthHandlers.RegisterAppendsUser` | nitrous-backend/handlers/auth.go:33-60 | A successful registration appends exactly one user. That user has the request's email and name, the fresh id, the current time, and the oracle's hash of the password. The reply carries that user and the token issued for its id. |
| `AuthHandlers.RegisterServerErrors` | nitrous-backend/handlers/auth.go:33-55 | A hash failure gives ServerError and adds nobody. A token failure gives ServerError after the append, so the new user stays registered. |
| `AuthHandlers.RegisterKeepsEmailsDistinct` | nitrous-backend/handlers/auth.go:25-48 | If stored emails are pairwise distinct before a registration, they still are afterwards. |
| `AuthHandlers.RegisterTwiceConflicts` | nitrous-backend/handlers/auth.go:25-48 | After a successful registration, registering the same email again gives Conflict and changes nothing, whatever the password and name. |
| `AuthHandlers.Authenticate` | nitrous-backend/handlers/auth.go:64-104 | Unauthorized always carries the text "Invalid credentials". It happens if and only if the request binds and either no user has the email or the password does not match the first user with that email. Ok returns that first matching user, with a token issued for its id. A body that fails to bind gives BadRequest. When the password matches the first user with the email, the reply is Ok with that user and its token, or ServerError "Failed to generate token" when no token can be issued. |
| `AuthHandlers.Login` | nitrous-backend/handlers/auth.go:64-104 | The reply is exactly that of `Authenticate`, and the users are not modified. |
| `AuthHandlers.RegisterThenLogin` | nitrous-backend/handlers/auth.go:48-103 | After a successful registration, logging in with the same email and password finds the new user, provided the login-time bcrypt accepts the hash stored at registration. The login token is issued afresh by a possibly different token oracle. The reply is the new user with that oracle's token, or ServerError "Failed to generate token" when that oracle fails. |
| `AuthHandlers.GetCurrentUser` | nitrous-backend/handlers/auth.go:107-123 | With no user id in the context the reply is Unauthorized. Otherwise it is the first user with that id, or NotFound "User not found". |
| `AuthHandlers.RegisterThenCurrentUser` | nitrous-backend/handlers/auth.go:40-48 | With a fresh id, the current-user lookup by the new id finds the user just registered, with the registered email. |

## Left out

- Routing, CORS and server start-up (`main.go`) are not modelled. The auth gate is not modelled either: `AuthMiddleware` guards create, update and delete event, book journey and get-current-user. Handlers are modelled as running after the gate. For `GetCurrentUser`, the context's `userID` is an `Option` parameter.
- The middleware, config and utils packages are not part of this model. Token issue is an oracle that may fail. Token verification and expiry are not modelled. Each request takes its own `Crypto` value, so a token issued at login need not equal one issued at registration.
- The foreign calls are oracles, not models: JSON decoding, the validator's e-mail syntax check, bcrypt hashing and comparison, `uuid.New()` and `time.Now()`. Because bcrypt is salted, the hash function is passed per call. Nothing is proved about how a hash relates to its password, beyond what `Crypto.passwordMatches` is assumed to say.
- The text of a binding error is not modelled. A rejected body carries either the decoder's message or the list of failed field and tag pairs.
- Prices are `float64`. They are carried as IEEE 754 bit patterns, and no arithmetic is done on them.
- Integers are unbounded. Go's `int` and `time.Duration` are 64 bits wide, but nothing here comes near that width. The guarded `SlotsLeft--` cannot overflow. The seed's `time.Now().Add(...)` offsets are at most 345 days, which is `Add` on unbounded nanoseconds.
- Concurrency is not modelled. The Go globals are not guarded against simultaneous requests, so the model covers sequential requests only.
- The JSON form of categories, merch items and reply wrappers is not modelled. Their fields are copied plainly and no property depends on them.
- `CloseDB` and the log lines only print, so they are not modelled. `BookingRequest` is not used by any handler.
- Database.SeedIdsDistinct: it holds only if `uuid.New()` never repeats a value, so that condition is a premise.
- EventHandlers.CreatedEventIsFound: the fresh-id condition is a premise, for the same reason.
- Frontend code (`nitrous-app`) is not part of this model.
