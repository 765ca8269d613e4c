# Number service: a Dafny model

The number service keeps licence plates and two named lists, a whitelist and a
blacklist. A client submits a plate as typed. The service normalizes it to a
key and then does one of three things:

- **check** stores the plate if it is new, and reports the lists that hold it;
- **add** stores the plate if it is new, and records its membership in a list, with an optional note;
- **remove** deletes the membership of an already stored plate.

An HTTP layer maps the service's errors to status codes and wraps every answer
in a `{"data": …}` or `{"error": …}` envelope.

The model has four layers, each proved against the one below.

- `Store` (store.dfy) holds the three tables `plates`, `lists` and `list_items`.
  - Each table is a sequence of rows in table order.
  - `Store.Valid` states the schema's constraints: a unique plate key, a unique list name, the composite primary key of a membership, and both foreign keys.
  - Every query and statement the repository issues is a function from the old tables to its answer and the new tables.
  - `Store.Seeded` is the database after the migration has run on an empty database. The migration only creates what is missing, so on a database that already holds data it changes nothing; the repository accepts any tables that satisfy `Store.Valid`.
- `Repository.NumberRepository` (repository.dfy) holds the tables as fields.
  - Each repository method is proved to perform the matching `Store` function.
  - Each keeps `Valid`.
- `Service` (service.dfy) gives `CheckOutcome`, `AddOutcome` and `RemoveOutcome`.
  - Each states what one operation does to the tables and what it returns.
  - `Service.NumberService` carries these operations out through the repository and is proved to match them.
- `Http` (http.dfy) gives the status classification, the request pre-processing and the five endpoints.

`StoreProperties` and `ServiceProperties` hold the lemmas about these functions.
`Errors` models Go's error chains:

- the two sentinels;
- the storage errors;
- `fmt.Errorf` with `%w`;
- `errors.Is`, which answers by the root of the chain (`Errors.Is`).

Two things are parameters instead of code:

- The plate normalizer is a function value, `NumberService.normalize`, and an empty key marks an invalid plate.
- Database failures the model cannot see, such as a lost connection or a cancelled request, are given by an `Outage`. It names the first round trip that fails, and each operation stops at its first error. A failed round trip is taken to have had no effect (see "## Left out").

Four behaviours of the code are easy to miss:

- A list missing by name is a storage record-not-found wrapped with context. `errors.Is(…, ErrNotFound)` does not see it, so it answers 500, not 404.
- Removing a plate from a list that does not hold it succeeds and changes nothing.
- `GetOrCreatePlate` returns the insert's error as it is. It does not read the row again after a conflict.
- Adding a plate to a list that already holds it fails with the raw primary-key violation of `list_items`, which answers 500.

## Model

| member | source | states |
|---|---|---|
| Errors.Is | internal/http/handler.go:142-151 | `errors.Is` against a sentinel holds exactly when the root of the `%w` chain is that sentinel; wrapping with context never changes the answer, and a chain ending in a storage error matches neither sentinel |
| Errors.Root | internal/http/handler.go:142-151 | the walk down a `%w` chain that `errors.Is` performs: it ends at the innermost error, which is a sentinel or a storage error and never a wrapper |
| Store.Valid | internal/db/migrations.go:11-34 | the schema's constraints: plate ids and keys unique, list ids and names unique, one membership per (list, plate) pair, and both foreign keys |
| Store.Seeded | internal/db/migrations.go:35-44 | the migrated database holds only the two seeded lists and satisfies every schema constraint |
| Store.PlatesWithKey | internal/repository/number_repository.go:63-69 | the rows returned are exactly the plate rows whose key is the given one |
| Store.FindPlate | internal/repository/number_repository.go:44-47 | the first-by-key lookup returns a row with that key, or none exactly when no row has it |
| Store.ListNamed | internal/repository/number_repository.go:113-120 | the lookup by name returns a list of that name, or none exactly when no list has it |
| Store.ListWithId | internal/repository/number_repository.go:104-111 | the lookup by id returns a list with that id, or none exactly when no list has that id |
| Store.JoinOnList | internal/repository/number_repository.go:74-79 | joining one membership row with `lists` on the list id yields exactly the hits of the lists with that id |
| Store.HitsFor | internal/repository/number_repository.go:71-86 | each hit names a list holding the plate, and every list holding the plate appears among the hits |
| Store.GetOrCreate | internal/repository/number_repository.go:42-61 | a failed lookup or insert returns id 0 and changes nothing; an existing key returns its row's id unchanged; otherwise exactly one row with the key and the submitted text is appended; lists and memberships are never touched |
| Store.FindListByName | internal/repository/number_repository.go:113-120 | a list of that name, or record-not-found exactly when no list has the name, or the round trip's failure |
| Store.FindListById | internal/repository/number_repository.go:104-111 | the list with that id, or record-not-found exactly when no list has the id, or the round trip's failure |
| Store.AddItem | internal/repository/number_repository.go:88-96 | a success appends exactly the membership row with its note, and needs both keys to exist; a pair already present always fails; a failure changes nothing; plates and lists are never touched |
| Store.RemoveItem | internal/repository/number_repository.go:98-102 | fails only when the round trip fails, changing nothing; otherwise keeps exactly the memberships of other pairs; plates and lists are never touched |
| Store.WithoutPair | internal/repository/number_repository.go:98-102 | the delete keeps exactly the memberships that are not of the given (list, plate) pair |
| StoreProperties.AtMostOnePlatePerKey | internal/repository/number_repository.go:63-69 | under the unique index on the key, the search by key returns at most one row |
| StoreProperties.PlatesWithKeyIsTheRow | internal/repository/number_repository.go:63-69 | a stored plate is the only row its key finds, and the first-by-key lookup returns it |
| StoreProperties.ListNamedIsTheList | internal/repository/number_repository.go:113-120 | under the unique index on names, the lookup by name returns the one list with that name |
| StoreProperties.ListWithIdIsTheList | internal/repository/number_repository.go:104-111 | under the primary key of `lists`, the lookup by id returns the one list with that id |
| StoreProperties.JoinAtMostOne | internal/repository/number_repository.go:74-77 | a membership row joins with at most one list |
| StoreProperties.HitsDistinct | internal/repository/number_repository.go:71-86 | the membership query never names the same list twice |
| StoreProperties.PlatePersists | internal/repository/number_repository.go:42-47 | a stored plate stays what its key resolves to in every later state whose plate table extends this one |
| StoreProperties.GetOrCreateKeepsValid | internal/repository/number_repository.go:42-61 | get-or-create keeps every schema constraint |
| StoreProperties.GetOrCreateExisting | internal/repository/number_repository.go:44-47 | an existing key returns its row's id and inserts nothing |
| StoreProperties.GetOrCreateInserts | internal/repository/number_repository.go:52-60 | a new key inserts exactly one row, carrying the submitted text and the key under a fresh id, and changes nothing else |
| StoreProperties.GetOrCreateFailure | internal/repository/number_repository.go:44-59 | a failed lookup or insert returns id 0 and that error, leaves the tables as they were, and is not retried |
| StoreProperties.GetOrCreateResolves | internal/repository/number_repository.go:42-61 | afterwards the key resolves to the returned id; only the plate table can grow |
| StoreProperties.AddItemKeepsValid | internal/repository/number_repository.go:88-96 | inserting a membership keeps every schema constraint |
| StoreProperties.AddItemOutcome | internal/repository/number_repository.go:88-96 | the insert adds exactly the pair when it is new and both keys exist, and fails changing nothing when the pair is present; there is never a second row for a pair |
| StoreProperties.WithoutPairUnique | internal/repository/number_repository.go:98-102 | deleting memberships keeps the composite primary key |
| StoreProperties.RemoveItemKeepsValid | internal/repository/number_repository.go:98-102 | the delete keeps every schema constraint |
| StoreProperties.RemoveItemOutcome | internal/repository/number_repository.go:98-102 | the delete removes exactly the pair, present or not, and keeps every other membership with its note |
| StoreProperties.WithoutAbsentPair | internal/repository/number_repository.go:98-102 | deleting a pair that is not there leaves the table exactly as it was |
| Repository.NumberRepository.Open | internal/repository/number_repository.go:14-16 | a repository over tables that satisfy the schema holds exactly those tables |
| Repository.NumberRepository.GetOrCreatePlate | internal/repository/number_repository.go:42-61 | performs get-or-create on the tables and keeps the constraints |
| Repository.NumberRepository.FindPlatesByNormalized | internal/repository/number_repository.go:63-69 | returns exactly the plates with the key, at most one, or the failure of the round trip |
| Repository.NumberRepository.FindListsForPlate | internal/repository/number_repository.go:71-86 | a list is among the hits exactly when it holds the plate; no list appears twice; on failure no hits |
| Repository.NumberRepository.AddPlateToList | internal/repository/number_repository.go:88-96 | performs the membership insert, with its key checks, and keeps the constraints |
| Repository.NumberRepository.RemovePlateFromList | internal/repository/number_repository.go:98-102 | performs the membership delete and keeps the constraints |
| Repository.NumberRepository.GetList | internal/repository/number_repository.go:104-111 | returns the list with that id, or record-not-found exactly when there is none, or the round trip's failure |
| Repository.NumberRepository.GetListByName | internal/repository/number_repository.go:113-120 | returns the list with that name, or record-not-found exactly when there is none, or the round trip's failure |
| Service.EmptyPlate | internal/service/number_service.go:34 | the error is `ErrInvalidInput` and not `ErrNotFound`, with message "invalid input: plate number cannot be empty" |
| Service.PlateNotFound | internal/service/number_service.go:107 | the error is `ErrNotFound` and not `ErrInvalidInput`, with message "not found: plate not found" |
| Service.Because | internal/service/number_service.go:40 | a storage error wrapped with context: its root is the storage error, it matches neither sentinel, and its message is the context, a colon, then the storage error's message |
| Service.CheckOutcome | internal/service/number_service.go:31-55 | an empty key fails as invalid input before any table is touched; any other failure is neither invalid input nor not-found; a success reports the key and the submitted text |
| Service.AddOutcome | internal/service/number_service.go:73-94 | an error is invalid input exactly when the key is empty and is never not-found; the lists table never changes |
| Service.RemoveOutcome | internal/service/number_service.go:96-120 | an error leaves the tables as they were; it is invalid input exactly when the key is empty, and not-found exactly when the search ran and no plate has the key; plates and lists never change |
| Service.NumberService.constructor | internal/service/number_service.go:24-29 | the service holds the repository and the normalizer it is built with |
| Service.NumberService.NormalizeAndCheck | internal/service/number_service.go:31-55 | performs the check on the normalized key and keeps the constraints |
| Service.NumberService.AddToWhitelist | internal/service/number_service.go:57-59 | performs the add against the list named `default_whitelist` |
| Service.NumberService.AddToBlacklist | internal/service/number_service.go:61-63 | performs the add against the list named `default_blacklist` |
| Service.NumberService.RemoveFromWhitelist | internal/service/number_service.go:65-67 | performs the remove against the list named `default_whitelist` |
| Service.NumberService.RemoveFromBlacklist | internal/service/number_service.go:69-71 | performs the remove against the list named `default_blacklist` |
| Service.NumberService.AddToList | internal/service/number_service.go:73-94 | performs the add on the normalized key and keeps the constraints |
| Service.NumberService.RemoveFromList | internal/service/number_service.go:96-120 | performs the remove on the normalized key and keeps the constraints |
| ServiceProperties.CheckKeepsValid | internal/service/number_service.go:31-55 | a check keeps the constraints, never touches lists or memberships, and only adds plates |
| ServiceProperties.AddKeepsValid | internal/service/number_service.go:73-94 | an add keeps the constraints, never touches lists, and only adds plates and memberships |
| ServiceProperties.RemoveKeepsValid | internal/service/number_service.go:96-120 | a remove keeps the constraints, never touches plates or lists, and only takes memberships away |
| ServiceProperties.CheckRejectsEmpty | internal/service/number_service.go:32-35 | a plate that normalizes to nothing is refused with "invalid input: plate number cannot be empty", which is `ErrInvalidInput`, before any table is touched |
| ServiceProperties.CheckResolves | internal/service/number_service.go:37-54 | the plate is stored even when the membership query then fails; a healthy database never fails a valid plate; failures are storage errors; a success returns the stored plate's id, the key, the submitted text, and exactly the lists holding the plate: every stored list holding it is a hit, every hit names a stored list holding it, and none appears twice |
| ServiceProperties.SameKeySamePlate | internal/service/number_service.go:31-55 | two inputs with the same key check to the same plate id, whatever ran between them |
| ServiceProperties.AddRejectsEmpty | internal/service/number_service.go:74-77 | an add of a plate that normalizes to nothing is refused as invalid input and changes nothing |
| ServiceProperties.AddToMissingList | internal/service/number_service.go:79-87 | when no list has the name, the plate is stored all the same and the error wraps a storage record-not-found, which is not `ErrNotFound` |
| ServiceProperties.AddSucceeds | internal/service/number_service.go:73-94 | a successful add leaves the plate stored and adds exactly the one new membership of the named list |
| ServiceProperties.HealthyAddSucceeds | internal/service/number_service.go:73-94 | on a healthy database, adding a valid plate to an existing list that does not hold it succeeds, whether the plate is new or stored |
| ServiceProperties.AddThenCheckHits | internal/service/number_service.go:43-53 | after a successful add, a check of any input with the same key succeeds unless its own lookup or membership query fails, and reports that list |
| ServiceProperties.AddDuplicate | internal/service/number_service.go:89-91 | adding a plate to a list that holds it fails with the wrapped primary-key violation and changes nothing |
| ServiceProperties.RemoveRejectsEmpty | internal/service/number_service.go:97-100 | a remove of a plate that normalizes to nothing is refused as invalid input and changes nothing |
| ServiceProperties.RemoveUnseenPlate | internal/service/number_service.go:102-108 | remove never creates a plate: an unknown key is "not found: plate not found", which is `ErrNotFound`, and nothing changes |
| ServiceProperties.RemoveFromMissingList | internal/service/number_service.go:110-113 | a list missing on remove is a wrapped storage record-not-found, which is not `ErrNotFound`, and nothing changes |
| ServiceProperties.RemoveSucceeds | internal/service/number_service.go:96-120 | a successful remove takes out exactly the membership of the named list for the plate with the key |
| ServiceProperties.RemoveNonMember | internal/service/number_service.go:115-119 | removing a plate from a list that does not hold it succeeds and changes nothing |
| ServiceProperties.HealthyRemoveSucceeds | internal/service/number_service.go:96-120 | on a healthy database, removing a stored plate from an existing list succeeds, whether or not the list holds it |
| ServiceProperties.RemoveUndoesAdd | internal/service/number_service.go:73-120 | after a successful add, a healthy remove of the same key from the same list succeeds and restores exactly the earlier memberships |
| ServiceProperties.RemoveThenCheckMisses | internal/service/number_service.go:96-120 | after a successful remove, a check of any input with the same key no longer reports that list |
| ServiceProperties.WellKnownListsSeeded | internal/db/migrations.go:35-44 | the migration seeds both list names the service resolves, with types WHITELIST and BLACKLIST |
| Http.SuccessResponse | internal/http/handler.go:154-158 | the success envelope carries exactly the given data |
| Http.ErrorResponse | internal/http/handler.go:160-164 | the error envelope carries exactly the given message |
| Http.Reply | internal/http/handler.go:119-124 | 200 with the success message exactly when the service returned no error; otherwise the error is classified by `HandleError` and answered with an error envelope |
| Http.HandleError | internal/http/handler.go:142-152 | 400 exactly for invalid input, 404 exactly for not-found that is not invalid input, 500 otherwise; the message is shown for 400 and 404 and hidden for 500 |
| Http.CheckFailure | internal/http/handler.go:51-58 | a failed check answers 400 exactly for invalid input and 500 otherwise, with no 404 branch |
| Http.TrimLeft | internal/http/handler.go:113 | cuts a prefix made only of white space and leaves a string that does not start with white space; white space is `Http.IsSpace`, the Unicode White_Space set that Go's `unicode.IsSpace` tests |
| Http.TrimRight | internal/http/handler.go:113 | cuts a suffix made only of white space and leaves a string that does not end with white space |
| Http.TrimSpace | internal/http/handler.go:113 | the trimmed query neither starts nor ends with white space |
| Http.TrimSpaceSlice | internal/http/handler.go:128 | what trimming keeps is one contiguous slice of the query, and all it cuts on either side is white space |
| Http.TrimSpaceBlank | internal/http/handler.go:113-117 | the trimmed query is empty exactly when the query is all white space |
| Http.TrimSpaceIdempotent | internal/http/handler.go:128-132 | trimming an already trimmed query changes nothing |
| Http.PlateParam | internal/http/handler.go:113-117 | a query of only white space is refused; otherwise the trimmed, non-empty plate is used |
| Http.NoteArg | internal/http/handler.go:75-78 | an empty note is passed as absent and any other note as given |
| Http.Handler.constructor | internal/http/handler.go:19-27 | the handler holds the service it is built with |
| Http.Handler.CheckNumber | internal/http/handler.go:40-62 | a refused body is a 400 with the binder's message; otherwise the check runs, a success is a 200 carrying the result, and a failure is classified by `CheckFailure` |
| Http.Handler.AddToWhitelist | internal/http/handler.go:64-86 | a refused body is a 400; otherwise the plate is added to `default_whitelist` with its note, and the answer is 200 "added to whitelist" or the classified error |
| Http.Handler.AddToBlacklist | internal/http/handler.go:88-110 | a refused body is a 400; otherwise the plate is added to `default_blacklist` with its note, and the answer is 200 "added to blacklist" or the classified error |
| Http.Handler.RemoveFromWhitelist | internal/http/handler.go:112-125 | a blank query is a 400 "plate parameter is required" that changes nothing; otherwise the trimmed plate is removed from `default_whitelist` |
| Http.Handler.RemoveFromBlacklist | internal/http/handler.go:127-140 | a blank query is a 400 "plate parameter is required" that changes nothing; otherwise the trimmed plate is removed from `default_blacklist` |
| Http.CheckStatus | internal/http/handler.go:51-58 | a failed check answers 400 exactly when the plate normalizes to nothing, and 500 otherwise; never 404 |
| Http.AddStatus | internal/http/handler.go:80-83 | a failed add answers 400 exactly when the plate normalizes to nothing and 500 otherwise, a missing list and a duplicate included; never 404 |
| Http.RemoveStatus | internal/http/handler.go:119-122 | a failed remove answers 400 exactly for an empty key, 404 exactly when no stored plate has the key, and 500 otherwise, a missing list included |

## Left out

- The plate normalizer is a parameter of the service. Its rules are not part of this model; only its convention that an empty key means invalid is used.
- JSON decoding and validation by the web framework are outside the model. An endpoint receives either the bound request or the binder's error message (`Http.Bound`), and the binder refusing an empty `plate` is assumed, not modelled. The binder's exact message texts are not modelled.
- The JSON field names of the records and envelopes are not modelled.
- Route registration, middleware, router.go and main.go are not part of this model.
- Logging is left out because it has no effect on results.
- Request contexts, deadlines and cancellation are left out; they appear only as an `Outage`.
- A failed round trip is assumed to have had no effect: a failing `GetOrCreate`, `AddItem` or `RemoveItem` leaves the tables as they were. In the code, a single INSERT or DELETE can commit and its answer still be lost, for example when the connection drops or the request's context is cancelled after the commit. That case is not modelled, so the no-change clauses of Store.GetOrCreate, Store.AddItem, Store.RemoveItem, StoreProperties.GetOrCreateFailure and Service.RemoveOutcome describe the model's database, not every failure of the real one.
- `created_at` timestamps are left out because nothing reads them.
- The unused `country` and `region` columns of `plates` are left out.
- Concurrency is left out. Each operation runs alone, so the race between two get-or-create calls for one new key cannot happen in the model. In the code, the loser gets the unique-index violation as a 500.
- Store.GetOrCreate: a failed insert does not advance the id sequence, although PostgreSQL's does. Ids may therefore have gaps in the code but never in the model; only the uniqueness and freshness of ids are relied on.
- Integer ids are unbounded; the 64-bit range of `BIGSERIAL` is not modelled.
- Row order: a query answers in table order, while SQL promises no order without `ORDER BY`. The proved properties speak of membership and distinctness, never of position.
- Http.TrimSpace works on characters. The code's treatment of invalid UTF-8 bytes is not modelled.
- Errors.DbText: the storage errors' messages follow PostgreSQL's wording but are not byte-exact driver texts; only 400 and 404 answers show a message, and those come from the service's own sentinels.
- The foreign-key failures of AddItem cannot arise through the service, which always passes a plate id it has just resolved and a list id it has just read. They are modelled for the repository method alone.
