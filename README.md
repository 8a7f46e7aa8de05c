# Cart service core, modelled in Dafny

This project models the cart logic of a Go gRPC cart service. The logic sits in three layers.

- **The Postgres cart store** (`postgres_store.dfy`).
  - The two tables become fields of the class `Storage`. `carts` is the set of users that have a cart row. `items` maps a `(user_id, toy_id)` key to the quantity on that row.
  - Adding an item is an upsert that merges quantities. Deleting one removes its row.
  - A read scans the user's rows in whatever order the query yields them, then runs a `COUNT(*)` query and a `SUM(quantity)` query. Both totals are scanned into an int32.
  - Each failing statement is an explicit fault parameter.
- **The cart orchestration service** (`cart_service.dfy`). Each operation is a fail-fast chain: identity from the context, then the subscription check, then (for add only) the toy check, then the store.
  - The subscription client, the toy client and the store are oracles.
  - Every operation returns its result together with the collaborator calls it made, in order.
- **The gRPC transport adapter** (`grpc_server.dfy`). It covers request validation, `collectErrors`, the three handlers and `ToDomainOrder`.

Two more files hold the shared values (`cart_types.dfy`) and a stand-in for the validator package (`validator.dfy`). The validator stand-in is a map from key to message, in which the first message recorded under a key is kept.

Behaviour of the code that the model reproduces as it is:

- **No nil from the store.** The Postgres store never returns a nil list. Every failure gives an empty list and zero totals. This holds by the type of the result of `PostgresStore.Storage.GetCart`: it returns a sequence of lines, which has no nil value, and every path of it returns one. The service's store oracle is not derived from that method, so `CartService.NilOnlyFromStore` takes "the store never answers nil" as its hypothesis and shows that the service's nil branch (internal/services/cart/cart.go:108-113) is then unreachable.
- **An empty cart reads as a failure.** `SUM(quantity)` over no rows is NULL, and scanning NULL into an int32 fails. A read of an empty cart therefore takes the failure path, and its result is the same `[]`, `0`, `0` that any failure gives: a caller cannot tell an empty cart from a failed read.
- **Negative quantities pass validation.** Only zero values are rejected, so a negative quantity is merged into the stored quantity.
- **The subscription failure message** is "user is not subscribed!", with the exclamation mark.
- **A read reports no status.** For an unidentified or unsubscribed caller, a read returns an empty list with zero totals; only add and delete answer `INVALID_USER`.
- **One validation message at most.** Both validation checks record under the same key `"text"`, so at most one error segment is ever produced.
- **A failed delete can still delete.** If `RowsAffected()` fails after the `DELETE` has run, the row is gone although the reply is `INTERNAL_ERROR`.

## Model

| member | source | states |
|---|---|---|
| Validator.Check | storage/postgres/postgres.go:55-56 | A failed check records its message under its key unless the key already has one. A passing check changes nothing. Earlier errors are kept. |
| PostgresStore.ValidateToy | storage/postgres/postgres.go:54-57 | The validator stays valid exactly when it was valid and both the toy id and the quantity are non-zero, so negative values pass. A failure adds key "text" with the toy-id message when the id is zero, otherwise with the quantity message. |
| PostgresStore.ScanInt32 | storage/postgres/postgres.go:168-180 | Scanning an aggregate into an int32 succeeds exactly on a non-NULL value in the int32 range, and yields that value. |
| PostgresStore.Upsert | storage/postgres/postgres.go:64-70 | After the upsert the (user, toy) row exists and holds the old quantity plus the added one, or the added one on a new pair. Every other row is unchanged. |
| PostgresStore.Remove | storage/postgres/postgres.go:104-106 | After the delete the (user, toy) row is absent and every other row is unchanged. |
| PostgresStore.CartOf | storage/postgres/postgres.go:128-130 | The user's cart has a toy exactly when the table has the (user, toy) row, with that row's quantity. |
| PostgresStore.TotalRemove | storage/postgres/postgres.go:176 | The sum of a cart's quantities is any one row's quantity plus the sum of the rest, so it does not depend on the order of the rows. |
| PostgresStore.ListsAppend | storage/postgres/postgres.go:145-160 | Appending the next scanned row to a listing of the rows scanned so far lists those rows and the new one, each once. |
| PostgresStore.ListingMeasures | storage/postgres/postgres.go:168-181 | A listing of a cart has as many lines as the cart has rows. Its quantities add up to the cart's total. |
| PostgresStore.RepeatedAddsAccumulate | storage/postgres/postgres.go:66-68 | Two adds of the same toy equal one add of the summed quantity; a later add never overwrites an earlier one. |
| PostgresStore.DeleteUndoesFirstAdd | storage/postgres/postgres.go:104-106 | Deleting a toy that an add has just created gives back the table as it was before the add. |
| PostgresStore.CartAfterAdd | storage/postgres/postgres.go:64-70 | The user's cart after an add is the cart before it with the toy's row set to the merged quantity. |
| PostgresStore.OtherCartAfterAdd | storage/postgres/postgres.go:64-68 | An add for one user leaves every other user's cart unchanged. |
| PostgresStore.CartAfterDelete | storage/postgres/postgres.go:104-106 | The user's cart after a delete is the cart before it without the toy. |
| PostgresStore.OtherCartAfterDelete | storage/postgres/postgres.go:104-106 | A delete for one user leaves every other user's cart unchanged. |
| PostgresStore.AddEffectOnTotals | storage/postgres/postgres.go:64-70 | After an add, the row count of the cart grows by one exactly when the toy was new. The quantity sum grows by the added quantity. |
| PostgresStore.DeleteEffectOnTotals | storage/postgres/postgres.go:104-106 | After a delete, the row count drops by one exactly when the row existed. The quantity sum drops by that row's quantity. |
| PostgresStore.Storage.AddToCart | storage/postgres/postgres.go:63-101 | If ensuring the cart row fails, it replies INTERNAL_ERROR "failed to get user cart" and changes nothing. Otherwise the user gains a cart row, idempotently, and the cart row stays even if the upsert then fails. An upsert failure replies INTERNAL_ERROR "failed to add toy" with the items unchanged. Success replies OK "Toy added to a cart!" with the items upserted. The invariant that every item row has a cart row is kept. |
| PostgresStore.Storage.DelFromCart | storage/postgres/postgres.go:103-125 | It replies OK "deleted successfully" exactly when no step fails and the row existed, and INTERNAL_ERROR "failed to delete toy!" otherwise. A failing DELETE changes nothing. Otherwise the row is removed and nothing else changes. An error reply leaves the table unchanged, except when RowsAffected fails after the delete. A successful delete is always of a user with a cart row. The invariant that every item row has a cart row is kept. |
| PostgresStore.Storage.CountQuery | storage/postgres/postgres.go:170 | COUNT(*), counted one row at a time over the user's rows, is the number of rows in the user's cart. |
| PostgresStore.Storage.SumQuery | storage/postgres/postgres.go:176 | SUM(quantity) is NULL for a user with no rows and otherwise the total of the user's quantities, accumulated row by row. |
| PostgresStore.Storage.ScanRows | storage/postgres/postgres.go:145-166 | The scan fails exactly when the failing row index is within the user's rows. Otherwise it lists every row of the cart exactly once, with its quantity, in some order. |
| PostgresStore.Storage.GetCart | storage/postgres/postgres.go:127-182 | When no step fails, the cart is non-empty and both totals fit an int32, it returns every row of the user once, total_items is the number of rows and total_qty is the sum of the quantities. Otherwise it returns an empty, non-nil list with totals 0, 0. Under the store invariant, a successful read is always of a user with a cart row. |
| CartService.UserFromContext | internal/services/cart/cart.go:118-127 | A user id is found exactly when the context holds an int64 under the key, and it is that value. |
| CartService.AddToCart | internal/services/cart/cart.go:43-69 | A missing identity gives INVALID_USER "invalid user" and makes no call. Calls are a prefix of subscription, toy, store. The toy client is asked exactly when the user is subscribed. The store is reached exactly when both checks pass, for the context's user, and its reply is returned unchanged. Otherwise the first failed check decides the reply. |
| CartService.DelFromCart | internal/services/cart/cart.go:71-88 | A missing identity gives "invalid user" and makes no call. Calls are a prefix of subscription, store. The store is reached exactly when the user is subscribed, and its reply for the context's user is returned unchanged. Otherwise the reply is INVALID_USER "user is not subscribed!". |
| CartService.GetCart | internal/services/cart/cart.go:90-116 | Identity or subscription failure gives an empty list with 0, 0. A nil list from the store gives nil, 0, 0. Anything else from the store is returned unchanged. Calls are a prefix of subscription, store. |
| CartService.ToyCheckedOnAddOnly | internal/services/cart/cart.go:54-81 | A delete never asks the toy client. For an entitled user whose toy is rejected, an add does not reach the store and a delete does. |
| CartService.UnentitledCallersChangeNothing | internal/services/cart/cart.go:43-105 | A caller without identity or subscription gets INVALID_USER from add and delete and an empty cart from a read. At most the subscription client is called. |
| CartService.NilOnlyFromStore | internal/services/cart/cart.go:107-115 | A nil list reaches the caller only when the store returned one. A store that never returns nil makes that branch unreachable. A store failure looks exactly like an unidentified caller's result. |
| GrpcServer.CollectErrors | internal/grpc/cart/server.go:80-86 | The error has code InvalidArgument. Its message is one "field:message; " segment per validator error, each key exactly once, in some key order. The message is empty exactly when there are no errors, and a single error gives exactly its own segment. |
| GrpcServer.AddToCart | internal/grpc/cart/server.go:35-54 | An unset toy is dereferenced (nil pointer). A zero toy id or quantity gives no response and an InvalidArgument error carrying the matching "text:...; " segment, without calling the service. A valid request forwards exactly that item and responds with the service's status and message. |
| GrpcServer.DelFromCart | internal/grpc/cart/server.go:56-68 | A zero toy id gives neither response nor error and forwards nothing, and only a zero id does. A non-zero id is forwarded as is and the service's status and message are the response. |
| GrpcServer.ToDomainPointwise | internal/grpc/cart/server.go:88-97 | Conversion keeps the number of lines, and line i carries the toy id and quantity of input line i. |
| GrpcServer.ToDomainOrder | internal/grpc/cart/server.go:88-97 | The loop yields the conversion of the lines: same length, same order, same fields. A nil list gives no lines. |
| GrpcServer.GetCart | internal/grpc/cart/server.go:70-78 | The response carries the converted lines and both totals unchanged, with no error. |

## Left out

- **Bootstrap and wiring** (`OpenDB`, `Close`, the connection pool and its ping, `New`, `Register`, and `cmd/api/main.go`): these are resource plumbing and start-up I/O.
- **Timeouts and database errors**: the 3-second timeouts and every other database or network error appear only as the explicit fault a statement may report.
- **The SQL engine**: it is replaced by maps. `updated_at = NOW()` is not observable here, and the `RETURNING id` value is discarded by the code.
- **Concurrency**: the two statements of an add are not atomic, and the three reads of `GetCart` are not consistent with each other. Every operation is modelled as running alone.
- **Logging and `println`**: they have no effect on any result.
- **The collaborators**: the subscription client, the toy client (internal/clients/toys/grpc/grpc.go) and their retries, interceptors and credential forwarding are not part of this model. They are oracles whose possible answers are all statuses. The toy client's own INTERNAL_ERROR answers are covered as "not OK".
- **The validator package** is not part of this model. Its behaviour is assumed: `Valid()` means that no check has failed, and a check keeps the first message recorded under a key.
- **Integer widths**: only the int32 scan of the two read totals is modelled. The int64 ids and quantities are unbounded integers. A quantity column overflow on the merge falls under the upsert failure fault.
- **Nil elements**: a nil element inside a slice of cart lines cannot occur with this store and is not modelled.
- **The gRPC runtime**: the encoding of a nil response with a nil error, and recovery from the nil-pointer panic, are runtime behaviour outside this code.
- **PostgresStore.Storage.GetCart**: it does not model a scan failure caused by a row's content. A failure of the row with a given index is an explicit fault.
