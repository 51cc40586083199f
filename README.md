# A model of the go-cosmosdb resource-client protocol

This project models the client side of the protocol that every generated
resource client of the go-cosmosdb library repeats around its request
executor `do`: the paginated-listing iterator with its `continuation` and
`done` fields, the loop that drains an iterator into one aggregate page, the
entity-tag guard on delete, and the request descriptors each operation builds
(verb, URL path, resource-type tag, resource link, expected status, body,
extra headers). Two clients are modelled, the database client
(`pkg/gencosmosdb/cosmosdb/database.go`) and the trigger client
(`pkg/gencosmosdb/cosmosdb/trigger.go`).

Modules:

- `Protocol` — request descriptors, replies, header names (`X-Ms-Continuation`,
  `If-Match`), status codes 200/201/204, the errors a client sees.
- `Service` — the executor `do` as a scripted server: a class whose `Do`
  records the request in `log` and answers with the next reply of `script`
  (a server with an empty script answers with a transport error).
- `Pagination` — the shared part of both files: the cursor transition
  `NextStep`, the drain `Collect`, the iterator class `ListIterator` whose
  `Next` is proved against `NextStep`, the loop `CollectAll` proved against
  `Collect`, and the lemmas over a whole listing. The two source files contain
  the same iterator and loop word for word apart from the listing's target;
  here they are one generic class and one method, instantiated with
  `DatabaseClient.DatabaseListing` ("dbs", "dbs", "") and
  `TriggerClient.TriggerListing(c)` (path + "/triggers", "triggers", path).
  So `triggerListIterator.Next` (trigger.go:132-151) is `ListIterator.Next`
  with the trigger target, and `triggerClient.all` (trigger.go:80-98) is
  `CollectAll`.
- `DatabaseClient` and `TriggerClient` — per-file constructors, request
  builders and listing targets.

Create, Get, Delete and Replace are modelled as the request they hand to
`do`; `Delete` returns `Err(ETagRequired)` instead of a request when the
entity tag is empty, so that case sends nothing. The reply of `do` for those
operations is returned to the caller unchanged in the source and is not
modelled further.

Unlike Delete, the trigger client's `Replace` (trigger.go:127-130) checks no
entity tag and sends no `If-Match` header; it is a POST expecting 201, and
`TriggerClient.Replace` states exactly that.

## Model

| member | source | states |
|---|---|---|
| `Protocol.ContinuationHeaders` | pkg/gencosmosdb/cosmosdb/database.go:117-120 | the listing headers hold `X-Ms-Continuation` exactly when the stored token is non-empty, with the token as value, and nothing else |
| `Pagination.ListRequest` | pkg/gencosmosdb/cosmosdb/database.go:117-122 | a listing request is GET to the target's path, type and link, expecting 200, no body, with the continuation header present iff the token is non-empty |
| `Pagination.NextStep` | pkg/gencosmosdb/cosmosdb/database.go:112-131 | a done cursor yields End and changes nothing (no request); otherwise exactly one request is logged; a failure returns the error unchanged and leaves the cursor as it was; a page sets the token to the reply's and `done` to "token empty"; End only when done; done is kept |
| `Pagination.ListIterator.Next` | pkg/gencosmosdb/cosmosdb/database.go:112-131 | the iterator's fields and the server's script and log move exactly as `NextStep` says |
| `Pagination.Collect` | pkg/gencosmosdb/cosmosdb/database.go:78-96 | the drain returns a value exactly when the cursor ends done (an error leaves it not done); a done iterator gives the accumulator at once; requests are only ever appended to the log |
| `Pagination.Merge` | pkg/gencosmosdb/cosmosdb/database.go:90-92 | one step of the drain: the counts add up, the resource id becomes the page's, the items so far are kept in order and the page's items follow them in order |
| `Pagination.CollectAll` | pkg/gencosmosdb/cosmosdb/database.go:78-96 | the loop's result and the new state of iterator and server are those of `Collect` from an empty aggregate |
| `Pagination.ListingRequestsCarryTokens` | pkg/gencosmosdb/cosmosdb/database.go:117-128 | request i of a listing resumes from the token of reply i - 1, the first from the cursor's own token |
| `Pagination.MergeTotal` | pkg/gencosmosdb/cosmosdb/database.go:90-92 | folding one page and then the total of the rest equals folding the total of all pages |
| `Pagination.CollectListing` | pkg/gencosmosdb/cosmosdb/database.go:78-96 | against a complete listing of n pages the drain returns the sum of counts, the in-order concatenation of items and the last page's resource id, sends exactly n requests resuming from each issued token, consumes exactly n replies and ends done |
| `Pagination.CollectFreshListing` | pkg/gencosmosdb/cosmosdb/database.go:74-96 | the same from a freshly listed iterator and an empty aggregate; the first request carries no continuation header |
| `Pagination.CollectStopsAtFailure` | pkg/gencosmosdb/cosmosdb/database.go:81-85 | an error after k pages makes the drain return that error; the cursor stays at the last token and is not done; only k + 1 replies are consumed |
| `Pagination.ExhaustedStaysExhausted` | pkg/gencosmosdb/cosmosdb/database.go:112-115 | after the cursor is done, any number of further `Next` calls all report End and change nothing |
| `Pagination.RunListing` | pkg/gencosmosdb/cosmosdb/database.go:112-131 | against a complete listing of n pages, n + m calls of `Next` yield the n pages in order and then m ends |
| `Pagination.RetryResendsRequest` | pkg/gencosmosdb/cosmosdb/database.go:117-125 | after a failed `Next`, the next call sends the very same request again |
| `Protocol.IfMatchHeaders` | pkg/gencosmosdb/cosmosdb/database.go:107-108 | the delete headers hold exactly one header, `If-Match`, whose value is the entity tag |
| `DatabaseClient.NewDatabaseClient` | pkg/gencosmosdb/cosmosdb/database.go:53-67 | fails with the key error exactly when the master key does not decode; otherwise keeps the account and the decoded key |
| `DatabaseClient.Create` | pkg/gencosmosdb/cosmosdb/database.go:69-72 | POST to "dbs", type "dbs", empty link, expecting 201, the new database as body |
| `DatabaseClient.Get` | pkg/gencosmosdb/cosmosdb/database.go:98-101 | GET with path and link "dbs/" + id, type "dbs", expecting 200 |
| `DatabaseClient.Delete` | pkg/gencosmosdb/cosmosdb/database.go:103-110 | fails with ETagRequired, sending nothing, exactly when the entity tag is empty; otherwise one DELETE to "dbs/" + ID (same link), expecting 204, whose only header is `If-Match` = the entity tag |
| `DatabaseClient.DatabaseAddressing` | pkg/gencosmosdb/cosmosdb/database.go:98-110 | distinct ids give distinct paths, and a delete addresses the database a get of its id reads |
| `DatabaseClient.List` | pkg/gencosmosdb/cosmosdb/database.go:74-76 | a fresh iterator on the database listing with empty token, not done |
| `DatabaseClient.DatabaseListingRequests` | pkg/gencosmosdb/cosmosdb/database.go:117-122 | every database listing request is GET "dbs", empty link, expecting 200; request i carries a continuation header iff reply i - 1 issued a non-empty token |
| `TriggerClient.NewTriggerClient` | pkg/gencosmosdb/cosmosdb/trigger.go:73-78 | the trigger client shares the collection client's credential and its path is that client's path + "/colls/" + collid |
| `TriggerClient.Create` | pkg/gencosmosdb/cosmosdb/trigger.go:100-103 | POST to path + "/triggers", type "triggers", the collection path as link, expecting 201 |
| `TriggerClient.Get` | pkg/gencosmosdb/cosmosdb/trigger.go:113-116 | GET with path and link path + "/triggers/" + id, expecting 200 |
| `TriggerClient.Delete` | pkg/gencosmosdb/cosmosdb/trigger.go:118-125 | fails with ETagRequired, sending nothing, exactly when the entity tag is empty; otherwise one DELETE to path + "/triggers/" + ID (same link), expecting 204, `If-Match` = the entity tag |
| `TriggerClient.Replace` | pkg/gencosmosdb/cosmosdb/trigger.go:127-130 | POST to the trigger's own path (same link), expecting 201, with the new trigger as body and no `If-Match` header |
| `TriggerClient.TriggerAddressing` | pkg/gencosmosdb/cosmosdb/trigger.go:100-130 | entity paths are the create/list path + "/" + id and determine the id; get, replace and delete address the same path; create and list share the path and link the collection; paths extend the collection client's path |
| `TriggerClient.List` | pkg/gencosmosdb/cosmosdb/trigger.go:105-107 | a fresh iterator on the trigger listing with empty token, not done |
| `TriggerClient.ListAll` | pkg/gencosmosdb/cosmosdb/trigger.go:80-111 | lists with a fresh iterator and drains it: result and server state are `Collect` on the trigger listing |
| `TriggerClient.TriggerListingRequests` | pkg/gencosmosdb/cosmosdb/trigger.go:137-142 | every trigger listing request is GET path + "/triggers", type "triggers", link path, expecting 200; request i carries a continuation header iff reply i - 1 issued a non-empty token |

## Left out

- The body of `do`: request signing, the HTTP transport, JSON encoding and decoding, status classification and any retry on 429. `do` is the scripted server `Service.ScriptedServer`.
- The `http.Client` the clients hold: the server is passed to the operations that call it.
- Standard base64 decoding of the master key: it is the `decode` parameter of `DatabaseClient.NewDatabaseClient`.
- Header key canonicalisation and the shared request/response header map; request and response headers are separate values here.
- A successful reply whose body decodes to nothing: the source would then end `All` early; here every successful reply carries a page.
- Pagination.Merge: page counts are unbounded integers, so the 64-bit `int` overflow of the summed `Count` is not modelled.
- Termination of the drain against a server that issues tokens forever: the drain is proved to terminate only against a finite script.
- The calls of `do` made by Create, Get, Replace and Delete and the value they return: the model stops at the request handed to `do`.
- The entity-type constants of triggers and the JSON field names: triggers keep their operation and type as strings.
- The collection client: only the credential and path that `NewTriggerClient` reads from it are modelled.
