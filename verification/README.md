# SMS subscription manager: subscriber store and webhook decision

This project is a Dafny model of the core of a small Go service. The service
keeps a map from phone number to subscription flag (`"yes"` or `"no"`). It
updates that map from inbound SMS replies relayed by an SMS gateway's webhook.
It also serves a landing page that broadcasts a message to the active
subscribers.

The model has five modules:

- `Wrappers`: `Option` and `Result`.
- `Sms`: the request record handed to the gateway (body, originator,
  recipients) and the fixed sender `"MBSender"`.
- `SubscriberDb`: the store as a value. It defines loading a table of rows
  (`Loaded`), the active set (`ActiveSet`, the numbers whose flag is exactly
  `"yes"`), and the lemmas about both.
- `Webhook`: the webhook's decision as a pure function. `Decide` maps the
  HTTP method, receiver, originator and payload to an `Action`: an optional
  store write and an optional reply. It is specified against `Occurs`, a
  reference definition of "is a substring of". The recursive `Contains` that
  the decision runs is proved equal to `Occurs`.
- `App`: the state that changes in place.
  - `AppContext` holds the `db` map, with `InitDB`, `GetSubscriberList`,
    `UpsertDB` and the webhook handler `UpdateSubscription`. The handler is
    imperative, and its contract ties it to `Decide`.
  - `LandingHandler` holds the subscriber list, taken once when the handler
    is built, and the page data, which persists between requests.

The gateway call is represented only by the request record it would receive.
In the landing handler, the gateway's answer is a parameter (`sendError`).

Two behaviours of the code matter for the model:

- The CSV reader fixes the field count from the first record (main.go:47).
  A later row with a different count makes parsing fail, and `initDB`
  returns that error with the store unchanged (main.go:48-49). In the model
  this is `InitDB`'s `Failure` case. Only a table in which every row has a
  single field parses and then stops the process when main.go:52 reads the
  second field. `InitDB` therefore requires two fields per parsed row
  (`WellFormed`).
- Flags are not limited to `"yes"`/`"no"`. `UpsertDB` stores any string, and
  only the exact string `"yes"` makes a number active.

## Model

| member | source | states |
|---|---|---|
| `SubscriberDb.LoadedKeys` | main.go:51-53 | After loading, the keys are exactly the earlier keys plus every key some row names |
| `SubscriberDb.LastRowExists` | main.go:51-53 | Every key named by a row has a last row naming it |
| `SubscriberDb.LoadedLastRow` | main.go:51-53 | A key named by rows takes the flag (second field) of the LAST row naming it; later rows overwrite earlier ones |
| `SubscriberDb.LoadedUnnamed` | main.go:51-53 | A key no row names keeps its earlier presence and value |
| `SubscriberDb.LoadExample` | main.go:51-60 | Loading `("+1555","yes"), ("+1556","no")` into an empty store leaves exactly `{"+1555"}` active |
| `SubscriberDb.ActiveAfterUpsert` | main.go:57-72 | Writing flag v for key k adds k to the active set when v is exactly `"yes"`, and removes it for any other string; other keys keep their status |
| `App.AppContext.constructor` | main.go:22-25 | The application starts with an empty store |
| `App.AppContext.InitDB` | main.go:42-55 | An open/parse failure returns that error and leaves the store unchanged; otherwise the store becomes `Loaded(old store, rows)`, i.e. the rows written in order, and no error is returned |
| `App.AppContext.GetSubscriberList` | main.go:57-67 | Returns each number whose flag is exactly `"yes"`, each exactly once, and nothing else, in any order; its length is the size of the active set; the error result is always absent |
| `App.AppContext.UpsertDB` | main.go:69-72 | The key maps to the given value (any string), every other key is unchanged, the active set changes only at that key, and no error is ever returned |
| `Webhook.ContainsIsOccurs` | main.go:135-144 | The substring test used for classification holds exactly when the keyword occurs at some position of the payload (both directions) |
| `Webhook.Decide` | main.go:125-162 | A non-POST request writes nothing and sends nothing. A POST always replies to `"+"+originator`. If the payload contains `"SUBSCRIBE"` it writes `"yes"` for `"+"+originator` and replies from `"MBSender"`. Otherwise, if it contains `"STOP"`, it writes `"no"` and replies from `"MBSender"`. Otherwise it writes nothing and replies with the instructions from `"+"+receiver` |
| `Webhook.WebhookFrame` | main.go:134-158 | A webhook request never touches any number other than `"+"+originator` |
| `Webhook.WebhookActiveSet` | main.go:134-158 | A `"SUBSCRIBE"` payload adds the originator to the active set. Otherwise a `"STOP"` payload removes it. Any other payload, and any non-POST request, leaves the active set as it was |
| `Webhook.UnsubscribeSubscribes` | main.go:135-136 | Because the match is by substring, the payload `"UNSUBSCRIBE"` subscribes the sender |
| `Webhook.LowerCaseStopIgnored` | main.go:134-157 | Because the match is case-sensitive, `"stop"` gets only the instructions reply and changes nothing |
| `Webhook.SubscribeBeatsStop` | main.go:134-145 | A payload containing both keywords subscribes, because the first case wins |
| `App.AppContext.UpdateSubscription` | main.go:125-162 | The handler's effect on the store is `Apply(old store, Decide(...))`. Its one emitted request is `Decide(...).send`, or none for a non-POST request. Every number except the originator's is unchanged |
| `App.LandingHandler.constructor` | main.go:91-102 | The list is a snapshot of the active subscribers when the handler is built, each once. The count shown is its length. There is no status line yet |
| `App.LandingHandler.Serve` | main.go:104-118 | A POST sends the message from `"MBSender"` to the snapshot, even when the snapshot is empty. The status becomes the send error or "sent to \|snapshot\| subscribers". A GET sends nothing and keeps the previous status. The count never changes, and the page rendered is the current page data |
| `App.StaleSnapshot` | main.go:97-109 | A number that subscribes after the landing handler was built is in the live active list (size 1), but the page still shows 0 |

## Left out

- Opening the file and CSV parsing (main.go:43-50): I/O. The model starts from the parse result, a `Result` of rows or an error.
- `sendSMS` and the gateway client (main.go:74-89): a foreign network call. A send is modelled as the `SmsRequest` record it would receive, and the gateway's answer is a parameter of `LandingHandler.Serve`. How the client's error entries are aggregated into one message is not modelled.
- HTTP routing, `ParseForm`/`FormValue`, `ListenAndServe` and the process entry point (main.go:21-40, 105-107, 128): I/O. Form values and the request method are parameters.
- `renderDefaultTemplate` and `log.Fatal` (main.go:164-174): template rendering and process exit. Rendering is modelled as returning the page data.
- Logging everywhere, including the logged, ignored send errors of the webhook (main.go:138-156): a side effect with nothing to state.
- The landing handler's "couldn't get subscriber list" branch (main.go:98-99): `getSubscriberList` never returns an error, so this branch cannot run.
- Status texts built with `fmt.Sprintf` (main.go:99, 111, 113): modelled as the `Status` datatype (`SendFailed(error)`, `SentTo(count)`), not as formatted strings.
- Concurrent access to the shared map, and Go's map iteration order: the model is sequential. `GetSubscriberList` picks keys in an arbitrary order, and its contract does not depend on that order.
- `App.AppContext.InitDB` requires every parsed row to have at least two fields instead of modelling the crash. A table whose rows all have a single field parses without error and then stops the process at main.go:52. A table with mixed field counts is not affected: the parser rejects it, and that failure is modelled.
- Strings are modelled as sequences of characters, not as Go's byte strings. A form value that is not valid UTF-8 cannot be represented. For valid UTF-8, the substring tests on the ASCII keywords and the key comparisons give the same results.
