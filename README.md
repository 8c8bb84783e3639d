# UCP Browser core, modelled in Dafny

UCP Browser is a debugging client for the Universal Commerce Protocol. It calls a merchant server and records every request, response and webhook. It groups them into transactions and streams live events to the browser. This project models the parts of it that hold state or compute values:

- **Transaction correlation store** (`transactions.dfy`, class `Transactions.TransactionStore`). An insertion-ordered map from transaction id to a transaction aggregate, with these operations:
  - create a transaction; append a request;
  - correlate a response with its parent request, which sets the parent's status and duration and may advance the transaction status;
  - append a webhook, flagged as an orphan when it creates the transaction;
  - update a status; clear the store;
  - the orphan listing and its count, with nested loops over the map and its messages;
  - the derived views: selected transaction, selected message, filtered messages, and the list sorted newest first.

  The store invariant says three things:
  - the order sequence lists each key once;
  - every message points back to its transaction;
  - an orphan can only be the first message of its transaction, and it is a webhook.

  Every mutator preserves this invariant. A consequence proved from it: the orphan count never exceeds the number of transactions.
- **Live event broadcaster** (`sse_store.dfy`, class `SseStore.Broadcaster`). The set of connected Server-Sent Events controllers:
  - register, unregister and count them;
  - a broadcast frames one payload as `data: <json>` followed by a blank line, enqueues it on every controller, and drops those whose enqueue throws.
- **Cart store** (`cart.dfy`). A pure state-to-state model of the local cart:
  - merge on add; remove; quantity clamped to at least 1; clear;
  - the item count, and the total recomputed as a sum over the lines;
  - loading a server reply given as a JavaScript value, including the error that a `null` line raises.
- **Client helpers** (`ucp_client.dfy`):
  - base-URL normalisation and the target URL of every call;
  - the reply checks (proxy error, status 400 or above, HTML page);
  - product and cart unwrapping;
  - the client's settable fields (class `UcpClient.Client`) and the cached client instance (class `UcpClient.ClientCache`).
- **Settings record** (`settings.dfy`): clamped setters, toggles, reset, and the overlay of stored fields on the defaults.
- **Tunnel records** (`tunnel.dfy`): the connection status transitions, the derived webhook URL, the configuration setters and reset, and the "can connect" check.

Shared definitions:

| file | contents |
|---|---|
| `ucp_types.dfy` | the message and transaction types |
| `js_value.dfy` | JSON-like JavaScript values: truthiness, `typeof x === 'object'`, property reads |
| `text.dfy` | string helpers |
| `wrappers.dfy` | `Option` and `Result` |

The clock is an integer argument named `now`. The random local ids come from a serial counter: the prefixes `req_`, `res_` and `wh_`, followed by decimal digits.

## Model

| member | source | states |
|---|---|---|
| Transactions.ResponseStatus | src/lib/stores/transactions.ts:102-115 | a response and its parent are failed exactly when `errors` is present and non-empty, and completed otherwise; never pending |
| Transactions.FindById | src/lib/stores/transactions.ts:100 | the parent lookup yields the first message with that local id, or none when no message has it |
| Transactions.StatusAfterResponse | src/lib/stores/transactions.ts:122-127 | `complete_checkout` with `errors` absent makes the transaction completed; `cancel_checkout` makes it failed; every other action keeps the status; `complete_checkout` with `errors` present, even an empty list, keeps it |
| Transactions.Respond | src/lib/stores/transactions.ts:99-127 | the response is appended last, even when no parent matches; it is failed iff errors are present and non-empty; only the first message with the parent id gets that status and the duration `now - timestamp`; all other messages, the id, server URL and creation time are kept |
| Transactions.OrphansInAppend | src/lib/stores/transactions.ts:193-197 | the orphans of a list grown by one message gain that message exactly when it is an orphan |
| Transactions.OrphansInMembership | src/lib/stores/transactions.ts:193-197 | a message is among a transaction's orphans iff it is one of its messages and its orphan flag is set |
| Transactions.CollectOrphansMembership | src/lib/stores/transactions.ts:188-201 | a message is in the orphan listing iff some listed transaction holds it with the orphan flag set |
| Transactions.OrphansInAtMostOne | src/lib/stores/transactions.ts:144-176 | a message list where only the first message can be an orphan has at most one orphan |
| Transactions.OrphanCountBound | src/lib/stores/transactions.ts:236-244 | when every transaction is well formed, the orphan listing is no longer than the list of keys |
| Transactions.RespondWellFormed | src/lib/stores/transactions.ts:99-127 | a response keeps a well-formed transaction well formed |
| Transactions.RespondKeepsOrphanCount | src/lib/stores/transactions.ts:99-127 | correlating a response never changes a transaction's number of orphans |
| Transactions.AppendMessage | src/lib/stores/transactions.ts:46-75 | appending a message to an existing or new transaction keeps the store invariant; the orphan listing grows by that message iff it is an orphan and its transaction is new |
| Transactions.RespondToStored | src/lib/stores/transactions.ts:91-130 | storing a correlated response keeps the store invariant and the orphan count |
| Transactions.SelectedTransaction | src/lib/stores/transactions.ts:251-257 | a transaction is selected iff the selected id is non-empty and stored; it is the stored one |
| Transactions.SelectedMessage | src/lib/stores/transactions.ts:260-266 | a missing or empty id selects nothing; otherwise the selected message is the first message of the selected transaction with that id, so no earlier message has it, and there is none only when no message has the id |
| Transactions.WithAction | src/lib/stores/transactions.ts:279 | the filter never makes the list longer |
| Transactions.WithActionMembership | src/lib/stores/transactions.ts:279 | the filter keeps exactly the messages with that action |
| Transactions.WithActionSnoc | src/lib/stores/transactions.ts:279 | a message appended to the list is appended to the filtered list iff it has the action |
| Transactions.WithActionConcat | src/lib/stores/transactions.ts:279 | the filter distributes over concatenation, so kept messages stay in their order |
| Transactions.FilteredMessages | src/lib/stores/transactions.ts:274-281 | with no transaction, nothing; with no filter, all its messages; otherwise exactly the messages with the filtered action |
| Transactions.FilteredMessagesAppend | src/lib/stores/transactions.ts:274-281 | a message appended to the transaction is appended to the filtered view iff it has the filtered action, so the view keeps message order |
| Transactions.NewestFirstAllPairs | src/lib/stores/transactions.ts:230-232 | in a list sorted newest first, every entry is at least as recent as every later entry |
| Transactions.InsertByDate | src/lib/stores/transactions.ts:230-232 | inserting into a list sorted newest first keeps it sorted and adds exactly that transaction |
| Transactions.SortNewestFirst | src/lib/stores/transactions.ts:230-232 | the result is sorted newest first and is a permutation of the input |
| Transactions.TransactionList | src/lib/stores/transactions.ts:229-233 | the list holds exactly the stored transactions, one entry per key; every entry is at least as recent as every later one |
| Transactions.OrphansOf | src/lib/stores/transactions.ts:192-196 | the inner walk collects exactly one transaction's orphan messages, in message order |
| Transactions.CountOrphans | src/lib/stores/transactions.ts:239-241 | the inner count equals the number of one transaction's orphan messages |
| Transactions.TransactionStore.constructor | src/lib/stores/transactions.ts:15 | the store starts empty and satisfies the invariant |
| Transactions.TransactionStore.NextId | src/lib/stores/transactions.ts:44 | the id is the prefix followed by the current serial number, which then advances by one |
| Transactions.TransactionStore.AddTransaction | src/lib/stores/transactions.ts:21-35 | a known id leaves the store, including the server URL, unchanged; an unknown id gets an empty pending transaction appended to the key order; orphans are unchanged |
| Transactions.TransactionStore.AddRequest | src/lib/stores/transactions.ts:38-78 | returns the new id; exactly one pending request with that id is appended to the transaction, which is created if absent; no other transaction changes; orphans are unchanged |
| Transactions.TransactionStore.AddResponse | src/lib/stores/transactions.ts:81-133 | an unknown transaction leaves the whole store unchanged and is reported; otherwise only that transaction changes, as `Respond` states; the orphan count is unchanged |
| Transactions.TransactionStore.AddWebhook | src/lib/stores/transactions.ts:136-180 | appends a completed webhook, flagged as an orphan iff its transaction did not exist and is created now; the orphan listing grows by exactly that webhook in that case |
| Transactions.TransactionStore.GetTransaction | src/lib/stores/transactions.ts:183-185 | a transaction is found iff its id is stored; it is the stored one |
| Transactions.TransactionStore.GetOrphans | src/lib/stores/transactions.ts:188-201 | the nested walk returns every orphan message, in key-insertion order and then message order |
| Transactions.TransactionStore.OrphanCount | src/lib/stores/transactions.ts:236-244 | the count is the length of the orphan listing, and never more than the number of transactions |
| Transactions.TransactionStore.KeysCount | src/lib/stores/transactions.ts:15 | the key order lists as many keys as the map holds |
| Transactions.TransactionStore.Clear | src/lib/stores/transactions.ts:204-206 | the store is empty afterwards |
| Transactions.TransactionStore.UpdateStatus | src/lib/stores/transactions.ts:209-218 | a known transaction gets the status and update time; an unknown id changes nothing |
| SseStore.Frame | src/lib/services/sse-store.ts:9 | the frame is `data: `, the payload and a blank line |
| SseStore.FrameInjective | src/lib/services/sse-store.ts:9 | different payloads never produce the same frame |
| SseStore.Broadcaster.constructor | src/lib/services/sse-store.ts:5 | the client set starts empty |
| SseStore.Broadcaster.Register | src/lib/services/sse-store.ts:23-25 | the controller is added; the count grows by one unless it was already there |
| SseStore.Broadcaster.Unregister | src/lib/services/sse-store.ts:28-30 | the controller is removed and the other clients stay |
| SseStore.Broadcaster.ClientCount | src/lib/services/sse-store.ts:33-35 | the count is the size of the client set |
| SseStore.Broadcaster.Broadcast | src/lib/services/sse-store.ts:8-20 | the clients afterwards are those before minus the closed ones; each surviving client receives the frame exactly once; closed and unregistered controllers receive nothing |
| SseStore.Broadcaster.Enqueue | src/routes/api/events/+server.ts:12 | the frame is added to the end of that controller's stream, and no other stream changes |
| SseStore.OpenStream | src/routes/api/events/+server.ts:7-13 | opening a stream registers the controller and then enqueues the `connected` frame on it alone |
| SseStore.ConnectedFrameFirst | src/routes/api/events/+server.ts:7-13 | a new stream receives the `connected` frame first, and a following broadcast right after it |
| SseStore.CancelAsWritten | src/routes/api/events/+server.ts:14-16 | the route's `cancel` as written hands the cancellation reason to `unregisterClient`, so the client set and every stream stay as they were |
| SseStore.CancelledStreamStaysCounted | src/routes/api/events/+server.ts:14-16 | after that `cancel`, the controller is still registered and the client count has not dropped |
| SseStore.CancelledDroppedByBroadcast | src/lib/services/sse-store.ts:12-18 | after that `cancel`, a broadcast whose enqueue throws on the controller is what removes it, and the controller receives nothing |
| SseStore.CancelStream | src/lib/services/sse-store.ts:28-30 | the intended `cancel` removes the stream's own controller, the count drops by one when it was registered, and no stream changes |
| SseStore.OpenThenCancel | src/routes/api/events/+server.ts:7-16 | with the intended `cancel`, opening a new stream and cancelling it leaves the client set as it was, the stream holding only its `connected` frame |
| SseStore.LateRegistration | src/lib/services/sse-store.ts:5-19 | a controller registered after a broadcast has not received it |
| SseStore.NoDeliveryAfterUnregister | src/lib/services/sse-store.ts:28-30 | a controller unregistered before a broadcast does not receive it |
| CartStore.Total | src/lib/stores/cart.ts:89-92 | no lines total zero, and one line totals its price, zero when missing, times its quantity |
| CartStore.TotalAppend | src/lib/stores/cart.ts:89-92 | appending a line adds its price times its quantity to the total |
| CartStore.TotalReplace | src/lib/stores/cart.ts:126-129 | replacing one line changes the total by the new line's amount minus the old one's |
| CartStore.TotalNonNegative | src/lib/stores/cart.ts:89-92 | with no negative price or quantity, the total is not negative |
| CartStore.ItemCount | src/lib/stores/cart.ts:144-159 | no lines count zero, and one line counts its quantity |
| CartStore.ItemCountAppend | src/lib/stores/cart.ts:144-159 | appending a line adds its quantity to the count |
| CartStore.ItemCountReplace | src/lib/stores/cart.ts:144-159 | replacing one line changes the count by the new quantity minus the old one |
| CartStore.ItemCountBounds | src/lib/stores/cart.ts:144-159 | with no negative quantity, the count is not negative and no line's quantity exceeds it |
| CartStore.ItemCountAtLeastLines | src/lib/stores/cart.ts:144-150 | with every quantity at least one, the item count is at least the number of lines |
| CartStore.FindProduct | src/lib/stores/cart.ts:74-76 | the index of the first line with that product id, or none when no line has it |
| CartStore.AddItem | src/lib/stores/cart.ts:72-100 | a known product adds the quantity to its first line and leaves the line count and other lines unchanged; an unknown product is appended; the item count grows by the quantity; the total agrees with the lines |
| CartStore.MergeTotal | src/lib/stores/cart.ts:78-92 | adding a quantity to one line adds that quantity times the line's price to the total |
| CartStore.AddItemTotal | src/lib/stores/cart.ts:89-92 | the total grows by the added quantity times the price of the line that received it, which for a merge is the existing line's price |
| CartStore.Without | src/lib/stores/cart.ts:105 | the filter never makes the list longer |
| CartStore.WithoutAbsent | src/lib/stores/cart.ts:103-116 | filtering out a product no line has keeps every line |
| CartStore.WithoutMembership | src/lib/stores/cart.ts:105 | the filter keeps exactly the lines of other products |
| CartStore.WithoutConcat | src/lib/stores/cart.ts:105 | the filter distributes over concatenation, so kept lines stay in order |
| CartStore.RemoveItem | src/lib/stores/cart.ts:103-116 | every line of the product is dropped and every other line kept; the total agrees with the lines |
| CartStore.RemoveItemIdempotent | src/lib/stores/cart.ts:103-116 | removing a product twice is removing it once |
| CartStore.AddThenRemove | src/lib/stores/cart.ts:72-116 | adding an item and then removing its product is the same as only removing the product |
| CartStore.AtLeastOne | src/lib/stores/cart.ts:123 | the quantity is raised to at least one and otherwise kept |
| CartStore.UpdateQuantity | src/lib/stores/cart.ts:119-136 | every line of the product gets `max(1, q)`; the other lines and the length are unchanged; the total agrees with the lines |
| CartStore.UpdateQuantityIdempotent | src/lib/stores/cart.ts:119-136 | setting the same quantity twice is setting it once |
| CartStore.Clear | src/lib/stores/cart.ts:139-141 | back to id null, no lines, total 0, currency TWD and no creation time |
| CartStore.PriceOf | src/lib/stores/cart.ts:55-58 | a number is the price; otherwise an object's numeric `amount` is; otherwise there is no price |
| CartStore.ItemFrom | src/lib/stores/cart.ts:49-60 | a `null` or `undefined` line throws; otherwise the product id is `product_id` or else `id`, `sku` and `name` are copied, the price is converted as `PriceOf` states, and the quantity is the given number or 1 |
| CartStore.ItemsFrom | src/lib/stores/cart.ts:49 | the lines map one to one, and the map throws iff one line throws |
| CartStore.SetCart | src/lib/stores/cart.ts:42-69 | a falsy or non-object reply changes nothing; lines are replaced only by an `items` array; the id is a truthy `id`, else a truthy `cart_id`, else the current id; currency and creation time are the truthy reply values, else the current ones; the total is a numeric `total`, else a numeric `total.amount`, else the current total; it fails exactly when an `items` element is `null` or `undefined` |
| CartStore.SetCartIdempotent | src/lib/stores/cart.ts:42-69 | loading the same reply twice is loading it once |
| Text.Contains | src/lib/services/ucp-client.ts:397 | `includes` holds iff the substring occurs at some position |
| JsValue.Values | src/lib/services/ucp-client.ts:111 | `Object.values` lists the property values in order |
| UcpClient.StripTrailingSlash | src/lib/services/ucp-client.ts:44 | exactly one trailing slash, if present, is removed |
| UcpClient.NormalizeUrl | src/lib/services/ucp-client.ts:42-50 | the result always has an http or https scheme and ends with the input minus at most one trailing slash; an input with a scheme gains no prefix |
| UcpClient.NormalizeUrlFixedPoint | src/lib/services/ucp-client.ts:44-48 | a URL with a scheme and no trailing slash is returned unchanged |
| UcpClient.NormalizeUrlIdempotent | src/lib/services/ucp-client.ts:42-50 | normalising twice is normalising once when the first result does not end in a slash |
| UcpClient.NormalizeBareScheme | src/lib/services/ucp-client.ts:44-48 | a bare scheme loses its last slash and is prefixed again; the empty URL becomes `http://`, and normalising that again gives `http://http:/` |
| UcpClient.CartEndpoint | src/lib/services/ucp-client.ts:173-176 | the base URL followed by `/wp-json/ucp/v1/carts` |
| UcpClient.CheckoutSessionEndpoint | src/lib/services/ucp-client.ts:420-422 | the base URL followed by `/wp-json/ucp/v1/checkout/sessions` |
| UcpClient.OrderEndpoint | src/lib/services/ucp-client.ts:567-569 | the base URL followed by `/wp-json/ucp/v1/orders` |
| UcpClient.EndpointsDistinct | src/lib/services/ucp-client.ts:173-176 | each endpoint determines its base URL, and the three endpoints of one base differ |
| UcpClient.CartUrlUnderCartEndpoint | src/lib/services/ucp-client.ts:181-370 | every cart call targets a path under the cart endpoint |
| UcpClient.SessionUrlUnderSessionEndpoint | src/lib/services/ucp-client.ts:424-558 | get, update, complete and cancel target paths under the checkout-session endpoint |
| UcpClient.TargetUrl | src/lib/services/ucp-client.ts:57-601 | a product listing with a caller-supplied endpoint targets exactly that endpoint; every call without one targets a URL strictly extending the base URL |
| UcpClient.TargetUrlUnderBase | src/lib/services/ucp-client.ts:57-601 | every call without a caller-supplied endpoint targets a path under the base URL; order lookups go under the order endpoint |
| UcpClient.CreateCheckoutOutsideSessions | src/lib/services/ucp-client.ts:379 | creating a checkout posts to `/checkout-sessions`, which is not under the session endpoint the other checkout calls use |
| UcpClient.ProductByIdUrl | src/lib/services/ucp-client.ts:129-131 | with a base endpoint, the product URL is that endpoint, with one trailing slash removed, then `/<id>`; otherwise it is the base URL followed by `/products/<id>` |
| UcpClient.CheckReply | src/lib/services/ucp-client.ts:61-67 | a reply is accepted iff it has no truthy error, a status below 400 and, on checkout and order calls, no HTML body; an accepted reply yields its data; the error is checked first, then the status |
| UcpClient.HtmlCheckOnlyOnStrings | src/lib/services/ucp-client.ts:395-400 | an HTML page is rejected on checkout and order calls but accepted on cart calls, and an object body is never taken for HTML |
| UcpClient.ExtractProducts | src/lib/services/ucp-client.ts:94-116 | an array yields itself; an object yields the first array among `products`, `items` and `data`; failing that, its values if there are some and all are objects; anything else yields an empty list |
| UcpClient.ExtractProductsWrappers | src/lib/services/ucp-client.ts:98-108 | a product list comes out unchanged from each accepted wrapper |
| UcpClient.ExtractProductsFromBody | src/lib/services/ucp-client.ts:94-116 | every extracted product is an element of the body, of one of its wrapper arrays, or an object-valued property |
| UcpClient.UnwrapProduct | src/lib/services/ucp-client.ts:143-158 | a truthy `product` first, then an object `data`, then the body itself; `null` for a non-object body |
| UcpClient.UnwrapProductRoundTrip | src/lib/services/ucp-client.ts:147-157 | a wrapped product is unwrapped, and a bare product object is returned as it is |
| UcpClient.UnwrapCart | src/lib/services/ucp-client.ts:197-201 | a truthy `cart` property of an object body, else the body itself |
| UcpClient.UnwrapCartRoundTrip | src/lib/services/ucp-client.ts:197-201 | unwrapping undoes the cart wrapper and leaves an unwrapped cart as it is |
| UcpClient.Client.constructor | src/lib/services/ucp-client.ts:35-40 | the base URL is normalised; the profile and API key fall back to their defaults when empty; the proxy path is fixed |
| UcpClient.Client.SetBaseUrl | src/lib/services/ucp-client.ts:633-635 | the stored base URL is the normalised argument, and only that field changes |
| UcpClient.Client.GetBaseUrl | src/lib/services/ucp-client.ts:638-640 | returns the stored base URL, which always has a scheme |
| UcpClient.Client.SetApiKey | src/lib/services/ucp-client.ts:643-645 | the key is stored as given, and only that field changes |
| UcpClient.Client.GetApiKey | src/lib/services/ucp-client.ts:648-650 | returns the stored key |
| UcpClient.Client.Endpoints | src/lib/services/ucp-client.ts:173-176 | the three endpoints of the current base, each with a scheme |
| UcpClient.SetThenGetBaseUrl | src/lib/services/ucp-client.ts:633-640 | after setting a base URL, reading it gives its normal form |
| UcpClient.ClientCache.constructor | src/lib/services/ucp-client.ts:654 | no client is cached at first |
| UcpClient.ClientCache.GetClient | src/lib/services/ucp-client.ts:656-663 | the cached client is returned unless there is none or a non-empty base URL differs from its base URL; otherwise a fresh client for that URL, or the default one, is cached and returned; an argument without a scheme always yields a fresh client |
| Settings.Clamp | src/lib/stores/settings.ts:81 | the value is clamped into the range and kept when already inside it |
| Settings.Apply | src/lib/stores/settings.ts:71-130 | reset yields the defaults; a width or level setter stores a value within its range; every call other than reset leaves every field but its own unchanged |
| Settings.PanelWidthClamped | src/lib/stores/settings.ts:79-85 | the stored width is within 20 to 80, equals the argument when in range, and no other field changes |
| Settings.ExpandLevelClamped | src/lib/stores/settings.ts:103-109 | the stored level is within 0 to 10, equals the argument when in range, and no other field changes |
| Settings.TogglesAreInvolutions | src/lib/stores/settings.ts:87-101 | each toggle flips exactly its own flag, and toggling twice restores the record |
| Settings.SettersChangeOneField | src/lib/stores/settings.ts:71-125 | theme, server URL and API key are stored as given, and no other field changes |
| Settings.ResetRestoresDefaults | src/lib/stores/settings.ts:127-130 | reset yields the defaults whatever the record was |
| Settings.ApplyKeepsInRange | src/lib/stores/settings.ts:71-130 | every call keeps the width and level in range |
| Settings.ApplyAllKeepsInRange | src/lib/stores/settings.ts:65-131 | any sequence of calls from an in-range record stays in range |
| Settings.Load | src/lib/stores/settings.ts:34-49 | with nothing stored, the defaults; otherwise each field is the stored one when present and the default when absent |
| Settings.LoadSavedRoundTrip | src/lib/stores/settings.ts:42 | loading a fully saved record gives it back, and an empty stored record gives the defaults |
| Settings.LoadDoesNotClamp | src/lib/stores/settings.ts:42 | a stored width outside 20 to 80 is loaded as it is |
| Tunnel.SetConnected | src/lib/stores/tunnel.ts:86-92 | connected, with the given URL and port and no error |
| Tunnel.SetDisconnected | src/lib/stores/tunnel.ts:94-98 | disconnected, with URL, port and error all absent |
| Tunnel.SetError | src/lib/stores/tunnel.ts:100-106 | disconnected with the error recorded; URL and port kept |
| Tunnel.ClearError | src/lib/stores/tunnel.ts:108-113 | the error is removed and nothing else changes |
| Tunnel.ClearErrorProperties | src/lib/stores/tunnel.ts:100-113 | clearing is idempotent, and clearing after an error leaves a disconnected status with URL and port kept |
| Tunnel.WebhookUrl | src/lib/stores/tunnel.ts:130-135 | present iff connected with a non-empty public URL; it is that URL followed by `/api/webhook` |
| Tunnel.WebhookUrlTransitions | src/lib/stores/tunnel.ts:86-135 | connecting to a non-empty URL yields its webhook URL; an error or a disconnect removes it; clearing the error does not change it |
| Tunnel.CanConnect | src/lib/stores/tunnel.ts:138-140 | holds iff the auth token is non-empty and the port is between 1 and 65535 |
| Tunnel.SetAuthtoken | src/lib/stores/tunnel.ts:48-54 | only the token changes |
| Tunnel.SetPort | src/lib/stores/tunnel.ts:56-62 | only the port changes, and it is stored unchecked |
| Tunnel.ResetConfig | src/lib/stores/tunnel.ts:64-68 | an empty token and port 8000, from which no connection can be made |
| Tunnel.ResetThenToken | src/lib/stores/tunnel.ts:64-68 | after a reset, setting a token is enough to connect; ports 0 and 65536 never allow a connection |

## Findings

| source | as written | input that shows it | evidently intended | confidence | as-written member | corrected member |
|---|---|---|---|---|---|---|
| src/routes/api/events/+server.ts:14-16 | `cancel(controller) { unregisterClient(controller); }`: a stream calls its source's `cancel` with the cancellation reason, so the reason, not the controller, is passed to `unregisterClient`, and `clients.delete` removes nothing | a browser tab that closes its event stream: the reason is passed, the controller stays in `clients`, and `getClientCount` still counts it until a later `broadcastMessage` fails to enqueue on it | unregister the controller the stream was opened with, so the count drops at once | high; not executed | SseStore.CancelAsWritten, SseStore.CancelledStreamStaysCounted | SseStore.CancelStream |

## Left out

- Network I/O: `proxyFetch`, the `fetch`/`await` shells of the client's calls, and the request bodies and headers they send. A proxy reply is an input value.
- `encodeURIComponent` and `crypto.randomUUID`: path segments are taken already encoded.
- The schema validation of discovery and checkout replies. It wraps a validation library that is not part of this model.
- The HTTP relay route, the tunnel route (child processes, timers, signals), the event-stream route's `ReadableStream`, `TextEncoder` and response headers (its `start`, which registers the controller and enqueues the `connected` frame, is `SseStore.OpenStream`; its `cancel` is `SseStore.CancelAsWritten`, see Findings) and the webhook route. The webhook-ingestion logic that would call `addWebhook` is not part of this model.
- Static templates and type declarations. The types the core needs are mirrored in `ucp_types.dfy`; the optional `http` details of a message are not.
- Local-storage persistence, `JSON.parse`/`JSON.stringify` and `TextEncoder`. A broadcast takes the serialised payload as a string. `Settings.Load` takes the stored record already parsed, with typed fields.
- The tunnel configuration load: a stored configuration is taken as it is parsed, which is an I/O path.
- Svelte store machinery: each store is plain state, and each derived store is a function of it.
- Floating point: prices, totals, quantities, widths and levels are integers, and `NaN` does not arise.
- Clock and randomness: each mutator takes one `now` value. `addRequest` and `addResponse` call `new Date()` several times within one call; that difference is not modelled.
- Transactions.TransactionStore.NextId: the random part of an id becomes a serial counter. The model does not prove that ids are unique, because `Date.now()` plus `Math.random()` does not guarantee it.
- Transactions.TransactionList: the sort is proved sorted and a permutation. It is not proved stable for equal creation times.
- SseStore.Broadcaster.Broadcast: controllers are visited in an unspecified order rather than the set's insertion order. The outcome does not depend on the order.
- CartStore.SetCart: a `price` or `total` given as an object whose `amount` is not a number is taken as missing. `setCart` stores that `amount` as it is. Object values in a reply are lists of bindings: a repeated key is read at its first binding, and `Object.values` lists every binding.
- CartStore.FindProduct: product ids are compared structurally. The `===` in `addItem`'s `findIndex` compares objects by reference, so two equal object ids never match there.
- UcpClient.Client: the `discover`, `createCheckout` and other async methods are modelled by their target URL (`UcpClient.TargetUrl`), the reply checks (`UcpClient.CheckReply`) and the unwrapping functions, not as methods.
