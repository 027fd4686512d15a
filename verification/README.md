# Messenger commerce bot: conversation router and session model

A Dafny model of the conversation core of a Messenger webhook bot that
browses a grocery catalog. Each inbound event (a button postback, an
account-link callback, typed text, or a shared location) goes through a
fixed-priority router. The router reads and writes a small per-sender session
in a key-value store (`location_<id>`, `viewing_store_<id>`, `login_<id>`),
may query the catalog, and composes at most one reply. The reply is sent
after a "typing" indicator.

The model is functional. An event's outcome is a `Step`: the reply (or none),
the store afterwards, and the catalog requests sent, in order. A Go panic is
the outcome `Crashed`. Everything outside the core is a parameter (`Env`):

- the catalog API's answers;
- the store's answer to each write;
- the text format of a saved location;
- the composers whose source is not part of this model.

Modules:

- `GoStrings`: Go's `strings.Split` on one separator and its inverse `Join`.
- `Honestbee`: catalog records, action-kind constants, and the five catalog
  queries with their nil-location guards.
- `Messages`: the platform's message shapes and the composers of
  facebook/message.go.
- `FacebookError`: the check of the platform's answer to a send.
- `Session`: store keys, reads and writes.
- `Router`: the keyed router of facebook/handler.go and facebook/controller.go.
  This covers postback token dispatch, event routing, and the typing-then-reply
  send.
- `GlobalRouter`: the router of main.go, which keeps the browsed store in one
  process-wide variable.
- `Events`, `Tokens`, `Isolation`, `Conversation`: lemmas about tokens,
  about cross-sender isolation (and its failure in main.go), and about
  two-event conversations.

The three copies of the router are modelled as follows:

- The shape follows facebook/controller.go.
- Keys and reply texts follow facebook/handler.go.
- main.go is kept as a contrast.

facebook/controller.go echoes a failed account-link save's raw error. The model
uses handler.go's text, `Session store error: <err>`.

## Behaviour worth knowing

- A token with too few fields panics on the index. This covers
  `departments`, `products` and `search` with no argument, and `brands` with
  fewer than two arguments
  (`Tokens.ShortSearchTokenPanics`).
- Typed text from a sender with no viewing store, in a message with no
  attachments list, panics: `ParseLocation` ranges over a nil pointer. A
  plain text message from the platform usually has no attachments list
  (`Events.BareTextEvent`). With an attachments list that holds no
  coordinates, the result is no reply.
- The text commands `get_location` and `login` are checked before the viewing
  store and the location attachment. An event with a viewing store set and a
  location attached searches the store.
- `ComposeServicesButton` lists every service, available or not. Each button's
  payload is the bare service type.
- The `search` postback of main.go writes nothing to the store, and it cannot
  fail.

## Model

| member | source | states |
|---|---|---|
| GoStrings.Split | facebook/handler.go:44 | A token splits into at least one field. No field contains `:`. Joining the fields with `:` gives back the token. |
| GoStrings.SplitLength | facebook/handler.go:44 | The number of fields is one more than the number of colons. |
| GoStrings.SplitJoin | facebook/handler.go:44 | Fields without colons, joined with `:` and split again, come back unchanged and in place. |
| Honestbee.SearchQueryFor | honestbee/controller.go:125-132 | A product search asks for page 1 with page size 10, and its query is the user's text verbatim. |
| Honestbee.SearchProducts | honestbee/controller.go:121-154 | A product search sends exactly one request, for the given store and query, and answers with the catalog's result. It has no location guard. (The nil-request panic on an unparseable URL is left out.) |
| Honestbee.GetServices | honestbee/controller.go:156-179 | Without a location it fails with "No location provided" and sends no request. With a location it sends exactly one request. |
| Honestbee.GetBrands | honestbee/controller.go:181-204 | Without a location it fails with "No location provided" and sends nothing. Otherwise it sends one request with the given page and service. |
| Honestbee.GetDepartments | honestbee/controller.go:206-229 | Without a location it fails with "No location provided" and sends nothing. Otherwise it sends one request for the store. |
| Honestbee.GetProducts | honestbee/controller.go:231-250 | It takes only a department id and sends one request for it. It has no location precondition. (The nil-request panic on an unparseable URL is left out.) |
| Messages.SenderTypingAction | facebook/message.go:94-102 | The typing action goes to the event's sender, with the action `typing_on`. |
| Messages.FirstCoordinates | facebook/message.go:106-112 | The result is the coordinates of the first attachment that has them; every earlier attachment has none. The result is none exactly when no attachment has coordinates. |
| Messages.ParseLocation | facebook/message.go:105-113 | An absent attachments list is the nil-dereference outcome. Otherwise the result is "not found" exactly when no attachment has coordinates. A found result is the first coordinates present. |
| Messages.ServiceButtons | facebook/message.go:116-123 | There is one postback button per service, in input order. Each button's title and payload are the service type. |
| Messages.ComposeServicesButton | facebook/message.go:115-141 | The reply is a button template to the given id, with the text "These are the available services". It has one postback button per service, nothing filtered, titled and keyed by the service type. |
| Messages.ComposeLocation | facebook/message.go:144-159 | The prompt goes to the sender, with the text "Please tell me your location". It has exactly one quick reply, of content type `location` with an empty payload. No other message field is set. |
| Messages.ComposeText | facebook/message.go:161-171 | The reply goes to the given sender and carries the given text, with no quick replies and no attachment. |
| Messages.ComposeBrandList | facebook/message.go:174-213 | The reply goes to the sender. It is a compact list template with the two fixed elements, and nothing else: no message text or quick replies, and no payload text, URL, coordinates or trailing buttons. |
| Messages.BrandListIgnoresInput | facebook/message.go:174-213 | The brand list's message is the same for every event. Events from the same sender give identical replies. |
| FacebookError.CheckFacebookError | facebook/error.go:26-35 | The result is an error exactly when the decoded answer has an `Error`. Its text is "Facebook error: " followed by that error's message. |
| FacebookError.CheckIgnoresResultAndDecodeError | facebook/error.go:29-34 | Neither the `Result` field nor a decoding failure changes the verdict. |
| Session.Key | facebook/handler.go:23 | A key is its kind's prefix followed by the sender id, with nothing in between. |
| Session.KeyInjective | facebook/handler.go:84 | The `login_`, `location_` and `viewing_store_` keys of any two senders coincide only for the same kind and the same sender. |
| Session.OwnKeys | facebook/handler.go:32 | Each sender has exactly three distinct keys, one of each kind. |
| Session.OwnKeysSeparate | facebook/handler.go:68 | Two different senders have no key in common. |
| Session.GetCurrentViewingStoreID | facebook/handler.go:22-29 | The result is the value at `viewing_store_<sender>`, or "" when that key is missing. |
| Session.GetLocation | facebook/handler.go:31-40 | The result is none when `location_<sender>` is missing. Otherwise it is the stored text, decoded. |
| Session.Set | facebook/handler.go:69 | A successful write makes the key hold the value. A failed write changes nothing. No other key is touched either way. |
| Session.ReadsSeeOwnKeys | facebook/handler.go:22-40 | Two stores that agree on a sender's keys give that sender the same viewing store and location. |
| Router.Fields | facebook/handler.go:44 | Splitting a payload always gives a first field, the token's kind. |
| Router.PostbackHandling | facebook/handler.go:42-78 | Apart from the catalog client's nil-request panic (left out), a panic happens exactly when the kind's fields are missing. Only `search` writes, and only to `viewing_store_<sender>`; it makes no catalog call, and its reply is the exact confirmation or error text. `brands` reads service from field 1 and page from field 2; `brands` and `departments` need the location. Without it they send nothing and reply with their error text and "No location provided". With it, a catalog failure gives "No brand served in your location: <err>" or "No departments found: <err>", and success gives the listing of the catalog's answer. `products` ignores the location and replies the same way. An unknown kind gives no reply and writes nothing. |
| Router.KeywordFilters | facebook/handler.go:80-132 | Priority is postback, account link, `get_location`/`login`, store search, then location. Only the sender's keys change. Account link saves and echoes the code. Free text with a viewing store searches it and ignores an attachment. A location fetches services first, saves only on success, and lists only if the save worked. Otherwise there is no reply, or a panic for a nil attachments list. |
| Router.Respond | facebook/handler.go:134-154 | For a request that was built: a send that fails is logged with its error, and an answered send is logged exactly when the platform reported an error, with the line "Facebook error: " followed by the platform's message. (A request that cannot be built panics; left out.) |
| Router.ProcessMessage | facebook/handler.go:156-173 | The typing action is always sent first. The reply is sent second, and only when routing produced one. A panic leaves the store unchanged. The log lines are those of the typing send's outcome followed by those of the reply's, so at most one per send. Messages are values; the bytes of the shared request buffer are left out. |
| Router.DeliveryOnlyLogs | facebook/handler.go:134-154 | Delivery outcomes change neither which messages are sent (as values) nor the store nor the catalog requests. |
| GlobalRouter.PostbackHandling | main.go:54-85 | `search` overwrites the process-wide store id with field 1. It never fails and never writes to the store. The other kinds leave everything unchanged, and an unknown kind is inert. `brands` and `departments` need the location: without it they send nothing and reply with their error text and "No location provided"; with it a catalog failure gives "No brand served in your location: <err>" or "No departments found: <err>". A served `brands` answer gets the fixed brand list, a served `departments` answer main.go's department list. `products` replies "No products found: <err>" or main.go's product list. |
| GlobalRouter.KeywordFilters | main.go:87-138 | A postback goes to the token router; otherwise an account link comes before the commands: it saves the code under `login_<sender>` and echoes it, or replies "Session store error: <err>" and changes nothing. Then `get_location` gives the location prompt and `login` the login reply. Once the process-wide store id is set, free text from any sender searches that store and replies "No products found: <err>" or main.go's product list. Otherwise a shared location fetches services (failure: "Cannot read services: <err>"), saves the location (failure: "Location store error: <err>", nothing changed) and then replies with the services button template; text without coordinates gets no reply. Only the sender's keys in the store change. |
| GlobalRouter.SamePriorityAsKeyed | main.go:87-138 | Let the shared variable hold the sender's viewing store. Then main.go's router panics on the same events as the keyed router and sends the same catalog requests. Except after a `search` click, it leaves the same store behind. |
| Isolation.PostbackDependsOnOwnKeys | facebook/handler.go:42-78 | The token router's reply, requests and panics depend only on the sender's keys, and it changes those keys identically. |
| Isolation.StepDependsOnOwnKeys | facebook/handler.go:80-132 | An event's reply, requests and panics depend only on its sender's keys, and it changes those keys identically. |
| Isolation.OtherSenderInvisible | facebook/handler.go:80-132 | An event from another sender never changes this sender's reply, requests, or whether it panics. |
| Isolation.DifferentSendersCommute | facebook/handler.go:80-132 | Two events from different senders give the same replies and the same final store in either order. |
| Isolation.GlobalStoreBleeds | main.go:107-116 | In main.go, after one sender picks store 11150, another sender's "Apple" searches store 11150, with or without an attachments list. On its own, that text gets no reply with an empty attachments list, and panics with none. |
| Isolation.KeyedStoreStaysWithSender | facebook/handler.go:100-110 | In the keyed router, after the same store choice the second sender's text behaves as it would alone: with an empty attachments list no request and no reply, with none a panic. |
| Tokens.FieldsOfToken | facebook/handler.go:44 | A token written from a kind and arguments decodes back to them, in position. |
| Tokens.SearchTokenSelectsStore | facebook/handler.go:67-75 | `search:<id>` makes no catalog call. When the write succeeds, the store becomes `viewing_store_<sender>` = id and the reply is "We've selected store <id>, please type search keywords". When it fails, the store is unchanged. Extra fields are ignored. |
| Tokens.BrandsTokenReadsPositionally | facebook/handler.go:46-47 | `brands:<service>:<page>` asks for that page of that service at the saved location. It writes nothing. |
| Tokens.ProductsTokenIgnoresLocation | facebook/handler.go:60-66 | `products:<dept>` sends one request for that department, and its reply is the same whatever session the sender has. |
| Tokens.UnknownTokenIsInert | facebook/handler.go:77 | `foo:bar` gives no reply, no request and no write. |
| Tokens.ShortSearchTokenPanics | facebook/handler.go:67-69 | A bare `search` token panics on the missing field. |
| Conversation.StoreChoiceScopesSearch | facebook/handler.go:100-107 | After a successful `search:<id>`, typed text searches store id with that text. |
| Conversation.SharedLocationScopesBrands | facebook/handler.go:116-128 | A served location is saved. If it reads back as written, a later `brands` click asks for brands at exactly that location. |
| Conversation.BrandsWithoutLocation | facebook/handler.go:47-50 | Without a saved location, a `brands` click sends nothing. Its reply is "No brand served in your location: No location provided". |

## Left out

- HTTP plumbing: request building, URLs, headers and JSON decoding in the
  catalog client, and the `respond` send. The catalog is the `CatalogApi`
  oracle, and each send's outcome is a `Delivery` value.
- Router.PostbackHandling and the catalog queries: the catalog client's
  nil-request panic is not modelled. All five queries drop the error of
  `http.NewRequest` and then add headers to the request, which panics when
  the URL could not be parsed. `GetServices` builds its URL only from "TW"
  and two `%f` numbers, so it cannot hit this; the four whose URL carries a
  user-controlled field can. A token field such as `%zz` in
  `products:%zz`, or a control character in a `brands` field, does that. The
  model has no URL, so every query it sends gets an `Ok` or `Err` answer, and
  `Router.PostbackHandling`'s "panics exactly when fields are missing" and
  the catalog rows' "one request" hold only for URLs that parse.
- Router.Respond: a request that cannot be built is not modelled. The source
  adds a header to the request before testing the error of
  `http.NewRequest`, so a send URL that does not parse (a page access token
  with a control character in it, such as a trailing newline) panics on a
  nil request instead of being logged. The typing send then panics and the
  event is never routed. `Delivery` has no value for this outcome.
- Router.ProcessMessage: the send buffer is not modelled. The source reuses
  the typing action's buffer for the reply, and `Truncate(Len())` discards
  nothing. If the typing send failed before its body was read, the reply's
  request body starts with the typing JSON. The model's sent messages are
  values, so `Router.DeliveryOnlyLogs` speaks of those values, not of the
  bytes on the wire.
- Coordinates are float32 bit patterns and are never computed with. The
  `%f` text a location is saved as is the `LocationCodec` oracle. So the
  round trip of a saved location is an assumption of
  `Conversation.SharedLocationScopesBrands`, not a fact the model proves.
- Session.GetCurrentViewingStoreID and Session.GetLocation: store reads
  never fail in the model; they are map lookups. In the source,
  any read error behaves like a missing key, even for a key that is present.
  A failed read of `viewing_store_<id>` sends the sender's next text to
  `ParseLocation` instead of the chosen store, and a failed read of
  `location_<id>` makes `brands` and `departments` answer "No location
  provided". So `Conversation.StoreChoiceScopesSearch` and
  `Conversation.SharedLocationScopesBrands` hold only when reads succeed.
  Write failures are the `StoreWrite` oracle.
- Composers whose source is not part of this model are oracles;
  `ShowText` is the exception, as described next. The oracles are:
  - `AskLocation`, `Login`, `ListBrands`, `ListDepartments`, `ListProducts`
    and `ListServices`, called by the keyed router (`Router.Composers`);
    main.go calls the same `Login`;
  - `ComposeDepartmentList` and `ComposeProductList`, called by main.go
    (`GlobalRouter.MainComposers`).

  Their output formats are not modelled, so the following are not stated:
  - the product carousel, its "available" filter and its subtitles;
  - the two-department cap;
  - the brand list's "View More" page.
- `ShowText` is modelled as `ComposeText` from facebook/message.go. main.go
  calls `ComposeText` at the same places.
- main.go calls `ComposeBrandList` with the brands as a second argument.
  facebook/message.go's `ComposeBrandList` takes only the event, so the model
  drops the brands.
- `time.Sleep` between the typing action and the reply is left out, along
  with the concurrent or racy processing of same-sender events. Events are
  handled one at a time, in order.
- `VerificationEndpoint`, `MessagesEndpoint`, `main` and the Redis client
  setup in utils/ are server and connection plumbing.
- `SearchProducts` can also fail when marshalling its query. That cannot
  happen for this query struct, so it is not modelled.
