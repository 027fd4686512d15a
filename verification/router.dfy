/** The per-sender conversation router (facebook/controller.go in shape,
    facebook/handler.go for its store keys and reply texts): postback token
    dispatch, the fixed-priority event router, and the two-step send.
    Go panics (an index past the token's last field, ranging over a nil
    attachments list) are explicit `Crashed` outcomes; nothing is written or
    requested before either can happen. */
module Router {
  import opened Wrappers
  import opened GoStrings
  import opened Honestbee
  import opened Messages
  import opened Session
  import opened FacebookError

  const COUNTRY := "TW"

  /** Reply texts. */
  const BRAND_ERROR := "No brand served in your location: "
  const DEPARTMENT_ERROR := "No departments found: "
  const PRODUCT_ERROR := "No products found: "
  const VIEWING_STORE_ERROR := "Viewing storeID store error: "
  const SESSION_ERROR := "Session store error: "
  const SERVICES_ERROR := "Cannot read services: "
  const LOCATION_STORE_ERROR := "Location store error: "

  function SelectedStoreText(storeId: string): string
  {
    "We've selected store " + storeId + ", please type search keywords"
  }

  /** The exact text commands, checked before any session lookup. */
  const GET_LOCATION_COMMAND := "get_location"
  const LOGIN_COMMAND := "login"

  /** Composers the router calls whose output format is outside this model.
      Each may answer nil (`None`). */
  datatype Composers = Composers(
    askLocation: Messaging -> Option<Response>,
    login: string -> Option<Response>,
    listBrands: (Messaging, Brands) -> Option<Response>,
    listDepartments: (string, Departments) -> Option<Response>,
    listProducts: (string, Products) -> Option<Response>,
    listServices: (string, seq<Service>) -> Option<Response>)

  /** Everything outside the router: the catalog, the store's write answers,
      the location text format, and the composers above. */
  datatype Env = Env(api: CatalogApi, write: StoreWrite, codec: LocationCodec, compose: Composers)

  datatype Crash = IndexOutOfRange | NilDereference

  /** One event's outcome: the reply (nil for none), the state afterwards and
      the catalog requests sent, in order; or a panic, before any effect. */
  datatype Step<S> = Done(reply: Option<Response>, state: S, calls: seq<CatalogCall>) | Crashed(cause: Crash)

  /** A text reply to the sender. */
  function ShowText(sender: string, text: string): Option<Response>
  {
    Some(ComposeText(sender, text))
  }

  /** The colon-separated fields of a postback token. */
  function Fields(payload: string): (data: seq<string>)
    ensures |data| >= 1
  {
    Split(payload, ':')
  }

  /** A token is too short for its kind: reading the field would panic. */
  predicate TooFewFields(data: seq<string>)
    requires |data| >= 1
  {
    || (data[0] == BRANDS && |data| < 3)
    || ((data[0] == DEPARTMENTS || data[0] == PRODUCTS || data[0] == SEARCH) && |data| < 2)
  }

  predicate IsRoutedKind(kind: string)
  {
    kind == BRANDS || kind == DEPARTMENTS || kind == PRODUCTS || kind == SEARCH
  }

  /** `postbackHandling`: dispatch on the token's first field. Only `search`
      writes, and only the sender's viewing-store key; it sends no catalog
      request. Every other kind leaves the store alone, and an unknown kind
      does nothing at all. */
  function PostbackHandling(env: Env, event: Messaging, s: Store): (r: Step<Store>)
    requires event.postBack.Some?
    ensures var data := Fields(event.postBack.value.payload);
            r.Crashed? <==> TooFewFields(data)
    ensures r.Crashed? ==> r.cause == IndexOutOfRange
    ensures r.Done? ==> |r.calls| <= 1
    ensures r.Done? ==> SameOutside(s, r.state, {Key(ViewingStoreKey, event.sender.id)})
    ensures r.Done? && Fields(event.postBack.value.payload)[0] != SEARCH ==> r.state == s
    ensures var data := Fields(event.postBack.value.payload);
            !IsRoutedKind(data[0]) ==> r == Done(None, s, [])
    // search: remember the store, confirm, request nothing
    ensures var data := Fields(event.postBack.value.payload);
            var key := Key(ViewingStoreKey, event.sender.id);
            data[0] == SEARCH && |data| >= 2 ==>
              && r.Done? && r.calls == []
              && (env.write(key, data[1]).Ok? ==>
                    r.state == s[key := data[1]] && r.reply == ShowText(event.sender.id, SelectedStoreText(data[1])))
              && (env.write(key, data[1]).Err? ==>
                    r.state == s && r.reply == ShowText(event.sender.id, VIEWING_STORE_ERROR + env.write(key, data[1]).error))
    // brands: service is field 1, page is field 2, the saved location is required
    ensures var data := Fields(event.postBack.value.payload);
            var loc := GetLocation(s, event.sender.id, env.codec);
            data[0] == BRANDS && |data| >= 3 ==>
              && r.Done?
              && (loc.None? ==> r.calls == [] && r.reply == ShowText(event.sender.id, BRAND_ERROR + NO_LOCATION))
              && (loc.Some? ==> r.calls == [BrandsCall(COUNTRY, data[2], data[1], loc.value)])
              && (loc.Some? && env.api.brands(COUNTRY, data[2], data[1], loc.value).Err? ==>
                    r.reply == ShowText(event.sender.id, BRAND_ERROR + env.api.brands(COUNTRY, data[2], data[1], loc.value).error))
              && (loc.Some? && env.api.brands(COUNTRY, data[2], data[1], loc.value).Ok? ==>
                    r.reply == env.compose.listBrands(event, env.api.brands(COUNTRY, data[2], data[1], loc.value).value))
    // departments: store is field 1, the saved location is required
    ensures var data := Fields(event.postBack.value.payload);
            var loc := GetLocation(s, event.sender.id, env.codec);
            data[0] == DEPARTMENTS && |data| >= 2 ==>
              && r.Done?
              && (loc.None? ==> r.calls == [] && r.reply == ShowText(event.sender.id, DEPARTMENT_ERROR + NO_LOCATION))
              && (loc.Some? ==> r.calls == [DepartmentsCall(data[1], loc.value)])
              && (loc.Some? && env.api.departments(data[1], loc.value).Err? ==>
                    r.reply == ShowText(event.sender.id, DEPARTMENT_ERROR + env.api.departments(data[1], loc.value).error))
              && (loc.Some? && env.api.departments(data[1], loc.value).Ok? ==>
                    r.reply == env.compose.listDepartments(event.sender.id, env.api.departments(data[1], loc.value).value))
    // products: department is field 1, the location plays no part
    ensures var data := Fields(event.postBack.value.payload);
            data[0] == PRODUCTS && |data| >= 2 ==>
              && r.Done? && r.calls == [ProductsCall(data[1])]
              && (env.api.products(data[1]).Err? ==>
                    r.reply == ShowText(event.sender.id, PRODUCT_ERROR + env.api.products(data[1]).error))
              && (env.api.products(data[1]).Ok? ==>
                    r.reply == env.compose.listProducts(event.sender.id, env.api.products(data[1]).value))
  {
    var sender := event.sender.id;
    var location := GetLocation(s, sender, env.codec);
    var data := Fields(event.postBack.value.payload);
    if data[0] == BRANDS then
      if |data| < 3 then Crashed(IndexOutOfRange)
      else
        var f := GetBrands(env.api, COUNTRY, data[2], data[1], location);
        match f.result
        case Err(e) => Done(ShowText(sender, BRAND_ERROR + e), s, f.calls)
        case Ok(brands) => Done(env.compose.listBrands(event, brands), s, f.calls)
    else if data[0] == DEPARTMENTS then
      if |data| < 2 then Crashed(IndexOutOfRange)
      else
        var f := GetDepartments(env.api, data[1], location);
        match f.result
        case Err(e) => Done(ShowText(sender, DEPARTMENT_ERROR + e), s, f.calls)
        case Ok(departments) => Done(env.compose.listDepartments(sender, departments), s, f.calls)
    else if data[0] == PRODUCTS then
      if |data| < 2 then Crashed(IndexOutOfRange)
      else
        var f := GetProducts(env.api, data[1]);
        match f.result
        case Err(e) => Done(ShowText(sender, PRODUCT_ERROR + e), s, f.calls)
        case Ok(products) => Done(env.compose.listProducts(sender, products), s, f.calls)
    else if data[0] == SEARCH then
      if |data| < 2 then Crashed(IndexOutOfRange)
      else
        var w := Set(s, env.write, Key(ViewingStoreKey, sender), data[1]);
        match w.status
        case Err(e) => Done(ShowText(sender, VIEWING_STORE_ERROR + e), w.store, [])
        case Ok(_) => Done(ShowText(sender, SelectedStoreText(data[1])), w.store, [])
    else
      Done(None, s, [])
  }

  /** An event that is neither a postback nor an account-link callback and
      whose text is not one of the two commands: it is resolved against the
      session (viewing store, then shared location). */
  predicate IsFreeText(event: Messaging)
  {
    && event.postBack.None?
    && event.accountLinking.None?
    && event.message.text != GET_LOCATION_COMMAND
    && event.message.text != LOGIN_COMMAND
  }

  /** The location a shared coordinate pair is looked up and saved as. */
  function LocationOf(c: Coordinates): Location
  {
    Location(c.lat, c.long)
  }

  /** `keywordFilters`: postback, then account link, then the two exact text
      commands, then product search in the viewing store, then a shared
      location, else no reply. */
  function KeywordFilters(env: Env, event: Messaging, s: Store): (r: Step<Store>)
    // whatever happens, only the sender's own keys can change
    ensures r.Done? ==> SameOutside(s, r.state, OwnKeys(event.sender.id))
    ensures r.Done? ==> |r.calls| <= 1
    // a postback goes to the token router; nothing else is looked at
    ensures event.postBack.Some? ==> r == PostbackHandling(env, event, s)
    // account link: save the code under the login key and echo it
    ensures event.postBack.None? && event.accountLinking.Some? ==>
              var code := event.accountLinking.value.authorizationCode;
              var key := Key(LoginKey, event.sender.id);
              && r.Done? && r.calls == []
              && (env.write(key, code).Ok? ==> r.state == s[key := code] && r.reply == ShowText(event.sender.id, code))
              && (env.write(key, code).Err? ==>
                    r.state == s && r.reply == ShowText(event.sender.id, SESSION_ERROR + env.write(key, code).error))
    // the commands win over a viewing store and over an attached location
    ensures event.postBack.None? && event.accountLinking.None? && event.message.text == GET_LOCATION_COMMAND ==>
              r == Done(env.compose.askLocation(event), s, [])
    ensures event.postBack.None? && event.accountLinking.None? && event.message.text == LOGIN_COMMAND ==>
              r == Done(env.compose.login(event.sender.id), s, [])
    // a viewing store turns any other text into a product search there,
    // whatever the event also carries
    ensures var store := GetCurrentViewingStoreID(s, event.sender.id);
            IsFreeText(event) && store != "" ==>
              var query := SearchQueryFor(event.message.text);
              && r.Done? && r.state == s && r.calls == [SearchCall(store, query)]
              && (env.api.search(store, query).Err? ==>
                    r.reply == ShowText(event.sender.id, PRODUCT_ERROR + env.api.search(store, query).error))
              && (env.api.search(store, query).Ok? ==>
                    r.reply == env.compose.listProducts(event.sender.id, env.api.search(store, query).value))
    // otherwise: a nil attachments list panics, no coordinates means no reply
    ensures IsFreeText(event) && GetCurrentViewingStoreID(s, event.sender.id) == "" ==>
              (r.Crashed? <==> event.message.attachments.None?)
    ensures IsFreeText(event) && GetCurrentViewingStoreID(s, event.sender.id) == "" && ParseLocation(event).NotFound? ==>
              r == Done(None, s, [])
    // a shared location: services first, then the save, then the listing
    ensures IsFreeText(event) && GetCurrentViewingStoreID(s, event.sender.id) == "" && ParseLocation(event).Found? ==>
              var loc := LocationOf(ParseLocation(event).coordinates);
              var key := Key(LocationKey, event.sender.id);
              var services := env.api.services(COUNTRY, loc);
              && r.Done? && r.calls == [ServicesCall(COUNTRY, loc)]
              && (services.Err? ==>
                    r.state == s && r.reply == ShowText(event.sender.id, SERVICES_ERROR + services.error))
              && (services.Ok? && env.write(key, env.codec.encode(loc)).Err? ==>
                    r.state == s
                    && r.reply == ShowText(event.sender.id, LOCATION_STORE_ERROR + env.write(key, env.codec.encode(loc)).error))
              && (services.Ok? && env.write(key, env.codec.encode(loc)).Ok? ==>
                    r.state == s[key := env.codec.encode(loc)]
                    && r.reply == env.compose.listServices(event.sender.id, services.value))
  {
    var sender := event.sender.id;
    if event.postBack.Some? then
      PostbackHandling(env, event, s)
    else if event.accountLinking.Some? then
      var code := event.accountLinking.value.authorizationCode;
      var w := Set(s, env.write, Key(LoginKey, sender), code);
      match w.status
      case Err(e) => Done(ShowText(sender, SESSION_ERROR + e), w.store, [])
      case Ok(_) => Done(ShowText(sender, code), w.store, [])
    else if event.message.text == GET_LOCATION_COMMAND then
      Done(env.compose.askLocation(event), s, [])
    else if event.message.text == LOGIN_COMMAND then
      Done(env.compose.login(sender), s, [])
    else
      var store := GetCurrentViewingStoreID(s, sender);
      if |store| != 0 then
        var f := SearchProducts(env.api, store, event.message.text);
        match f.result
        case Err(e) => Done(ShowText(sender, PRODUCT_ERROR + e), s, f.calls)
        case Ok(products) => Done(env.compose.listProducts(sender, products), s, f.calls)
      else
        match ParseLocation(event)
        case NilAttachments => Crashed(NilDereference)
        case NotFound => Done(None, s, [])
        case Found(c) =>
          var location := LocationOf(c);
          var f := GetServices(env.api, COUNTRY, Some(location));
          match f.result
          case Err(e) => Done(ShowText(sender, SERVICES_ERROR + e), s, f.calls)
          case Ok(services) =>
            var w := Set(s, env.write, Key(LocationKey, sender), env.codec.encode(location));
            match w.status
            case Err(e) => Done(ShowText(sender, LOCATION_STORE_ERROR + e), w.store, f.calls)
            case Ok(_) => Done(env.compose.listServices(sender, services), w.store, f.calls)
  }

  /** A message sent to the platform. */
  datatype Outbound = TypingOn(action: ActionResponse) | Content(response: Response)

  /** What sending one built request got back: a request that never
      completed, or the platform's decoded answer with the decoder's own
      error. A request that cannot be built panics in `respond` and is
      outside this model. */
  datatype Delivery = RequestFailed(message: string) | Answered(decoded: QueryResponse, decodeError: Option<string>)

  /** `respond`: the line logged for one send, if any. */
  function Respond(d: Delivery): (logLine: Option<string>)
    ensures d.RequestFailed? ==> logLine == Some(d.message)
    ensures d.Answered? ==> (logLine.Some? <==> d.decoded.error.Some?)
    ensures d.Answered? && d.decoded.error.Some? ==>
              logLine == Some(FACEBOOK_ERROR_PREFIX + d.decoded.error.value.message)
  {
    match d
    case RequestFailed(m) => Some(m)
    case Answered(qr, de) => CheckFacebookError(qr, de)
  }

  function LogOf(d: Delivery): seq<string>
  {
    match Respond(d)
    case None => []
    case Some(line) => [line]
  }

  /** Everything one event leads to: the messages sent, in order, the lines
      logged about their delivery, the store afterwards and the catalog
      requests; `crashed` when routing panicked. */
  datatype Processed = Processed(sent: seq<Outbound>, logs: seq<string>, store: Store,
                                 calls: seq<CatalogCall>, crashed: bool)

  /** `ProcessMessage`: the typing indicator first, then the routed reply if
      there is one. Delivery problems are only logged. */
  function ProcessMessage(env: Env, event: Messaging, s: Store, deliver: Outbound -> Delivery): (p: Processed)
    ensures 1 <= |p.sent| <= 2
    ensures p.sent[0] == TypingOn(SenderTypingAction(event))
    ensures |p.sent| == 2 <==> KeywordFilters(env, event, s).Done? && KeywordFilters(env, event, s).reply.Some?
    ensures |p.sent| == 2 ==> p.sent[1] == Content(KeywordFilters(env, event, s).reply.value)
    ensures p.crashed <==> KeywordFilters(env, event, s).Crashed?
    ensures p.crashed ==> p.store == s && p.calls == []
    ensures !p.crashed ==> p.store == KeywordFilters(env, event, s).state && p.calls == KeywordFilters(env, event, s).calls
    ensures p.logs == LogOf(deliver(p.sent[0])) + (if |p.sent| == 2 then LogOf(deliver(p.sent[1])) else [])
  {
    var typing := TypingOn(SenderTypingAction(event));
    var typingLog := LogOf(deliver(typing));
    match KeywordFilters(env, event, s)
    case Crashed(_) => Processed([typing], typingLog, s, [], true)
    case Done(None, s', calls) => Processed([typing], typingLog, s', calls, false)
    case Done(Some(response), s', calls) =>
      Processed([typing, Content(response)], typingLog + LogOf(deliver(Content(response))), s', calls, false)
  }

  /** Delivery outcomes never change what is sent, stored or requested. */
  lemma DeliveryOnlyLogs(env: Env, event: Messaging, s: Store, d1: Outbound -> Delivery, d2: Outbound -> Delivery)
    ensures var p1 := ProcessMessage(env, event, s, d1);
            var p2 := ProcessMessage(env, event, s, d2);
            p1.sent == p2.sent && p1.store == p2.store && p1.calls == p2.calls && p1.crashed == p2.crashed
  {
  }
}
