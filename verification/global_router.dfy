/** The earlier router of main.go. It routes with the same priority as the
    keyed router but keeps the store being browsed in one process-wide
    variable, `currentQueryStoreID`, shared by every sender. It also calls the
    message.go composers directly where the keyed router calls composers
    outside this model. */
module GlobalRouter {
  import opened Wrappers
  import opened Honestbee
  import opened Messages
  import opened Session
  import opened Router

  /** The list composers main.go calls whose source is outside this model.
      They are other functions than the keyed router's `ListDepartments` and
      `ListProducts`, so they are separate oracles. (`Login` is the same
      package function in both routers and stays in `Composers`.) */
  datatype MainComposers = MainComposers(
    departmentList: (string, Departments) -> Option<Response>,
    productList: (string, Products) -> Option<Response>)

  /** The store plus the process-wide current store id. */
  datatype World = World(store: Store, currentQueryStoreID: string)

  /** `postbackHandling` of main.go: `search` overwrites the shared variable
      and cannot fail; nothing ever touches the store. */
  function PostbackHandling(env: Env, composers: MainComposers, event: Messaging, w: World): (r: Step<World>)
    requires event.postBack.Some?
    ensures var data := Fields(event.postBack.value.payload);
            r.Crashed? <==> TooFewFields(data)
    ensures r.Done? ==> r.state.store == w.store && |r.calls| <= 1
    ensures r.Done? && Fields(event.postBack.value.payload)[0] != SEARCH ==> r.state == w
    ensures var data := Fields(event.postBack.value.payload);
            !IsRoutedKind(data[0]) ==> r == Done(None, w, [])
    ensures var data := Fields(event.postBack.value.payload);
            data[0] == SEARCH && |data| >= 2 ==>
              r == Done(ShowText(event.sender.id, SelectedStoreText(data[1])), w.(currentQueryStoreID := data[1]), [])
    // brands: service is field 1, page is field 2, the saved location is required;
    // a served answer gets the fixed brand list
    ensures var data := Fields(event.postBack.value.payload);
            var loc := GetLocation(w.store, event.sender.id, env.codec);
            data[0] == BRANDS && |data| >= 3 ==>
              && r.Done?
              && (loc.None? ==> r.calls == [] && r.reply == ShowText(event.sender.id, BRAND_ERROR + NO_LOCATION))
              && (loc.Some? ==> r.calls == [BrandsCall(COUNTRY, data[2], data[1], loc.value)])
              && (loc.Some? && env.api.brands(COUNTRY, data[2], data[1], loc.value).Err? ==>
                    r.reply == ShowText(event.sender.id, BRAND_ERROR + env.api.brands(COUNTRY, data[2], data[1], loc.value).error))
              && (loc.Some? && env.api.brands(COUNTRY, data[2], data[1], loc.value).Ok? ==>
                    r.reply == Some(ComposeBrandList(event)))
    // departments: store is field 1, the saved location is required
    ensures var data := Fields(event.postBack.value.payload);
            var loc := GetLocation(w.store, event.sender.id, env.codec);
            data[0] == DEPARTMENTS && |data| >= 2 ==>
              && r.Done?
              && (loc.None? ==> r.calls == [] && r.reply == ShowText(event.sender.id, DEPARTMENT_ERROR + NO_LOCATION))
              && (loc.Some? ==> r.calls == [DepartmentsCall(data[1], loc.value)])
              && (loc.Some? && env.api.departments(data[1], loc.value).Err? ==>
                    r.reply == ShowText(event.sender.id, DEPARTMENT_ERROR + env.api.departments(data[1], loc.value).error))
              && (loc.Some? && env.api.departments(data[1], loc.value).Ok? ==>
                    r.reply == composers.departmentList(event.sender.id, env.api.departments(data[1], loc.value).value))
    // products: department is field 1, the location plays no part
    ensures var data := Fields(event.postBack.value.payload);
            data[0] == PRODUCTS && |data| >= 2 ==>
              && r.Done? && r.calls == [ProductsCall(data[1])]
              && (env.api.products(data[1]).Err? ==>
                    r.reply == ShowText(event.sender.id, PRODUCT_ERROR + env.api.products(data[1]).error))
              && (env.api.products(data[1]).Ok? ==>
                    r.reply == composers.productList(event.sender.id, env.api.products(data[1]).value))
  {
    var sender := event.sender.id;
    var location := GetLocation(w.store, sender, env.codec);
    var data := Fields(event.postBack.value.payload);
    if data[0] == BRANDS then
      if |data| < 3 then Crashed(IndexOutOfRange)
      else
        var f := GetBrands(env.api, COUNTRY, data[2], data[1], location);
        match f.result
        case Err(e) => Done(ShowText(sender, BRAND_ERROR + e), w, f.calls)
        case Ok(_) => Done(Some(ComposeBrandList(event)), w, f.calls)
    else if data[0] == DEPARTMENTS then
      if |data| < 2 then Crashed(IndexOutOfRange)
      else
        var f := GetDepartments(env.api, data[1], location);
        match f.result
        case Err(e) => Done(ShowText(sender, DEPARTMENT_ERROR + e), w, f.calls)
        case Ok(departments) => Done(composers.departmentList(sender, departments), w, f.calls)
    else if data[0] == PRODUCTS then
      if |data| < 2 then Crashed(IndexOutOfRange)
      else
        var f := GetProducts(env.api, data[1]);
        match f.result
        case Err(e) => Done(ShowText(sender, PRODUCT_ERROR + e), w, f.calls)
        case Ok(products) => Done(composers.productList(sender, products), w, f.calls)
    else if data[0] == SEARCH then
      if |data| < 2 then Crashed(IndexOutOfRange)
      else Done(ShowText(sender, SelectedStoreText(data[1])), w.(currentQueryStoreID := data[1]), [])
    else
      Done(None, w, [])
  }

  /** `keywordFilters` of main.go: once the shared variable is set, free text
      from any sender searches that store. */
  function KeywordFilters(env: Env, composers: MainComposers, event: Messaging, w: World): (r: Step<World>)
    ensures event.postBack.Some? ==> r == PostbackHandling(env, composers, event, w)
    ensures r.Done? && event.postBack.None? ==> r.state.currentQueryStoreID == w.currentQueryStoreID
    ensures r.Done? ==> SameOutside(w.store, r.state.store, OwnKeys(event.sender.id))
    // account link comes before the commands: save the code under the login key and echo it
    ensures event.postBack.None? && event.accountLinking.Some? ==>
              var code := event.accountLinking.value.authorizationCode;
              var key := Key(LoginKey, event.sender.id);
              && r.Done? && r.calls == [] && r.state.currentQueryStoreID == w.currentQueryStoreID
              && (env.write(key, code).Ok? ==>
                    r.state.store == w.store[key := code] && r.reply == ShowText(event.sender.id, code))
              && (env.write(key, code).Err? ==>
                    r.state.store == w.store
                    && r.reply == ShowText(event.sender.id, SESSION_ERROR + env.write(key, code).error))
    ensures event.postBack.None? && event.accountLinking.None? && event.message.text == GET_LOCATION_COMMAND ==>
              r == Done(Some(ComposeLocation(event)), w, [])
    ensures event.postBack.None? && event.accountLinking.None? && event.message.text == LOGIN_COMMAND ==>
              r == Done(env.compose.login(event.sender.id), w, [])
    ensures IsFreeText(event) && w.currentQueryStoreID != "" ==>
              var query := SearchQueryFor(event.message.text);
              var found := env.api.search(w.currentQueryStoreID, query);
              && r.Done? && r.state == w
              && r.calls == [SearchCall(w.currentQueryStoreID, query)]
              && (found.Err? ==> r.reply == ShowText(event.sender.id, PRODUCT_ERROR + found.error))
              && (found.Ok? ==> r.reply == composers.productList(event.sender.id, found.value))
    ensures IsFreeText(event) && w.currentQueryStoreID == "" && ParseLocation(event).NotFound? ==>
              r == Done(None, w, [])
    ensures IsFreeText(event) && w.currentQueryStoreID == "" ==>
              (r.Crashed? <==> event.message.attachments.None?)
    ensures IsFreeText(event) && w.currentQueryStoreID == "" && ParseLocation(event).Found? ==>
              var loc := LocationOf(ParseLocation(event).coordinates);
              var services := env.api.services(COUNTRY, loc);
              var key := Key(LocationKey, event.sender.id);
              && r.Done? && r.calls == [ServicesCall(COUNTRY, loc)]
              && r.state.currentQueryStoreID == w.currentQueryStoreID
              && (services.Err? ==>
                    r.state == w && r.reply == ShowText(event.sender.id, SERVICES_ERROR + services.error))
              && (services.Ok? && env.write(key, env.codec.encode(loc)).Err? ==>
                    r.state == w
                    && r.reply == ShowText(event.sender.id, LOCATION_STORE_ERROR + env.write(key, env.codec.encode(loc)).error))
              && (services.Ok? && env.write(key, env.codec.encode(loc)).Ok? ==>
                    r.state.store == w.store[key := env.codec.encode(loc)]
                    && r.reply == Some(ComposeServicesButton(event.sender.id, services.value)))
  {
    var sender := event.sender.id;
    if event.postBack.Some? then
      PostbackHandling(env, composers, event, w)
    else if event.accountLinking.Some? then
      var code := event.accountLinking.value.authorizationCode;
      var written := Set(w.store, env.write, Key(LoginKey, sender), code);
      match written.status
      case Err(e) => Done(ShowText(sender, SESSION_ERROR + e), w.(store := written.store), [])
      case Ok(_) => Done(ShowText(sender, code), w.(store := written.store), [])
    else if event.message.text == GET_LOCATION_COMMAND then
      Done(Some(ComposeLocation(event)), w, [])
    else if event.message.text == LOGIN_COMMAND then
      Done(env.compose.login(sender), w, [])
    else if |w.currentQueryStoreID| != 0 then
      var f := SearchProducts(env.api, w.currentQueryStoreID, event.message.text);
      match f.result
      case Err(e) => Done(ShowText(sender, PRODUCT_ERROR + e), w, f.calls)
      case Ok(products) => Done(composers.productList(sender, products), w, f.calls)
    else
      match ParseLocation(event)
      case NilAttachments => Crashed(NilDereference)
      case NotFound => Done(None, w, [])
      case Found(c) =>
        var location := LocationOf(c);
        var f := GetServices(env.api, COUNTRY, Some(location));
        match f.result
        case Err(e) => Done(ShowText(sender, SERVICES_ERROR + e), w, f.calls)
        case Ok(services) =>
          var written := Set(w.store, env.write, Key(LocationKey, sender), env.codec.encode(location));
          match written.status
          case Err(e) => Done(ShowText(sender, LOCATION_STORE_ERROR + e), w.(store := written.store), f.calls)
          case Ok(_) => Done(Some(ComposeServicesButton(sender, services)), w.(store := written.store), f.calls)
  }

  /** Same priority as the keyed router: when the shared variable holds what
      the sender's viewing-store key holds, both send the same catalog
      requests, panic on the same events, and leave the same store behind
      except after a `search` click (which main.go does not save). */
  lemma SamePriorityAsKeyed(env: Env, composers: MainComposers, event: Messaging, s: Store)
    ensures var keyed := Router.KeywordFilters(env, event, s);
            var global := KeywordFilters(env, composers, event, World(s, GetCurrentViewingStoreID(s, event.sender.id)));
            && (keyed.Crashed? <==> global.Crashed?)
            && (keyed.Done? ==> keyed.calls == global.calls)
            && (keyed.Done? && (event.postBack.None? || Fields(event.postBack.value.payload)[0] != SEARCH) ==>
                  keyed.state == global.state.store)
  {
  }
}
