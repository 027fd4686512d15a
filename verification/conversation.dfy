/** Two-event conversations of one sender: what one event leaves in the
    session is what the next one acts on. */
module Conversation {
  import opened Wrappers
  import opened Honestbee
  import opened Messages
  import opened Session
  import opened Router
  import opened Events
  import opened Tokens

  /** Choosing a store and then typing searches that store for the text. */
  lemma StoreChoiceScopesSearch(env: Env, sender: string, s: Store, storeId: string, text: string)
    requires storeId != "" && ColonFree([SEARCH, storeId])
    requires env.write(Key(ViewingStoreKey, sender), storeId).Ok?
    requires text != GET_LOCATION_COMMAND && text != LOGIN_COMMAND
    ensures var first := KeywordFilters(env, PostbackEvent(sender, EncodeToken(SEARCH, [storeId])), s);
            && first.Done?
            && KeywordFilters(env, TextEvent(sender, text), first.state)
               == Done(match env.api.search(storeId, SearchQueryFor(text))
                       case Ok(products) => env.compose.listProducts(sender, products)
                       case Err(e) => Some(ComposeText(sender, PRODUCT_ERROR + e)),
                       first.state, [SearchCall(storeId, SearchQueryFor(text))])
  {
    assert [storeId] + [] == [storeId];
    SearchTokenSelectsStore(env, sender, s, storeId, []);
  }

  /** Sharing a location that the catalog serves saves it, and a later
      `brands` click asks for brands at that same location, provided the
      stored text reads back as the location it was written from. */
  lemma SharedLocationScopesBrands(env: Env, sender: string, s: Store, c: Coordinates, service: string, page: string)
    requires GetCurrentViewingStoreID(s, sender) == ""
    requires ColonFree([BRANDS, service, page])
    requires env.api.services(COUNTRY, LocationOf(c)).Ok?
    requires env.write(Key(LocationKey, sender), env.codec.encode(LocationOf(c))).Ok?
    requires env.codec.decode(env.codec.encode(LocationOf(c))) == Some(LocationOf(c))
    ensures var first := KeywordFilters(env, LocationEvent(sender, c), s);
            && first.Done?
            && first.calls == [ServicesCall(COUNTRY, LocationOf(c))]
            && GetLocation(first.state, sender, env.codec) == Some(LocationOf(c))
            && KeywordFilters(env, PostbackEvent(sender, EncodeToken(BRANDS, [service, page])), first.state).Done?
            && KeywordFilters(env, PostbackEvent(sender, EncodeToken(BRANDS, [service, page])), first.state).calls
               == [BrandsCall(COUNTRY, page, service, LocationOf(c))]
  {
    var e := LocationEvent(sender, c);
    assert FirstCoordinates(e.message.attachments.value) == Some(c);
    var first := KeywordFilters(env, e, s);
    BrandsTokenReadsPositionally(env, sender, first.state, service, page);
  }

  /** Without a saved location a `brands` click sends nothing and says why. */
  lemma BrandsWithoutLocation(env: Env, sender: string, s: Store, service: string, page: string)
    requires ColonFree([BRANDS, service, page])
    requires Key(LocationKey, sender) !in s
    ensures KeywordFilters(env, PostbackEvent(sender, EncodeToken(BRANDS, [service, page])), s)
            == Done(Some(ComposeText(sender, "No brand served in your location: No location provided")), s, [])
  {
    assert [BRANDS] + [service, page] == [BRANDS, service, page];
    FieldsOfToken(BRANDS, [service, page]);
    assert BRAND_ERROR + NO_LOCATION == "No brand served in your location: No location provided";
  }
}
