/** Action tokens as the buttons write them, `kind:arg1[:arg2]`, and what the
    router does with each kind once the token is split back into fields. */
module Tokens {
  import opened Wrappers
  import opened GoStrings
  import opened Honestbee
  import opened Messages
  import opened Session
  import opened Router
  import opened Events

  predicate ColonFree(fields: seq<string>)
  {
    forall i | 0 <= i < |fields| :: ':' !in fields[i]
  }

  /** The token a button carries for `kind` and its arguments. */
  function EncodeToken(kind: string, args: seq<string>): string
  {
    Join([kind] + args, ':')
  }

  /** Decoding a token gives back its kind and arguments in place. */
  lemma FieldsOfToken(kind: string, args: seq<string>)
    requires ColonFree([kind] + args)
    ensures Fields(EncodeToken(kind, args)) == [kind] + args
  {
    SplitJoin([kind] + args, ':');
  }

  /** `search:<id>` remembers field 1 as the sender's viewing store and
      confirms it, without a catalog request; fields after it are ignored. */
  lemma SearchTokenSelectsStore(env: Env, sender: string, s: Store, storeId: string, extra: seq<string>)
    requires ColonFree([SEARCH, storeId] + extra)
    ensures var r := KeywordFilters(env, PostbackEvent(sender, EncodeToken(SEARCH, [storeId] + extra)), s);
            var key := Key(ViewingStoreKey, sender);
            && r.Done? && r.calls == []
            && (env.write(key, storeId).Ok? ==>
                  && r.state == s[key := storeId]
                  && GetCurrentViewingStoreID(r.state, sender) == storeId
                  && r.reply == Some(ComposeText(sender, "We've selected store " + storeId + ", please type search keywords")))
            && (env.write(key, storeId).Err? ==> r.state == s)
  {
    assert [SEARCH] + ([storeId] + extra) == [SEARCH, storeId] + extra;
    FieldsOfToken(SEARCH, [storeId] + extra);
  }

  /** `brands:<service>:<page>` asks for that page of that service at the
      sender's saved location. */
  lemma BrandsTokenReadsPositionally(env: Env, sender: string, s: Store, service: string, page: string)
    requires ColonFree([BRANDS, service, page])
    requires GetLocation(s, sender, env.codec).Some?
    ensures var r := KeywordFilters(env, PostbackEvent(sender, EncodeToken(BRANDS, [service, page])), s);
            && r.Done? && r.state == s
            && r.calls == [BrandsCall("TW", page, service, GetLocation(s, sender, env.codec).value)]
  {
    assert [BRANDS] + [service, page] == [BRANDS, service, page];
    FieldsOfToken(BRANDS, [service, page]);
  }

  /** `products:<department>` does the same whatever location is saved. */
  lemma ProductsTokenIgnoresLocation(env: Env, sender: string, s: Store, departmentId: string)
    requires ColonFree([PRODUCTS, departmentId])
    ensures var r := KeywordFilters(env, PostbackEvent(sender, EncodeToken(PRODUCTS, [departmentId])), s);
            var bare := KeywordFilters(env, PostbackEvent(sender, EncodeToken(PRODUCTS, [departmentId])), map[]);
            && r.Done? && r.state == s && r.calls == [ProductsCall(departmentId)]
            && r.reply == bare.reply && r.calls == bare.calls
  {
    assert [PRODUCTS] + [departmentId] == [PRODUCTS, departmentId];
    FieldsOfToken(PRODUCTS, [departmentId]);
  }

  /** An unknown kind such as `foo:bar` is inert: no reply, no request, no
      write. One instance of the general clause of `Router.PostbackHandling`
      that any kind outside the four routed ones gives `Done(None, s, [])`. */
  lemma UnknownTokenIsInert(env: Env, sender: string, s: Store)
    ensures KeywordFilters(env, PostbackEvent(sender, "foo:bar"), s) == Done(None, s, [])
  {
  }

  /** A token with too few fields panics instead of being ignored. One
      instance of the general clause of `Router.PostbackHandling` that a
      panic happens exactly when `TooFewFields` holds. */
  lemma ShortSearchTokenPanics(env: Env, sender: string, s: Store)
    ensures KeywordFilters(env, PostbackEvent(sender, SEARCH), s) == Crashed(IndexOutOfRange)
  {
  }
}
