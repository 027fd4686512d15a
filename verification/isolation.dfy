/** Cross-sender isolation. In the keyed router an event reads and writes
    only its sender's keys, so events from different senders neither see nor
    disturb each other and can be handled in either order. The process-wide
    variable of main.go breaks this: one sender's `search` redirects every
    other sender's free text. */
module Isolation {
  import opened Wrappers
  import opened Honestbee
  import opened Messages
  import opened Session
  import opened Router
  import opened Events
  import opened Tokens
  import GlobalRouter

  /** Writing the same value to the same key keeps two stores in agreement. */
  lemma SameForAfterWrite(s: Store, t: Store, sender: string, key: string, value: string)
    requires SameFor(s, t, sender)
    ensures SameFor(s[key := value], t[key := value], sender)
  {
  }

  /** The token router reads only the sender's location key and writes only
      the sender's viewing-store key. */
  lemma PostbackDependsOnOwnKeys(env: Env, event: Messaging, s: Store, t: Store)
    requires event.postBack.Some?
    requires SameFor(s, t, event.sender.id)
    ensures var r := PostbackHandling(env, event, s);
            var q := PostbackHandling(env, event, t);
            && (r.Crashed? <==> q.Crashed?)
            && (r.Crashed? ==> r == q)
            && (r.Done? ==> r.reply == q.reply && r.calls == q.calls && SameFor(r.state, q.state, event.sender.id))
  {
  }

  /** An event's outcome is decided by its sender's keys alone, and it leaves
      those keys the same way whatever the other keys hold. */
  lemma {:induction false} StepDependsOnOwnKeys(env: Env, event: Messaging, s: Store, t: Store)
    requires SameFor(s, t, event.sender.id)
    ensures var r := KeywordFilters(env, event, s);
            var q := KeywordFilters(env, event, t);
            && (r.Crashed? <==> q.Crashed?)
            && (r.Crashed? ==> r == q)
            && (r.Done? ==> r.reply == q.reply && r.calls == q.calls && SameFor(r.state, q.state, event.sender.id))
  {
    var sender := event.sender.id;
    ReadsSeeOwnKeys(s, t, sender, env.codec);
    if event.postBack.Some? {
      PostbackDependsOnOwnKeys(env, event, s, t);
    } else if event.accountLinking.Some? {
      SameForAfterWrite(s, t, sender, Key(LoginKey, sender), event.accountLinking.value.authorizationCode);
    } else if IsFreeText(event) && GetCurrentViewingStoreID(s, sender) == "" && ParseLocation(event).Found? {
      var loc := LocationOf(ParseLocation(event).coordinates);
      SameForAfterWrite(s, t, sender, Key(LocationKey, sender), env.codec.encode(loc));
    }
  }

  /** Another sender's event changes nothing this sender's event can see:
      the reply, the catalog requests and whether it panics are as if the
      other event had not happened. */
  lemma {:induction false} OtherSenderInvisible(env: Env, a: Messaging, b: Messaging, s: Store)
    requires a.sender.id != b.sender.id
    requires KeywordFilters(env, a, s).Done?
    ensures var after := KeywordFilters(env, b, KeywordFilters(env, a, s).state);
            var alone := KeywordFilters(env, b, s);
            && (after.Crashed? <==> alone.Crashed?)
            && (after.Done? ==> after.reply == alone.reply && after.calls == alone.calls)
  {
    var sa := KeywordFilters(env, a, s).state;
    OwnKeysSeparate(a.sender.id, b.sender.id);
    assert SameFor(s, sa, b.sender.id);
    StepDependsOnOwnKeys(env, b, s, sa);
  }

  /** Events from different senders commute: either order gives the same
      replies, requests and final store. */
  lemma {:induction false} DifferentSendersCommute(env: Env, a: Messaging, b: Messaging, s: Store)
    requires a.sender.id != b.sender.id
    requires KeywordFilters(env, a, s).Done? && KeywordFilters(env, b, s).Done?
    ensures var sa := KeywordFilters(env, a, s).state;
            var sb := KeywordFilters(env, b, s).state;
            && KeywordFilters(env, b, sa).Done? && KeywordFilters(env, a, sb).Done?
            && KeywordFilters(env, b, sa).reply == KeywordFilters(env, b, s).reply
            && KeywordFilters(env, a, sb).reply == KeywordFilters(env, a, s).reply
            && KeywordFilters(env, b, sa).state == KeywordFilters(env, a, sb).state
  {
    var A, B := a.sender.id, b.sender.id;
    var sa := KeywordFilters(env, a, s).state;
    var sb := KeywordFilters(env, b, s).state;
    OwnKeysSeparate(A, B);
    assert SameFor(s, sa, B);
    assert SameFor(s, sb, A);
    StepDependsOnOwnKeys(env, b, s, sa);
    StepDependsOnOwnKeys(env, a, s, sb);
    var sab := KeywordFilters(env, b, sa).state;
    var sba := KeywordFilters(env, a, sb).state;
    assert SameOutside(sa, sab, OwnKeys(B));
    assert SameOutside(sb, sba, OwnKeys(A));
    forall k ensures (k in sab <==> k in sba) && (k in sab ==> sab[k] == sba[k]) {
      if k in OwnKeys(B) {
        assert k !in OwnKeys(A);
      } else if k in OwnKeys(A) {
      } else {
      }
    }
    assert sab.Keys == sba.Keys;
  }

  /** A `search` click choosing store `storeId`. */
  function SearchClick(sender: string, storeId: string): Messaging
  {
    PostbackEvent(sender, EncodeToken(SEARCH, [storeId]))
  }

  lemma SearchClickFields(storeId: string)
    requires ':' !in storeId
    ensures Fields(EncodeToken(SEARCH, [storeId])) == [SEARCH, storeId]
  {
    assert [SEARCH] + [storeId] == [SEARCH, storeId];
    FieldsOfToken(SEARCH, [storeId]);
  }

  /** With the shared variable, one sender's store choice sends another
      sender's text to that store's search. Alone, that text gets no reply
      when it carries an empty attachments list, and panics when it carries
      none; after the choice it is searched either way. */
  lemma GlobalStoreBleeds(env: Env, composers: GlobalRouter.MainComposers)
    ensures var w0 := GlobalRouter.World(map[], "");
            var first := GlobalRouter.KeywordFilters(env, composers, SearchClick("alice", "11150"), w0);
            && first.Done?
            && GlobalRouter.KeywordFilters(env, composers, TextEvent("bob", "Apple"), w0) == Done(None, w0, [])
            && GlobalRouter.KeywordFilters(env, composers, BareTextEvent("bob", "Apple"), w0) == Crashed(NilDereference)
            && GlobalRouter.KeywordFilters(env, composers, TextEvent("bob", "Apple"), first.state).calls
               == [SearchCall("11150", SearchQueryFor("Apple"))]
            && GlobalRouter.KeywordFilters(env, composers, BareTextEvent("bob", "Apple"), first.state).calls
               == [SearchCall("11150", SearchQueryFor("Apple"))]
  {
    SearchClickFields("11150");
  }

  /** The same events in the keyed router: the other sender's text is
      unaffected by the first sender's store choice. With an empty
      attachments list it gets no request and no reply; with none it panics,
      exactly as it would alone. */
  lemma KeyedStoreStaysWithSender(env: Env)
    ensures var first := KeywordFilters(env, SearchClick("alice", "11150"), map[]);
            && first.Done?
            && KeywordFilters(env, TextEvent("bob", "Apple"), map[]) == Done(None, map[], [])
            && KeywordFilters(env, TextEvent("bob", "Apple"), first.state) == Done(None, first.state, [])
            && KeywordFilters(env, BareTextEvent("bob", "Apple"), map[]) == Crashed(NilDereference)
            && KeywordFilters(env, BareTextEvent("bob", "Apple"), first.state) == Crashed(NilDereference)
  {
  }
}
