/** The per-sender session kept in the key-value store (facebook/handler.go):
    three independent string keys per sender, each a fixed prefix followed by
    the sender id. Reads are map lookups; writes go through an oracle that may
    refuse them with an error text. */
module Session {
  import opened Wrappers
  import opened Honestbee

  type Store = map<string, string>

  /** The store's answer to `SET key value`: success or the error's text. */
  type StoreWrite = (string, string) -> Result<(), string>

  /** How a location is written to and read back from its key. The text format
      (`%f` formatting of float32 values) is not modelled; `decode` answers
      `None` where the stored text decodes to JSON null. */
  datatype LocationCodec = LocationCodec(encode: Location -> string, decode: string -> Option<Location>)

  datatype KeyKind = LocationKey | ViewingStoreKey | LoginKey

  function Prefix(kind: KeyKind): string
  {
    match kind
    case LocationKey => "location_"
    case ViewingStoreKey => "viewing_store_"
    case LoginKey => "login_"
  }

  /** The store key of one kind of session state for one sender. */
  function Key(kind: KeyKind, sender: string): (k: string)
    ensures |k| == |Prefix(kind)| + |sender|
    ensures k[..|Prefix(kind)|] == Prefix(kind)
    ensures k[|Prefix(kind)|..] == sender
  {
    Prefix(kind) + sender
  }

  /** No two (kind, sender) pairs share a key: the prefixes differ before
      either ends, and a common prefix leaves the sender ids equal. */
  lemma KeyInjective(k1: KeyKind, a: string, k2: KeyKind, b: string)
    requires Key(k1, a) == Key(k2, b)
    ensures k1 == k2 && a == b
  {
    var key := Key(k1, a);
    assert key == Key(k2, b);
    assert key[0] == Prefix(k1)[0] == Prefix(k2)[0];
    assert key[2] == Prefix(k1)[2] == Prefix(k2)[2];
    assert a == key[|Prefix(k1)|..] == b;
  }

  /** Every key that belongs to a sender. */
  function OwnKeys(sender: string): (keys: set<string>)
    ensures forall kind: KeyKind :: Key(kind, sender) in keys
    ensures |keys| == 3
  {
    var keys := {Key(LocationKey, sender), Key(ViewingStoreKey, sender), Key(LoginKey, sender)};
    assert Key(LocationKey, sender) != Key(ViewingStoreKey, sender) by {
      if Key(LocationKey, sender) == Key(ViewingStoreKey, sender) { KeyInjective(LocationKey, sender, ViewingStoreKey, sender); }
    }
    assert Key(LocationKey, sender) != Key(LoginKey, sender) by {
      if Key(LocationKey, sender) == Key(LoginKey, sender) { KeyInjective(LocationKey, sender, LoginKey, sender); }
    }
    assert Key(ViewingStoreKey, sender) != Key(LoginKey, sender) by {
      if Key(ViewingStoreKey, sender) == Key(LoginKey, sender) { KeyInjective(ViewingStoreKey, sender, LoginKey, sender); }
    }
    keys
  }

  /** A different sender's keys are never among one sender's own keys. */
  lemma OwnKeysDisjoint(a: string, b: string, kind: KeyKind)
    requires a != b
    ensures Key(kind, b) !in OwnKeys(a)
  {
    if Key(kind, b) == Key(LocationKey, a) { KeyInjective(kind, b, LocationKey, a); }
    if Key(kind, b) == Key(ViewingStoreKey, a) { KeyInjective(kind, b, ViewingStoreKey, a); }
    if Key(kind, b) == Key(LoginKey, a) { KeyInjective(kind, b, LoginKey, a); }
  }

  /** `getCurrentViewingStoreID`: the stored store id, or "" when unset. */
  function GetCurrentViewingStoreID(s: Store, sender: string): (id: string)
    ensures Key(ViewingStoreKey, sender) in s ==> id == s[Key(ViewingStoreKey, sender)]
    ensures Key(ViewingStoreKey, sender) !in s ==> id == ""
  {
    var key := Key(ViewingStoreKey, sender);
    if key in s then s[key] else ""
  }

  /** `getLocation`: the decoded stored location, or none when unset. */
  function GetLocation(s: Store, sender: string, codec: LocationCodec): (loc: Option<Location>)
    ensures Key(LocationKey, sender) !in s ==> loc.None?
    ensures Key(LocationKey, sender) in s ==> loc == codec.decode(s[Key(LocationKey, sender)])
  {
    var key := Key(LocationKey, sender);
    if key in s then codec.decode(s[key]) else None
  }

  /** The store after a write attempt, and the attempt's status. */
  datatype Written = Written(status: Result<(), string>, store: Store)

  /** `SET key value`: on success the key holds the value; on failure nothing
      changes. No other key is touched either way. */
  function Set(s: Store, write: StoreWrite, key: string, value: string): (w: Written)
    ensures w.status == write(key, value)
    ensures w.status.Ok? ==> key in w.store && w.store[key] == value
    ensures w.status.Err? ==> w.store == s
    ensures w.store.Keys <= s.Keys + {key}
    ensures forall k | k in s && k != key :: k in w.store && w.store[k] == s[k]
  {
    var status := write(key, value);
    Written(status, if status.Ok? then s[key := value] else s)
  }

  /** Two stores agree on everything outside `keys`. */
  ghost predicate SameOutside(s: Store, t: Store, keys: set<string>)
  {
    forall k | k !in keys :: (k in s <==> k in t) && (k in s ==> s[k] == t[k])
  }

  /** Two stores agree on every key in `keys`. */
  ghost predicate SameOn(s: Store, t: Store, keys: set<string>)
  {
    forall k | k in keys :: (k in s <==> k in t) && (k in s ==> s[k] == t[k])
  }

  /** Two stores agree on one sender's three keys. */
  ghost predicate SameFor(s: Store, t: Store, sender: string)
  {
    SameOn(s, t, OwnKeys(sender))
  }

  /** Two senders' keys never overlap. */
  lemma OwnKeysSeparate(a: string, b: string)
    requires a != b
    ensures OwnKeys(a) !! OwnKeys(b)
  {
    OwnKeysDisjoint(a, b, LocationKey);
    OwnKeysDisjoint(a, b, ViewingStoreKey);
    OwnKeysDisjoint(a, b, LoginKey);
  }

  /** A sender's reads see only that sender's keys. */
  lemma ReadsSeeOwnKeys(s: Store, t: Store, sender: string, codec: LocationCodec)
    requires SameFor(s, t, sender)
    ensures GetCurrentViewingStoreID(s, sender) == GetCurrentViewingStoreID(t, sender)
    ensures GetLocation(s, sender, codec) == GetLocation(t, sender, codec)
  {
  }
}
