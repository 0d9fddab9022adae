/**
 * Properties that relate several key-chain operations: round trips, update without
 * duplication, idempotent delete, delete-then-get, isolation of services and keys, and
 * the concrete per-key life cycle Absent -> Present -> Present -> Absent.
 */
module KeyChainProperties {
  import opened Foundation
  import opened KeyChainStore
  import opened SecItem
  import opened KeyChainManager
  import Utf8
  import Json

  /** A key chain with no records and no injected failures. */
  function EmptyStore(): Store {
    Store(map[], map[])
  }

  /**
   * Setting `a` and then `b` under the same key updates the record in place: the second
   * write probes and calls `SecItemUpdate`, never `SecItemAdd`, leaves exactly one record
   * at the address, holding `b`, and the string `get` then returns `b`.
   */
  lemma SecondSetUpdatesInPlace(s: Store, q: Query, a: string, b: string)
    requires StoreString(s, q, a).outcome == Done
    requires ItemUpdate !in s.faults
    ensures var w := StoreString(StoreString(s, q, a).store, q, b);
            && w.outcome == Done
            && w.calls == [Call(ItemCopyMatching, q), Call(ItemUpdate, q)]
            && w.store.items == s.items[q := Some(Utf8.Encode(b))]
            && FetchString(w.store, q) == Ok(Some(b))
  {
    var s1 := StoreString(s, q, a).store;
    assert s1 == s.(items := s.items[q := Some(Utf8.Encode(a))]);
    assert FetchString(s1, q) == Ok(Some(a));
    assert HoldsString(s1, q);
    assert q in s1.items && ItemUpdate !in s1.faults && ItemCopyMatching !in s1.faults;
  }

  /**
   * A write on one address leaves every other address as it was: other keys of the same
   * service and every key of another service read the same before and after.
   */
  lemma WritesStayAtTheirAddress(s: Store, q: Query, other: Query, data: Bytes)
    requires other != q
    ensures FetchData(Upsert(s, q, data).store, other) == FetchData(s, other)
    ensures FetchData(Remove(s, q).store, other) == FetchData(s, other)
  {
  }

  /** Two managers of different services never address the same record. */
  lemma ServicesAreSeparate(m1: Manager, m2: Manager, key1: string, key2: string)
    requires m1.service != m2.service || key1 != key2
    ensures m1.CreateQuery(key1) != m2.CreateQuery(key2)
  {
  }

  /**
   * Deleting is idempotent: on a key chain whose delete works, deleting succeeds whether
   * or not the record exists, and a second delete succeeds and changes nothing.
   */
  lemma DeleteIsIdempotent(s: Store, q: Query)
    requires ItemDelete !in s.faults
    ensures Remove(s, q).outcome == Done
    ensures var s1 := Remove(s, q).store;
            Remove(s1, q) == Write(s1, [Call(ItemDelete, q)], Done)
  {
  }

  /** After a successful delete, both `get`s fail with `ItemNotFound` unless the lookup itself fails. */
  lemma GetAfterDeleteIsNotFound<T>(s: Store, q: Query, codec: Json.Codec<T>)
    requires Remove(s, q).outcome == Done
    requires ItemCopyMatching !in s.faults
    ensures FetchString(Remove(s, q).store, q) == Err(ItemNotFound)
    ensures FetchTyped(Remove(s, q).store, q, codec) == Err(ItemNotFound)
  {
  }

  /**
   * A record the string probe cannot read (no payload, or bytes that are not UTF-8)
   * blocks every write to its key: `set` fails with `Unhandled` after the probe alone and
   * the record keeps its old contents.
   */
  lemma UnreadableRecordBlocksSet(s: Store, q: Query, data: Bytes)
    requires ItemCopyMatching !in s.faults
    requires q in s.items && !HoldsString(s, q)
    ensures Upsert(s, q, data) == Write(s, [Call(ItemCopyMatching, q)], Failed(Unhandled))
  {
  }

  /** On a key chain that works, setting a string always succeeds unless the record there is unreadable. */
  lemma SetSucceedsOnHealthyKeychain(s: Store, q: Query, value: string)
    requires s.faults == map[]
    requires q in s.items ==> HoldsString(s, q)
    ensures StoreString(s, q, value).outcome == Done
  {
  }

  /**
   * The life cycle of one key on an empty key chain, for service "some.service" and key
   * "someKey2": set "someValue" and read it back, overwrite with "anotherValue" and read
   * that back, delete and find nothing.
   */
  lemma StringLifeCycle()
    ensures var q := Query("some.service", "someKey2");
            var w1 := StoreString(EmptyStore(), q, "someValue");
            var w2 := StoreString(w1.store, q, "anotherValue");
            var w3 := Remove(w2.store, q);
            && w1.outcome == Done && FetchString(w1.store, q) == Ok(Some("someValue"))
            && w2.outcome == Done && FetchString(w2.store, q) == Ok(Some("anotherValue"))
            && w3.outcome == Done && FetchString(w3.store, q) == Err(ItemNotFound)
  {
    var q := Query("some.service", "someKey2");
    SetSucceedsOnHealthyKeychain(EmptyStore(), q, "someValue");
    SecondSetUpdatesInPlace(EmptyStore(), q, "someValue", "anotherValue");
  }

  /**
   * The typed counterpart of `SecondSetUpdatesInPlace`. The probe of the second write is
   * the string `get`, so it finds the first value only because the encoder emits UTF-8.
   */
  lemma SecondTypedSetUpdatesInPlace<T(!new)>(s: Store, q: Query, a: T, b: T, codec: Json.Codec<T>)
    requires Json.RoundTrips(codec) && Json.EmitsUtf8(codec)
    requires StoreTyped(s, q, a, codec).outcome == Done
    requires codec.encode(b).Some? && ItemUpdate !in s.faults
    ensures var w := StoreTyped(StoreTyped(s, q, a, codec).store, q, b, codec);
            && w.outcome == Done
            && w.calls == [Call(ItemCopyMatching, q), Call(ItemUpdate, q)]
            && w.store.items == s.items[q := Some(codec.encode(b).value)]
            && FetchTyped(w.store, q, codec) == Ok(b)
  {
    var s1 := StoreTyped(s, q, a, codec).store;
    assert s1 == s.(items := s.items[q := Some(codec.encode(a).value)]);
    assert HoldsString(s1, q);
    assert q in s1.items && ItemUpdate !in s1.faults && ItemCopyMatching !in s1.faults;
  }

  /** The typed life cycle: the integer 100 is stored and read back, then updated to 101. */
  lemma IntegerLifeCycle()
    ensures var q := Query("some.service", "someKey");
            var w1 := StoreTyped(EmptyStore(), q, 100, Json.IntCodec());
            var w2 := StoreTyped(w1.store, q, 101, Json.IntCodec());
            && w1.outcome == Done && FetchTyped(w1.store, q, Json.IntCodec()) == Ok(100)
            && w2.outcome == Done && FetchTyped(w2.store, q, Json.IntCodec()) == Ok(101)
  {
    Json.IntCodecRoundTrips();
    Json.IntCodecEmitsUtf8();
    SecondTypedSetUpdatesInPlace(EmptyStore(), Query("some.service", "someKey"), 100, 101, Json.IntCodec());
  }

  /** The string life cycle driven through a `Manager` on a fresh, empty key chain: every write succeeds and the reads see it. */
  method ManagerLifeCycle() returns (written: Outcome, first: Result<Option<string>>,
                                     rewritten: Outcome, second: Result<Option<string>>,
                                     deleted: Outcome, third: Result<Option<string>>)
    ensures written == Done && first == Ok(Some("someValue"))
    ensures rewritten == Done && second == Ok(Some("anotherValue"))
    ensures deleted == Done && third == Err(ItemNotFound)
  {
    var keychain := new Keychain(map[]);
    var manager := new Manager("some.service", keychain);
    written := manager.Set("someKey2", "someValue");
    first := manager.Get("someKey2");
    rewritten := manager.Set("someKey2", "anotherValue");
    second := manager.Get("someKey2");
    deleted := manager.Delete("someKey2");
    third := manager.Get("someKey2");
  }
}
