/**
 * `DGPKeyChainManager`: the key-chain store for one service.
 *
 * Every operation addresses the key chain by (service, key). A lookup maps the key chain's
 * status to the flat error taxonomy; a write first probes with the string `get` and then
 * updates the existing record, or adds one when the probe reports `ItemNotFound`; a delete
 * treats "not found" as success.
 *
 * The first part gives each operation's meaning as a function of the key chain's state
 * (`Store`); the `Manager` class then performs the operations step by step against a
 * mutable `Keychain` and is proved to agree with those functions.
 */
module KeyChainManager {
  import opened Foundation
  import opened KeyChainStore
  import opened SecItem
  import Utf8
  import Json

  // ---------------------------------------------------------------------------
  // The pure steps of each operation
  // ---------------------------------------------------------------------------

  /** How `getData` reads a `SecItemCopyMatching` answer. */
  function DataResult(status: OSStatus, payload: Option<Bytes>): (r: Result<Option<Bytes>>)
    ensures r == Err(ItemNotFound) <==> status == ErrSecItemNotFound
    ensures r == Err(Unhandled) <==> status != ErrSecItemNotFound && status != NoErr
    ensures r.Ok? <==> status == NoErr
    ensures r.Ok? ==> r.value == payload
  {
    if status == ErrSecItemNotFound then Err(ItemNotFound)
    else if status != NoErr then Err(Unhandled)
    else Ok(payload)
  }

  /**
   * How the string `get` turns what `getData` gave into a string: lookup errors pass
   * through, a missing payload or bytes that are not UTF-8 become `Unhandled`, and a
   * success always carries a string whose encoding is exactly the stored payload.
   */
  function StringResult(d: Result<Option<Bytes>>): (r: Result<Option<string>>)
    ensures r != Ok(None)
    ensures d.Err? ==> r == Err(d.error)
    ensures d.Ok? ==> (r.Ok? <==> d.value.Some? && Utf8.Decode(d.value.value).Some?)
    ensures d.Ok? && r.Err? ==> r.error == Unhandled
    ensures r.Ok? ==> d == Ok(Some(Utf8.Encode(r.value.value)))
  {
    match d
    case Err(e) => Err(e)
    case Ok(None) => Err(Unhandled)
    case Ok(Some(data)) =>
      match Utf8.Decode(data)
      case None => Err(Unhandled)
      case Some(value) => Utf8.EncodeDecode(data); Ok(Some(value))
  }

  /**
   * How the typed `get` turns what `getData` gave into a `T`: lookup errors pass through,
   * a missing payload or a failed decode become `Unhandled`.
   */
  function TypedResult<T>(d: Result<Option<Bytes>>, decode: Bytes -> Option<T>): (r: Result<T>)
    ensures d.Err? ==> r == Err(d.error)
    ensures d.Ok? ==> (r.Ok? <==> d.value.Some? && decode(d.value.value).Some?)
    ensures d.Ok? && r.Err? ==> r.error == Unhandled
    ensures r.Ok? ==> decode(d.value.value) == Some(r.value)
  {
    match d
    case Err(e) => Err(e)
    case Ok(None) => Err(Unhandled)
    case Ok(Some(data)) =>
      match decode(data)
      case None => Err(Unhandled)
      case Some(value) => Ok(value)
  }

  /** The check after `SecItemUpdate` and `SecItemAdd`: anything but success is `Unhandled`. */
  function WriteResult(status: OSStatus): (r: Outcome)
    ensures r == Done <==> status == NoErr
    ensures r != Done ==> r == Failed(Unhandled)
  {
    if status == NoErr then Done else Failed(Unhandled)
  }

  /** The check after `SecItemDelete`: success and "not found" both succeed. */
  function DeleteResult(status: OSStatus): (r: Outcome)
    ensures r == Done <==> status == NoErr || status == ErrSecItemNotFound
    ensures r != Done ==> r == Failed(Unhandled)
  {
    if status == NoErr || status == ErrSecItemNotFound then Done else Failed(Unhandled)
  }

  // ---------------------------------------------------------------------------
  // Each operation as a function of the key chain's state
  // ---------------------------------------------------------------------------

  /** The effect of a write: the key chain's new state, the primitives called, in order, and the outcome. */
  datatype Write = Write(store: Store, calls: seq<Call>, outcome: Outcome)

  /** The record at `q` holds a payload that is well-formed UTF-8. */
  predicate HoldsString(s: Store, q: Query) {
    q in s.items && s.items[q].Some? && Utf8.Decode(s.items[q].value).Some?
  }

  /** `getData`: the payload of the record at `q`. */
  function FetchData(s: Store, q: Query): (r: Result<Option<Bytes>>)
    ensures r == Err(ItemNotFound) <==> ItemCopyMatching !in s.faults && q !in s.items
    ensures r == Err(Unhandled) <==> ItemCopyMatching in s.faults
    ensures r.Ok? <==> ItemCopyMatching !in s.faults && q in s.items
    ensures r.Ok? ==> r.value == s.items[q]
  {
    var (status, payload) := CopyMatchingResponse(s, q);
    DataResult(status, payload)
  }

  /** The string `get`: never `nil`; the string stored at `q`, or why there is none. */
  function FetchString(s: Store, q: Query): (r: Result<Option<string>>)
    ensures r.Ok? <==> ItemCopyMatching !in s.faults && HoldsString(s, q)
    ensures r.Ok? ==> r.value.Some? && s.items[q] == Some(Utf8.Encode(r.value.value))
    ensures r == Err(ItemNotFound) <==> ItemCopyMatching !in s.faults && q !in s.items
    ensures r.Err? ==> r.error != NotCodable
  {
    StringResult(FetchData(s, q))
  }

  /** The typed `get`: the value stored at `q`, decoded by `codec`, or why there is none. */
  function FetchTyped<T>(s: Store, q: Query, codec: Json.Codec<T>): (r: Result<T>)
    ensures r.Ok? <==> ItemCopyMatching !in s.faults && q in s.items && s.items[q].Some?
                       && codec.decode(s.items[q].value).Some?
    ensures r.Ok? ==> codec.decode(s.items[q].value) == Some(r.value)
    ensures r == Err(ItemNotFound) <==> ItemCopyMatching !in s.faults && q !in s.items
    ensures r.Err? ==> r.error != NotCodable
  {
    TypedResult(FetchData(s, q), codec.decode)
  }

  /** The private helper named `update`, which adds a new record at `q`. */
  function Insert(s: Store, q: Query, data: Bytes): (r: Write)
    ensures r.calls == [Call(ItemAdd, q)]
    ensures r.outcome == Done <==> ItemAdd !in s.faults && q !in s.items
    ensures r.outcome == Done ==> r.store == s.(items := s.items[q := Some(data)])
    ensures r.outcome != Done ==> r.outcome == Failed(Unhandled) && r.store == s
  {
    var (after, status) := AddResponse(s, q, data);
    Write(after, [Call(ItemAdd, q)], WriteResult(status))
  }

  /**
   * `set(_:data:)`: probe with the string `get`, then update the record the probe found,
   * or add one when it found none; any other probe failure is passed on and nothing is
   * written.
   */
  function Upsert(s: Store, q: Query, data: Bytes): (r: Write)
    ensures r.outcome == Done || r.outcome == Failed(Unhandled)
    ensures r.outcome == Done <==>
              ItemCopyMatching !in s.faults &&
              if q in s.items then HoldsString(s, q) && ItemUpdate !in s.faults
              else ItemAdd !in s.faults
    ensures r.outcome == Done ==> r.store == s.(items := s.items[q := Some(data)])
    ensures r.outcome != Done ==> r.store == s
    ensures 1 <= |r.calls| <= 2 && r.calls[0] == Call(ItemCopyMatching, q)
    ensures r.outcome == Done ==>
              r.calls == [Call(ItemCopyMatching, q), Call(if q in s.items then ItemUpdate else ItemAdd, q)]
    ensures forall c :: c in r.calls ==> c.query == q
    ensures q in s.items ==> Call(ItemAdd, q) !in r.calls
    ensures q !in s.items ==> Call(ItemUpdate, q) !in r.calls
    ensures FetchString(s, q) == Err(Unhandled) ==>
              r == Write(s, [Call(ItemCopyMatching, q)], Failed(Unhandled))
  {
    var probe := Call(ItemCopyMatching, q);
    match FetchString(s, q)
    case Ok(_) =>
      var (after, status) := UpdateResponse(s, q, data);
      Write(after, [probe, Call(ItemUpdate, q)], WriteResult(status))
    case Err(ItemNotFound) =>
      var w := Insert(s, q, data);
      Write(w.store, [probe] + w.calls, w.outcome)
    case Err(e) =>
      Write(s, [probe], Failed(e))
  }

  /**
   * `set(_:withValue:)` for a string: never `NotCodable`, and after a success the string
   * `get` returns exactly the string that was set.
   */
  function StoreString(s: Store, q: Query, value: string): (r: Write)
    ensures r.outcome == Done || r.outcome == Failed(Unhandled)
    ensures r.outcome == Done ==> r.store == s.(items := s.items[q := Some(Utf8.Encode(value))])
    ensures r.outcome == Done ==> FetchString(r.store, q) == Ok(Some(value))
  {
    Utf8.DecodeEncode(value);
    Upsert(s, q, Utf8.Encode(value))
  }

  /**
   * `set(_:withValue:)` for an `Encodable` value: `NotCodable` without any key-chain call
   * when encoding fails; otherwise, after a success, the typed `get` returns the value
   * whenever the codec round-trips.
   */
  function StoreTyped<T(!new)>(s: Store, q: Query, value: T, codec: Json.Codec<T>): (r: Write)
    ensures codec.encode(value).None? ==> r == Write(s, [], Failed(NotCodable))
    ensures codec.encode(value).Some? ==> r.outcome == Done || r.outcome == Failed(Unhandled)
    ensures r.outcome == Done ==> r.store == s.(items := s.items[q := Some(codec.encode(value).value)])
    ensures Json.RoundTrips(codec) && r.outcome == Done ==> FetchTyped(r.store, q, codec) == Ok(value)
  {
    match codec.encode(value)
    case None => Write(s, [], Failed(NotCodable))
    case Some(data) => Upsert(s, q, data)
  }

  /** `delete`: removes the record at `q`; an absent record is not an error. */
  function Remove(s: Store, q: Query): (r: Write)
    ensures r.calls == [Call(ItemDelete, q)]
    ensures r.outcome == Done <==> ItemDelete !in s.faults
    ensures r.outcome == Done ==> r.store == s.(items := s.items - {q})
    ensures r.outcome != Done ==> r.outcome == Failed(Unhandled) && r.store == s
  {
    var (after, status) := DeleteResponse(s, q);
    Write(after, [Call(ItemDelete, q)], DeleteResult(status))
  }

  // ---------------------------------------------------------------------------
  // The manager
  // ---------------------------------------------------------------------------

  /** A key-chain store whose records all live under one service. */
  class Manager {
    const service: string
    /** The operating system's key chain, which every manager shares. */
    const keychain: Keychain

    constructor (service: string, keychain: Keychain)
      ensures this.service == service && this.keychain == keychain
    {
      this.service := service;
      this.keychain := keychain;
    }

    /** The address of `key` in this manager's service. */
    function CreateQuery(key: string): (q: Query)
      ensures q.service == service && q.account == key
    {
      Query(service, key)
    }

    method GetData(key: string) returns (r: Result<Option<Bytes>>)
      modifies keychain`calls
      ensures r == FetchData(keychain.State(), CreateQuery(key))
      ensures keychain.calls == old(keychain.calls) + [Call(ItemCopyMatching, CreateQuery(key))]
    {
      var status, payload := keychain.CopyMatching(CreateQuery(key));
      r := DataResult(status, payload);
    }

    method Get(key: string) returns (r: Result<Option<string>>)
      modifies keychain`calls
      ensures keychain.State() == old(keychain.State())
      ensures r == FetchString(keychain.State(), CreateQuery(key))
      ensures keychain.calls == old(keychain.calls) + [Call(ItemCopyMatching, CreateQuery(key))]
    {
      var d := GetData(key);
      r := StringResult(d);
    }

    method GetTyped<T>(key: string, codec: Json.Codec<T>) returns (r: Result<T>)
      modifies keychain`calls
      ensures keychain.State() == old(keychain.State())
      ensures r == FetchTyped(keychain.State(), CreateQuery(key), codec)
      ensures keychain.calls == old(keychain.calls) + [Call(ItemCopyMatching, CreateQuery(key))]
    {
      var d := GetData(key);
      r := TypedResult(d, codec.decode);
    }

    method Set(key: string, value: string) returns (r: Outcome)
      modifies keychain`items, keychain`calls
      ensures var w := StoreString(old(keychain.State()), CreateQuery(key), value);
              keychain.State() == w.store && r == w.outcome &&
              keychain.calls == old(keychain.calls) + w.calls
    {
      r := SetData(key, Utf8.Encode(value));
    }

    method SetTyped<T(!new)>(key: string, value: T, codec: Json.Codec<T>) returns (r: Outcome)
      modifies keychain`items, keychain`calls
      ensures var w := StoreTyped(old(keychain.State()), CreateQuery(key), value, codec);
              keychain.State() == w.store && r == w.outcome &&
              keychain.calls == old(keychain.calls) + w.calls
    {
      match codec.encode(value)
      case None =>
        r := Failed(NotCodable);
      case Some(data) =>
        r := SetData(key, data);
    }

    method Delete(key: string) returns (r: Outcome)
      modifies keychain`items, keychain`calls
      ensures var w := Remove(old(keychain.State()), CreateQuery(key));
              keychain.State() == w.store && r == w.outcome &&
              keychain.calls == old(keychain.calls) + w.calls
    {
      var status := keychain.Delete(CreateQuery(key));
      r := DeleteResult(status);
    }

    /** The private `set(_:data:)`. */
    method SetData(key: string, data: Bytes) returns (r: Outcome)
      modifies keychain`items, keychain`calls
      ensures var w := Upsert(old(keychain.State()), CreateQuery(key), data);
              keychain.State() == w.store && r == w.outcome &&
              keychain.calls == old(keychain.calls) + w.calls
    {
      var probe := Get(key);
      if probe.Ok? {
        var status := keychain.Update(CreateQuery(key), data);
        r := WriteResult(status);
      } else if probe.error == ItemNotFound {
        r := AddItem(key, data);
      } else {
        r := Failed(probe.error);
      }
    }

    /** The private helper the source names `update`: it adds a record. */
    method AddItem(key: string, data: Bytes) returns (r: Outcome)
      modifies keychain`items, keychain`calls
      ensures var w := Insert(old(keychain.State()), CreateQuery(key), data);
              keychain.State() == w.store && r == w.outcome &&
              keychain.calls == old(keychain.calls) + w.calls
    {
      var status := keychain.Add(CreateQuery(key), data);
      r := WriteResult(status);
    }
  }
}
