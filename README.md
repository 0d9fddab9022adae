# DGPKeyChain in Dafny

A model of `DGPKeyChainManager`, the key-chain store of the DGPKeyChain Swift library. An application uses one manager per *service*. Through it, the application reads, writes and deletes secrets under string keys. A secret is either a string or any `Codable` value. The operating system's key chain holds the secrets as raw bytes. Each record is addressed by (service, account = key).

The model has these parts:

- `KeyChainStore` (`keychain_store.dfy`) is the library's public contract. It holds the flat error type `KeyChainError`, which has exactly the three cases `ItemNotFound`, `NotCodable` and `Unhandled`. `Result<T>` models a Swift function that throws or returns a `T`. `Outcome` models a throwing function that returns nothing. The string `get` returns `Result<Option<string>>`, because the protocol declares `String?`. The typed `get` returns `Result<T>` and so never returns an optional.
- `SecItem` (`sec_item.dfy`) stands in for the Security framework. The class `Keychain` holds the records as a map from `Query(service, account)` to an optional payload, so there is at most one record per address. It offers the four primitives `CopyMatching`, `Add`, `Update` and `Delete`. Each one answers `noErr`, `errSecItemNotFound` or another failure status. A failure status can be injected into any primitive. Such a primitive then answers with that status and changes nothing. A ghost log records every primitive call.
- `Utf8` (`utf8.dfy`) is Foundation's UTF-8 conversion, modelled as a real codec over Unicode scalars. Both round trips are proved.
- `Json` (`json.dfy`) is the JSON coder layer. It is modelled as a pair of partial functions (`Codec<T>`) with two hypotheses: `RoundTrips` (what the encoder produces decodes back to the same value) and `EmitsUtf8`. `IntCodec` is a concrete instance for Swift's 64-bit `Int`, and both hypotheses are proved for it. Its decoder rejects a numeral outside the 64-bit range, as `JSONDecoder` does.
- `KeyChainManager` (`keychain_manager.dfy`) is the core. First come the pure steps of each operation. Then each operation is defined as a function of the key chain's state. For example, `Upsert` returns the new state, the primitives called and the outcome. Last comes the class `Manager`, whose methods run the source's control flow against a `Keychain` and are proved to agree with those functions.
- `KeyChainProperties` (`keychain_properties.dfy`) relates several operations. It covers round trips, update in place rather than a duplicate, idempotent delete, delete-then-get, isolation between addresses, the life cycle Absent → Present → Present → Absent, and the integer 100 → 101 example.

One consequence of the source, made explicit here: `set` probes with the *string* `get`. So a record whose payload is missing or is not UTF-8 blocks every later `set` on its key. The `set` fails with `Unhandled`, and the record is left as it was (`UnreadableRecordBlocksSet`). For the typed `set` to update a record, the stored encoding must therefore be valid UTF-8 (`SecondTypedSetUpdatesInPlace` assumes `EmitsUtf8`). JSON text always is.

## Model

| member | source | states |
|---|---|---|
| `KeyChainManager.DataResult` | Sources/DGPKeyChain/DGPKeyChainManager.swift:81-94 | `errSecItemNotFound` gives exactly `ItemNotFound`; any status other than `noErr` or not-found gives exactly `Unhandled`; `noErr` gives success carrying the payload as returned, `nil` included |
| `KeyChainManager.StringResult` | Sources/DGPKeyChain/DGPKeyChainManager.swift:19-26 | never returns `nil`; lookup errors pass through unchanged; a missing payload or bytes that are not UTF-8 give `Unhandled`; a returned string is exactly the one whose UTF-8 encoding is the payload |
| `KeyChainManager.TypedResult` | Sources/DGPKeyChain/DGPKeyChainManager.swift:28-35 | lookup errors pass through unchanged; a missing payload or a failed decode gives `Unhandled`; success iff the payload decodes, and the value is what it decodes to |
| `KeyChainManager.WriteResult` | Sources/DGPKeyChain/DGPKeyChainManager.swift:122-124 | an add or update succeeds iff the status is `noErr`; any other status is `Unhandled` |
| `KeyChainManager.DeleteResult` | Sources/DGPKeyChain/DGPKeyChainManager.swift:60-62 | a delete succeeds iff the status is `noErr` or not-found; otherwise `Unhandled` |
| `KeyChainManager.FetchData` | Sources/DGPKeyChain/DGPKeyChainManager.swift:69-95 | on the key chain's state: `ItemNotFound` iff the lookup works and the address has no record; `Unhandled` iff the lookup fails; otherwise the record's payload |
| `KeyChainManager.FetchString` | Sources/DGPKeyChain/DGPKeyChainManager.swift:19-26 | succeeds iff the lookup works and the record holds UTF-8 bytes, and then returns a string (never `nil`) whose encoding is the stored payload; `ItemNotFound` iff there is no record; never `NotCodable` |
| `KeyChainManager.FetchTyped` | Sources/DGPKeyChain/DGPKeyChainManager.swift:28-35 | succeeds iff the lookup works and the record's payload decodes, and the value is the decoded one; `ItemNotFound` iff there is no record; never `NotCodable` |
| `KeyChainManager.Insert` | Sources/DGPKeyChain/DGPKeyChainManager.swift:116-125 | the helper named `update` calls `SecItemAdd` once; it succeeds iff the address is free and the add works, and then stores the data there; otherwise `Unhandled` and the store is unchanged |
| `KeyChainManager.Upsert` | Sources/DGPKeyChain/DGPKeyChainManager.swift:97-114 | fails only with `Unhandled`; succeeds iff the probe works and either the record is readable as a string and the update works, or there is no record and the add works; on success the address holds the new bytes and nothing else changes, after exactly the probe then `SecItemUpdate` (record existed) or `SecItemAdd` (it did not); an existing record is never added again; on failure nothing changes; a probe failing with `Unhandled` leads to no write call |
| `KeyChainManager.StoreString` | Sources/DGPKeyChain/DGPKeyChainManager.swift:39-45 | never `NotCodable`; on success the record holds the string's UTF-8 bytes and the string `get` returns exactly the string |
| `KeyChainManager.StoreTyped` | Sources/DGPKeyChain/DGPKeyChainManager.swift:47-53 | a value the encoder refuses gives `NotCodable` with no key-chain call and no change; otherwise fails only with `Unhandled`; on success the record holds the encoding, and with a round-tripping codec the typed `get` returns the value |
| `KeyChainManager.Remove` | Sources/DGPKeyChain/DGPKeyChainManager.swift:57-63 | one `SecItemDelete` call; succeeds iff the delete does not fail otherwise, whether or not a record exists; on success the address has no record; otherwise `Unhandled` and no change |
| `KeyChainManager.Manager.constructor` | Sources/DGPKeyChain/DGPKeyChainManager.swift:13-15 | the service is fixed at construction |
| `KeyChainManager.Manager.CreateQuery` | Sources/DGPKeyChain/DGPKeyChainManager.swift:127-133 | every query addresses the manager's service and the given key as account |
| `KeyChainManager.Manager.GetData` | Sources/DGPKeyChain/DGPKeyChainManager.swift:69-95 | one `SecItemCopyMatching` call, result as `FetchData` |
| `KeyChainManager.Manager.Get` | Sources/DGPKeyChain/DGPKeyChainManager.swift:19-26 | leaves the key chain unchanged, one lookup call, result as `FetchString` |
| `KeyChainManager.Manager.GetTyped` | Sources/DGPKeyChain/DGPKeyChainManager.swift:28-35 | leaves the key chain unchanged, one lookup call, result as `FetchTyped` |
| `KeyChainManager.Manager.Set` | Sources/DGPKeyChain/DGPKeyChainManager.swift:39-45 | new key-chain state, calls and outcome as `StoreString` |
| `KeyChainManager.Manager.SetTyped` | Sources/DGPKeyChain/DGPKeyChainManager.swift:47-53 | new key-chain state, calls and outcome as `StoreTyped` |
| `KeyChainManager.Manager.Delete` | Sources/DGPKeyChain/DGPKeyChainManager.swift:57-63 | new key-chain state, calls and outcome as `Remove` |
| `KeyChainManager.Manager.SetData` | Sources/DGPKeyChain/DGPKeyChainManager.swift:97-114 | probe, then update or add: new key-chain state, calls and outcome as `Upsert` |
| `KeyChainManager.Manager.AddItem` | Sources/DGPKeyChain/DGPKeyChainManager.swift:116-125 | new key-chain state, calls and outcome as `Insert` |
| `KeyChainProperties.SecondSetUpdatesInPlace` | Sources/DGPKeyChain/DGPKeyChainManager.swift:97-114 | after `set(k, a)` succeeds, `set(k, b)` succeeds (when updates work) by probe and `SecItemUpdate` only, leaves one record at k holding b, and `get(k)` returns b |
| `KeyChainProperties.SecondTypedSetUpdatesInPlace` | Sources/DGPKeyChain/DGPKeyChainManager.swift:47-53 | the same for typed values, given a codec that round-trips and emits UTF-8 |
| `KeyChainProperties.WritesStayAtTheirAddress` | Sources/DGPKeyChain/DGPKeyChainManager.swift:127-133 | a set or delete on one (service, key) leaves what every other address reads unchanged |
| `KeyChainProperties.ServicesAreSeparate` | Sources/DGPKeyChain/DGPKeyChainManager.swift:11-15 | managers of different services, or different keys, never address the same record |
| `KeyChainProperties.DeleteIsIdempotent` | Sources/DGPKeyChain/DGPKeyChainManager.swift:57-63 | deleting succeeds whether or not the record exists, and deleting twice succeeds with the second delete changing nothing |
| `KeyChainProperties.GetAfterDeleteIsNotFound` | Sources/DGPKeyChain/DGPKeyChainManager.swift:81-83 | after a successful delete both `get`s fail with `ItemNotFound` unless the lookup itself fails |
| `KeyChainProperties.UnreadableRecordBlocksSet` | Sources/DGPKeyChain/DGPKeyChainManager.swift:97-113 | an existing record with no payload or non-UTF-8 bytes makes `set` fail with `Unhandled` after the probe alone, writing nothing |
| `KeyChainProperties.SetSucceedsOnHealthyKeychain` | Sources/DGPKeyChain/DGPKeyChainManager.swift:97-125 | on a key chain without failures, setting a string succeeds unless the existing record is unreadable |
| `KeyChainProperties.StringLifeCycle` | Sources/DGPKeyChain/DGPKeyChainManager.swift:19-63 | service "some.service", key "someKey2": set "someValue" and get it, set "anotherValue" and get it, delete and get `ItemNotFound` |
| `KeyChainProperties.IntegerLifeCycle` | Sources/DGPKeyChain/DGPKeyChainManager.swift:28-53 | the integer 100 is set and read back as 100, then updated to 101 and read back as 101 |
| `KeyChainProperties.ManagerLifeCycle` | Sources/DGPKeyChain/DGPKeyChainManager.swift:13-63 | the string life cycle run through a `Manager` on an empty key chain: both `set`s and the `delete` succeed, and the three `get`s return "someValue", "anotherValue", then `ItemNotFound` |
| `Utf8.Encode` | Sources/DGPKeyChain/DGPKeyChainManager.swift:40 | `value.data(using: .utf8)`: never fails, and yields at least one byte per scalar |
| `Utf8.EncodedLengthBound` | Sources/DGPKeyChain/DGPKeyChainManager.swift:40 | the UTF-8 encoding uses at most four bytes per scalar |
| `Utf8.Decode` | Sources/DGPKeyChain/DGPKeyChainManager.swift:21 | `String(data:encoding: .utf8)`: a decoded string has no more scalars than the input has bytes; `None` for bytes that are not UTF-8 |
| `Utf8.DecodeEncode` | Sources/DGPKeyChain/DGPKeyChainManager.swift:40 | the UTF-8 bytes of any string decode back to that string |
| `Utf8.EncodeDecode` | Sources/DGPKeyChain/DGPKeyChainManager.swift:21 | bytes that decode as UTF-8 are exactly the encoding of the string they decode to |
| `Utf8.NotEveryByteSequenceDecodes` | Sources/DGPKeyChain/DGPKeyChainManager.swift:21 | the string conversion can fail: the byte 0xFF alone is not UTF-8 |
| `Json.EncodeInt` | Sources/DGPKeyChain/DGPKeyChainManager.swift:48 | `JSONEncoder` on an `Int` never fails, gives ASCII text, and starts with a minus sign iff the value is negative |
| `Json.DecodeInt` | Sources/DGPKeyChain/DGPKeyChainManager.swift:30 | `JSONDecoder` for `Int` accepts only the encoder's own numeral for the value (or "-0" for 0), within the 64-bit range |
| `Json.DecodeIntRejectsOverflow` | Sources/DGPKeyChain/DGPKeyChainManager.swift:30 | numerals just beyond the 64-bit range (2^63 and -(2^63 + 1)) do not decode, so the typed `get` of such a record fails with `Unhandled` |
| `Json.IntCodecRoundTrips` | Sources/DGPKeyChain/DGPKeyChainManager.swift:48 | an `Int` encoded as a JSON number decodes back to itself |
| `Json.IntCodecEmitsUtf8` | Sources/DGPKeyChain/DGPKeyChainManager.swift:48 | an `Int` encoded as a JSON number is UTF-8 text |
| `SecItem.Keychain.CopyMatching` | Sources/DGPKeyChain/DGPKeyChainManager.swift:76-79 | answers with the injected failure, or `noErr` and the record's payload, or not-found; changes no record |
| `SecItem.Keychain.Add` | Sources/DGPKeyChain/DGPKeyChainManager.swift:120 | answers with the injected failure, or `errSecDuplicateItem` for an occupied address, or adds the record |
| `SecItem.Keychain.Update` | Sources/DGPKeyChain/DGPKeyChainManager.swift:106 | answers with the injected failure, or not-found for a free address, or replaces the record's data |
| `SecItem.Keychain.Delete` | Sources/DGPKeyChain/DGPKeyChainManager.swift:58-59 | answers with the injected failure, or not-found for a free address, or removes the record |

`DGPKeyChainError` (Sources/DGPKeyChain/DGPKeyChainStore.swift:10-14) is `KeyChainStore.KeyChainError`. The protocol's signatures (Sources/DGPKeyChain/DGPKeyChainStore.swift:16-22) are the signatures of `Manager.Get`, `GetTyped`, `Set`, `SetTyped` and `Delete`: every failure is one of the three cases, and `set` and `delete` return only success or an error.

## Left out

- The Security framework calls, their `CFDictionary` bridging and the unsafe-pointer plumbing are foreign OS calls. `SecItem.Keychain` replaces them with a map-backed store that answers success, not-found or another failure status.
- Query attributes other than service and account (`kSecClass`, `kSecMatchLimitOne`, the return-attributes and return-data flags) only tune the OS query. The attributes dictionary returned by a lookup is reduced to its data entry. A result that is not a dictionary, or has no data entry, is modelled as a record without a payload.
- Real key-chain failures are whatever status a test injects, per primitive, until it is cleared. An injected status is never `noErr` or `errSecItemNotFound`, so "not found" always means that no record exists.
- `OSStatus` is an unbounded `int`. The source only compares it with two constants, so its 32-bit width plays no part.
- The internals of `JSONEncoder` and `JSONDecoder` are library code that this model does not include. The typed operations take any `Json.Codec`. The round-trip and UTF-8 properties of JSON are hypotheses (`RoundTrips`, `EmitsUtf8`), proved only for the `Int` instance. That instance's decoder accepts exactly an optional minus sign followed by a numeral without leading zeros, within the 64-bit range of `Int`. Any other leniency of `JSONDecoder`, such as surrounding white space, is not modelled.
- Foundation's UTF-8 conversion is modelled as strict RFC 3629 encoding and decoding of Unicode scalars. Any leniency beyond that, such as a leading byte-order mark, is not modelled.
- KeyChainManager.StoreString: the `notCodable` branch of the string `set` (Sources/DGPKeyChain/DGPKeyChainManager.swift:40-42) cannot be taken, because encoding Unicode scalars as UTF-8 never fails. The model therefore has no such branch and proves the outcome is never `NotCodable`.
- The `DGPKeyChainStore` protocol is not a separate type, because this model uses no traits. `Manager` is its only implementation, and the error and result types carry its contract.
- Concurrency and the check-then-act window between the probe and the write are not modelled. Calls are sequential.
- The test target (Tests/DGPKeyChainTests/DGPKeyChainTests.swift) declares its own stub manager, whose `get` always returns `nil`. This contradicts the production code, so none of its assertions is modelled.
