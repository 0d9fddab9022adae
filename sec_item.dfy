/**
 * The operating system's key chain, reached through the Security framework's
 * `SecItemCopyMatching`, `SecItemAdd`, `SecItemUpdate` and `SecItemDelete`.
 *
 * The key chain is a store of generic-password records addressed by (service, account),
 * at most one record per address, each holding an optional data payload. Every primitive
 * answers with an `OSStatus`. A test can inject a failure status into any primitive; an
 * injected failure makes that primitive answer with the status and change nothing.
 */
module SecItem {
  import opened Foundation

  /** Swift's `OSStatus` (an `Int32`); only the three codes below matter to the manager. */
  type OSStatus = int

  const NoErr: OSStatus := 0
  const ErrSecItemNotFound: OSStatus := -25300
  const ErrSecDuplicateItem: OSStatus := -25299
  const ErrSecInteractionNotAllowed: OSStatus := -25308

  /** A status that is neither success nor "not found": the "other failure" of the backend. */
  type FailureStatus = s: OSStatus | s != NoErr && s != ErrSecItemNotFound
    witness ErrSecInteractionNotAllowed

  /** The address of a record: the query's `kSecAttrService` and `kSecAttrAccount`. */
  datatype Query = Query(service: string, account: string)

  datatype Primitive = ItemCopyMatching | ItemAdd | ItemUpdate | ItemDelete

  /** One call the key chain received. */
  datatype Call = Call(primitive: Primitive, query: Query)

  /** The key chain's state: its records and the failures injected into its primitives. */
  datatype Store = Store(items: map<Query, Option<Bytes>>, faults: map<Primitive, FailureStatus>)

  /** `SecItemCopyMatching` for one record with its data: the status and the record's payload. */
  function CopyMatchingResponse(s: Store, q: Query): (OSStatus, Option<Bytes>) {
    if ItemCopyMatching in s.faults then (s.faults[ItemCopyMatching], None)
    else if q in s.items then (NoErr, s.items[q])
    else (ErrSecItemNotFound, None)
  }

  /** `SecItemAdd`: refuses an address that already holds a record. */
  function AddResponse(s: Store, q: Query, data: Bytes): (Store, OSStatus) {
    if ItemAdd in s.faults then (s, s.faults[ItemAdd])
    else if q in s.items then (s, ErrSecDuplicateItem)
    else (s.(items := s.items[q := Some(data)]), NoErr)
  }

  /** `SecItemUpdate` of the data attribute: needs an existing record. */
  function UpdateResponse(s: Store, q: Query, data: Bytes): (Store, OSStatus) {
    if ItemUpdate in s.faults then (s, s.faults[ItemUpdate])
    else if q in s.items then (s.(items := s.items[q := Some(data)]), NoErr)
    else (s, ErrSecItemNotFound)
  }

  /** `SecItemDelete`: reports "not found" for an address without a record. */
  function DeleteResponse(s: Store, q: Query): (Store, OSStatus) {
    if ItemDelete in s.faults then (s, s.faults[ItemDelete])
    else if q in s.items then (s.(items := s.items - {q}), NoErr)
    else (s, ErrSecItemNotFound)
  }

  /** The key chain as the manager sees it: a shared, mutable store. */
  class Keychain {
    var items: map<Query, Option<Bytes>>
    var faults: map<Primitive, FailureStatus>
    /** Every primitive call received so far, oldest first. */
    ghost var calls: seq<Call>

    function State(): Store
      reads this
    {
      Store(items, faults)
    }

    /** A key chain holding `items` (written by any application) and working normally. */
    constructor (items: map<Query, Option<Bytes>>)
      ensures State() == Store(items, map[]) && calls == []
    {
      this.items := items;
      faults := map[];
      calls := [];
    }

    /** From now on, `p` answers with `status` and changes nothing. */
    method InjectFault(p: Primitive, status: FailureStatus)
      modifies this`faults
      ensures faults == old(faults)[p := status]
    {
      faults := faults[p := status];
    }

    /** From now on, `p` works normally. */
    method ClearFault(p: Primitive)
      modifies this`faults
      ensures faults == old(faults) - {p}
    {
      faults := faults - {p};
    }

    method CopyMatching(q: Query) returns (status: OSStatus, payload: Option<Bytes>)
      modifies this`calls
      ensures (status, payload) == CopyMatchingResponse(State(), q)
      ensures calls == old(calls) + [Call(ItemCopyMatching, q)]
    {
      calls := calls + [Call(ItemCopyMatching, q)];
      if ItemCopyMatching in faults {
        status, payload := faults[ItemCopyMatching], None;
      } else if q in items {
        status, payload := NoErr, items[q];
      } else {
        status, payload := ErrSecItemNotFound, None;
      }
    }

    method Add(q: Query, data: Bytes) returns (status: OSStatus)
      modifies this`items, this`calls
      ensures (State(), status) == AddResponse(old(State()), q, data)
      ensures calls == old(calls) + [Call(ItemAdd, q)]
    {
      calls := calls + [Call(ItemAdd, q)];
      if ItemAdd in faults {
        status := faults[ItemAdd];
      } else if q in items {
        status := ErrSecDuplicateItem;
      } else {
        items := items[q := Some(data)];
        status := NoErr;
      }
    }

    method Update(q: Query, data: Bytes) returns (status: OSStatus)
      modifies this`items, this`calls
      ensures (State(), status) == UpdateResponse(old(State()), q, data)
      ensures calls == old(calls) + [Call(ItemUpdate, q)]
    {
      calls := calls + [Call(ItemUpdate, q)];
      if ItemUpdate in faults {
        status := faults[ItemUpdate];
      } else if q in items {
        items := items[q := Some(data)];
        status := NoErr;
      } else {
        status := ErrSecItemNotFound;
      }
    }

    method Delete(q: Query) returns (status: OSStatus)
      modifies this`items, this`calls
      ensures (State(), status) == DeleteResponse(old(State()), q)
      ensures calls == old(calls) + [Call(ItemDelete, q)]
    {
      calls := calls + [Call(ItemDelete, q)];
      if ItemDelete in faults {
        status := faults[ItemDelete];
      } else if q in items {
        items := items - {q};
        status := NoErr;
      } else {
        status := ErrSecItemNotFound;
      }
    }
  }
}
