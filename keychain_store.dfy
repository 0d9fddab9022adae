/**
 * The public contract of the key-chain library (DGPKeyChainStore.swift).
 *
 * Swift's `throws` is modelled by returning either a value or one error of the flat
 * three-case taxonomy; `Result<T>` stands for a throwing function returning `T`, and
 * `Outcome` for a throwing function returning nothing.
 */
module KeyChainStore {

  /** `DGPKeyChainError`: every failure the store reports is exactly one of these. */
  datatype KeyChainError = ItemNotFound | NotCodable | Unhandled

  /** The result of a throwing function that returns a `T`. */
  datatype Result<+T> = Ok(value: T) | Err(error: KeyChainError)

  /** The result of a throwing function that returns nothing. */
  datatype Outcome = Done | Failed(error: KeyChainError)
}
