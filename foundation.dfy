/** Swift and Foundation basics the key-chain code relies on: `Optional` and `Data`. */
module Foundation {

  /** Swift's `Optional`. */
  datatype Option<+T> = None | Some(value: T)

  /** One octet of a Foundation `Data` value. */
  type Byte = x: int | 0 <= x < 0x100

  /** A Foundation `Data` value: a finite sequence of octets. */
  type Bytes = seq<Byte>
}
