/** Machine integers, byte strings, account state and the idealised hash. */
module Types {
  const MAX_U64: int := 0xFFFF_FFFF_FFFF_FFFF

  type byte = n: int | 0 <= n < 256
  type u64 = n: int | 0 <= n <= MAX_U64
  type Bytes32 = s: seq<byte> | |s| == 32 witness seq(32, _ => 0)

  /** A key of the account map. */
  type Address = Bytes32

  /** A payee of the contract's payments. The type is Address's, but no map of accounts is keyed by it. */
  type L1Address = Bytes32

  type DeploymentDomain = Bytes32

  datatype Option<+T> = None | Some(value: T)

  datatype Result<+T, +E> = Ok(value: T) | Err(error: E) {
    predicate IsFailure() { Err? }

    function PropagateFailure<U>(): Result<U, E>
      requires Err?
    {
      Err(error)
    }

    function Extract(): T
      requires Ok?
    {
      value
    }
  }

  datatype Account = Account(nonce: u64, amount: u64, authAddress: Address)

  /**
   * The hash, idealised: one constructor for each preimage layout the rollup hashes, so two digests
   * are equal exactly when they were made from the same preimage, and no digest contains itself.
   * Zero is the 32 zero bytes used for the empty subtree and the empty inbox. Raw stands for every
   * 32-byte string that is no hash the rollup makes: an adversary may supply one anywhere.
   */
  datatype Digest =
    | Zero
    | Raw(word: Bytes32)
    | LeafHash(address: Address, account: Account)
    | NodeHash(left: Digest, right: Digest)
    | InboxDeposit(chain: Digest, receiver: Address, amount: u64)
    | InboxRequest(chain: Digest, owner: Address, recipient: L1Address)
    | Payout(tail: Digest, payee: L1Address, sum: u64)
    | PayoutEnd(domain: DeploymentDomain)
    | BatchSeed(batchDomain: DeploymentDomain, length: nat)
    | ChunkFold(accumulator: Digest, chunk: Digest)
    | ChunkDigest(bytes: seq<byte>)

  /**
   * How a digest is written as 32 bytes and read back. Any pair of functions is allowed; a round
   * trip is assumed only for the digests a statement names.
   */
  datatype DigestWire = DigestWire(encode: Digest -> Bytes32, decode: Bytes32 -> Digest)
}
