/** The values a block is made of: transactions, signatures, witnesses, batches and sidecars. */
module Transactions {
  import opened Types
  import opened Encoding
  import opened MerkleProofs

  /** Apply refuses a withdrawal below this, and pays nothing out for a forced one. */
  const MIN_WITHDRAWAL: u64 := 100_000

  /** NewDeposit puts this in the header of every deposit. */
  const ZERO_ADDRESS: Address :=
    [0, 0, 0, 0, 0, 0, 0, 0, 0, 0, 0, 0, 0, 0, 0, 0, 0, 0, 0, 0, 0, 0, 0, 0, 0, 0, 0, 0, 0, 0, 0, 0]

  /** GiveFee credits this address; it may also be a sender or a receiver. */
  const FEE_SINK: Address :=
    [0x3c, 0x59, 0x3f, 0x54, 0x58, 0xdd, 0x87, 0x8c, 0x42, 0x37, 0x9b, 0x05, 0xb2, 0xb3, 0x2f, 0xc2,
     0x88, 0xb1, 0xff, 0x4a, 0x8e, 0x88, 0xf0, 0xa5, 0x09, 0x28, 0xe9, 0x9d, 0xb1, 0x8b, 0xed, 0x4d]

  datatype Scheme = Managed | Ed25519 | Falcon1024HybridEd25519 {
    function Identifier(): (id: seq<byte>)
      ensures |id| == 3
    {
      match this
      case Managed => [0x6d, 0x61, 0x6e]
      case Ed25519 => [0x65, 0x64, 0x64]
      case Falcon1024HybridEd25519 => [0x66, 0x31, 0x68]
    }
  }

  function SchemeFromIdentifier(id: seq<byte>): Option<Scheme> {
    if id == Managed.Identifier() then Some(Managed)
    else if id == Ed25519.Identifier() then Some(Ed25519)
    else if id == Falcon1024HybridEd25519.Identifier() then Some(Falcon1024HybridEd25519)
    else None
  }

  datatype TransactionHeader = TransactionHeader(sender: Address, fee: u64)

  datatype Transaction =
    | Payment(header: TransactionHeader, receiver: Address, amount: u64)
    | Deposit(header: TransactionHeader, receiver: Address, amount: u64)
    | Withdrawal(header: TransactionHeader, recipient: L1Address, amount: u64)
    | ForcedWithdrawal(header: TransactionHeader, recipient: L1Address)

  function NewDeposit(receiver: Address, amount: u64): Transaction {
    Deposit(TransactionHeader(ZERO_ADDRESS, 0), receiver, amount)
  }

  function NewForcedWithdrawal(address: Address, recipient: L1Address): Transaction {
    ForcedWithdrawal(TransactionHeader(address, 0), recipient)
  }

  /** Deposits and forced withdrawals are only ever made with the header their constructor fills in. */
  predicate ConstructorHeader(txn: Transaction) {
    match txn
    case Deposit(header, _, _) => header == TransactionHeader(ZERO_ADDRESS, 0)
    case ForcedWithdrawal(header, _) => header.fee == 0
    case _ => true
  }

  datatype Signature = Signature(scheme: Scheme, pubKey: seq<byte>, sig: seq<byte>)

  /** A claimed prior account of one address and a proof to check the claim and the next write with. */
  datatype LeafWitness = LeafWitness(priorAccount: Option<Account>, proof: MerkleProof)

  datatype TxnSidecar =
    | PaymentSidecar(sig: Signature, senderWitness: LeafWitness, receiverWitness: LeafWitness,
                     feeSinkWitness: Option<LeafWitness>)
    | DepositSidecar(receiverWitness: LeafWitness)
    | WithdrawalSidecar(sig: Signature, senderWitness: LeafWitness, feeSinkWitness: Option<LeafWitness>)
    | ForcedWithdrawalSidecar(senderWitness: LeafWitness)

  datatype Batch = Batch(txns: seq<Transaction>)

  datatype Sidecar = Sidecar(entries: seq<TxnSidecar>)

  datatype VerificationError =
    | InvalidAuthAddress
    | InvalidSignature
    | MalformedKey
    | MalformedSignature
    | InvalidNonce
    | UnknownSender
    | InsufficientFunds
    | AmountOverflow
    | WithdrawalTooSmall
    | MalformedProof
    | StaleWitness
    | RootMismatch
    | SidecarLengthMismatch
    | SidecarKindMismatch

  // ----- signatures -----

  /**
   * The cryptography, as functions nothing is assumed about: the address a key derives, the check a
   * scheme makes of a signature (None when it passes), and the settlement chain's Ed25519 check.
   */
  datatype Crypto = Crypto(
    addressOf: (Scheme, seq<byte>) -> Address,
    check: (Scheme, seq<byte>, seq<byte>, seq<byte>) -> Option<VerificationError>,
    avmEd25519: (seq<byte>, seq<byte>, seq<byte>) -> bool)

  /** Whether sig authorises message for account; None when it does. Managed accounts check no key. */
  function VerifySignature(c: Crypto, sig: Signature, account: Account, message: seq<byte>): Option<VerificationError> {
    if c.addressOf(sig.scheme, sig.pubKey) != account.authAddress then Some(InvalidAuthAddress)
    else if sig.scheme == Managed then None
    else c.check(sig.scheme, sig.pubKey, sig.sig, message)
  }

  const SIGN_TAG_PAYMENT: seq<byte> := [0x50, 0x41, 0x59]
  const SIGN_TAG_WITHDRAWAL: seq<byte> := [0x57, 0x44, 0x52]

  function SignedFields(tag: seq<byte>, domain: DeploymentDomain, sender: Address, nonce: u64, fee: u64,
                        destination: Bytes32, amount: u64): seq<byte>
  {
    tag + domain + sender + U64Bytes(nonce) + U64Bytes(fee) + destination + U64Bytes(amount)
  }

  /** SignedFields of a payment or a withdrawal; the tag tells the two apart. */
  function BytesToSign(domain: DeploymentDomain, txn: Transaction, nonce: u64): seq<byte>
    requires txn.Payment? || txn.Withdrawal?
  {
    match txn
    case Payment(header, receiver, amount) =>
      SignedFields(SIGN_TAG_PAYMENT, domain, header.sender, nonce, header.fee, receiver, amount)
    case Withdrawal(header, recipient, amount) =>
      SignedFields(SIGN_TAG_WITHDRAWAL, domain, header.sender, nonce, header.fee, recipient, amount)
  }

  lemma U64BytesInjective(m: u64, n: u64)
    requires U64Bytes(m) == U64Bytes(n)
    ensures m == n
  {
    U64RoundTrip(m);
    U64RoundTrip(n);
  }

  lemma SplitAppend(a: seq<byte>, b: seq<byte>, x: seq<byte>, y: seq<byte>)
    requires |a| == |b| && a + x == b + y
    ensures a == b && x == y
  {
    assert (a + x)[..|a|] == a && (b + y)[..|a|] == b;
    assert (a + x)[|a|..] == x && (b + y)[|a|..] == y;
  }

  lemma SignedFieldsInjective(tag: seq<byte>, tag': seq<byte>, d: DeploymentDomain, d': DeploymentDomain,
                              s: Address, s': Address, n: u64, n': u64, f: u64, f': u64,
                              r: Bytes32, r': Bytes32, a: u64, a': u64)
    requires |tag| == |tag'|
    requires SignedFields(tag, d, s, n, f, r, a) == SignedFields(tag', d', s', n', f', r', a')
    ensures tag == tag' && d == d' && s == s' && n == n' && f == f' && r == r' && a == a'
  {
    var t5, t5' := tag + d + s + U64Bytes(n) + U64Bytes(f), tag' + d' + s' + U64Bytes(n') + U64Bytes(f');
    SplitAppend(t5 + r, t5' + r', U64Bytes(a), U64Bytes(a'));
    SplitAppend(t5, t5', r, r');
    SplitAppend(tag + d + s + U64Bytes(n), tag' + d' + s' + U64Bytes(n'), U64Bytes(f), U64Bytes(f'));
    SplitAppend(tag + d + s, tag' + d' + s', U64Bytes(n), U64Bytes(n'));
    SplitAppend(tag + d, tag' + d', s, s');
    SplitAppend(tag, tag', d, d');
    U64BytesInjective(a, a');
    U64BytesInjective(f, f');
    U64BytesInjective(n, n');
  }

  /** One message authorises one kind of transaction, in one deployment, at one nonce, in every field. */
  lemma BytesToSignInjective(d: DeploymentDomain, x: Transaction, n: u64, d': DeploymentDomain, y: Transaction, n': u64)
    requires (x.Payment? || x.Withdrawal?) && (y.Payment? || y.Withdrawal?)
    requires BytesToSign(d, x, n) == BytesToSign(d', y, n')
    ensures d == d' && x == y && n == n'
  {
    var tag := if x.Payment? then SIGN_TAG_PAYMENT else SIGN_TAG_WITHDRAWAL;
    var tag' := if y.Payment? then SIGN_TAG_PAYMENT else SIGN_TAG_WITHDRAWAL;
    var to := if x.Payment? then x.receiver else x.recipient;
    var to' := if y.Payment? then y.receiver else y.recipient;
    SignedFieldsInjective(tag, tag', d, d', x.header.sender, y.header.sender, n, n',
                          x.header.fee, y.header.fee, to, to', x.amount, y.amount);
    assert SIGN_TAG_PAYMENT[0] != SIGN_TAG_WITHDRAWAL[0];
  }
}
