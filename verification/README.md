# Payment rollup: a verified model

The rollup keeps a ledger of accounts in a compressed sparse Merkle tree. A sequencer applies
payments, deposits, withdrawals and forced withdrawals to it in blocks. Each block splits into a
published half, the batch, and a private half, the sidecar of signatures and Merkle witnesses. A
guest program decodes both halves, replays them against a running root without trusting the
sidecar, and exposes six words. A settlement contract holds the real money: it takes deposits into
a FIFO inbox, takes a batch's bytes chunk by chunk, settles on the six words of a proof, drains the
batch's payouts through a hash chain, and if the sequencer stops it lets out whoever can show a key
it knows how to check.

This project models those four parts and proves what they promise, alone and joined.

| module | what it models |
|---|---|
| `Types`, `Bits`, `Encoding`, `Addresses` | machine integers, the idealised digest, bit arithmetic, 256-bit addresses |
| `MerkleTree`, `MerkleProofs` | the tree as a value, its contents, and the stateless verifier |
| `SparseMerkleTrees` | the tree as the ledger holds it: branches on the heap, rewritten in place |
| `Transactions`, `Semantics` | what a block is made of, and what a batch means on a plain map of accounts |
| `Chains` | the inbox chain, the payout chain, the chunk commitment |
| `Replay`, `Ledgers` | the verifier's replay and the builder, a class over the heap tree |
| `Varint`, `BatchCodec`, `SidecarCodec` | the wire formats as functions, with the round trips |
| `BatchCanon`, `SidecarCanon` | when decoding either half and encoding it again gives the same bytes back |
| `Framing` | that no encoded half is the beginning of another |
| `Wire`, `SidecarWire`, `Guest` | the codec's buffer, cursor and dictionaries, updated in place, and the guest that runs them |
| `Execution` | what a proof asserts, and exactly which batch bytes have one |
| `Settlement`, `Runs` | the contract's state, its calls, and runs of them with their history |
| `RollupVerifiers` | the contract as a class: globals and boxes written call by call, undone on failure |
| `Invariants`, `Preservation`, `SettlementStep`, `Guarantees`, `EndToEnd` | what every run keeps, and the theorems that follow |
| `ExactBooks`, `Accounting`, `ExitRights` | the books to the unit, the counters against what happened, and the way out |
| `Permissions`, `Disbursements` | who can make each call succeed and when, and to whom every payment goes |
| `Answering` | that the inbox never asks for a batch nobody could build |
| `DueEscapes`, `Reopening` | what becomes of an escape past its deadline, and runs that reach the awkward cases |

The imperative modules are each proved equal to the functions beside them, and the theorems are
about those functions. `Ledgers.Ledger.GetBlock`, `Guest.RunGuest` and
`RollupVerifiers.RollupVerifier.Apply` are where the two meet.

## Idealisations

- SHA-256 is the datatype `Types.Digest`, one constructor for each preimage layout, so digests of
  different preimages differ, no digest contains itself, and no digest is the zero word. `Raw`
  stands for every other 32-byte string, and may appear wherever an adversary can supply one. A
  chunk's digest has a constructor too, although the code hashes the chunk with nothing in front of
  it (`crates/payment-rollup/src/lib.rs:1378-1391`): the value only ever goes into a tagged preimage.
- A digest on the wire is written and read by two arbitrary functions, `Types.DigestWire`.
  Soundness holds for any pair. Completeness asks only that the digests of the block at hand read
  back as themselves.
- Signature schemes and address derivation are arbitrary functions, `Transactions.Crypto`. The
  managed scheme checks no signature, as in the code.
- An accepted proof is evidence, five guest inputs, on which the guest finishes with the six words
  presented. The deployment domain is one of those inputs: a prover may choose it, and it is bound
  only because the batch commitment starts from it.
- A panic in the ledger, or a failed assertion, overflow or missing box in the contract, is a call
  that does not happen: `None`, and in `RollupVerifiers` a rollback.
- Box prices and the base minimum balance are arbitrary numbers. The contract's measurements of its
  own minimum balance are modelled as measurements.
- The balance of whoever receives an inner payment is an argument of the call that makes it. The
  payments themselves are kept in order as the network would record them (`Settlement.State.sent`);
  no call reads that record.
- The settlement network's rounds never go back. The app account signs no group payments.

## Four claims that are not so

Each has inputs that show it fails, and a theorem that says exactly when it holds.

- Decoding a batch and encoding it again gives the bytes back. `BatchCanon.DecodingIsNotCanonical`
  has a padded number and a repeated literal address that decode and do not come back;
  `BatchCanon.ReencodingIsExact` proves that those two kinds of waste are the only ones.
- An escape that has come due stays due. `Reopening.DueEscapeCanReopen` builds a run after which a
  late payout by the sequencer closes it again; `DueEscapes.DueUntilReopened` proves that it stays due,
  through any run, if and only if no such payout is made.
- The links of a batch's payouts always drain. `Reopening.ClockCanRunOut` builds a run after which the
  sequencer is refused the payout it owes, because a further grace window would not fit a 64-bit
  clock; `Guarantees.LinksDrain` proves that they drain if and only if the windows fit, and for
  anybody but the sequencer they always do.
- The address that marks a deposit's sender never enters the tree. `Semantics.ZeroAddressCanHold` has a
  deposit to it that puts it there, and proves that from an empty ledger it is there if and only if
  some payment or deposit names it as receiver.

## Model

| member | source | states |
|---|---|---|
| Addresses.CommonPrefixIsFirstDivergence | crates/payment-rollup/src/merkle.rs:46-62 | The byte-level prefix length is the least bit index at which two addresses differ, and the full depth exactly when they are equal |
| Addresses.CommonPrefixSymmetric | crates/payment-rollup/src/merkle.rs:54-62 | Which address comes first does not matter |
| Addresses.CommonPrefixLength | crates/payment-rollup/src/merkle.rs:54-62 | The byte loop with its exclusive-or and leading zeros computes that index |
| MerkleTree.SplitHoldsBoth | crates/payment-rollup/src/merkle.rs:173-201 | Splitting two addresses builds a canonical subtree holding exactly the two |
| MerkleTree.InsertUpdates | crates/payment-rollup/src/merkle.rs:106-131 | Insert keeps every cached hash, path and branch in order and is map update on the contents |
| MerkleTree.RemoveDeletes | crates/payment-rollup/src/merkle.rs:134-168 | Remove with its collapse keeps the shape canonical and is map delete on the contents |
| MerkleTree.ContentsDetermineTree | crates/payment-rollup/src/merkle.rs:231-243 | Two canonical trees with the same accounts are the same tree |
| MerkleTree.HashDeterminesTree | crates/payment-rollup/src/merkle.rs:83-104 | Two canonical trees with the same hash are the same tree |
| MerkleTree.RootInjective | crates/payment-rollup/src/merkle.rs:231-260 | A root commits to one account map |
| MerkleTree.InsertIntoRoot | crates/payment-rollup/src/merkle.rs:262-267 | Writing an account moves the root to that of the updated map |
| MerkleTree.RemoveFromRoot | crates/payment-rollup/src/merkle.rs:262-267 | Clearing a slot moves the root to that of the map without it |
| MerkleTree.WritesTrackMap | crates/payment-rollup/src/merkle.rs:262-267 | Any list of writes and clears leaves the tree of the map they leave |
| MerkleTree.RootIgnoresWriteOrder | crates/payment-rollup/src/merkle.rs:231-243 | Two histories of writes that leave the same accounts leave the same root |
| SparseMerkleTrees.Branch.Rehash | crates/payment-rollup/src/merkle.rs:83-87 | The cached hash is brought up to date with the children |
| SparseMerkleTrees.InsertNode | crates/payment-rollup/src/merkle.rs:106-131 | The in-place insert leaves the tree value that inserting gives |
| SparseMerkleTrees.RemoveNode | crates/payment-rollup/src/merkle.rs:134-148 | The in-place remove leaves the tree value that removing gives |
| SparseMerkleTrees.CollapseNode | crates/payment-rollup/src/merkle.rs:155-168 | A branch left with one leaf becomes that leaf, with none becomes empty, else is rehashed |
| SparseMerkleTrees.SplitNodes | crates/payment-rollup/src/merkle.rs:173-201 | The loop from the divergence up builds the split tree value |
| SparseMerkleTrees.ProveNode | crates/payment-rollup/src/merkle.rs:205-228 | The descent pushes the siblings of the path and finds its slot |
| SparseMerkleTrees.SparseMerkleTree.Root | crates/payment-rollup/src/merkle.rs:257-260 | The root is the one the contents commit to |
| SparseMerkleTrees.SparseMerkleTree.Update | crates/payment-rollup/src/merkle.rs:262-267 | Update is map update or delete on the contents, and keeps the tree valid |
| SparseMerkleTrees.SparseMerkleTree.Proof | crates/payment-rollup/src/merkle.rs:271-276 | A proof is the one the canonical tree of the contents gives |
| MerkleProofs.SplitAgreement | crates/payment-rollup/src/merkle.rs:343-366 | Down to the divergence the verifier's two-leaf subtree hash is the hash of the split tree, whichever address comes first |
| MerkleProofs.ProveReproduces | crates/payment-rollup/src/merkle.rs:205-228 | An honest proof folds back to the hash of the subtree it was taken from, at a depth the address space allows |
| MerkleProofs.WitnessBinding | crates/payment-rollup/src/merkle.rs:331-427 | If any siblings and slot with any old account reach a map's root, the map holds exactly that account there, and writing through the same proof reaches the updated map's root, a neighbour slot beside a present account included |
| MerkleProofs.HonestProofVerifies | crates/payment-rollup/src/merkle.rs:271-276 | The proof a tree gives verifies what the tree holds, present or absent |
| MerkleProofs.ProofsAreExact | crates/payment-rollup/src/merkle.rs:434-441 | Some proof verifies a claim about a slot exactly when the map satisfies it |
| MerkleProofs.ComputeSubtreeWithBoth | crates/payment-rollup/src/merkle.rs:343-366 | The upward loop computes the two-leaf subtree hash |
| MerkleProofs.ComputeRoot | crates/payment-rollup/src/merkle.rs:381-427 | The bottom-up loop computes the root a proof implies, or none if malformed |
| Transactions.BytesToSignInjective | crates/payment-rollup/src/lib.rs:171-206 | One signing message means one transaction, kind, deployment and nonce |
| Semantics.RunConserves | crates/payment-rollup/src/lib.rs:1092-1134 | Over any batch, balances plus payouts come to what they were plus deposits, for every aliasing of sender, receiver and fee sink |
| Semantics.PayoutsAreDeliverable | crates/payment-rollup/src/lib.rs:1227-1286 | Every payout a batch queues is at least the minimum withdrawal |
| Semantics.ApplyMoves | crates/payment-rollup/src/lib.rs:1092-1134 | However sender, receiver and fee sink coincide, a transaction is valid exactly when its sender has an account, a nonce left and enough for amount and fee, a withdrawal reaches the minimum, and nobody would end with more than a u64; each balance then changes by what that address receives less what it spends, and each nonce by one at the spender alone |
| Semantics.ApplyPays | crates/payment-rollup/src/lib.rs:1227-1286 | A withdrawal pays its amount to its recipient, a forced one the whole balance to its own if that reaches the minimum, and nothing else pays |
| Semantics.RunAccounts | crates/payment-rollup/src/lib.rs:1103-1134 | Accounts never disappear, keep their own authority, and have the nonce their spends count |
| Semantics.RunHolds | crates/payment-rollup/src/lib.rs:1117-1134 | An address holds an account after a list exactly when it did before or something in the list credits it |
| Semantics.ZeroAddressCanHold | crates/payment-rollup/src/lib.rs:58-69 | A deposit can give the marker address an account; from nothing it has one exactly when some payment or deposit names it as receiver |
| Semantics.RunNonces | crates/payment-rollup/src/lib.rs:348-355 | The nonces one account's spends use only rise |
| Semantics.SignedNoncesRise | crates/payment-rollup/src/lib.rs:1103-1108 | Each signed spend covers a nonce above where its sender stood, and no sender's is used twice |
| Semantics.MessagesAreDistinct | crates/payment-rollup/src/lib.rs:385-402 | No two signed spends of a batch sign the same message |
| Chains.InboxChainBinds | crates/payment-rollup/src/lib.rs:914-922 | With both ends of an inbox chain fixed, the items between are determined |
| Chains.WithdrawalChainBinds | crates/payment-rollup/src/lib.rs:980-985 | A payout chain names one list of payouts in one domain |
| Chains.ComputeWithdrawalLinks | crates/payment-rollup/src/lib.rs:1005-1023 | The backward loop yields the links in payment order, and the chain's head |
| Chains.CommitmentIsPostedBytes | crates/payment-rollup/src/lib.rs:1361-1435 | If chunks taken one by one under a declared length reach the commitment of some bytes, they add up to those bytes and the domains agree |
| Chains.PostedIsCanonicalCut | crates/payment-rollup/src/lib.rs:1349-1359 | Chunks of the sizes their positions allow are the canonical cut of what they add up to |
| Chains.CanonicalCutPosts | contracts/contracts/rollup-verifier.algo.ts:1250-1258 | The canonical cut of any bytes passes the contract's size checks |
| Chains.ComputeBatchCommitment | crates/payment-rollup/src/lib.rs:1427-1435 | The guest's loop over whole bytes computes the commitment of the canonical cut |
| Replay.ReplayBatch | crates/payment-rollup/src/lib.rs:1169-1295 | The replay loop over the running root, inbox chain and payouts |
| Replay.DebitIsTake | crates/payment-rollup/src/lib.rs:1092-1115 | A debit accepted at a map's root was signed, affordable, and moves to the debited map's root |
| Replay.CreditIsGive | crates/payment-rollup/src/lib.rs:1117-1134 | A credit accepted at a map's root moves to the credited map's root, creating the account only if it is absent |
| Replay.ReplaySoundness | crates/payment-rollup/src/lib.rs:1138-1295 | Whatever the sidecar holds, an accepted replay lands on the root of the map the plain semantics gives, with its inbox chain and its payout chain, each spend signed for |
| Replay.SidecarCannotSteer | crates/payment-rollup/src/lib.rs:719-724 | Two sidecars accepted for one batch give the same result |
| Replay.ReplayCompleteness | crates/payment-rollup/src/lib.rs:1169-1295 | Every valid and signed list replays from its builder's witnesses, to exactly what it means |
| Replay.ReplayIsExact | crates/payment-rollup/src/lib.rs:1169-1295 | Some sidecar makes a batch replay exactly when the batch is valid and there is, for each spend that needs one, a signature by the key that speaks for its sender over that spend at its nonce |
| Replay.SpendsAreSigned | crates/payment-rollup/src/lib.rs:618-646 | In an authorised run each signed spend carries a signature by the key that speaks for its sender, over that spend's own message |
| Replay.AuthorizedIfSigned | crates/payment-rollup/src/lib.rs:618-646 | A valid spend is authorised exactly by a signature whose key derives its sender's authority and which is managed or passes its scheme's check of that spend's message |
| Replay.SignedIsEachSigned | crates/payment-rollup/src/lib.rs:1103-1108 | A valid list is signed, each spend at its own moment, exactly when each of its spends is signed by the key that speaks for its sender at the start |
| Replay.FalseWitnessesRefused | crates/payment-rollup/src/lib.rs:1101-1125 | A debit or credit whose witness misstates the account is refused as stale or malformed, whatever else is wrong |
| Replay.DebitAnswers | crates/payment-rollup/src/lib.rs:1092-1115 | With a true witness a debit fails on the first of: no sender, no nonce, the wrong key, a bad signature, too little money; and otherwise gives the debited map's root |
| Replay.CreditAnswers | crates/payment-rollup/src/lib.rs:1117-1134 | With a true witness a credit fails only of overflow, and otherwise gives the credited map's root |
| Replay.ReportedPayoutsAreCommitted | crates/payment-rollup/src/lib.rs:1311-1331 | The reported payouts of an accepted replay are those its withdrawal chain commits to |
| Ledgers.Ledger.constructor | crates/payment-rollup/src/lib.rs:1593-1613 | A new ledger is empty, valid and at the genesis chain |
| Ledgers.Ledger.StateRoot | crates/payment-rollup/src/lib.rs:1647-1649 | The root commits to exactly the accounts |
| Ledgers.Ledger.InsertAccount | crates/payment-rollup/src/lib.rs:1628-1631 | Map and tree are written together |
| Ledgers.Ledger.Debit | crates/payment-rollup/src/lib.rs:1795-1825 | Succeeds exactly when the sender can spend the amount and fee and the key that speaks for it signed this spend at its next nonce; debits; returns the witness from before |
| Ledgers.Ledger.Credit | crates/payment-rollup/src/lib.rs:1827-1846 | Succeeds exactly when nothing overflows; credits; returns the witness from before |
| Ledgers.Ledger.IncludePayment | crates/payment-rollup/src/lib.rs:1675-1700 | A payment's three writes, with the witnesses each took, self-payments and the fee sink included |
| Ledgers.Ledger.IncludeDeposit | crates/payment-rollup/src/lib.rs:1701-1711 | A deposit's credit and its inbox link |
| Ledgers.Ledger.IncludeWithdrawal | crates/payment-rollup/src/lib.rs:1712-1738 | A withdrawal's minimum, debit and fee |
| Ledgers.Ledger.IncludeForced | crates/payment-rollup/src/lib.rs:1739-1774 | A forced withdrawal empties the account or, below the minimum, is consumed without effect |
| Ledgers.Ledger.GetBlock | crates/payment-rollup/src/lib.rs:1663-1793 | Succeeds exactly on valid lists whose every spend is signed by the key that speaks for its sender, leaves the accounts they mean, and returns the block they make |
| Ledgers.BuiltBlocksVerify | crates/payment-rollup/src/lib.rs:1564-1581 | Every built block verifies with no access to the ledger |
| Ledgers.BlocksVerifyExactly | crates/payment-rollup/src/lib.rs:1564-1581 | A block from a map's root verifies exactly when its sidecar replays its batch and its new root, inbox chain and payout chain are those the batch means there; a replayed block with any other claim is a root mismatch |
| Varint.VarintIsExact | crates/payment-rollup/src/codec.rs:120-195 | A varint is read exactly from a terminated string of at most ten base-128 digits spelling a u64, minimal or not |
| Varint.VarintRoundTrip | crates/payment-rollup/src/codec.rs:125-137 | Reading inverts writing on every u64, with anything after it |
| Varint.DigitFits | crates/payment-rollup/src/codec.rs:181-187 | The overflow test admits a digit exactly when the value stays within a u64 |
| BatchCodec.AddressRoundTrip | crates/payment-rollup/src/codec.rs:246-290 | A reference or literal reads back as its address, and the two dictionaries stay in step |
| BatchCodec.TxnRoundTrip | crates/payment-rollup/src/codec.rs:345-370 | Each kind reads back, dictionaries stay in step, L1 recipients never enter them, and it takes at least three bytes |
| BatchCodec.BatchRoundTrip | crates/payment-rollup/src/codec.rs:335-435 | Every batch with constructor headers survives the wire |
| BatchCodec.DecodedHeaders | crates/payment-rollup/src/codec.rs:401-427 | Whatever decodes has constructor headers and the count announced |
| BatchCanon.ShortestIsWritten | crates/payment-rollup/src/codec.rs:120-137 | Of all the spellings of a number the one written is the one whose last digit counts |
| BatchCanon.AddressCanon | crates/payment-rollup/src/codec.rs:246-290 | An address re-encodes to what it was read from exactly when it was a short reference, or a literal not met before |
| BatchCanon.TxnCanon | crates/payment-rollup/src/codec.rs:391-429 | So does a transaction of any kind, exactly when each of its fields does |
| BatchCanon.ReencodingIsExact | crates/payment-rollup/src/codec.rs:335-435 | Decoding then encoding gives the bytes back if and only if every number is as short as it can be and no address is written out twice |
| BatchCanon.DecodingIsNotCanonical | crates/payment-rollup/src/codec.rs:11-15 | A padded count and a repeated literal both decode, and neither is what encoding the batch writes |
| SidecarCodec.WitnessRoundTrip | crates/payment-rollup/src/codec.rs:438-512 | A witness no deeper than the tree survives the wire |
| SidecarCodec.SignatureRoundTrip | crates/payment-rollup/src/codec.rs:475-485 | A signature survives the wire, scheme identifier included |
| SidecarCodec.SidecarRoundTrip | crates/payment-rollup/src/codec.rs:553-640 | A sidecar in the shape its batch demands survives the wire |
| SidecarCanon.SidecarReencodingIsExact | crates/payment-rollup/src/codec.rs:553-640 | A decoded sidecar has the shape its batch calls for, and encodes back to the bytes it was read from if and only if no length or depth in them was padded |
| SidecarCanon.ShapedIsDecodable | crates/payment-rollup/src/codec.rs:598-640 | The sidecars some bytes decode to for a batch are exactly those of the shape it calls for, depth bound and fee witnesses included |
| Framing.BatchesArePrefixFree | crates/payment-rollup/src/codec.rs:382-435 | Bytes that decode to a batch stop decoding when cut short anywhere, and with anything added fail for exactly that |
| Framing.SidecarsArePrefixFree | crates/payment-rollup/src/codec.rs:598-640 | So do bytes that decode to a sidecar for a given batch |
| Wire.Buffer.WriteVarint | crates/payment-rollup/src/codec.rs:125-137 | The loop appends the varint, continuation bits set by bitwise or |
| Wire.Dictionary.Put | crates/payment-rollup/src/codec.rs:253-266 | Appends a reference or a literal, and records a new address at the next position |
| Wire.Dictionary.PutTransaction | crates/payment-rollup/src/codec.rs:342-372 | Appends one transaction of each kind, updating the dictionary |
| Wire.Encode | crates/payment-rollup/src/codec.rs:335-375 | The encoding loop produces the batch's bytes |
| Wire.Reader.Number | crates/payment-rollup/src/codec.rs:177-195 | The loop, joining digits by bitwise or, reads what adding them up by position reads, and no shift overflows |
| Wire.Reader.Count | crates/payment-rollup/src/codec.rs:210-221 | A count the input cannot back is refused |
| Wire.DictionaryReader.Take | crates/payment-rollup/src/codec.rs:274-290 | Reads a literal into the dictionary, or an address already in it, or fails |
| Wire.DictionaryReader.TakeTransaction | crates/payment-rollup/src/codec.rs:391-429 | Reads one transaction of each kind, updating the dictionary |
| Wire.Decode | crates/payment-rollup/src/codec.rs:382-435 | The decoding loop answers as the parser does, each error included |
| SidecarWire.WriteWitness | crates/payment-rollup/src/codec.rs:438-461 | Appends a witness |
| SidecarWire.Encode | crates/payment-rollup/src/codec.rs:553-594 | The encoding loop produces the sidecar's bytes |
| SidecarWire.ReadWitness | crates/payment-rollup/src/codec.rs:487-515 | Reads a witness, refusing one too deep |
| SidecarWire.Decode | crates/payment-rollup/src/codec.rs:598-640 | The decoding loop, shaped by the batch, answers as the parser does |
| Guest.RunGuest | crates/payment-rollup/src/lib.rs:1535-1557 | Both decoders, the replay loop and the commitment loop compute what a proof exposes |
| Execution.ExecutionSoundness | crates/payment-rollup/src/lib.rs:1469-1557 | Started from the root of an account map, the batch bytes alone fix all six words, they are those of the plain semantics, and every spend in them was signed for |
| Execution.HonestEntriesShaped | crates/payment-rollup/src/codec.rs:598-640 | Every sidecar the ledger builds has the shape its batch demands, depth bound included |
| Execution.MisalignmentIsCaughtDecoding | crates/payment-rollup/src/lib.rs:235-246 | No bytes make the guest fail for a sidecar of the wrong length or an entry of the wrong kind: decoding has ruled both out |
| Execution.BuiltBlocksExecute | crates/payment-rollup/src/lib.rs:1535-1557 | Both halves of every built block, encoded, execute to exactly the block's roots, chains and commitment |
| Execution.ExecutionIsExact | crates/payment-rollup/src/lib.rs:1535-1557 | From a map's root some private input makes the guest finish on given batch bytes if and only if they decode to transactions valid there with a good signature for each spend |
| RollupVerifiers.RollupVerifier.constructor | contracts/contracts/rollup-verifier.algo.ts:403-427 | The contract starts at the empty ledger with the invariant in place |
| RollupVerifiers.RollupVerifier.Deposit | contracts/contracts/rollup-verifier.algo.ts:558-603 | Accepts exactly a payment above the measured box price, records it, extends chain and cursor |
| RollupVerifiers.RollupVerifier.Request | contracts/contracts/rollup-verifier.algo.ts:636-706 | Accepts exactly a signed request at the expected nonce paying the box price |
| RollupVerifiers.RollupVerifier.Prune | contracts/contracts/rollup-verifier.algo.ts:721-775 | Returns the price of a settled deposit's box, or of a settled or escaped request's |
| RollupVerifiers.RollupVerifier.Reclaim | contracts/contracts/rollup-verifier.algo.ts:796-823 | After an escape returns an unsettled deposit and its box price |
| RollupVerifiers.RollupVerifier.PayNext | contracts/contracts/rollup-verifier.algo.ts:864-888 | Makes the next payout of the chain, crediting the sequencer's own |
| RollupVerifiers.RollupVerifier.Climb | contracts/contracts/rollup-verifier.algo.ts:966-988 | The bottom-up loop over sibling bytes computes the root the path implies |
| RollupVerifiers.RollupVerifier.Exit | contracts/contracts/rollup-verifier.algo.ts:926-1014 | Pays an account proved under the frozen root, once, less its record's measured price |
| RollupVerifiers.RollupVerifier.Signal | contracts/contracts/rollup-verifier.algo.ts:1047-1071 | Signals exactly when the head of the inbox is stale |
| RollupVerifiers.RollupVerifier.Credit | contracts/contracts/rollup-verifier.algo.ts:1088-1101 | Counts obligations, buying at most one window a call |
| RollupVerifiers.RollupVerifier.Execute | contracts/contracts/rollup-verifier.algo.ts:1122-1142 | Freezes exactly once the deadline has passed |
| RollupVerifiers.RollupVerifier.CouncilEscape | contracts/contracts/rollup-verifier.algo.ts:430-452 | The council freezes at once |
| RollupVerifiers.RollupVerifier.Abandon | contracts/contracts/rollup-verifier.algo.ts:1159-1173 | The creator drops the open batch |
| RollupVerifiers.RollupVerifier.Open | contracts/contracts/rollup-verifier.algo.ts:1189-1227 | Seals a prefix of the pending inbox and starts the accumulator |
| RollupVerifiers.RollupVerifier.Accumulate | contracts/contracts/rollup-verifier.algo.ts:1236-1263 | Takes exactly the chunk size the position allows |
| RollupVerifiers.RollupVerifier.VerifyBatch | contracts/contracts/rollup-verifier.algo.ts:1310-1415 | Settles exactly when every comparison holds, and answers or credits an accusation |
| RollupVerifiers.RollupVerifier.Apply | contracts/contracts/rollup-verifier.algo.ts:558-1415 | Any call keeps the invariant, and is one step of the model or changes nothing |
| SettlementStep.SettlementIsExact | contracts/contracts/rollup-verifier.algo.ts:1355-1389 | Words that pass the comparisons mean: the posted bytes decode to transactions valid on the settled ledger, signed for throughout, whose inbox items are the sealed stretch |
| SettlementStep.SettlementBooks | contracts/contracts/rollup-verifier.algo.ts:1384-1393 | Settling moves value between deposits, balances and payouts without changing what is owed |
| SettlementStep.SettleKeeps | contracts/contracts/rollup-verifier.algo.ts:1310-1415 | Settling keeps the invariant |
| Permissions.BatchesAreSettled | contracts/contracts/rollup-verifier.algo.ts:1310-1415 | A batch settles exactly when the sequencer brings it, in time and with room on the clock, with the declared length posted and the words those of the settled ledger, the posted bytes and the sealed stretch |
| Permissions.GoodBatchesCanSettle | contracts/contracts/rollup-verifier.algo.ts:1310-1415 | There is evidence that settles the open batch if and only if it is the sequencer, in time, with everything posted, and the posted bytes mean transactions valid on the settled ledger, each spend signed, whose inbox items are the sealed stretch |
| Permissions.ChunksAreAccepted | contracts/contracts/rollup-verifier.algo.ts:1236-1263 | A chunk is taken exactly from the sequencer, into an open batch with bytes still to come, at the size what is left calls for |
| Permissions.BatchesAreAbandoned | contracts/contracts/rollup-verifier.algo.ts:1159-1173 | The open batch is dropped by the sequencer alone, and nothing else changes |
| Permissions.OthersCannotSettle | contracts/contracts/rollup-verifier.algo.ts:1316-1319 | A call by anybody but the sequencer moves neither root nor settled inbox, and leaves the open batch alone unless it is an escape |
| Permissions.NothingSettlesWithoutSequencer | contracts/contracts/rollup-verifier.algo.ts:1189-1415 | Nor does any run of such calls |
| Permissions.PayoutsAreMade | contracts/contracts/rollup-verifier.algo.ts:864-888 | A payout is made exactly when it is the next one the last batch owes, with the tail of the rest, and a sequencer's credit fits the clock |
| Permissions.EscapesHaveACause | contracts/contracts/rollup-verifier.algo.ts:430-452 | A call turns the rollup escaped exactly when it is the council's own or carries out an accusation past its deadline |
| Permissions.CausesAreAccepted | contracts/contracts/rollup-verifier.algo.ts:1122-1128 | Either kind of escape succeeds exactly when it has that cause, whoever carries out the second |
| Permissions.EscapedOnlyByCause | contracts/contracts/rollup-verifier.algo.ts:430-452 | A run ends escaped if and only if some call in it was one of the two causes |
| Guarantees.StepKeeps | contracts/contracts/rollup-verifier.algo.ts:558-1415 | No call by anyone with any arguments breaks the invariant |
| Guarantees.RunsKeep | contracts/contracts/rollup-verifier.algo.ts:558-1415 | Nor does any run of calls |
| Guarantees.SettledRootCommits | contracts/contracts/rollup-verifier.algo.ts:1384-1389 | In every run the settled root commits to exactly the accounts the history of settlements gives |
| Guarantees.EveryRunIsSolvent | contracts/contracts/rollup-verifier.algo.ts:558-1014 | The app always holds its minimum balance, every balance not exited, every deposit not credited or refunded, and every payout not made |
| Guarantees.DepositsAreAccepted | contracts/contracts/rollup-verifier.algo.ts:558-603 | A deposit is taken exactly when the rollup has not escaped, it pays the app more than a box's price, and an index is left |
| Guarantees.RequestsAreAccepted | contracts/contracts/rollup-verifier.algo.ts:636-706 | A request is taken exactly when the rollup has not escaped, it pays a box's price, names the next nonce, and is signed by the key its account's address derives from |
| Guarantees.PayoutsNeverFallShort | contracts/contracts/rollup-verifier.algo.ts:864-888 | A payout with the right tail is made, to anyone, exactly when the sequencer's credit fits the clock |
| Guarantees.RefundsNeverFallShort | contracts/contracts/rollup-verifier.algo.ts:721-823 | Each refund succeeds exactly where its guards hold and its payer can receive what is refunded, never short of funds |
| Disbursements.RefundsGoToOpener | contracts/contracts/rollup-verifier.algo.ts:588-596 | In every run what a reclaim or a prune sends goes to the account whose payment opened the entry, deposit or request: a box's price, and with a reclaim the deposit |
| Disbursements.EveryPaymentIsOwed | contracts/contracts/rollup-verifier.algo.ts:718-1014 | In every run the payments made, in order, are exactly the payouts settled batches named, the refunds of entries to those who opened them, and the settled balances of those who exited to the recipients they named |
| Guarantees.ExitsNeverFallShort | contracts/contracts/rollup-verifier.algo.ts:926-1014 | An exit succeeds exactly when it proves its leaf, covers its record and its recipient can receive the rest |
| ExitRights.ExitsAreAccepted | contracts/contracts/rollup-verifier.algo.ts:926-1014 | An exit is paid exactly when the rollup has escaped, the account is the settled one and has not left, its own key signed the recipient, the path leads to the settled root, it is worth more than its record and the recipient can receive; only its record, the balance and that payment change |
| ExitRights.ExitsWereSigned | contracts/contracts/rollup-verifier.algo.ts:948-958 | In every run each exit on record was claimed with a signature by the account's own key over that account and recipient |
| ExitRights.HolderProvesOwn | crates/payment-rollup/src/merkle.rs:205-228 | A tree proves an account it holds at the account's own leaf, the only slot an exit can use |
| ExitRights.SiblingsReadBack | contracts/contracts/rollup-verifier.algo.ts:970-988 | The contract reads back the siblings a proof was written with |
| ExitRights.EveryHolderCanExit | contracts/contracts/rollup-verifier.algo.ts:890-901 | After an escape every account worth more than its record gets its whole balance out on its key alone, with a proof made from the settled ledger |
| ExitRights.AnybodyCanLeave | contracts/contracts/rollup-verifier.algo.ts:1017-1142 | From any state with a stale entry an accusation, the escape and a holder's exit, made by anybody past the two timeouts, all succeed with no call by the sequencer |
| ExitRights.RequestAndExitKeysAgree | contracts/contracts/rollup-verifier.algo.ts:621-627 | A key whose request is accepted for a settled account is the one its leaf names, and a key whose exit is accepted is the one a request asks for |
| ExactBooks.StepBooks | contracts/contracts/rollup-verifier.algo.ts:558-1415 | A call changes what the app holds beyond what it owes by donations and payments to itself, and by nothing else |
| ExactBooks.BooksCloseExactly | contracts/contracts/rollup-verifier.algo.ts:792-795 | After every run the app holds exactly what it owes, what it was created with and what it was given: nothing leaks and nothing is stranded |
| Guarantees.InboxIsConsumedExactly | contracts/contracts/rollup-verifier.algo.ts:1370-1388 | Settled batches consume consecutive stretches of the inbox from its start, in order and exactly; their bytes decode to the settled transactions, and rebuilt from an empty ledger they give the accounts the root commits to |
| Guarantees.RecordRebuildsLedger | crates/payment-rollup/src/lib.rs:1461-1463 | In every run the settled bytes alone, decoded and run in order, give back the accounts under the root, the transactions and every batch's payouts |
| Guarantees.HeadIsOldest | contracts/contracts/rollup-verifier.algo.ts:1053-1063 | Until an escape the head of the queue is present and nothing pending is older |
| Disbursements.StaleIsAccused | contracts/contracts/rollup-verifier.algo.ts:1047-1071 | Under the invariant an escape can be signalled exactly when none is pending and something unsettled was accepted more than the timeout ago, and it sets the deadline and target from this call |
| Disbursements.FreshIsNotAccused | contracts/contracts/rollup-verifier.algo.ts:1059-1063 | So in every run, by the rounds of the calls that made the entries: nothing fresh is ever accused |
| Guarantees.AnyPrefixSeals | contracts/contracts/rollup-verifier.algo.ts:1189-1227 | Until an escape every prefix of the pending inbox can be sealed, and its checkpoint is its fold |
| Guarantees.PayoutsAreAPrefix | contracts/contracts/rollup-verifier.algo.ts:864-888 | Payments since the last settlement are a prefix, in order and each once, of what the last batch's bytes pay when the record is rebuilt, and no batch is open while any remain |
| Guarantees.LinksDrain | crates/payment-rollup/src/lib.rs:1005-1023 | The links drain the chain in exactly as many calls as there are payouts, if and only if the windows the sender's payouts buy fit the clock |
| Guarantees.SettledBytesWerePosted | contracts/contracts/rollup-verifier.algo.ts:1366-1369 | Whenever a batch settles, the chunks posted since it was opened are the bytes the proof replayed |
| Guarantees.StretchesPartition | contracts/contracts/rollup-verifier.algo.ts:1384-1389 | Consecutive stretches cover each inbox index once |
| Guarantees.DepositsArePartitioned | contracts/contracts/rollup-verifier.algo.ts:755-823 | Each deposit is consumed by one settled batch, or refunded once, or pending, and exactly one of these; it can be reclaimed exactly when pending after an escape |
| Guarantees.NothingLeavesBeforeEscape | contracts/contracts/rollup-verifier.algo.ts:796-823 | Before an escape nothing is refunded and nobody exits |
| Guarantees.EscapeIsFinal | contracts/contracts/rollup-verifier.algo.ts:1122-1142 | After an escape no run moves the root, the settled cursor, the inbox or what was owed |
| Guarantees.ExitsPayOnceAndExactly | contracts/contracts/rollup-verifier.algo.ts:926-1014 | No address exits twice, and each exit is the balance the frozen root commits to |
| Guarantees.DeadlinesArePaidFor | contracts/contracts/rollup-verifier.algo.ts:1047-1101 | A live accusation is whole, keeps its target, and has a deadline of one grace window plus one for each 256 obligations discharged, its progress being what was discharged since the last window |
| Accounting.ClockCountsObligations | contracts/contracts/rollup-verifier.algo.ts:1079-1101 | While an accusation stands its progress and deadline are exactly what the entries settled and the sequencer's payouts made since the signal come to, call by call, each window taking a call's remainder with it |
| Accounting.AccusationsLast | contracts/contracts/rollup-verifier.algo.ts:1047-1142 | An accusation starts only with a signal, when there is none, and stands exactly until the entries it found are settled or the rollup escapes |
| Accounting.WindowsAreWorkedFor | contracts/contracts/rollup-verifier.algo.ts:1047-1101 | While an accusation stands, at 256 obligations a window its extensions come to no more than the entries settled and the sequencer's payouts made since the signal, both counted from the calls |
| Accounting.RequestCursorCounts | contracts/contracts/rollup-verifier.algo.ts:663-705 | The request nonce is the number of requests accepted, and never goes back |
| Accounting.RequestsNeverShareAMessage | contracts/contracts/rollup-verifier.algo.ts:628-631 | No two requests accepted in a run are signed by one message |
| Accounting.RequestMessageInjective | contracts/contracts/rollup-verifier.algo.ts:674-683 | Equal request messages have the same deployment domain, nonce, account and recipient |
| Accounting.ExitMessageInjective | contracts/contracts/rollup-verifier.algo.ts:948-958 | Equal exit messages have the same deployment domain, account and recipient |
| Accounting.PurposesNeverMix | contracts/contracts/rollup-verifier.algo.ts:628-631 | No message is signed for two of a spend, a request and an exit, in any deployments |
| DueEscapes.DueStep | contracts/contracts/rollup-verifier.algo.ts:1088-1142 | Of all calls on a due escape only the two escapes and a reopening payout by the sequencer leave it not due, and none settles |
| DueEscapes.DueUntilReopened | contracts/contracts/rollup-verifier.algo.ts:1088-1142 | Through any run a due escape stays due until carried out if and only if no payout by the sequencer reopens it, and meanwhile nothing settles |
| Reopening.DueEscapeCanReopen | contracts/contracts/rollup-verifier.algo.ts:883-885 | In any deployment with a grace period and room on the clock some run reaches a due escape and a late payout that closes it |
| Reopening.ClockCanRunOut | contracts/contracts/rollup-verifier.algo.ts:1095-1097 | Where a second window does not fit the clock some run leaves the sequencer refused the payout it owes, while anybody else can make it |
| Reopening.ExamplesExist | contracts/contracts/rollup-verifier.algo.ts:403-427 | Both happen in two deployments given in full |
| Guarantees.ReachableAccounts | contracts/contracts/rollup-verifier.algo.ts:621-627 | Under every settled root each account's authority is its address, its nonce counts its spends, and totals match deposits less payouts |
| Guarantees.NoSignatureServesTwice | crates/payment-rollup/src/lib.rs:171-206 | In every run each settled signed spend carried a good signature by its sender's key, and no two of those spends share a message |
| EndToEnd.ChunksAreTaken | contracts/contracts/rollup-verifier.algo.ts:1236-1263 | The canonical chunks are all accepted |
| EndToEnd.HonestSequencerSettles | contracts/contracts/rollup-verifier.algo.ts:1189-1415 | From any reachable ready state, a built block over the next stretch of the inbox is opened, posted, settled, and lands on the ledger's own root owing its payouts |
| Answering.InboxCanBeConsumed | crates/payment-rollup/src/lib.rs:488-507 | For every prefix of the pending inbox the plain answers to it run on the settled ledger, have exactly those items, and need no signature |
| EndToEnd.HonestCycleCompletes | contracts/contracts/rollup-verifier.algo.ts:864-1415 | Settling such a block and offering its links, whoever offers them, pays every payout in order and once and leaves nothing owed, if and only if the windows bought fit the clock |

## Left out

- How hashes and signatures are computed: idealised as above.
- Groth16 verification, the verifier signature, the verification-key and signal checks of `verifyBatch`: replaced by the premise that presented words come from the guest.
- The council's delayed changes of verifier and of program: timelocks that touch none of the modelled state.
- What the network charges and how it packs calls (fees, opcode allowances, `opUp`, argument encoding): no state in the model depends on them.
- How the deployment domain is computed, and the test deployment's fixed one: the domain is any 32 bytes, the same for contract and ledger in `EndToEnd`.
- The TypeScript client, the prover host and the guest wrapper, scenarios and reporting: I/O around what is modelled.
- The key model behind the managed scheme: its check always passes.
- Leaving the mempool type: `SignedTransaction` is modelled, but `create_account`, `account` and the getters are not.
- 32-bit `usize`: a count no machine word holds is refused by the same check as one the input cannot back, with the same error.
- Batches of 2^63 or more transactions, keys or signatures of 2^64 or more bytes: no machine holds one, and the round trips exclude them.
- The state a ledger is left in by a panic: the original abandons it.
- Ghost history in `RollupVerifiers.RollupVerifier`: the contract keeps no history; the field exists to state what runs guarantee.
- HonestSequencerSettles: the sequencer's call must come before any live deadline and its credit must fit the clock, since the code refuses it otherwise.
- MisalignmentIsCaughtDecoding: assumes the signature schemes' own checks return only errors about keys and signatures, which the schemes, not part of this model, do.
- ExecutionIsExact: assumes the digests an honest sidecar would hold read back from the wire as themselves, as does GoodBatchesCanSettle; signatures of 2^64 or more bytes are excluded.
- EveryHolderCanExit: assumes the digests on the holder's own path read back from the wire as themselves, as does AnybodyCanLeave.
- InboxCanBeConsumed: assumes the app's balance is a 64-bit integer, as every balance on the settlement chain is, and that no account is within the prefix's length of its last nonce, since the code rejects a spend there.
- An account whose key nobody can check on the settlement chain, managed or hybrid, can neither request nor exit there: the code supports Ed25519 only, and so does the model.
