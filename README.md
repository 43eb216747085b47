# Batch airdrop claimer — Dafny model

This project models the core of a Solana script that claims a token airdrop
for many wallets in one transaction (`main.ts`). The script first
de-duplicates the loaded wallets by public key. It then appends a separate
fee payer to the signer list. Finally it builds one transaction:

- two compute-budget instructions: a limit of 200,000 units, then a price of
  10,000,000 micro-lamports per unit;
- for every wallet other than the payer, in input order, an idempotent
  "create associated token account" instruction funded by the payer,
  followed immediately by that wallet's claim instruction.

The claim instruction calls the airdrop program. It has eight accounts in a
fixed order with fixed signer and writable flags, and a constant 27-byte
payload. The transaction is handed over for submission only when it holds at
least three instructions. Otherwise the script returns the message
"No claim instructions are present in the transaction".

Modules:

- `Solana` (`solana.dfy`): the library surface the script uses. It holds
  public keys, keypairs, account metas, an `Instruction` datatype, the
  well-known program ids, and a `Transaction` class whose instruction list
  grows in place.
- `Wallets` (`wallets.dfy`): the `filter`/`findIndex` de-duplication. It
  also holds a one-pass "seen set" reference definition that the filter is
  proved equal to.
- `Instructions` (`instructions.dfy`): the configuration, the associated
  token address, and the two per-wallet instruction builders.
- `Batch` (`batch.dfy`): the specification of the assembled instruction list
  and the lemmas about it. It also holds the imperative assembler
  (`AddComputeBudgetInstructions`, `AddIdempotentInstruction`,
  `AddClaimInstruction` and `ClaimAirdrop`, which loop and append to a
  `Transaction`) and the driver `Run`.

Public keys are compared by their base58 text, as the script compares
`publicKey.toString()`. Program-derived-address derivation is a function
value inside `Config`. Any deterministic function may stand there.

## Model

| member | source | states |
|---|---|---|
| `Wallets.FindIndex` | main.ts:79-81 | `findIndex` returns -1 exactly when the key is absent; otherwise it returns a position holding the key with no earlier position holding it |
| `Wallets.Dedup` | main.ts:77-82 | the `filter` keeps only entries of the input and never lengthens it; the `Dedup*` lemmas below characterise it fully |
| `Wallets.DedupMatchesSeenSet` | main.ts:77-82 | the filter equals a one-pass reference that keeps a keypair exactly when its key was not seen before |
| `Wallets.DedupProperties` | main.ts:77-82 | the de-duplicated list has pairwise-distinct keys, the same key set as the input, and is a subsequence of the input (order preserved) |
| `Wallets.DedupKeepsFirst` | main.ts:77-82 | every surviving keypair is the first keypair in the input carrying its key |
| `Wallets.DedupIdempotent` | main.ts:77-82 | de-duplicating twice gives the same list as once |
| `Wallets.DedupNonEmpty` | main.ts:71-88 | a non-empty list stays non-empty and keeps its first entry, so the "no wallets are eligible" exit can never be reached |
| `Instructions.AssociatedTokenAddress` | main.ts:288-295 | getAssociatedTokenAddressSync: the address derived from seeds [owner, token program, mint] under the associated-token program; its properties are stated by the lemma below and by `IdempotentInstruction` |
| `Instructions.AssociatedTokenAddressInjective` | main.ts:288-295 | the token address is derived from seeds [owner, token program, mint] under the associated-token program; with a collision-free derivation, distinct owners get distinct token addresses |
| `Instructions.ClaimInstruction` | main.ts:213-267 | targets the configured program; exactly 8 accounts; index 2 is the claimant's token address and index 4 the claimant; index 4 is the only signer; writable exactly at 0, 1, 2, 4; 27-byte payload starting with `3e e6 d6 1b 98 5f fe 20` |
| `Instructions.ClaimInstructionsDifferOnlyInClaimant` | main.ts:216-266 | two claims have the same payload and the same accounts at every index except 2 and 4 |
| `Instructions.IdempotentInstruction` | main.ts:272-283 | the creation names the global payer as funder, the wallet as owner and the configured mint, at the same token address that the wallet's claim credits |
| `Batch.BudgetInstructions` | main.ts:199-211 | the budget instructions are the unit limit 200,000 followed by the unit price 10,000,000 micro-lamports |
| `Batch.ClaimPairsSnoc` | main.ts:171-179 | handling one more wallet appends exactly that wallet's step (nothing for the payer, else its creation then its claim) |
| `Batch.ClaimPairsLayout` | main.ts:171-179 | the appended part has length 2k; the j-th claimant's creation is at 2j and its claim at 2j+1, nothing in between |
| `Batch.ClaimantsCount` | main.ts:171-175 | the number of claimants is the list length minus the number of entries holding the payer's key |
| `Batch.ClaimantsMembers` | main.ts:171-175 | a key is a claimant exactly when it occurs in the list and is not the payer's |
| `Batch.ClaimantsInInputOrder` | main.ts:171-179 | claimants appear in input order |
| `Batch.AssembledLayout` | main.ts:169-188 | the transaction has 2 + 2k instructions: the two budget instructions first, then each claimant's creation immediately followed by its claim; it is never empty, and it is shorter than 3 exactly when k = 0 |
| `Batch.PairPresentIffNonPayer` | main.ts:171-179 | an owner's creation (and its claim) is in the transaction exactly when the owner is in the list and is not the payer, so the payer never gets a pair |
| `Batch.ClaimSignersAreClaimants` | main.ts:171-179 | the keys flagged as signers in the appended claims are exactly the claimants |
| `Batch.AssembledSigners` | main.ts:239-243 | the keys flagged as signers in the claim instructions of the whole transaction are exactly the claimants (the creation instructions' flags are not modelled, see Left out) |
| `Batch.CreationsFundedByPayer` | main.ts:278-283 | every token-account creation in the transaction is funded by the payer |
| `Batch.SignerListCoversRequired` | main.ts:190-194 | for the list that is submitted (the de-duplicated wallets plus the payer), its key set equals the flagged claim signers plus the payer, so every required signer is present and no one else signs |
| `Batch.SomeClaimIffNonPayerWallet` | main.ts:77-93 | someone gets a claim exactly when some loaded wallet is not the payer |
| `Batch.AddComputeBudgetInstructions` | main.ts:199-211 | appends the unit-limit instruction, then the unit-price instruction, and changes nothing else |
| `Batch.AddIdempotentInstruction` | main.ts:272-286 | appends the wallet's token-account creation and nothing else |
| `Batch.AddClaimInstruction` | main.ts:213-270 | appends the wallet's claim instruction and nothing else |
| `Batch.ClaimAirdrop` | main.ts:166-197 | when nobody but the payer is in the list, returns the "No claim instructions" message and does not submit; otherwise submits exactly the assembled instruction list with the whole keypair list as signers; the empty-transaction exit is never taken |
| `Batch.Run` | main.ts:71-99 | with no wallets, stops; the "none eligible" exit is never taken; otherwise submits the assembly for the de-duplicated wallets plus the payer exactly when some wallet is not the payer, and returns the message otherwise |

## Left out

- Wallet loading (main.ts:34-69, 102-121) is not modelled. This covers reading the `./wallets` directory, splitting `.txt` files into lines, parsing `.json` files, base58 decoding and `Keypair.fromSecretKey`. These are file I/O and library decoding. `Run` takes the loaded keypair list as a parameter.
- The guard `wallets[0] === "" && wallets.length === 0` (main.ts:41) can never hold. Splitting a string always yields at least one element, and an empty array would make `wallets[0]` undefined. Skipping it only changes a log line, because empty lines are skipped one by one anyway.
- `checkEligibility` (main.ts:123-164) is an HTTP query to a third-party service, and the script does not call it (main.ts:84).
- `Connection`, `sendAndConfirmTransaction`, signing and confirmation (main.ts:21, 190-194) are network operations. `ClaimOutcome.Submit` records what is handed over: the instruction list and the signer list. The returned signature, submission errors and the `.then`/`.catch` reporting (main.ts:93-99) are not modelled.
- The library's signer handling is not modelled. web3.js drops duplicate signers and picks the fee payer itself: by default the first signer passed, which here is the first de-duplicated wallet rather than the payer. The model's signer list keeps the payer twice when a loaded wallet is the payer.
- The internals of `PublicKey.findProgramAddressSync` (SHA-256 hashing, curve check, bump search, the returned bump) are not modelled. The derivation is a function value in `Config`. Collision-freedom is assumed only as the precondition of `AssociatedTokenAddressInjective`.
- Batch.AssembledSigners: states the signer set of the claim instructions only. The account flags of the token library's creation instruction are not modelled; that library flags the funder (the payer) as a signer of every creation, so whenever some wallet gets a claim the payer must also sign. `SignerListCoversRequired` adds the payer to the required set for that reason.
- The byte encodings of `ComputeBudgetProgram.setComputeUnitLimit`, `ComputeBudgetProgram.setComputeUnitPrice` and `createAssociatedTokenAccountIdempotentInstruction` belong to the libraries. They are opaque instruction tags that carry their arguments.
- `0.01 * LAMPORTS_PER_SOL` (main.ts:208) is a floating-point product. It is modelled as the integer 10,000,000, which is the value the float product takes.
- Module-level globals and environment loading (main.ts:21-31) are not modelled. The payer, mint and claim program id are fields of `Config`. Console logging is dropped.
- The `await`s around the builders (main.ts:177-178, 214, 276, 289) wrap synchronous calls. The model is sequential.
- `new PublicKey(...)` does not check its base58 text in the model. Keys are compared as text.

## Notes on the script's behaviour

- **Claim payload.** The 27-byte claim payload is kept as an 8-byte discriminator plus 19 argument bytes. The argument bytes are not decoded into fields.
- **Empty batch.** The script returns a message string, not an error, when the transaction has fewer than three instructions. `AssembledLayout` proves that this happens exactly when no wallet other than the payer is in the list, because the budget pair is always present. It also proves that the `length === 0` branch is dead.
- **Signers.** The script does no missing-signer check of its own and leaves signing to the library. `SignerListCoversRequired` proves that the submitted list holds every required signer.
- **Payer.** The script skips the payer inside the loop, wherever and however often it occurs in the list (`PairPresentIffNonPayer`). Only the driver's de-duplication makes the wallets pairwise distinct; `claimAirdrop` itself does not.
