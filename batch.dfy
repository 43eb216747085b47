/**
 * The batch claim assembler: claimAirdrop and its helpers append to one
 * shared transaction, and the driver de-duplicates the wallets, adds the
 * payer as a signer and hands the list to claimAirdrop.
 */
module Batch {
  import opened Solana
  import opened Wallets
  import opened Instructions

  const COMPUTE_UNIT_LIMIT: nat := 200_000

  /** `0.01 * LAMPORTS_PER_SOL` micro-lamports per compute unit, taken as the exact integer. */
  const COMPUTE_UNIT_PRICE: nat := LAMPORTS_PER_SOL / 100

  const NO_CLAIMS_MESSAGE := "No claim instructions are present in the transaction"

  /** What claimAirdrop ends with: the `undefined` of the empty-transaction
      exit, the message string, or a hand-over of the transaction and its
      signer list to sendAndConfirmTransaction. */
  datatype ClaimOutcome =
    | NothingToExecute
    | NoClaims(message: string)
    | Submit(instructions: seq<Instruction>, signers: seq<Keypair>)

  /** What the driver ends with. */
  datatype RunOutcome =
    | NoWallets
    | NoneEligible
    | Finished(claim: ClaimOutcome)

  // ---------------------------------------------------------------------
  // Specification of the assembled transaction

  /** The two compute-budget instructions, in the order they are appended. */
  function BudgetInstructions(): (ixs: seq<Instruction>)
    ensures ixs == [SetComputeUnitLimit(200_000), SetComputeUnitPrice(10_000_000)]
  {
    [SetComputeUnitLimit(COMPUTE_UNIT_LIMIT), SetComputeUnitPrice(COMPUTE_UNIT_PRICE)]
  }

  /** The pair appended for one wallet: creation of its token account, then its claim. */
  function PairFor(cfg: Config, owner: PublicKey): seq<Instruction>
  {
    [IdempotentInstruction(cfg, owner), ClaimInstruction(cfg, owner)]
  }

  /** What one loop iteration appends for `kp`: nothing for the payer. */
  function StepFor(cfg: Config, kp: Keypair): seq<Instruction>
  {
    if kp.publicKey == cfg.payer.publicKey then [] else PairFor(cfg, kp.publicKey)
  }

  /** Everything the loop appends for `ks`, in order. */
  function ClaimPairs(cfg: Config, ks: seq<Keypair>): seq<Instruction>
  {
    if |ks| == 0 then [] else StepFor(cfg, ks[0]) + ClaimPairs(cfg, ks[1..])
  }

  /** The instruction list claimAirdrop builds for `ks`. */
  function Assembled(cfg: Config, ks: seq<Keypair>): seq<Instruction>
  {
    BudgetInstructions() + ClaimPairs(cfg, ks)
  }

  /** The keys that get a claim: those of `ks` other than `payer`, in input order. */
  function Claimants(payer: PublicKey, ks: seq<Keypair>): seq<PublicKey>
  {
    if |ks| == 0 then []
    else (if ks[0].publicKey == payer then [] else [ks[0].publicKey]) + Claimants(payer, ks[1..])
  }

  /** Keys of all accounts flagged as signers by the hand-built (claim) instructions. */
  function ClaimSigners(ixs: seq<Instruction>): set<PublicKey>
  {
    set ix, m | ix in ixs && ix.Program? && m in ix.keys && m.isSigner :: m.pubkey
  }

  // ---------------------------------------------------------------------
  // Properties of the specification

  /** Appending a wallet to the list appends its step to the pairs. */
  lemma {:induction false} ClaimPairsSnoc(cfg: Config, ks: seq<Keypair>, kp: Keypair)
    ensures ClaimPairs(cfg, ks + [kp]) == ClaimPairs(cfg, ks) + StepFor(cfg, kp)
  {
    if |ks| == 0 {
      assert (ks + [kp])[1..] == [];
    } else {
      assert (ks + [kp])[0] == ks[0];
      assert (ks + [kp])[1..] == ks[1..] + [kp];
      ClaimPairsSnoc(cfg, ks[1..], kp);
    }
  }

  /** The pairs lie back to back: the j-th claimant's creation instruction
      at 2j, its claim at 2j+1, and nothing else. */
  lemma {:induction false} ClaimPairsLayout(cfg: Config, ks: seq<Keypair>)
    ensures |ClaimPairs(cfg, ks)| == 2 * |Claimants(cfg.payer.publicKey, ks)|
    ensures forall j :: 0 <= j < |Claimants(cfg.payer.publicKey, ks)| ==>
      ClaimPairs(cfg, ks)[2 * j] == IdempotentInstruction(cfg, Claimants(cfg.payer.publicKey, ks)[j]) &&
      ClaimPairs(cfg, ks)[2 * j + 1] == ClaimInstruction(cfg, Claimants(cfg.payer.publicKey, ks)[j])
  {
    if |ks| > 0 {
      ClaimPairsLayout(cfg, ks[1..]);
      var p := cfg.payer.publicKey;
      var tail := ClaimPairs(cfg, ks[1..]);
      var cs := Claimants(p, ks[1..]);
      if ks[0].publicKey != p {
        var k := ks[0].publicKey;
        assert Claimants(p, ks) == [k] + cs;
        assert ClaimPairs(cfg, ks) == PairFor(cfg, k) + tail;
        forall j | 0 <= j < |Claimants(p, ks)|
          ensures ClaimPairs(cfg, ks)[2 * j] == IdempotentInstruction(cfg, Claimants(p, ks)[j])
          ensures ClaimPairs(cfg, ks)[2 * j + 1] == ClaimInstruction(cfg, Claimants(p, ks)[j])
        {
          if j > 0 {
            assert Claimants(p, ks)[j] == cs[j - 1];
            assert ClaimPairs(cfg, ks)[2 * j] == tail[2 * (j - 1)];
            assert ClaimPairs(cfg, ks)[2 * j + 1] == tail[2 * (j - 1) + 1];
          }
        }
      }
    }
  }

  /** Who gets a claim: as many keys as there are entries of `ks` not
      holding the payer's key. */
  lemma {:induction false} ClaimantsCount(payer: PublicKey, ks: seq<Keypair>)
    ensures |Claimants(payer, ks)| == |ks| - multiset(Keys(ks))[payer]
  {
    if |ks| > 0 {
      ClaimantsCount(payer, ks[1..]);
      assert Keys(ks) == [ks[0].publicKey] + Keys(ks[1..]);
      assert multiset(Keys(ks)) == multiset{ks[0].publicKey} + multiset(Keys(ks[1..]));
    }
  }

  /** Who gets a claim: exactly the keys of `ks` other than the payer. */
  lemma {:induction false} ClaimantsMembers(payer: PublicKey, ks: seq<Keypair>)
    ensures forall k :: k in Claimants(payer, ks) <==> k in Keys(ks) && k != payer
  {
    if |ks| > 0 {
      ClaimantsMembers(payer, ks[1..]);
      assert Keys(ks) == [ks[0].publicKey] + Keys(ks[1..]);
    }
  }

  /** Who gets a claim: the claimants keep their input order. */
  lemma {:induction false} ClaimantsInInputOrder(payer: PublicKey, ks: seq<Keypair>)
    ensures IsSubsequence(Claimants(payer, ks), Keys(ks))
  {
    if |ks| > 0 {
      ClaimantsInInputOrder(payer, ks[1..]);
      var k := ks[0].publicKey;
      var cs := Claimants(payer, ks[1..]);
      assert Keys(ks)[1..] == Keys(ks[1..]);
      if k == payer {
        assert Claimants(payer, ks) == cs;
      } else {
        assert Claimants(payer, ks) == [k] + cs;
        assert ([k] + cs)[1..] == cs;
      }
    }
  }

  /** The shape of the whole transaction: the two budget instructions (limit
      200,000 units, price 10,000,000 micro-lamports), then one creation and
      claim pair per claimant; so it is never empty, and it is shorter than
      three instructions exactly when nobody but the payer is in the list. */
  lemma AssembledLayout(cfg: Config, ks: seq<Keypair>)
    ensures var ixs, cs := Assembled(cfg, ks), Claimants(cfg.payer.publicKey, ks);
      && |ixs| == 2 + 2 * |cs|
      && ixs[0] == SetComputeUnitLimit(200_000)
      && ixs[1] == SetComputeUnitPrice(10_000_000)
      && (forall j :: 0 <= j < |cs| ==>
            ixs[2 + 2 * j] == IdempotentInstruction(cfg, cs[j]) &&
            ixs[3 + 2 * j] == ClaimInstruction(cfg, cs[j]))
      && |ixs| != 0
      && (|ixs| < 3 <==> |cs| == 0)
  {
  }

  /** An owner's creation instruction, and likewise its claim instruction,
      is in the transaction exactly when the owner is a key of the list and
      is not the payer: the payer never gets a pair, however often it occurs. */
  lemma PairPresentIffNonPayer(cfg: Config, ks: seq<Keypair>, owner: PublicKey)
    ensures IdempotentInstruction(cfg, owner) in Assembled(cfg, ks) <==> owner in Keys(ks) && owner != cfg.payer.publicKey
    ensures ClaimInstruction(cfg, owner) in Assembled(cfg, ks) <==> owner in Keys(ks) && owner != cfg.payer.publicKey
  {
  }

  lemma ClaimSignersAppend(a: seq<Instruction>, b: seq<Instruction>)
    ensures ClaimSigners(a + b) == ClaimSigners(a) + ClaimSigners(b)
  {
  }

  lemma StepSigners(cfg: Config, kp: Keypair)
    ensures ClaimSigners(StepFor(cfg, kp)) ==
      if kp.publicKey == cfg.payer.publicKey then {} else {kp.publicKey}
  {
  }

  /** The keys flagged as signers in the claim instructions are exactly the claimants. */
  lemma {:induction false} ClaimSignersAreClaimants(cfg: Config, ks: seq<Keypair>)
    ensures ClaimSigners(ClaimPairs(cfg, ks)) == set k | k in Claimants(cfg.payer.publicKey, ks)
  {
    if |ks| > 0 {
      ClaimSignersAreClaimants(cfg, ks[1..]);
      ClaimSignersAppend(StepFor(cfg, ks[0]), ClaimPairs(cfg, ks[1..]));
      StepSigners(cfg, ks[0]);
    }
  }

  /** Every token-account creation in the transaction is funded by the payer. */
  lemma CreationsFundedByPayer(cfg: Config, ks: seq<Keypair>)
    ensures forall ix :: ix in Assembled(cfg, ks) && ix.CreateAssociatedTokenAccountIdempotent? ==>
      ix.payer == cfg.payer.publicKey
  {
    AssembledLayout(cfg, ks);
    var ixs := Assembled(cfg, ks);
    forall ix | ix in ixs && ix.CreateAssociatedTokenAccountIdempotent?
      ensures ix.payer == cfg.payer.publicKey
    {
      var cs := Claimants(cfg.payer.publicKey, ks);
      var n :| 0 <= n < |ixs| && ixs[n] == ix;
      assert n >= 2;
      var j := (n - 2) / 2;
      assert 0 <= j < |cs|;
      // position 2 + 2j holds the creation, position 3 + 2j a claim
      assert ixs[3 + 2 * j] == ClaimInstruction(cfg, cs[j]);
      assert ix == ixs[2 + 2 * j] == IdempotentInstruction(cfg, cs[j]);
    }
  }

  /** The keys flagged as signers in the claim instructions of the whole
      transaction are exactly the claimants. The budget instructions carry
      no accounts; the account flags of the creation instructions belong to
      the token library and are not modelled (that library makes the payer
      sign each creation, see CreationsFundedByPayer). */
  lemma AssembledSigners(cfg: Config, ks: seq<Keypair>)
    ensures ClaimSigners(Assembled(cfg, ks)) == set k | k in Claimants(cfg.payer.publicKey, ks)
  {
    ClaimSignersAppend(BudgetInstructions(), ClaimPairs(cfg, ks));
    assert ClaimSigners(BudgetInstructions()) == {};
    ClaimSignersAreClaimants(cfg, ks);
  }

  /** For the list the driver submits, the de-duplicated wallets followed by
      the payer: the keys of that list are exactly the keys flagged as
      signers in the claims plus the payer that funds every creation, so no
      required signature is missing and no one signs without being required. */
  lemma SignerListCoversRequired(cfg: Config, wallets: seq<Keypair>)
    ensures var ks := Dedup(wallets) + [cfg.payer];
      && KeySet(ks) == ClaimSigners(Assembled(cfg, ks)) + {cfg.payer.publicKey}
      && (forall ix :: ix in Assembled(cfg, ks) && ix.CreateAssociatedTokenAccountIdempotent? ==>
            ix.payer == cfg.payer.publicKey)
  {
    var p := cfg.payer.publicKey;
    var ks := Dedup(wallets) + [cfg.payer];
    AssembledSigners(cfg, ks);
    ClaimantsMembers(p, ks);
    KeySetIsKeys(ks);
    assert p in Keys(ks) by { assert Keys(ks)[|ks| - 1] == p; }
    CreationsFundedByPayer(cfg, ks);
  }

  /** A claim in the batch comes from a loaded wallet that is not the payer. */
  lemma SomeClaimOnlyIfNonPayerWallet(cfg: Config, wallets: seq<Keypair>)
    requires Claimants(cfg.payer.publicKey, Dedup(wallets) + [cfg.payer]) != []
    ensures exists i :: 0 <= i < |wallets| && wallets[i].publicKey != cfg.payer.publicKey
  {
    var p := cfg.payer.publicKey;
    var ks := Dedup(wallets) + [cfg.payer];
    DedupProperties(wallets);
    ClaimantsMembers(p, ks);
    var k := Claimants(p, ks)[0];
    assert k in Keys(ks) && k != p;
    var i :| 0 <= i < |ks| && Keys(ks)[i] == k;
    assert ks[i] in Dedup(wallets);
    assert k in KeySet(wallets);
    var x :| x in wallets && x.publicKey == k;
    var w :| 0 <= w < |wallets| && wallets[w] == x;
    assert wallets[w].publicKey != p;
  }

  /** Every loaded wallet that is not the payer gets a claim in the batch. */
  lemma NonPayerWalletGetsClaim(cfg: Config, wallets: seq<Keypair>, i: nat)
    requires i < |wallets| && wallets[i].publicKey != cfg.payer.publicKey
    ensures wallets[i].publicKey in Claimants(cfg.payer.publicKey, Dedup(wallets) + [cfg.payer])
  {
    var p := cfg.payer.publicKey;
    var ks := Dedup(wallets) + [cfg.payer];
    DedupProperties(wallets);
    ClaimantsMembers(p, ks);
    var k := wallets[i].publicKey;
    assert k in KeySet(wallets);
    var x :| x in Dedup(wallets) && x.publicKey == k;
    var j :| 0 <= j < |Dedup(wallets)| && Dedup(wallets)[j] == x;
    assert Keys(ks)[j] == k;
  }

  /** Someone besides the payer gets a claim exactly when some loaded wallet is not the payer. */
  lemma SomeClaimIffNonPayerWallet(cfg: Config, wallets: seq<Keypair>)
    ensures Claimants(cfg.payer.publicKey, Dedup(wallets) + [cfg.payer]) != [] <==>
      exists i :: 0 <= i < |wallets| && wallets[i].publicKey != cfg.payer.publicKey
  {
    if Claimants(cfg.payer.publicKey, Dedup(wallets) + [cfg.payer]) != [] {
      SomeClaimOnlyIfNonPayerWallet(cfg, wallets);
    }
    if exists i :: 0 <= i < |wallets| && wallets[i].publicKey != cfg.payer.publicKey {
      var i :| 0 <= i < |wallets| && wallets[i].publicKey != cfg.payer.publicKey;
      NonPayerWalletGetsClaim(cfg, wallets, i);
    }
  }

  // ---------------------------------------------------------------------
  // The imperative assembler

  /** addComputeBudgetInstructions: appends the unit limit, then the unit price. */
  method AddComputeBudgetInstructions(transaction: Transaction)
    modifies transaction
    ensures transaction.instructions ==
      old(transaction.instructions) + [SetComputeUnitLimit(200_000), SetComputeUnitPrice(10_000_000)]
  {
    transaction.Add(SetComputeUnitLimit(COMPUTE_UNIT_LIMIT));
    transaction.Add(SetComputeUnitPrice(COMPUTE_UNIT_PRICE));
  }

  /** addIdempotentInstruction: appends the creation of the wallet's token account. */
  method AddIdempotentInstruction(transaction: Transaction, cfg: Config, keypair: Keypair)
    modifies transaction
    ensures transaction.instructions == old(transaction.instructions) + [IdempotentInstruction(cfg, keypair.publicKey)]
  {
    var instruction := IdempotentInstruction(cfg, keypair.publicKey);
    transaction.Add(instruction);
  }

  /** addClaimInstruction: appends the wallet's claim. */
  method AddClaimInstruction(transaction: Transaction, cfg: Config, keypair: Keypair)
    modifies transaction
    ensures transaction.instructions == old(transaction.instructions) + [ClaimInstruction(cfg, keypair.publicKey)]
  {
    var instruction := ClaimInstruction(cfg, keypair.publicKey);
    transaction.Add(instruction);
  }

  /** claimAirdrop: builds the transaction for `keypairs` and either stops
      with the "no claims" message, when nobody but the payer is in the
      list, or hands the transaction and the whole list of signers over
      for submission. */
  method ClaimAirdrop(cfg: Config, keypairs: seq<Keypair>) returns (outcome: ClaimOutcome)
    ensures Claimants(cfg.payer.publicKey, keypairs) == [] ==> outcome == NoClaims(NO_CLAIMS_MESSAGE)
    ensures Claimants(cfg.payer.publicKey, keypairs) != [] ==> outcome == Submit(Assembled(cfg, keypairs), keypairs)
  {
    var transaction := new Transaction();
    AddComputeBudgetInstructions(transaction);
    for i := 0 to |keypairs|
      invariant transaction.instructions == Assembled(cfg, keypairs[..i])
    {
      ClaimPairsSnoc(cfg, keypairs[..i], keypairs[i]);
      assert keypairs[..i + 1] == keypairs[..i] + [keypairs[i]];
      // Skip payer keypair
      if keypairs[i].publicKey == cfg.payer.publicKey {
        continue;
      }
      AddIdempotentInstruction(transaction, cfg, keypairs[i]);
      AddClaimInstruction(transaction, cfg, keypairs[i]);
    }
    assert keypairs[..|keypairs|] == keypairs;
    AssembledLayout(cfg, keypairs);

    if |transaction.instructions| == 0 {
      return NothingToExecute;
    }
    if |transaction.instructions| < 3 {
      return NoClaims(NO_CLAIMS_MESSAGE);
    }
    return Submit(transaction.instructions, keypairs);
  }

  /** The driver after the wallets are loaded: stop when none were loaded,
      de-duplicate, append the payer as a signer, and run claimAirdrop. The
      "none eligible" exit is never taken, and a submission happens exactly
      when some loaded wallet is not the payer. */
  method Run(cfg: Config, loaded: seq<Keypair>) returns (r: RunOutcome)
    ensures r == NoWallets <==> |loaded| == 0
    ensures r != NoneEligible
    ensures |loaded| > 0 ==>
      var signers := Dedup(loaded) + [cfg.payer];
      r.Finished? &&
      if exists i :: 0 <= i < |loaded| && loaded[i].publicKey != cfg.payer.publicKey
      then r.claim == Submit(Assembled(cfg, signers), signers)
      else r.claim == NoClaims(NO_CLAIMS_MESSAGE)
  {
    if |loaded| == 0 {
      return NoWallets;
    }
    var keypairs := Dedup(loaded);
    DedupNonEmpty(loaded);
    if |keypairs| == 0 {
      return NoneEligible;
    }
    // required to sign transactions
    keypairs := keypairs + [cfg.payer];
    SomeClaimIffNonPayerWallet(cfg, loaded);
    var outcome := ClaimAirdrop(cfg, keypairs);
    r := Finished(outcome);
  }
}
