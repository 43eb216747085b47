/**
 * The pure parts of the claimer: its configuration, the associated token
 * address of a wallet, and the two per-wallet instructions.
 */
module Instructions {
  import opened Solana

  /**
   * What the claimer reads from module-level globals and the environment.
   * `findProgramAddress` is the ledger's program-derived-address derivation
   * (`PublicKey.findProgramAddressSync`, address part only): a deterministic
   * function of the seeds and the owning program whose internals (SHA-256,
   * curve check, bump search) are not modelled.
   */
  datatype Config = Config(
    payer: Keypair,
    mint: PublicKey,
    programId: PublicKey,
    findProgramAddress: (seq<PublicKey>, PublicKey) -> PublicKey)

  /** The derivation never maps two different seed lists under one program to one address. */
  ghost predicate CollisionFree(cfg: Config)
  {
    forall s1, s2, p :: cfg.findProgramAddress(s1, p) == cfg.findProgramAddress(s2, p) ==> s1 == s2
  }

  /** getAssociatedTokenAddressSync: the token account of `owner` for the
      configured mint, derived from seeds [owner, token program, mint]
      under the associated-token program. */
  function AssociatedTokenAddress(cfg: Config, owner: PublicKey): PublicKey
  {
    cfg.findProgramAddress([owner, TOKEN_PROGRAM_ID, cfg.mint], ASSOCIATED_TOKEN_PROGRAM_ID)
  }

  /** Under a collision-free derivation, different owners get different token accounts. */
  lemma AssociatedTokenAddressInjective(cfg: Config, a: PublicKey, b: PublicKey)
    requires CollisionFree(cfg)
    requires a != b
    ensures AssociatedTokenAddress(cfg, a) != AssociatedTokenAddress(cfg, b)
  {
  }

  /** The fixed accounts of the claim program's `claim` instruction. */
  const CLAIM_STATE_A := PublicKey("AQ84tYQnFLtdpCvXXRSXwYT7UzFNKVrCtqyiyxi8oDwE")
  const CLAIM_STATE_B := PublicKey("Cdc77Y1G1JyeXB6WrJJG7RBvUmNK4Mxp3ojGumRT5ovn")
  const CLAIM_CONFIG := PublicKey("2EEw1A49utRqUsnYRYWtnpz2UQ7n7sJn8EEpdN2nKqWQ")
  const VAULT_AUTHORITY := PublicKey("4rqc9TttM89RWaKKkkXJqYtGWws8LuMx9FBSW4DfSUMp")

  /** The 8-byte operation discriminator that leads the claim payload. */
  const CLAIM_DISCRIMINATOR: seq<u8> := [0x3e, 0xe6, 0xd6, 0x1b, 0x98, 0x5f, 0xfe, 0x20]

  /** The 19 argument bytes that follow the discriminator. */
  const CLAIM_ARGUMENTS: seq<u8> := [
    0x01, 0x00, 0x00, 0x07, 0xed, 0x46, 0x00, 0x40,
    0x51, 0xdd, 0x31, 0x00, 0x00, 0x00, 0x08, 0xaf,
    0x66, 0x15, 0x07]

  /** The claim payload, identical for every claimant. */
  const CLAIM_DATA: seq<u8> := CLAIM_DISCRIMINATOR + CLAIM_ARGUMENTS

  /** The account list of a claim by `claimant`, in the order the program reads it. */
  function ClaimAccounts(cfg: Config, claimant: PublicKey): seq<AccountMeta>
  {
    [ AccountMeta(CLAIM_STATE_A, false, true),
      AccountMeta(CLAIM_STATE_B, false, true),
      AccountMeta(AssociatedTokenAddress(cfg, claimant), false, true),
      AccountMeta(CLAIM_CONFIG, false, false),
      AccountMeta(claimant, true, true),
      AccountMeta(VAULT_AUTHORITY, false, false),
      AccountMeta(TOKEN_PROGRAM_ID, false, false),
      AccountMeta(SYSVAR_INSTRUCTIONS_PUBKEY, false, false) ]
  }

  /** The instruction addClaimInstruction builds for `claimant`: eight
      accounts, the claimant's token account third and the claimant fifth,
      the claimant the only signer, the first three and the claimant
      writable, and the constant 27-byte payload. */
  function ClaimInstruction(cfg: Config, claimant: PublicKey): (ix: Instruction)
    ensures ix.Program? && ix.programId == cfg.programId
    ensures |ix.keys| == 8
    ensures ix.keys[2].pubkey == AssociatedTokenAddress(cfg, claimant)
    ensures ix.keys[4].pubkey == claimant
    ensures forall i :: 0 <= i < |ix.keys| ==> (ix.keys[i].isSigner <==> i == 4)
    ensures forall i :: 0 <= i < |ix.keys| ==> (ix.keys[i].isWritable <==> i in {0, 1, 2, 4})
    ensures |ix.data| == 27 && ix.data[..8] == [0x3e, 0xe6, 0xd6, 0x1b, 0x98, 0x5f, 0xfe, 0x20]
  {
    Program(cfg.programId, ClaimAccounts(cfg, claimant), CLAIM_DATA)
  }

  /** Two claims differ only in the claimant and its token account: every
      other account and the whole payload are the same for everyone. */
  lemma ClaimInstructionsDifferOnlyInClaimant(cfg: Config, a: PublicKey, b: PublicKey)
    ensures ClaimInstruction(cfg, a).data == ClaimInstruction(cfg, b).data
    ensures forall i :: 0 <= i < 8 && i != 2 && i != 4 ==>
      ClaimInstruction(cfg, a).keys[i] == ClaimInstruction(cfg, b).keys[i]
  {
  }

  /** The instruction addIdempotentInstruction builds for `owner`: create
      the owner's token account if absent, funded by the configured payer,
      at the very address the owner's claim instruction credits. */
  function IdempotentInstruction(cfg: Config, owner: PublicKey): (ix: Instruction)
    ensures ix.CreateAssociatedTokenAccountIdempotent?
    ensures ix.payer == cfg.payer.publicKey && ix.owner == owner && ix.mint == cfg.mint
    ensures ix.associatedToken == ClaimInstruction(cfg, owner).keys[2].pubkey
  {
    CreateAssociatedTokenAccountIdempotent(
      cfg.payer.publicKey, AssociatedTokenAddress(cfg, owner), owner, cfg.mint)
  }
}
