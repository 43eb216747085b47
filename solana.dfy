/**
 * The slice of the Solana client libraries (web3.js and spl-token) that the
 * airdrop claimer touches: keys, keypairs, account metas, instructions and
 * the mutable transaction they are appended to.
 *
 * The library's own encodings of the compute-budget and associated-token
 * instructions are not modelled: those instructions are opaque tags that
 * carry the arguments they were built from.
 */
module Solana {

  newtype u8 = x: int | 0 <= x < 0x100

  /** A public key. The claimer compares keys through `toString()`, i.e. by
      their base58 text, so the text is the key's identity here. */
  datatype PublicKey = PublicKey(base58: string)

  /** A signing identity: its public key and its secret key bytes. */
  datatype Keypair = Keypair(publicKey: PublicKey, secretKey: seq<u8>)

  /** One entry of an instruction's account list, with its role flags. */
  datatype AccountMeta = AccountMeta(pubkey: PublicKey, isSigner: bool, isWritable: bool)

  datatype Instruction =
      /** ComputeBudgetProgram.setComputeUnitLimit */
    | SetComputeUnitLimit(units: nat)
      /** ComputeBudgetProgram.setComputeUnitPrice */
    | SetComputeUnitPrice(microLamports: nat)
      /** createAssociatedTokenAccountIdempotentInstruction(payer, associatedToken, owner, mint) */
    | CreateAssociatedTokenAccountIdempotent(
        payer: PublicKey, associatedToken: PublicKey, owner: PublicKey, mint: PublicKey)
      /** A hand-built `new TransactionInstruction({ programId, keys, data })` */
    | Program(programId: PublicKey, keys: seq<AccountMeta>, data: seq<u8>)

  const LAMPORTS_PER_SOL: nat := 1_000_000_000

  const TOKEN_PROGRAM_ID := PublicKey("TokenkegQfeYyiNwAJbNbGKPFXCWuBvf9Ss623VQ5DA")
  const ASSOCIATED_TOKEN_PROGRAM_ID := PublicKey("ATokenGPvbdGVxr1b2hvZbsiqW5xWH25efTNsLJA8knL")
  const SYSVAR_INSTRUCTIONS_PUBKEY := PublicKey("Sysvar1nstructions1111111111111111111111111")

  /** A transaction under construction: an instruction list that grows in place. */
  class Transaction {
    var instructions: seq<Instruction>

    constructor ()
      ensures instructions == []
    {
      instructions := [];
    }

    /** `transaction.add(ix)`: appends one instruction at the end. */
    method Add(ix: Instruction)
      modifies this
      ensures instructions == old(instructions) + [ix]
    {
      instructions := instructions + [ix];
    }
  }
}
