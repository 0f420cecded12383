/** The chain-side values the action layer builds: public keys, account
    references with their signer/writable flags, instructions and the
    transaction envelope (the `@solana/web3.js` objects the code constructs). */
module Ledger {
  import opened Wrappers
  import opened Borsh

  type Key32 = s: seq<Byte> | |s| == 32 witness seq(32, i => 0)

  /** A public key, held as its raw 32-byte encoding (`toBuffer()`). */
  datatype PublicKey = PublicKey(bytes: Key32)

  /** A key slot of an account list. JavaScript lets a slot hold `undefined`,
      which is what a read of a property the wallet object lacks gives. */
  datatype KeyRef = Defined(key: PublicKey) | Undefined

  /** `{ pubkey, isSigner, isWritable }`; a flag left out of the literal is `false`. */
  datatype AccountMeta = AccountMeta(pubkey: KeyRef, isSigner: bool, isWritable: bool)

  datatype Instruction =
    /** A `TransactionInstruction` addressed to a program, with raw instruction data. */
    | ProgramInstruction(keys: seq<AccountMeta>, programId: PublicKey, data: seq<Byte>)
    /** `SystemProgram.createAccountWithSeed(...)`: kept as its named parameters;
        the system program's own byte encoding is not part of this model. */
    | CreateAccountWithSeed(
        fromPubkey: PublicKey,
        basePubkey: PublicKey,
        seed: string,
        newAccountPubkey: PublicKey,
        lamports: int,
        space: nat,
        programId: PublicKey)

  const I64_HALF: int := 0x8000_0000_0000_0000

  /** A signed 64-bit integer. */
  predicate IsI64(x: int) {
    -I64_HALF <= x < I64_HALF
  }

  /** Whether the account-creation layout can write `lamports` into its signed
      64-bit field. The value is split into a high and a low 32-bit word, and
      writing the high word as a signed 32-bit integer throws when that word
      is out of range. */
  function LamportsFieldFits(lamports: int): (r: bool)
    ensures r <==> IsI64(lamports)
  {
    var hi := lamports / 0x1_0000_0000;
    -0x8000_0000 <= hi < 0x8000_0000
  }

  /** `SystemProgram.createAccountWithSeed(...)` as it runs: `None` where the
      lamports do not fit the instruction's signed 64-bit field and the call
      throws. */
  function TryCreateAccountWithSeed(fromPubkey: PublicKey, basePubkey: PublicKey, seed: string,
                                    newAccountPubkey: PublicKey, lamports: int, space: nat,
                                    programId: PublicKey): (r: Option<Instruction>)
    ensures r.Some? <==> IsI64(lamports)
    ensures r.Some? ==>
      r.value == CreateAccountWithSeed(fromPubkey, basePubkey, seed, newAccountPubkey, lamports, space, programId)
  {
    if LamportsFieldFits(lamports)
    then Some(CreateAccountWithSeed(fromPubkey, basePubkey, seed, newAccountPubkey, lamports, space, programId))
    else None
  }

  /** A transaction under construction: instructions in order, then fee payer and blockhash. */
  datatype Transaction = Transaction(
    instructions: seq<Instruction>,
    feePayer: Option<PublicKey>,
    recentBlockhash: Option<string>)

  /** `new Transaction()`. */
  const EmptyTransaction: Transaction := Transaction([], None, None)

  /** `transaction.add(instruction)`: appends at the end, leaves payer and blockhash alone. */
  function Add(t: Transaction, ins: Instruction): (r: Transaction)
    ensures |r.instructions| == |t.instructions| + 1
    ensures r.instructions[..|t.instructions|] == t.instructions
    ensures r.instructions[|t.instructions|] == ins
    ensures r.feePayer == t.feePayer && r.recentBlockhash == t.recentBlockhash
  {
    t.(instructions := t.instructions + [ins])
  }

  /** The keys an account list flags as signers. */
  function SignerKeys(keys: seq<AccountMeta>): set<KeyRef> {
    set m | m in keys && m.isSigner :: m.pubkey
  }

  /** The keys an account list lets the instruction write to. */
  function WritableKeys(keys: seq<AccountMeta>): set<KeyRef> {
    set m | m in keys && m.isWritable :: m.pubkey
  }

  /** The keys an instruction needs signatures from: the flagged signers of a
      program instruction; the funding and base keys of an account creation. */
  function RequiredSigners(ins: Instruction): set<KeyRef> {
    match ins
    case ProgramInstruction(keys, _, _) => SignerKeys(keys)
    case CreateAccountWithSeed(from, base, _, _, _, _, _) => {Defined(from), Defined(base)}
  }

  /** Every signature any instruction needs is the fee payer's, so the one
      wallet that pays can sign the whole transaction alone. */
  predicate SignedByPayerAlone(t: Transaction) {
    t.feePayer.Some? &&
    forall i :: 0 <= i < |t.instructions| ==> RequiredSigners(t.instructions[i]) <= {Defined(t.feePayer.value)}
  }
}
