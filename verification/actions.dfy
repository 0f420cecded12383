/** The transaction-building half of the stream action creators: funding
    arithmetic for a new stream account, the ordered account lists of the
    three program instructions, `setPayerAndBlockhashTransaction`, and the
    transactions `createStream`, `withdraw` and `cancelStream` hand to the
    wallet. Network answers (rent, blockhash) and the derived stream address
    are parameters. */
module Actions {
  import opened Wrappers
  import opened Borsh
  import opened Payloads
  import opened Ledger

  /** The module-level `programAccount` and `adminAccount` keys. */
  datatype Config = Config(programAccount: PublicKey, adminAccount: PublicKey)

  /** The connected wallet object: its `publicKey`, and whatever its
      `PublicKey` property (capital P) holds -- `Undefined` for an adapter
      that only exposes `publicKey`. */
  datatype Wallet = Wallet(publicKey: PublicKey, capitalPublicKey: KeyRef)

  /** `createStream`'s destructured arguments, apart from the wallet. */
  datatype CreateStreamRequest = CreateStreamRequest(
    receiver: PublicKey,
    startTime: nat,
    endTime: nat,
    amountSpeed: nat)

  /** Why building a transaction threw: the Borsh writer rejects a value that
      does not fit a `u64`, or the account creation rejects lamports that do
      not fit its signed 64-bit field. */
  datatype BuildError = EncodingOverflow | LamportsOutOfRange

  /** Bytes allocated for the on-chain stream record. */
  const STREAM_ACCOUNT_SPACE: nat := 96

  /** Lamports added on top of the streamed total to cover the admin's cut. */
  const ADMIN_MARGIN: nat := 300000

  // ---------------------------------------------------------------- funding

  /** Reference for the streamed amount: `rate` lamports accrue for each whole
      second from `startTime` up to `endTime`. */
  function Accrued(startTime: int, endTime: int, rate: int): int
    decreases endTime - startTime
  {
    if endTime <= startTime then 0 else rate + Accrued(startTime + 1, endTime, rate)
  }

  lemma {:induction false} AccruedIsDurationTimesRate(startTime: int, endTime: int, rate: int)
    requires startTime <= endTime
    ensures Accrued(startTime, endTime, rate) == (endTime - startTime) * rate
    decreases endTime - startTime
  {
    if startTime < endTime {
      AccruedIsDurationTimesRate(startTime + 1, endTime, rate);
      calc {
        Accrued(startTime, endTime, rate);
        rate + (endTime - (startTime + 1)) * rate;
        { assert (endTime - (startTime + 1)) * rate == (endTime - startTime) * rate - rate; }
        (endTime - startTime) * rate;
      }
    }
  }

  /** Lamports moved into the new stream account. For a forward time range this
      is everything the stream will pay out, plus the admin margin and the
      rent-exempt minimum; when the end precedes the start the formula
      subtracts, and the account gets less than margin and rent (the source
      does not check the order). */
  function FundingLamports(startTime: int, endTime: int, amountSpeed: int, rent: int): (r: int)
    ensures startTime <= endTime ==> r == Accrued(startTime, endTime, amountSpeed) + ADMIN_MARGIN + rent
    ensures endTime < startTime && amountSpeed > 0 ==> r < ADMIN_MARGIN + rent
  {
    var r := (endTime - startTime) * amountSpeed + ADMIN_MARGIN + rent;
    if startTime <= endTime then
      AccruedIsDurationTimesRate(startTime, endTime, amountSpeed);
      r
    else
      r
  }

  lemma FundingExample()
    ensures FundingLamports(0, 100, 10, 0) == 301000
  {
  }

  // ---------------------------------------------------------- account lists

  /** The create instruction's accounts: new stream, wallet, receiver, admin.
      Only the wallet signs; only the new stream account and the admin are written. */
  function CreateStreamAccounts(cfg: Config, wallet: Wallet, newAccount: PublicKey, receiver: PublicKey)
    : (r: seq<AccountMeta>)
    ensures |r| == 4
    ensures r[0].pubkey == Defined(newAccount) && r[1].pubkey == Defined(wallet.publicKey)
    ensures r[2].pubkey == Defined(receiver) && r[3].pubkey == Defined(cfg.adminAccount)
    ensures SignerKeys(r) == {Defined(wallet.publicKey)}
    ensures WritableKeys(r) == {Defined(newAccount), Defined(cfg.adminAccount)}
  {
    [ AccountMeta(Defined(newAccount), false, true),
      AccountMeta(Defined(wallet.publicKey), true, false),
      AccountMeta(Defined(receiver), false, false),
      AccountMeta(Defined(cfg.adminAccount), false, true) ]
  }

  /** The withdraw account list as the source writes it: the stream account is
      the only one written, and the signer slot reads the wallet's `PublicKey`
      property rather than its `publicKey`. */
  function WithdrawAccountsAsWritten(streamId: PublicKey, wallet: Wallet): (r: seq<AccountMeta>)
    ensures |r| == 2 && r[0].pubkey == Defined(streamId) && r[1].pubkey == wallet.capitalPublicKey
    ensures SignerKeys(r) == {wallet.capitalPublicKey}
    ensures WritableKeys(r) == {Defined(streamId)}
  {
    [ AccountMeta(Defined(streamId), false, true),
      AccountMeta(wallet.capitalPublicKey, true, false) ]
  }

  /** The withdraw account list with the signer slot holding the wallet's
      `publicKey`, as the create and cancel lists do. */
  function WithdrawAccounts(streamId: PublicKey, wallet: Wallet): (r: seq<AccountMeta>)
    ensures |r| == 2 && r[0].pubkey == Defined(streamId) && r[1].pubkey == Defined(wallet.publicKey)
    ensures SignerKeys(r) == {Defined(wallet.publicKey)}
    ensures WritableKeys(r) == {Defined(streamId)}
  {
    [ AccountMeta(Defined(streamId), false, true),
      AccountMeta(Defined(wallet.publicKey), true, false) ]
  }

  /** The cancel instruction's accounts: stream, wallet, receiver. Only the
      wallet signs; all three are written. */
  function CancelAccounts(streamId: PublicKey, wallet: Wallet, receiver: PublicKey): (r: seq<AccountMeta>)
    ensures |r| == 3
    ensures r[0].pubkey == Defined(streamId) && r[1].pubkey == Defined(wallet.publicKey) && r[2].pubkey == Defined(receiver)
    ensures SignerKeys(r) == {Defined(wallet.publicKey)}
    ensures WritableKeys(r) == {Defined(streamId), Defined(wallet.publicKey), Defined(receiver)}
  {
    [ AccountMeta(Defined(streamId), false, true),
      AccountMeta(Defined(wallet.publicKey), true, true),
      AccountMeta(Defined(receiver), false, true) ]
  }

  // ------------------------------------------------------------ assembly

  /** `instructions.forEach(element => transaction.add(element))`. */
  function AddAll(t: Transaction, instructions: seq<Instruction>): (r: Transaction)
    ensures r.instructions == t.instructions + instructions
    ensures r.feePayer == t.feePayer && r.recentBlockhash == t.recentBlockhash
    decreases |instructions|
  {
    if |instructions| == 0 then t
    else AddAll(Add(t, instructions[0]), instructions[1..])
  }

  /** `setPayerAndBlockhashTransaction(instructions, wallet)`, with the blockhash
      the connection returned passed in. */
  function SetPayerAndBlockhash(instructions: seq<Instruction>, wallet: Wallet, blockhash: string): (t: Transaction)
    ensures t.instructions == instructions
    ensures t.feePayer == Some(wallet.publicKey)
    ensures t.recentBlockhash == Some(blockhash)
  {
    AddAll(EmptyTransaction, instructions).(feePayer := Some(wallet.publicKey), recentBlockhash := Some(blockhash))
  }

  /** The same assembly written as the source's loop over the instructions. */
  method AssembleTransaction(instructions: seq<Instruction>, wallet: Wallet, blockhash: string) returns (t: Transaction)
    ensures t.instructions == instructions
    ensures t.feePayer == Some(wallet.publicKey) && t.recentBlockhash == Some(blockhash)
    ensures t == SetPayerAndBlockhash(instructions, wallet, blockhash)
  {
    t := EmptyTransaction;
    for i := 0 to |instructions|
      invariant t.instructions == instructions[..i]
      invariant t.feePayer == None && t.recentBlockhash == None
    {
      t := Add(t, instructions[i]);
    }
    t := t.(feePayer := Some(wallet.publicKey), recentBlockhash := Some(blockhash));
  }

  // -------------------------------------------------------- transactions

  /** Every `u64` field of the create-stream struct fits. */
  predicate CreateStreamFits(req: CreateStreamRequest) {
    IsU64(req.startTime) && IsU64(req.endTime) && IsU64(req.amountSpeed)
  }

  /** `SystemProgram.createAccountWithSeed(...)` as `createStream` fills it in,
      or `None` where the funding does not fit the signed 64-bit lamports
      field and the call throws. When built, the wallet funds it and is its
      base (so it alone signs), the program owns the 96-byte account, and a
      forward time range funds it with the whole stream plus margin and rent. */
  function CreateAccountInstruction(cfg: Config, wallet: Wallet, newAccount: PublicKey, seed: string,
                                    req: CreateStreamRequest, rent: int): (r: Option<Instruction>)
    ensures r.Some? <==> IsI64(FundingLamports(req.startTime, req.endTime, req.amountSpeed, rent))
    ensures r.Some? ==> r.value.CreateAccountWithSeed?
    ensures r.Some? ==> RequiredSigners(r.value) == {Defined(wallet.publicKey)}
    ensures r.Some? ==> r.value.seed == seed && r.value.newAccountPubkey == newAccount
    ensures r.Some? ==> r.value.space == 96 && r.value.programId == cfg.programAccount
    ensures r.Some? && req.startTime <= req.endTime ==>
      r.value.lamports == Accrued(req.startTime, req.endTime, req.amountSpeed) + 300000 + rent
  {
    TryCreateAccountWithSeed(
      wallet.publicKey, wallet.publicKey, seed, newAccount,
      FundingLamports(req.startTime, req.endTime, req.amountSpeed, rent),
      STREAM_ACCOUNT_SPACE, cfg.programAccount)
  }

  /** The shape of `createStream`'s two instructions: first the account
      creation (funded by and based on the wallet, owned by the program, 96
      bytes, funded per the formula), then the program instruction addressed to
      that same new account -- wallet as the signer, receiver read-only, admin
      writable -- whose data decodes to the request's fields with nothing
      withdrawn yet. */
  predicate IsCreateStreamPair(ins: seq<Instruction>, cfg: Config, wallet: Wallet, newAccount: PublicKey,
                               seed: string, req: CreateStreamRequest, rent: int) {
    && |ins| == 2
    && ins[0].CreateAccountWithSeed?
    && ins[0].fromPubkey == wallet.publicKey
    && ins[0].basePubkey == wallet.publicKey
    && ins[0].seed == seed
    && ins[0].newAccountPubkey == newAccount
    && ins[0].lamports == (req.endTime - req.startTime) * req.amountSpeed + 300000 + rent
    && ins[0].space == 96
    && ins[0].programId == cfg.programAccount
    && ins[1].ProgramInstruction?
    && ins[1].programId == cfg.programAccount
    && ins[1].keys == [ AccountMeta(Defined(ins[0].newAccountPubkey), false, true),
                        AccountMeta(Defined(wallet.publicKey), true, false),
                        AccountMeta(Defined(req.receiver), false, false),
                        AccountMeta(Defined(cfg.adminAccount), false, true) ]
    && ParseInstructionData(ins[1].data)
       == Some(CreateStream(CreateStreamInput(req.startTime, req.endTime, req.receiver.bytes, 0, req.amountSpeed)))
  }

  /** The two instructions of a create-stream transaction, or the error
      building them throws: first the serialisation of the struct (exactly
      when a time or the rate does not fit a `u64`), then the account creation
      (exactly when the funding does not fit a signed 64-bit integer). */
  function CreateStreamInstructions(cfg: Config, wallet: Wallet, newAccount: PublicKey, seed: string,
                                    req: CreateStreamRequest, rent: int): (r: Result<seq<Instruction>, BuildError>)
    ensures r.Success? <==>
      CreateStreamFits(req) && IsI64(FundingLamports(req.startTime, req.endTime, req.amountSpeed, rent))
    ensures !CreateStreamFits(req) ==> r == Failure(EncodingOverflow)
    ensures r.Success? ==> IsCreateStreamPair(r.value, cfg, wallet, newAccount, seed, req, rent)
  {
    match TryCreateStreamData(req.startTime, req.endTime, req.receiver.bytes, req.amountSpeed)
    case None => Failure(EncodingOverflow)
    case Some(data) =>
      match CreateAccountInstruction(cfg, wallet, newAccount, seed, req, rent)
      case None => Failure(LamportsOutOfRange)
      case Some(create) =>
        CreateStreamPairBuilt(cfg, wallet, newAccount, seed, req, rent, create, data);
        Success([ create,
                  ProgramInstruction(CreateStreamAccounts(cfg, wallet, newAccount, req.receiver), cfg.programAccount, data) ])
  }

  lemma CreateStreamPairBuilt(cfg: Config, wallet: Wallet, newAccount: PublicKey, seed: string,
                              req: CreateStreamRequest, rent: int, create: Instruction, data: seq<Byte>)
    requires CreateStreamFits(req)
    requires CreateAccountInstruction(cfg, wallet, newAccount, seed, req, rent) == Some(create)
    requires data == CreateStreamData(req.startTime, req.endTime, req.receiver.bytes, req.amountSpeed)
    ensures IsCreateStreamPair(
      [ create,
        ProgramInstruction(CreateStreamAccounts(cfg, wallet, newAccount, req.receiver), cfg.programAccount, data) ],
      cfg, wallet, newAccount, seed, req, rent)
  {
  }

  /** The transaction `createStream` submits, or the error building it throws:
      the create-stream pair, paid for by the wallet, which is the only signer
      either instruction needs. */
  function CreateStreamTransaction(cfg: Config, wallet: Wallet, newAccount: PublicKey, seed: string,
                                   req: CreateStreamRequest, rent: int, blockhash: string): (r: Result<Transaction, BuildError>)
    ensures r.Success? <==>
      CreateStreamFits(req) && IsI64(FundingLamports(req.startTime, req.endTime, req.amountSpeed, rent))
    ensures r.Success? ==> IsCreateStreamPair(r.value.instructions, cfg, wallet, newAccount, seed, req, rent)
    ensures r.Success? ==> r.value.feePayer == Some(wallet.publicKey) && r.value.recentBlockhash == Some(blockhash)
    ensures r.Success? ==> SignedByPayerAlone(r.value)
  {
    match CreateStreamInstructions(cfg, wallet, newAccount, seed, req, rent)
    case Failure(e) => Failure(e)
    case Success(instructions) =>
      assert RequiredSigners(instructions[1]) == SignerKeys(instructions[1].keys);
      Success(SetPayerAndBlockhash(instructions, wallet, blockhash))
  }

  /** Start, end and rate can all fit a `u64` while the funding does not fit
      the lamports field: no transaction is built for 2^32 seconds at 2^32
      lamports a second. */
  lemma CreateStreamLamportsOverflowExample(cfg: Config, wallet: Wallet, newAccount: PublicKey, receiver: PublicKey)
    ensures var req := CreateStreamRequest(receiver, 0, 0x1_0000_0000, 0x1_0000_0000);
      && CreateStreamFits(req)
      && CreateStreamTransaction(cfg, wallet, newAccount, "s", req, 0, "h").Failure?
  {
  }

  /** A withdraw instruction: the stream account (writable) then `signer`
      (a signer, read-only), addressed to the program, with data that decodes
      to the amount. */
  predicate IsWithdrawInstruction(ins: Instruction, cfg: Config, streamId: PublicKey, signer: KeyRef, amount: nat) {
    && ins.ProgramInstruction?
    && ins.programId == cfg.programAccount
    && ins.keys == [AccountMeta(Defined(streamId), false, true), AccountMeta(signer, true, false)]
    && ParseInstructionData(ins.data) == Some(Withdraw(WithdrawInput(amount)))
  }

  /** The transaction `withdraw` submits, as the source writes it: one withdraw
      instruction whose signer slot is the wallet's `PublicKey` property. It
      can be signed by the paying wallet alone exactly when that property is
      the wallet's own key. Serialisation throws exactly when the amount does
      not fit a `u64`. */
  function WithdrawTransactionAsWritten(cfg: Config, wallet: Wallet, streamId: PublicKey, amount: nat, blockhash: string)
    : (r: Result<Transaction, BuildError>)
    ensures r.Success? <==> IsU64(amount)
    ensures r.Success? ==>
      && |r.value.instructions| == 1
      && IsWithdrawInstruction(r.value.instructions[0], cfg, streamId, wallet.capitalPublicKey, amount)
      && r.value.feePayer == Some(wallet.publicKey) && r.value.recentBlockhash == Some(blockhash)
    ensures r.Success? ==> (SignedByPayerAlone(r.value) <==> wallet.capitalPublicKey == Defined(wallet.publicKey))
  {
    match TryWithdrawData(amount)
    case None => Failure(EncodingOverflow)
    case Some(data) =>
      var ins := ProgramInstruction(WithdrawAccountsAsWritten(streamId, wallet), cfg.programAccount, data);
      assert RequiredSigners(ins) == {wallet.capitalPublicKey};
      Success(SetPayerAndBlockhash([ins], wallet, blockhash))
  }

  /** The withdraw transaction with the signer slot corrected to the wallet's
      `publicKey`: the paying wallet is then the only signer. */
  function WithdrawTransaction(cfg: Config, wallet: Wallet, streamId: PublicKey, amount: nat, blockhash: string)
    : (r: Result<Transaction, BuildError>)
    ensures r.Success? <==> IsU64(amount)
    ensures r.Success? ==>
      && |r.value.instructions| == 1
      && IsWithdrawInstruction(r.value.instructions[0], cfg, streamId, Defined(wallet.publicKey), amount)
      && r.value.feePayer == Some(wallet.publicKey) && r.value.recentBlockhash == Some(blockhash)
    ensures r.Success? ==> SignedByPayerAlone(r.value)
  {
    match TryWithdrawData(amount)
    case None => Failure(EncodingOverflow)
    case Some(data) =>
      var ins := ProgramInstruction(WithdrawAccounts(streamId, wallet), cfg.programAccount, data);
      assert RequiredSigners(ins) == {Defined(wallet.publicKey)};
      Success(SetPayerAndBlockhash([ins], wallet, blockhash))
  }

  /** The transaction `cancelStream` submits; its data is the bare tag, so
      nothing can overflow. One program instruction: stream, wallet (the only
      signer, and the payer) and receiver, all writable, with data decoding to
      `Cancel`. */
  function CancelTransaction(cfg: Config, wallet: Wallet, streamId: PublicKey, receiver: PublicKey, blockhash: string)
    : (t: Transaction)
    ensures |t.instructions| == 1
    ensures t.feePayer == Some(wallet.publicKey) && t.recentBlockhash == Some(blockhash)
    ensures t.instructions[0].ProgramInstruction? && t.instructions[0].programId == cfg.programAccount
    ensures t.instructions[0].keys == [ AccountMeta(Defined(streamId), false, true),
                                        AccountMeta(Defined(wallet.publicKey), true, true),
                                        AccountMeta(Defined(receiver), false, true) ]
    ensures t.instructions[0].data == [3]
    ensures ParseInstructionData(t.instructions[0].data) == Some(Cancel)
    ensures SignedByPayerAlone(t)
  {
    var ins := ProgramInstruction(CancelAccounts(streamId, wallet, receiver), cfg.programAccount, CancelData());
    assert RequiredSigners(ins) == SignerKeys(ins.keys);
    SetPayerAndBlockhash([ins], wallet, blockhash)
  }
}
