# sol-stream-frontend action layer, modelled in Dafny

This project models the transaction-building core of the stream front end's
action creators (`src/actions/index.js`). The stream program is an on-chain
remittance program: a sender locks lamports into a new stream account, and the
receiver draws them down at a fixed rate per second. The modelled parts are:

- **Instruction data.** The Borsh encoding of `CreateStreamInput` and
  `WithdrawInput` (little-endian fixed-width `u64`s, raw fixed-size byte arrays,
  fields in schema order), each behind its tag byte. Create is `1`, withdraw is
  `2`, and cancel is the bare tag `3`. The writer is modelled as it runs: a
  `u64` whose shortest little-endian form needs more than eight bytes makes it
  throw, and the whole `serialize` call with it.
- **Decoders.** A schema-driven decoder for the same layout, and a parser that
  dispatches on the tag. Neither is called in the source (`deserialize` is
  imported at line 11 but unused). They are the partner
  that the round-trip lemmas are proved against.
- **Funding.** The lamports moved into a new stream account:
  `(endTime - startTime) * amountSpeed + 300000 + rent`, with 96 bytes of space.
- **Account lists.** The ordered account lists, with signer and writable flags,
  of the create, withdraw and cancel instructions.
- **Assembly.** `setPayerAndBlockhashTransaction`, and the transactions that
  `createStream` and `cancelStream` hand to the wallet. For `withdraw` there
  are two: the transaction as the source writes it, and the same transaction
  with its signer slot corrected (see Findings).
- **Outcomes.** The single terminal event each action dispatches from its
  try/catch, and the events `getAllStreams` dispatches.

Modules, one per file:

- `wrappers.dfy`: `Wrappers` (Option, Result).
- `borsh.dfy`: `Borsh`, the two primitives and struct serialisation.
- `payloads.dfy`: `Payloads`, the schemas and instruction data.
- `ledger.dfy`: `Ledger`, the key, account-meta, instruction and transaction values.
- `actions.dfy`: `Actions`, funding, account lists and assembly.
- `outcomes.dfy`: `Outcomes`, the dispatched events.

Parameters stand in for the following inputs. Each is an I/O call, randomness,
or a foreign SDK computation:

- the program and admin keys (`Config`);
- the derived stream address and its seed;
- whether `new PublicKey(receiverAddress)` parsed the receiver address;
- the rent-exempt minimum;
- the recent blockhash;
- each network step's result (`Network`, `HttpResponse`).

Amounts and times are mathematical integers. A `u64` field that does not fit
makes serialisation throw. The builders return `Failure(EncodingOverflow)` in
that case, because the writer they call returns `None`. The account creation
writes its lamports into a signed 64-bit field. Funding outside that range makes
`createAccountWithSeed` throw, which is modelled as `Failure(LamportsOutOfRange)`.

An omitted `isWritable` in an account literal is modelled as `false`. This
applies at lines 74, 177 and 178.

Reading `wallet.PublicKey` (line 74) is modelled as a separate wallet field,
`capitalPublicKey`. An adapter that only exposes `publicKey` leaves this field
`Undefined`. See Findings.

## Model

| member | source | states |
|---|---|---|
| Borsh.EncodeU64 | src/actions/index.js:35-39 | a `u64` field is exactly 8 bytes whose little-endian value is the number encoded |
| Borsh.DecodeLE | src/actions/index.js:35-39 | an n-byte little-endian string denotes a number below 256^n |
| Borsh.DecodeEncodeLE | src/actions/index.js:35-39 | decoding the n low-order little-endian bytes of any x below 256^n gives back x |
| Borsh.EncodeDecodeLE | src/actions/index.js:35-39 | every byte string is the little-endian encoding, at its own width, of the number it decodes to |
| Borsh.EncodeU64OfDecode | src/actions/index.js:35-39 | every 8-byte string decodes to a `u64` whose encoding is that string, so the `u64` encoding is a bijection |
| Borsh.MinimalLengthBound | src/actions/index.js:35-39 | a number's shortest little-endian form fits in n bytes exactly when the number is below 256^n |
| Borsh.WriteU64 | src/actions/index.js:35-39 | the `u64` writer succeeds exactly when the value is below 2^64, and then writes its 8-byte encoding |
| Borsh.WriteField | src/actions/index.js:34-40 | writing one field succeeds exactly when the value fits the field's type, and then writes the field's encoding |
| Borsh.TrySerialize | src/actions/index.js:148 | serialising a struct succeeds exactly when every field fits its type, and then yields the fields' encodings concatenated in schema order |
| Borsh.Serialize | src/actions/index.js:148 | a struct's encoding has the fixed total width of its schema: fields are concatenated with no length prefix |
| Borsh.SerializeRoundTrip | src/actions/index.js:29-43 | decoding an encoded struct returns exactly the field values, in schema order |
| Borsh.DeserializeSound | src/actions/index.js:29-43 | any buffer that decodes is exactly the encoding of the values it decodes to, which fit the schema |
| Borsh.DeserializeNeedsExactWidth | src/actions/index.js:29-43 | a buffer shorter or longer than the schema's width never decodes |
| Payloads.CreateStreamFieldsConform | src/actions/index.js:34-40 | the create-stream schema accepts the five field values exactly when the four integers are `u64`s and the receiver is 32 bytes |
| Payloads.EncodeCreateStreamInput | src/actions/index.js:148 | the encoded `CreateStreamInput` is 8+8+32+8+8 = 64 bytes |
| Payloads.SerializeCreateStreamInput | src/actions/index.js:141-148 | serialising a `CreateStreamInput` with a 32-byte receiver throws exactly when one of its integers exceeds `u64`, and otherwise gives its 64-byte encoding |
| Payloads.EncodeCreateStreamInputLayout | src/actions/index.js:34-40 | the encoding is start_time, end_time, the 32 receiver bytes, lamports_withdrawn, amount_second, in that order |
| Payloads.CreateStreamInputRoundTrip | src/actions/index.js:29-43 | decoding an encoded `CreateStreamInput` returns exactly its five fields, for any `u64`s and 32-byte receiver |
| Payloads.DecodeCreateStreamInputSound | src/actions/index.js:29-43 | whatever decodes as a `CreateStreamInput` is valid and re-encodes to the same bytes |
| Payloads.WithdrawFieldsConform | src/actions/index.js:55-57 | the withdraw schema accepts the amount exactly when it is a `u64` |
| Payloads.EncodeWithdrawInput | src/actions/index.js:68 | the encoded `WithdrawInput` is the amount as a bare 8-byte `u64` |
| Payloads.SerializeWithdrawInput | src/actions/index.js:65-68 | serialising a `WithdrawInput` throws exactly when the amount exceeds `u64`, and otherwise gives its encoding |
| Payloads.WithdrawInputRoundTrip | src/actions/index.js:52-58 | decoding an encoded `WithdrawInput` returns its amount |
| Payloads.DecodeWithdrawInputSound | src/actions/index.js:52-58 | whatever decodes as a `WithdrawInput` re-encodes to the same bytes |
| Payloads.InstructionData | src/actions/index.js:148-150 | instruction data starts with the instruction's tag and is 65, 9 or 1 bytes long for create, withdraw and cancel |
| Payloads.InstructionDataRoundTrip | src/actions/index.js:148-150 | parsing an instruction's data (tag dispatch, then the struct) gives back that instruction |
| Payloads.ParseInstructionDataSound | src/actions/index.js:148-150 | every buffer that parses is exactly the data of the instruction it parses to |
| Payloads.InstructionDataInjective | src/actions/index.js:148-150 | two different instructions never produce the same data |
| Payloads.CreateStreamData | src/actions/index.js:141-150 | create data is 65 bytes: tag 1, start at 1..8, end at 9..16, receiver at 17..48, zeros at 49..56, rate at 57..64, and it parses to the request with nothing withdrawn |
| Payloads.TryCreateStreamData | src/actions/index.js:141-150 | building the create data throws exactly when the start, end or rate exceeds `u64`; otherwise it is the 65-byte create data above |
| Payloads.WithdrawData | src/actions/index.js:65-69 | withdraw data is 9 bytes: tag 2, then bytes whose little-endian value is the amount; it parses back to the amount |
| Payloads.TryWithdrawData | src/actions/index.js:65-69 | building the withdraw data throws exactly when the amount exceeds `u64`; otherwise it is the 9-byte withdraw data above |
| Payloads.CancelData | src/actions/index.js:105 | cancel data is the single byte 3 and parses to Cancel |
| Ledger.LamportsFieldFits | src/actions/index.js:160-168 | the account creation's lamports field accepts a value exactly when it is a signed 64-bit integer, since the high 32-bit word must fit a signed 32-bit write |
| Ledger.TryCreateAccountWithSeed | src/actions/index.js:160-168 | the account creation is built exactly when its lamports fit a signed 64-bit integer, and then carries the given parameters |
| Ledger.Add | src/actions/index.js:233 | adding an instruction appends it after all earlier ones and leaves fee payer and blockhash unchanged |
| Actions.AccruedIsDurationTimesRate | src/actions/index.js:165 | accruing `rate` per whole second from start to end totals (end - start) * rate |
| Actions.FundingLamports | src/actions/index.js:165 | for start no later than end, the funding is everything the stream accrues over its duration, plus the 300000 margin and the rent; with end before start and a positive rate it falls below margin plus rent (the source does not check the order) |
| Actions.FundingExample | src/actions/index.js:165 | start 0, end 100, rate 10 and rent 0 give 301000 lamports |
| Actions.CreateStreamAccounts | src/actions/index.js:175-180 | the create list is new account, wallet, receiver, admin; only the wallet signs, and only the new stream account and the admin are writable |
| Actions.WithdrawAccountsAsWritten | src/actions/index.js:72-75 | the withdraw list as written is the stream account, then the wallet's `PublicKey` property; that property is the only signer and the stream account the only writable key |
| Actions.WithdrawAccounts | src/actions/index.js:72-75 | the corrected withdraw list is the stream account, then the wallet's `publicKey`; the wallet is the only signer and the stream account the only writable key |
| Actions.CancelAccounts | src/actions/index.js:99-103 | the cancel list is stream, wallet, receiver; only the wallet signs, and all three are writable |
| Actions.AddAll | src/actions/index.js:232-234 | adding a list of instructions one by one appends them in their given order and changes nothing else |
| Actions.SetPayerAndBlockhash | src/actions/index.js:230-238 | the assembled transaction holds exactly the given instructions, in order, with the wallet as fee payer and the given blockhash |
| Actions.AssembleTransaction | src/actions/index.js:230-238 | the loop that adds each instruction produces the same transaction |
| Actions.CreateAccountInstruction | src/actions/index.js:160-168 | the account creation is built exactly when the funding fits a signed 64-bit integer; when built it needs only the wallet's signature, uses the given seed and new account, allocates 96 bytes owned by the program, and for a forward time range moves the whole stream's accrual plus 300000 plus rent |
| Actions.CreateStreamInstructions | src/actions/index.js:141-186 | the create instructions are built exactly when start, end and rate fit a `u64` and the funding fits a signed 64-bit integer; an out-of-range field fails first, as serialisation runs first; when built they are the account creation and then the program instruction described below |
| Actions.CreateStreamTransaction | src/actions/index.js:141-190 | a create-stream transaction is built exactly when start, end and rate fit a `u64` and the funding fits a signed 64-bit integer; when built it holds the two instructions described below, the wallet pays, and the wallet is the only signer either instruction needs |
| Actions.CreateStreamLamportsOverflowExample | src/actions/index.js:165 | 2^32 seconds at 2^32 lamports a second fit the `u64` fields, but the funding does not fit the lamports field, so no transaction is built |
| Actions.WithdrawTransactionAsWritten | src/actions/index.js:65-84 | the withdraw transaction as written is built exactly when the amount fits a `u64`; it holds one program instruction (writable stream account, then the wallet's `PublicKey` property as signer; data parses to the amount) paid for by the wallet; the wallet alone can sign it exactly when `PublicKey` holds the wallet's own key |
| Actions.WithdrawTransaction | src/actions/index.js:65-84 | the corrected withdraw transaction is built under the same condition and has the same contents, except that the signer is the wallet's `publicKey`, so the paying wallet is always the only signer |
| Actions.CancelTransaction | src/actions/index.js:98-112 | the cancel transaction is one program instruction: stream, wallet (signer) and receiver, all writable; data is `[3]` and parses to Cancel; the wallet pays and is the only signer |
| Outcomes.CreateStreamEvents | src/actions/index.js:130-204 | exactly one terminal create event, dispatched last; success exactly when the address derived, the receiver address parsed, start, end and rate fit a `u64`, the funding fits a signed 64-bit integer, and rent, blockhash, submission and confirmation all returned; on success a refetch for the wallet, then CREATE_RESPONSE with the new account; on failure CREATE_FAILED alone |
| Outcomes.CreateStreamEventsSendBuiltTransaction | src/actions/index.js:130-204 | a create run succeeds exactly when every network step returned and the transaction builder, given the same derived address, receiver, rent and blockhash, built a transaction |
| Outcomes.WithdrawEvents | src/actions/index.js:63-92 | exactly one withdraw event; WITHDRAW_SUCCESS exactly when the as-written withdraw transaction was built (equivalently, the amount fits a `u64`) and blockhash, submission and confirmation all returned |
| Outcomes.CancelEvents | src/actions/index.js:96-120 | exactly one cancel event; CANCEL_SUCCESS exactly when blockhash, submission and confirmation all returned |
| Outcomes.GetAllStreamsEvents | src/actions/index.js:208-227 | exactly one query event; DATA_RECEIVED, carrying the body, exactly when the reply arrived with status 200 |

The two instructions of a create-stream transaction (`Actions.IsCreateStreamPair`)
are, in this order:

1. The account creation. It is funded by and based on the wallet and uses the
   given seed. It creates the new account with 96 bytes, owned by the program,
   and moves `(end - start) * rate + 300000 + rent` lamports.
2. The program instruction. Its accounts are the same new account (writable),
   the wallet (signer), the receiver, and the admin (writable). Its data parses
   to the request with lamports_withdrawn 0.

## Left out

- Address derivation is left out. This covers `PublicKey.createWithSeed` and
  its `Math.random` seed (lines 133-138), which are a SHA-256-based SDK call plus
  randomness. The derived address and seed are inputs. The claim that two calls
  derive distinct addresses is not modelled.
- Network calls are left out: the rent query, the blockhash query,
  `wallet.sendTransaction` and `connection.confirmTransaction`. Their results
  are parameters.
- The HTTP request of `getAllStreams` is left out. Only the reply (or a thrown
  call) is a parameter. The request path built from the wallet's address is not
  modelled.
- `dispatch`, `alert` and `console.log` are left out. Dispatches are modelled as
  a returned event sequence.
- Suspension points, concurrency and the ordering of network steps are left out.
  Any failed step leads to the same single failure event, so step order does not
  change any outcome.
- The system program's byte encoding of `createAccountWithSeed` is left out. The
  instruction is kept as its named parameters. The one check of that encoding
  that can throw, on the signed 64-bit lamports field, is modelled. Its required signers are taken to
  be the funding and base keys.
- Base58 text of keys is left out, including the two literal program and admin
  addresses (lines 13-18). Keys are their 32 raw bytes.
- `receiverAddress` is used at line 144 through `new PublicKey(...)` and at line
  178 as given. Whether the parse at line 144 throws is an input; when it does
  not, both uses are modelled as the same key.
- JavaScript `number` semantics are left out. Negative and fractional values are
  not modelled, and neither is the Borsh library's refusal of JavaScript numbers
  at or above 2^53. Serialisation overflow is modelled at the `u64` bound, and the account
  creation's lamports overflow at the signed 64-bit bound; neither is modelled
  at 2^53.
- `ParseInstructionData` is not in the source. It is the reading side of the wire
  format, standing in for the on-chain program's tag dispatch. It accepts cancel
  data only as exactly `[3]`.
- Outcomes.CreateStreamEvents: a confirmation that returns counts as success even
  when it reports an on-chain error. The source only logs the result (lines
  192-193), so the model never inspects it.
- Outcomes.WithdrawEvents and Outcomes.CancelEvents: the same holds for
  `withdraw` and `cancelStream`, which also only log the confirmation result
  (lines 85-86 and 113-114).
- Outcomes.WithdrawEvents: whether the wallet accepts a transaction with an
  undefined signer slot is outside the model. Submission is an abstract
  parameter. The events follow the as-written transaction; the corrected one is
  built under the same condition, so the events are the same for both.
- A stream is meant to end after it starts, but the code never checks
  `endTime > startTime`. The model follows the code; see the second
  postcondition of `Actions.FundingLamports`.

## Findings

| source | as written | input that shows it | evidently intended | confidence | as-written member | corrected member |
|---|---|---|---|---|---|---|
| src/actions/index.js:74 | the withdraw signer slot reads `wallet.PublicKey` (capital P) | any wallet adapter object that exposes only `publicKey`, so that `wallet.PublicKey` is `undefined` | `wallet.publicKey`, as at lines 101, 161-162 and 177, so that the paying wallet is the signer | medium, not executed | Actions.WithdrawTransactionAsWritten | Actions.WithdrawTransaction |

`Actions.WithdrawTransactionAsWritten` builds the transaction from the
as-written list, `Actions.WithdrawAccountsAsWritten`. Its last postcondition
shows the discrepancy: the paying wallet alone can sign it only when
`wallet.PublicKey` holds the wallet's own key. `Actions.WithdrawTransaction`
uses the corrected list, `Actions.WithdrawAccounts`, and is always signed by
the paying wallet alone.
