/** What each action creator dispatches. Every step that can throw -- address
    derivation, parsing the receiver address, serialisation, the rent and
    blockhash queries, building the account creation, the wallet's submission
    and the confirmation wait -- is collapsed by the action's try/catch into
    one failure event; only a run in which every step returns reaches the
    success event. The answers of the steps outside this model are parameters;
    serialisation and the account creation are the transaction builders' own. */
module Outcomes {
  import opened Wrappers
  import opened Borsh
  import opened Payloads
  import opened Ledger
  import opened Actions

  datatype Event =
    | CreateResponse(id: PublicKey)  // { type: "CREATE_RESPONSE", result: true, id }
    | CreateFailed                   // { type: "CREATE_FAILED", result: false }
    | WithdrawSuccess
    | WithdrawFailed
    | CancelSuccess
    | CancelFailed
    | FetchStreams(owner: PublicKey) // the `getAllStreams(owner)` thunk dispatched before CREATE_RESPONSE
    | DataReceived(data: string)
    | DataNotReceived                // { type: "DATA_NOT_RECEIVED", result: { data: null } }

  datatype Action = CreateAction | WithdrawAction | CancelAction | QueryAction

  /** The action whose terminal event this is; `None` for the non-terminal refetch. */
  function ActionOf(e: Event): Option<Action> {
    match e
    case CreateResponse(_) => Some(CreateAction)
    case CreateFailed => Some(CreateAction)
    case WithdrawSuccess => Some(WithdrawAction)
    case WithdrawFailed => Some(WithdrawAction)
    case CancelSuccess => Some(CancelAction)
    case CancelFailed => Some(CancelAction)
    case FetchStreams(_) => None
    case DataReceived(_) => Some(QueryAction)
    case DataNotReceived => Some(QueryAction)
  }

  predicate Terminal(e: Event) {
    ActionOf(e).Some?
  }

  predicate Succeeded(e: Event) {
    e.CreateResponse? || e.WithdrawSuccess? || e.CancelSuccess? || e.DataReceived?
  }

  /** One run of an action reports exactly one terminal event, last, and it belongs to that action. */
  predicate ReportsOnce(events: seq<Event>, a: Action) {
    |events| >= 1 &&
    ActionOf(events[|events| - 1]) == Some(a) &&
    forall i :: 0 <= i < |events| - 1 ==> !Terminal(events[i])
  }

  /** What the chain connection and the wallet answered, step by step; `None`
      or `false` means that call threw. A confirmation that returns counts
      even when it reports an on-chain error, since the result is only logged. */
  datatype Network = Network(
    rent: Option<int>,
    blockhash: Option<string>,
    signature: Option<string>,
    confirmReturned: bool)

  predicate Submitted(net: Network) {
    net.blockhash.Some? && net.signature.Some? && net.confirmReturned
  }

  /** `createStream`'s destructured arguments, with the receiver address as
      `new PublicKey(receiverAddress)` parses it: `None` when that throws. */
  datatype CreateStreamArgs = CreateStreamArgs(
    receiver: Option<PublicKey>,
    startTime: nat,
    endTime: nat,
    amountSpeed: nat)

  function RequestOf(args: CreateStreamArgs): CreateStreamRequest
    requires args.receiver.Some?
  {
    CreateStreamRequest(args.receiver.value, args.startTime, args.endTime, args.amountSpeed)
  }

  /** `createStream`: `derived` is the address `PublicKey.createWithSeed` gave
      for `seed`, or `None` if it threw. The steps run in the source's order:
      derive the address, parse the receiver, serialise the struct, query the
      rent, build the account creation, then assemble, send and confirm. A run
      succeeds exactly when every step returned, and then refetches the
      wallet's streams before reporting the new account; a failed run reports
      CREATE_FAILED and nothing else. */
  function CreateStreamEvents(cfg: Config, wallet: Wallet, seed: string, args: CreateStreamArgs,
                              derived: Option<PublicKey>, net: Network): (events: seq<Event>)
    ensures ReportsOnce(events, CreateAction)
    ensures Succeeded(events[|events| - 1]) <==>
      && derived.Some? && args.receiver.Some? && net.rent.Some? && Submitted(net)
      && IsU64(args.startTime) && IsU64(args.endTime) && IsU64(args.amountSpeed)
      && IsI64(FundingLamports(args.startTime, args.endTime, args.amountSpeed, net.rent.value))
    ensures Succeeded(events[|events| - 1]) ==>
      events == [FetchStreams(wallet.publicKey), CreateResponse(derived.value)]
    ensures !Succeeded(events[|events| - 1]) ==> events == [CreateFailed]
  {
    if derived.None? || args.receiver.None? then [CreateFailed]
    else if TryCreateStreamData(args.startTime, args.endTime, args.receiver.value.bytes, args.amountSpeed).None? then [CreateFailed]
    else if net.rent.None? then [CreateFailed]
    else if CreateAccountInstruction(cfg, wallet, derived.value, seed, RequestOf(args), net.rent.value).None? then [CreateFailed]
    else if !Submitted(net) then [CreateFailed]
    else [FetchStreams(wallet.publicKey), CreateResponse(derived.value)]
  }

  /** The create-stream run succeeds exactly when the transaction
      `CreateStreamTransaction` builds from the same answers exists and was sent
      and confirmed: the steps the run performs fail exactly where the builder
      does. */
  lemma CreateStreamEventsSendBuiltTransaction(cfg: Config, wallet: Wallet, seed: string, args: CreateStreamArgs,
                                               derived: Option<PublicKey>, net: Network)
    ensures var events := CreateStreamEvents(cfg, wallet, seed, args, derived, net);
      Succeeded(events[|events| - 1]) <==>
        && derived.Some? && args.receiver.Some? && net.rent.Some? && Submitted(net)
        && CreateStreamTransaction(cfg, wallet, derived.value, seed, RequestOf(args),
                                   net.rent.value, net.blockhash.value).Success?
  {
  }

  /** `withdraw`: the transaction sent is the one the source writes
      (`WithdrawTransactionAsWritten`); a run succeeds exactly when it was
      built and every network step returned. */
  function WithdrawEvents(cfg: Config, wallet: Wallet, streamId: PublicKey, amount: nat, net: Network)
    : (events: seq<Event>)
    ensures ReportsOnce(events, WithdrawAction) && |events| == 1
    ensures Succeeded(events[0]) <==>
      && Submitted(net)
      && WithdrawTransactionAsWritten(cfg, wallet, streamId, amount, net.blockhash.value).Success?
    ensures Succeeded(events[0]) <==> IsU64(amount) && Submitted(net)
  {
    if net.blockhash.None? then [WithdrawFailed]
    else
      match WithdrawTransactionAsWritten(cfg, wallet, streamId, amount, net.blockhash.value)
      case Failure(_) => [WithdrawFailed]
      case Success(_) => if net.signature.Some? && net.confirmReturned then [WithdrawSuccess] else [WithdrawFailed]
  }

  /** `cancelStream`: the data is a constant, so only the network steps can fail. */
  function CancelEvents(net: Network): (events: seq<Event>)
    ensures ReportsOnce(events, CancelAction) && |events| == 1
    ensures Succeeded(events[0]) <==> Submitted(net)
  {
    if net.blockhash.None? then [CancelFailed]
    else
      if net.signature.Some? && net.confirmReturned then [CancelSuccess] else [CancelFailed]
  }

  /** The indexer's reply, or `None` when the HTTP client threw. */
  datatype HttpResponse = HttpResponse(status: int, body: string)

  /** `getAllStreams`: anything but a 200 reply becomes DATA_NOT_RECEIVED. */
  function GetAllStreamsEvents(response: Option<HttpResponse>): (events: seq<Event>)
    ensures ReportsOnce(events, QueryAction) && |events| == 1
    ensures Succeeded(events[0]) <==> response.Some? && response.value.status == 200
    ensures Succeeded(events[0]) ==> events[0] == DataReceived(response.value.body)
  {
    match response
    case None => [DataNotReceived]
    case Some(r) => if r.status != 200 then [DataNotReceived] else [DataReceived(r.body)]
  }
}
