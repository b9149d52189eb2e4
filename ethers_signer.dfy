/** `ERC4337EthersSigner`: an ethers signer that sends every transaction as
    an ERC-4337 UserOperation. Its collaborators (the account API, the
    provider, the RPC client, the hooks) are modelled at their interface:
    deterministic functions for what they compute, and an event log, the
    `World`, for what the outside world observes. */
module EthersSigner {
  import opened Wrappers
  import opened JsSemantics
  import opened ErrorNormalizer
  import opened Requests

  /** A UserOperation as the account API builds and signs it. */
  datatype UserOperation = UserOperation(
    sender: string,
    nonce: int,
    initCode: string,
    callData: string,
    callGasLimit: int,
    verificationGasLimit: int,
    preVerificationGas: int,
    maxFeePerGas: int,
    maxPriorityFeePerGas: int,
    paymasterAndData: string,
    signature: string)

  /** The response the provider builds for a UserOperation. */
  datatype TransactionResponse = TransactionResponse(hash: string, from: string, nonce: int)

  /** The argument of the `transactionStarted` hook. */
  datatype TransactionInfo = TransactionInfo(
    hash: string,
    from: Option<string>,
    to: Option<string>,
    value: JsValue,
    sponsored: bool)

  /** The lifecycle hooks of the client configuration. A callback maps its
      argument to the error it throws, if any. Only `transactionStarted` is
      called by the signer. */
  datatype Hooks = Hooks(transactionStarted: Option<TransactionInfo -> Option<ErrorValue>>)

  /** The client configuration, as far as the signer passes it on or reads it. */
  datatype ClientConfig = ClientConfig(
    projectId: string,
    entryPointAddress: string,
    bundlerUrl: string,
    walletAddress: Option<string>,
    hooks: Option<Hooks>)

  /** The owner's ordinary signer, passed through and never inspected. */
  datatype OriginalSigner = OriginalSigner(address: string)

  /** What the outside world observes, in order. */
  datatype Event =
    | TransactionStarted(info: TransactionInfo)
    | SubmittedToBundler(op: UserOperation)

  /** The log of observable events: the external effects of a call. */
  class World {
    var events: seq<Event>

    constructor ()
      ensures events == []
    {
      events := [];
    }

    method Record(e: Event)
      modifies this
      ensures events == old(events) + [e]
    {
      events := events + [e];
    }
  }

  /** How `sendTransaction` rejects: with an error, or with the SyntaxError
      `JSON.parse` throws on the bundler's error body. */
  datatype Failure = Thrown(error: ErrorValue) | JsonSyntaxError(body: string)

  /** `throw this.unwrapError(error)`: whatever `unwrapError` settles to is thrown. */
  function Rethrow(u: Unwrapped): (f: Failure)
    ensures u.Returned? ==> f == Thrown(u.error)
    ensures u.ParseThrew? ==> f == JsonSyntaxError(u.body)
  {
    match u
    case Returned(e) => Thrown(e)
    case ParseThrew(b) => JsonSyntaxError(b)
  }

  /** The smart-account API object. Its own properties other than
      `delegateMode` are kept by name; `createSignedUserOp` is the behaviour
      its prototype gives it, a function of those properties and the mode. */
  class BaseAccountAPI {
    var properties: map<string, JsValue>
    var delegateMode: bool
    const createSignedUserOp: (map<string, JsValue>, bool, TransactionDetails) -> Result<UserOperation, ErrorValue>

    constructor (properties: map<string, JsValue>, delegateMode: bool,
                 createSignedUserOp: (map<string, JsValue>, bool, TransactionDetails) -> Result<UserOperation, ErrorValue>)
      ensures this.properties == properties && this.delegateMode == delegateMode
      ensures this.createSignedUserOp == createSignedUserOp
    {
      this.properties := properties;
      this.delegateMode := delegateMode;
      this.createSignedUserOp := createSignedUserOp;
    }
  }

  /** The ERC-4337 provider: ethers' `populateTransaction` through it, the
      response it builds for a UserOperation, and the sender address it
      answers to its `n`-th query. */
  class ERC4337EthersProvider {
    const populateTransaction: TransactionFields -> Result<TransactionFields, ErrorValue>
    const constructUserOpTransactionResponse: UserOperation -> Result<TransactionResponse, ErrorValue>
    const senderAddressAnswers: nat -> Result<string, ErrorValue>
    var senderAddressQueries: nat

    constructor (populateTransaction: TransactionFields -> Result<TransactionFields, ErrorValue>,
                 constructUserOpTransactionResponse: UserOperation -> Result<TransactionResponse, ErrorValue>,
                 senderAddressAnswers: nat -> Result<string, ErrorValue>)
      ensures this.populateTransaction == populateTransaction
      ensures this.constructUserOpTransactionResponse == constructUserOpTransactionResponse
      ensures this.senderAddressAnswers == senderAddressAnswers
      ensures senderAddressQueries == 0
    {
      this.populateTransaction := populateTransaction;
      this.constructUserOpTransactionResponse := constructUserOpTransactionResponse;
      this.senderAddressAnswers := senderAddressAnswers;
      senderAddressQueries := 0;
    }

    /** `getSenderAccountAddress()`: one query to the network. */
    method GetSenderAccountAddress() returns (r: Result<string, ErrorValue>)
      modifies this`senderAddressQueries
      ensures senderAddressQueries == old(senderAddressQueries) + 1
      ensures r == senderAddressAnswers(old(senderAddressQueries))
    {
      r := senderAddressAnswers(senderAddressQueries);
      senderAddressQueries := senderAddressQueries + 1;
    }
  }

  /** The JSON-RPC client of the bundler; `bundlerReply` is the error the
      bundler answers a UserOperation with, if any. */
  class HttpRpcClient {
    const bundlerUrl: string
    const entryPointAddress: string
    const chainId: int
    const bundlerReply: UserOperation -> Option<ErrorValue>

    constructor (bundlerUrl: string, entryPointAddress: string, chainId: int,
                 bundlerReply: UserOperation -> Option<ErrorValue>)
      ensures this.bundlerUrl == bundlerUrl && this.entryPointAddress == entryPointAddress
      ensures this.chainId == chainId && this.bundlerReply == bundlerReply
    {
      this.bundlerUrl, this.entryPointAddress, this.chainId := bundlerUrl, entryPointAddress, chainId;
      this.bundlerReply := bundlerReply;
    }

    /** `sendUserOpToBundler(op)`: one submission, observed by the world. */
    method SendUserOpToBundler(op: UserOperation, world: World) returns (failure: Option<ErrorValue>)
      modifies world
      ensures world.events == old(world.events) + [SubmittedToBundler(op)]
      ensures failure == bundlerReply(op)
    {
      world.Record(SubmittedToBundler(op));
      failure := bundlerReply(op);
    }
  }

  /** Everything `sendTransaction` depends on, read off the signer and its collaborators. */
  datatype SendContext = SendContext(
    populateTransaction: TransactionFields -> Result<TransactionFields, ErrorValue>,
    createSignedUserOp: (map<string, JsValue>, bool, TransactionDetails) -> Result<UserOperation, ErrorValue>,
    accountProperties: map<string, JsValue>,
    delegateMode: bool,
    constructResponse: UserOperation -> Result<TransactionResponse, ErrorValue>,
    hooks: Option<Hooks>,
    bundlerReply: UserOperation -> Option<ErrorValue>,
    jsonErrorMessage: string -> BodyMessage)

  /** `this.config.hooks?.transactionStarted`. */
  function StartedHook(hooks: Option<Hooks>): (h: Option<TransactionInfo -> Option<ErrorValue>>)
    ensures h.Some? <==> hooks.Some? && hooks.value.transactionStarted.Some?
    ensures h.Some? ==> h == hooks.value.transactionStarted
  {
    match hooks
    case None => None
    case Some(hs) => hs.transactionStarted
  }

  /** What the pipeline has built once it reaches the hook: the populated
      request, the signed UserOperation and its response. */
  datatype Prepared = Prepared(tx: TransactionFields, op: UserOperation, response: TransactionResponse)

  /** The steps before the hook: rewrite fees, populate, validate, build the
      signed UserOperation, build its response. The first step that throws decides. */
  function Prepare(ctx: SendContext, transaction: TransactionFields): (r: Result<Prepared, ErrorValue>)
    ensures r.Success? <==>
      ctx.populateTransaction(RewriteFees(transaction)).Success? &&
      VerifyAllNecessaryFields(ctx.populateTransaction(RewriteFees(transaction)).value).Pass? &&
      ctx.createSignedUserOp(ctx.accountProperties, ctx.delegateMode,
        DetailsOf(ctx.populateTransaction(RewriteFees(transaction)).value)).Success? &&
      ctx.constructResponse(ctx.createSignedUserOp(ctx.accountProperties, ctx.delegateMode,
        DetailsOf(ctx.populateTransaction(RewriteFees(transaction)).value)).value).Success?
    ensures r.Success? ==>
      ctx.populateTransaction(RewriteFees(transaction)) == Success(r.value.tx) &&
      ctx.createSignedUserOp(ctx.accountProperties, ctx.delegateMode, DetailsOf(r.value.tx)) == Success(r.value.op) &&
      ctx.constructResponse(r.value.op) == Success(r.value.response)
    ensures var pop := ctx.populateTransaction(RewriteFees(transaction));
      pop.Failure? ==> r == Failure(pop.error)
    ensures var pop := ctx.populateTransaction(RewriteFees(transaction));
      pop.Success? && VerifyAllNecessaryFields(pop.value).Fail? ==>
        r == Failure(VerifyAllNecessaryFields(pop.value).error)
    ensures var pop := ctx.populateTransaction(RewriteFees(transaction));
      pop.Success? && VerifyAllNecessaryFields(pop.value).Pass? ==>
        var built := ctx.createSignedUserOp(ctx.accountProperties, ctx.delegateMode, DetailsOf(pop.value));
        (built.Failure? ==> r == Failure(built.error)) &&
        (built.Success? && ctx.constructResponse(built.value).Failure? ==>
           r == Failure(ctx.constructResponse(built.value).error))
  {
    match ctx.populateTransaction(RewriteFees(transaction))
    case Failure(e) => Failure(e)
    case Success(tx) =>
      match VerifyAllNecessaryFields(tx)
      case Fail(e) => Failure(e)
      case Pass =>
        match ctx.createSignedUserOp(ctx.accountProperties, ctx.delegateMode, DetailsOf(tx))
        case Failure(e) => Failure(e)
        case Success(op) =>
          match ctx.constructResponse(op)
          case Failure(e) => Failure(e)
          case Success(response) => Success(Prepared(tx, op, response))
  }

  /** The argument of the `transactionStarted` hook. */
  function StartedInfo(p: Prepared): (info: TransactionInfo)
    ensures info.hash == p.response.hash
    ensures info.sponsored <==> p.op.paymasterAndData != "0x"
    ensures !Nullish(info.value) && (Truthy(p.tx.value) ==> info.value == p.tx.value)
    ensures !Truthy(p.tx.value) ==> info.value == Number(0)
    ensures info.from == p.tx.from && info.to == p.tx.to
  {
    TransactionInfo(p.response.hash, p.tx.from, p.tx.to, OrElse(p.tx.value, Number(0)),
                    p.op.paymasterAndData != "0x")
  }

  /** The settled state of one `sendTransaction` call and the events it caused. */
  datatype Run = Run(outcome: Result<TransactionResponse, Failure>, events: seq<Event>)

  /** `sendTransaction` on a request with the given fields. */
  function Send(ctx: SendContext, transaction: TransactionFields): (run: Run)
    ensures Prepare(ctx, transaction).Failure? ==>
      run == Run(Failure(Thrown(Prepare(ctx, transaction).error)), [])
    ensures run.outcome.Success? ==>
      Prepare(ctx, transaction).Success? &&
      run.outcome.value == Prepare(ctx, transaction).value.response &&
      ctx.bundlerReply(Prepare(ctx, transaction).value.op).None? &&
      |run.events| > 0 &&
      run.events[|run.events| - 1] == SubmittedToBundler(Prepare(ctx, transaction).value.op)
  {
    match Prepare(ctx, transaction)
    case Failure(e) => Run(Failure(Thrown(e)), [])
    case Success(p) =>
      var info := StartedInfo(p);
      var hook := StartedHook(ctx.hooks);
      var fired := if hook.Some? then [TransactionStarted(info)] else [];
      var hookThrew := if hook.Some? then hook.value(info) else None;
      if hookThrew.Some? then
        Run(Failure(Thrown(hookThrew.value)), fired)
      else
        var reply := ctx.bundlerReply(p.op);
        var outcome :=
          if reply.None? then Success(p.response)
          else Failure(Rethrow(UnwrapError(reply.value, ctx.jsonErrorMessage)));
        Run(outcome, fired + [SubmittedToBundler(p.op)])
  }

  /** The UserOperations submitted to the bundler, in order. */
  function Submissions(events: seq<Event>): (ops: seq<UserOperation>)
    ensures |ops| <= |events|
    ensures forall op :: op in ops <==> SubmittedToBundler(op) in events
  {
    if events == [] then []
    else
      (if events[0].SubmittedToBundler? then [events[0].op] else []) + Submissions(events[1..])
  }

  class ERC4337EthersSigner {
    const config: ClientConfig
    const originalSigner: OriginalSigner
    const erc4337provider: ERC4337EthersProvider
    const httpRpcClient: HttpRpcClient
    const smartAccountAPI: BaseAccountAPI
    var address: Option<string>

    constructor (config: ClientConfig, originalSigner: OriginalSigner, erc4337provider: ERC4337EthersProvider,
                 httpRpcClient: HttpRpcClient, smartAccountAPI: BaseAccountAPI)
      ensures this.config == config && this.originalSigner == originalSigner
      ensures this.erc4337provider == erc4337provider && this.httpRpcClient == httpRpcClient
      ensures this.smartAccountAPI == smartAccountAPI
      ensures address.None?
    {
      this.config := config;
      this.originalSigner := originalSigner;
      this.erc4337provider := erc4337provider;
      this.httpRpcClient := httpRpcClient;
      this.smartAccountAPI := smartAccountAPI;
      address := None;
    }

    /** What `sendTransaction` depends on, as the signer currently stands. */
    function Context(jsonErrorMessage: string -> BodyMessage): SendContext
      reads smartAccountAPI
    {
      SendContext(
        erc4337provider.populateTransaction,
        smartAccountAPI.createSignedUserOp,
        smartAccountAPI.properties,
        smartAccountAPI.delegateMode,
        erc4337provider.constructUserOpTransactionResponse,
        config.hooks,
        httpRpcClient.bundlerReply,
        jsonErrorMessage)
    }

    /** `delegateCopy()`: a new signer over a copy of the account API with
        `delegateMode` set; the original account API is left as it was. */
    method DelegateCopy() returns (copy: ERC4337EthersSigner)
      ensures fresh(copy) && fresh(copy.smartAccountAPI)
      ensures copy.config == config && copy.originalSigner == originalSigner
      ensures copy.erc4337provider == erc4337provider && copy.httpRpcClient == httpRpcClient
      ensures copy.smartAccountAPI.delegateMode
      ensures copy.smartAccountAPI.properties == smartAccountAPI.properties
      ensures copy.smartAccountAPI.createSignedUserOp == smartAccountAPI.createSignedUserOp
      ensures copy.address.None?
      ensures smartAccountAPI.delegateMode == old(smartAccountAPI.delegateMode)
      ensures smartAccountAPI.properties == old(smartAccountAPI.properties)
    {
      var delegateAccountAPI := new BaseAccountAPI(smartAccountAPI.properties, smartAccountAPI.delegateMode,
                                                   smartAccountAPI.createSignedUserOp);
      delegateAccountAPI.delegateMode := true;
      copy := new ERC4337EthersSigner(config, originalSigner, erc4337provider, httpRpcClient, delegateAccountAPI);
    }

    /** `sendTransaction(transaction)`: rewrites the caller's fee fields in
        place, then runs the pipeline; `world` receives the hook call and
        the submission, `jsonErrorMessage` stands for `JSON.parse`. */
    method SendTransaction(transaction: TransactionRequest, world: World, jsonErrorMessage: string -> BodyMessage)
      returns (r: Result<TransactionResponse, Failure>)
      modifies transaction, world
      ensures transaction.Fields() == RewriteFees(old(transaction.Fields()))
      ensures r == Send(Context(jsonErrorMessage), old(transaction.Fields())).outcome
      ensures world.events == old(world.events) + Send(Context(jsonErrorMessage), old(transaction.Fields())).events
    {
      ghost var ctx := Context(jsonErrorMessage);
      ghost var original := transaction.Fields();
      if Truthy(transaction.maxFeePerGas) || Truthy(transaction.maxPriorityFeePerGas) {
        transaction.maxFeePerGas := Number(0);
        transaction.maxPriorityFeePerGas := Number(0);
      } else {
        transaction.gasPrice := Number(0);
      }
      assert transaction.Fields() == RewriteFees(original);

      var populated := erc4337provider.populateTransaction(transaction.Fields());
      if populated.Failure? {
        return Failure(Thrown(populated.error));
      }
      var tx := populated.value;
      var verified := VerifyAllNecessaryFields(tx);
      if verified.Fail? {
        return Failure(Thrown(verified.error));
      }
      var built := smartAccountAPI.createSignedUserOp(smartAccountAPI.properties, smartAccountAPI.delegateMode, DetailsOf(tx));
      if built.Failure? {
        return Failure(Thrown(built.error));
      }
      var userOperation := built.value;
      var constructed := erc4337provider.constructUserOpTransactionResponse(userOperation);
      if constructed.Failure? {
        return Failure(Thrown(constructed.error));
      }
      var transactionResponse := constructed.value;
      assert Prepare(ctx, original) == Success(Prepared(tx, userOperation, transactionResponse));

      var hook := StartedHook(config.hooks);
      if hook.Some? {
        var info := StartedInfo(Prepared(tx, userOperation, transactionResponse));
        world.Record(TransactionStarted(info));
        var thrown := hook.value(info);
        if thrown.Some? {
          return Failure(Thrown(thrown.value));
        }
      }

      var failure := httpRpcClient.SendUserOpToBundler(userOperation, world);
      if failure.Some? {
        return Failure(Rethrow(UnwrapError(failure.value, jsonErrorMessage)));
      }
      return Success(transactionResponse);
    }

    /** `getAddress()`: queries the provider only while no address is cached. */
    method GetAddress() returns (r: Result<string, ErrorValue>)
      modifies this`address, erc4337provider`senderAddressQueries
      ensures old(address).Some? ==>
        r == Success(old(address).value) && address == old(address) &&
        erc4337provider.senderAddressQueries == old(erc4337provider.senderAddressQueries)
      ensures old(address).None? ==>
        erc4337provider.senderAddressQueries == old(erc4337provider.senderAddressQueries) + 1 &&
        r == erc4337provider.senderAddressAnswers(old(erc4337provider.senderAddressQueries)) &&
        address == (if r.Success? then Some(r.value) else None)
    {
      if address.None? {
        var answer := erc4337provider.GetSenderAccountAddress();
        if answer.Failure? {
          return answer;
        }
        address := Some(answer.value);
      }
      return Success(address.value);
    }

    /** `connect(provider)`: always throws. */
    function Connect(provider: object): (r: Result<ERC4337EthersSigner, ErrorValue>)
      ensures r.Failure? && r.error == NewError("changing providers is not supported")
    {
      Failure(NewError("changing providers is not supported"))
    }

    /** `signTransaction(transaction)`: always rejects. */
    function SignTransaction(transaction: TransactionFields): (r: Result<string, ErrorValue>)
      ensures r.Failure? && r.error == NewError("not implemented")
    {
      Failure(NewError("not implemented"))
    }
  }

  /** Two `getAddress()` calls: once an address is known both return it and
      the provider is queried at most once; a failed first query leaves no
      address, so the second call queries again and returns that answer. */
  method GetAddressTwice(signer: ERC4337EthersSigner) returns (first: Result<string, ErrorValue>, second: Result<string, ErrorValue>)
    modifies signer`address, signer.erc4337provider`senderAddressQueries
    ensures first.Success? ==> second == first
    ensures first.Success? ==>
      signer.erc4337provider.senderAddressQueries <= old(signer.erc4337provider.senderAddressQueries) + 1
    ensures first.Failure? ==>
      signer.erc4337provider.senderAddressQueries == old(signer.erc4337provider.senderAddressQueries) + 2 &&
      second == signer.erc4337provider.senderAddressAnswers(old(signer.erc4337provider.senderAddressQueries) + 1)
  {
    first := signer.GetAddress();
    second := signer.GetAddress();
  }
}
