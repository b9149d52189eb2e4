/** Properties of `sendTransaction`, stated on its specification `Send`:
    what is observed, in which order, and how it settles. */
module SendProperties {
  import opened Wrappers
  import opened JsSemantics
  import opened ErrorNormalizer
  import opened Requests
  import opened EthersSigner

  /** A populated request that fails validation causes no hook call and no
      submission, and the validation error is thrown. */
  lemma InvalidRequestHasNoEffect(ctx: SendContext, transaction: TransactionFields, tx: TransactionFields)
    requires ctx.populateTransaction(RewriteFees(transaction)) == Success(tx)
    requires VerifyAllNecessaryFields(tx).Fail?
    ensures Send(ctx, transaction) == Run(Failure(Thrown(VerifyAllNecessaryFields(tx).error)), [])
  {
  }

  /** A missing call target is reported before the data/value check. */
  lemma MissingTargetReportedFirst(ctx: SendContext, transaction: TransactionFields, tx: TransactionFields)
    requires ctx.populateTransaction(RewriteFees(transaction)) == Success(tx)
    requires tx.to.None?
    ensures Send(ctx, transaction) == Run(Failure(Thrown(NewError(MissingCallTarget))), [])
  {
  }

  /** At most one UserOperation is ever submitted, and a submission is the last event. */
  lemma SubmittedAtMostOnce(ctx: SendContext, transaction: TransactionFields)
    ensures |Submissions(Send(ctx, transaction).events)| <= 1
    ensures |Send(ctx, transaction).events| <= 2
    ensures forall k :: 0 <= k < |Send(ctx, transaction).events| - 1 ==>
      Send(ctx, transaction).events[k].TransactionStarted?
  {
    var run := Send(ctx, transaction);
    match Prepare(ctx, transaction)
    case Failure(_) =>
    case Success(p) =>
      var hook := StartedHook(ctx.hooks);
      var info := StartedInfo(p);
      if hook.Some? && hook.value(info).Some? {
        assert run.events == [TransactionStarted(info)];
      } else if hook.Some? {
        assert run.events == [TransactionStarted(info), SubmittedToBundler(p.op)];
        assert Submissions(run.events) == [p.op];
      } else {
        assert run.events == [SubmittedToBundler(p.op)];
        assert Submissions(run.events) == [p.op];
      }
  }

  /** The submitted UserOperation is the one built for the request, it is
      submitted exactly once, and when a submission happens is decided by the
      steps before it alone. */
  lemma SubmitsBuiltOperationOnce(ctx: SendContext, transaction: TransactionFields)
    ensures Submissions(Send(ctx, transaction).events) != [] <==>
      Prepare(ctx, transaction).Success? &&
      (StartedHook(ctx.hooks).None? ||
       StartedHook(ctx.hooks).value(StartedInfo(Prepare(ctx, transaction).value)).None?)
    ensures Submissions(Send(ctx, transaction).events) != [] ==>
      Submissions(Send(ctx, transaction).events) == [Prepare(ctx, transaction).value.op] &&
      Send(ctx, transaction).events[|Send(ctx, transaction).events| - 1] ==
        SubmittedToBundler(Prepare(ctx, transaction).value.op)
  {
    var run := Send(ctx, transaction);
    match Prepare(ctx, transaction)
    case Failure(_) =>
    case Success(p) =>
      var hook := StartedHook(ctx.hooks);
      var info := StartedInfo(p);
      if hook.Some? && hook.value(info).Some? {
        assert run.events == [TransactionStarted(info)];
      } else if hook.Some? {
        assert run.events == [TransactionStarted(info), SubmittedToBundler(p.op)];
      } else {
        assert run.events == [SubmittedToBundler(p.op)];
      }
  }

  /** A configured `transactionStarted` hook is called first, with the
      response's hash and `sponsored` telling whether paymaster data is
      attached; the submission follows it whether or not the bundler then
      rejects, and a hook that throws stops the call before submission. */
  lemma HookPrecedesSubmission(ctx: SendContext, transaction: TransactionFields, p: Prepared,
                               hook: TransactionInfo -> Option<ErrorValue>)
    requires Prepare(ctx, transaction) == Success(p)
    requires StartedHook(ctx.hooks) == Some(hook)
    ensures Send(ctx, transaction).events[0] == TransactionStarted(StartedInfo(p))
    ensures StartedInfo(p).hash == p.response.hash
    ensures StartedInfo(p).sponsored <==> p.op.paymasterAndData != "0x"
    ensures hook(StartedInfo(p)).None? ==>
      Send(ctx, transaction).events == [TransactionStarted(StartedInfo(p)), SubmittedToBundler(p.op)]
    ensures hook(StartedInfo(p)).Some? ==>
      Send(ctx, transaction) == Run(Failure(Thrown(hook(StartedInfo(p)).value)), [TransactionStarted(StartedInfo(p))])
  {
  }

  /** A bundler rejection is rethrown as `unwrapError` of it. */
  lemma BundlerFailureIsUnwrapped(ctx: SendContext, transaction: TransactionFields, p: Prepared, e: ErrorValue)
    requires Prepare(ctx, transaction) == Success(p)
    requires StartedHook(ctx.hooks).Some? ==> StartedHook(ctx.hooks).value(StartedInfo(p)).None?
    requires ctx.bundlerReply(p.op) == Some(e)
    ensures Send(ctx, transaction).outcome == Failure(Rethrow(UnwrapError(e, ctx.jsonErrorMessage)))
  {
  }

  /** A call that resolves returns the response built from the very
      UserOperation it submitted, which the bundler accepted. */
  lemma SuccessReturnsResponseOfSubmittedOperation(ctx: SendContext, transaction: TransactionFields,
                                                    response: TransactionResponse)
    requires Send(ctx, transaction).outcome == Success(response)
    ensures Prepare(ctx, transaction).Success?
    ensures Submissions(Send(ctx, transaction).events) == [Prepare(ctx, transaction).value.op]
    ensures ctx.constructResponse(Prepare(ctx, transaction).value.op) == Success(response)
    ensures ctx.bundlerReply(Prepare(ctx, transaction).value.op).None?
  {
    SubmitsBuiltOperationOnce(ctx, transaction);
  }

  /** An end-to-end run: a request with a target, call data and a zero value,
      no hooks, an accepting bundler. Its gas price is zeroed for estimation,
      the signed operation is submitted once, and the response built for it,
      carrying its hash, is returned. */
  lemma EndToEndScenario(ctx: SendContext, op: UserOperation, response: TransactionResponse)
    requires ctx.hooks.None?
    requires forall t :: ctx.populateTransaction(t) == Success(t)
    requires forall d :: ctx.createSignedUserOp(ctx.accountProperties, ctx.delegateMode, d) == Success(op)
    requires ctx.constructResponse(op) == Success(response)
    requires ctx.bundlerReply(op).None?
    ensures
      var transaction := TransactionFields(Some("0xabc"), None, Some("0x1234"), Number(0),
                                           Undefined, Undefined, Undefined, Undefined);
      RewriteFees(transaction).gasPrice == Number(0) &&
      Send(ctx, transaction) == Run(Success(response), [SubmittedToBundler(op)])
  {
  }
}
