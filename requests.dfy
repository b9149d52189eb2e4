/** The transaction request the signer receives, the zero-fee rewrite it
    applies to it in place, and the check of the populated request. */
module Requests {
  import opened Wrappers
  import opened JsSemantics
  import opened ErrorNormalizer

  /** The fields of an ethers `TransactionRequest` the signer reads or writes.
      Addresses and call data are strings or absent (`== null`). */
  datatype TransactionFields = TransactionFields(
    to: Option<string>,
    from: Option<string>,
    data: Option<string>,
    value: JsValue,
    gasLimit: JsValue,
    gasPrice: JsValue,
    maxFeePerGas: JsValue,
    maxPriorityFeePerGas: JsValue)

  /** The caller's request object, which `sendTransaction` mutates. */
  class TransactionRequest {
    var to: Option<string>
    var from: Option<string>
    var data: Option<string>
    var value: JsValue
    var gasLimit: JsValue
    var gasPrice: JsValue
    var maxFeePerGas: JsValue
    var maxPriorityFeePerGas: JsValue

    constructor (fields: TransactionFields)
      ensures Fields() == fields
    {
      to, from, data := fields.to, fields.from, fields.data;
      value, gasLimit, gasPrice := fields.value, fields.gasLimit, fields.gasPrice;
      maxFeePerGas, maxPriorityFeePerGas := fields.maxFeePerGas, fields.maxPriorityFeePerGas;
    }

    /** The current field values. */
    function Fields(): TransactionFields
      reads this
    {
      TransactionFields(to, from, data, value, gasLimit, gasPrice, maxFeePerGas, maxPriorityFeePerGas)
    }
  }

  /** The request uses the EIP-1559 fee fields: either of them is truthy. */
  predicate UsesEip1559Fees(t: TransactionFields) {
    Truthy(t.maxFeePerGas) || Truthy(t.maxPriorityFeePerGas)
  }

  /** The zero-fee rewrite applied before gas estimation. */
  function RewriteFees(t: TransactionFields): (r: TransactionFields)
    // EIP-1559 branch: both EIP-1559 fields become 0, the gas price is kept
    ensures UsesEip1559Fees(t) ==>
      r.maxFeePerGas == Number(0) && r.maxPriorityFeePerGas == Number(0) && r.gasPrice == t.gasPrice
    // legacy branch: the gas price becomes 0, the EIP-1559 fields are kept
    ensures !UsesEip1559Fees(t) ==>
      r.gasPrice == Number(0) && r.maxFeePerGas == t.maxFeePerGas &&
      r.maxPriorityFeePerGas == t.maxPriorityFeePerGas
    // no field other than the three fee fields changes
    ensures r.(gasPrice := t.gasPrice, maxFeePerGas := t.maxFeePerGas,
               maxPriorityFeePerGas := t.maxPriorityFeePerGas) == t
  {
    if UsesEip1559Fees(t) then
      t.(maxFeePerGas := Number(0), maxPriorityFeePerGas := Number(0))
    else
      t.(gasPrice := Number(0))
  }

  /** After the rewrite, gas estimation never sees a nonzero EIP-1559 fee,
      and it sees a nonzero gas price only when the caller set EIP-1559 fees
      together with that gas price. */
  lemma RewriteLeavesNoFee(t: TransactionFields)
    ensures !UsesEip1559Fees(RewriteFees(t))
    ensures Truthy(RewriteFees(t).gasPrice) ==>
      UsesEip1559Fees(t) && RewriteFees(t).gasPrice == t.gasPrice
  {
  }

  /** An explicit `maxFeePerGas = 0` is falsy, so the request takes the
      legacy branch, whereas a BigNumber zero is an object and takes the
      EIP-1559 branch. */
  lemma ZeroFeeBranches(t: TransactionFields, big: nat)
    requires Nullish(t.maxPriorityFeePerGas)
    ensures t.maxFeePerGas == Number(0) ==>
      RewriteFees(t) == t.(gasPrice := Number(0))
    ensures t.maxFeePerGas == Object(big) ==>
      RewriteFees(t) == t.(maxFeePerGas := Number(0), maxPriorityFeePerGas := Number(0))
  {
  }

  const MissingCallTarget: string := "Missing call target"
  const MissingCallDataOrValue: string := "Missing call data or value"

  /** `verifyAllNecessaryFields`: two checks in order, each with `== null`. */
  function VerifyAllNecessaryFields(t: TransactionFields): (r: Outcome<ErrorValue>)
    ensures r == Fail(NewError(MissingCallTarget)) <==> t.to.None?
    ensures r == Fail(NewError(MissingCallDataOrValue)) <==>
      t.to.Some? && t.data.None? && Nullish(t.value)
    ensures r.Pass? <==> t.to.Some? && (t.data.Some? || !Nullish(t.value))
  {
    if t.to.None? then Fail(NewError(MissingCallTarget))
    else if t.data.None? && Nullish(t.value) then Fail(NewError(MissingCallDataOrValue))
    else Pass
  }

  /** A target with a zero value and no call data passes: presence, not truthiness, is checked. */
  lemma ZeroValuePasses(t: TransactionFields)
    requires t.to.Some? && t.data.None? && t.value == Number(0)
    ensures VerifyAllNecessaryFields(t) == Pass
  {
  }

  /** The fields handed to `createSignedUserOp`. */
  datatype TransactionDetails = TransactionDetails(
    target: string,
    data: string,
    value: JsValue,
    gasLimit: JsValue,
    maxFeePerGas: JsValue,
    maxPriorityFeePerGas: JsValue)

  /** `{ target: tx.to ?? '', data: tx.data?.toString() ?? '', ... }`. */
  function DetailsOf(tx: TransactionFields): (d: TransactionDetails)
    ensures tx.to.Some? ==> d.target == tx.to.value
    ensures tx.to.None? ==> d.target == ""
    ensures tx.data.Some? ==> d.data == tx.data.value
    ensures tx.data.None? ==> d.data == ""
    ensures d.value == tx.value && d.gasLimit == tx.gasLimit
    ensures d.maxFeePerGas == tx.maxFeePerGas && d.maxPriorityFeePerGas == tx.maxPriorityFeePerGas
  {
    TransactionDetails(
      match tx.to case Some(a) => a case None => "",
      match tx.data case Some(d) => d case None => "",
      tx.value, tx.gasLimit, tx.maxFeePerGas, tx.maxPriorityFeePerGas)
  }
}
