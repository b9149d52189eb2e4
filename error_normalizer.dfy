/** `unwrapError` of the signer: turns a bundler failure carrying a JSON
    body into an error whose message names the failure reason and the
    paymaster, keeping the original stack. */
module ErrorNormalizer {
  import opened Wrappers
  import opened JsSemantics
  import opened FailedOpPattern

  /** A JavaScript error as far as the signer looks at it: its message, the
      `body` property the RPC client attaches (absent when `== null`), and
      its `stack` (absent when `undefined`). */
  datatype ErrorValue = ErrorValue(message: string, body: Option<string>, stack: Option<string>)

  /** `new Error(message)`: no body; the stack the runtime generates is not modelled. */
  function NewError(message: string): (e: ErrorValue)
    ensures e.message == message && e.body.None?
  {
    ErrorValue(message, None, None)
  }

  /** What `JSON.parse(body)?.error?.message` yields: the parse throws,
      the message is `undefined` or `null`, or it is a string. */
  datatype BodyMessage =
    | Unparseable
    | MessageUndefined
    | MessageNull
    | MessageText(text: string)

  /** Settled state of `unwrapError`: it returns an error, or `JSON.parse`
      throws a SyntaxError on the given body. */
  datatype Unwrapped = Returned(error: ErrorValue) | ParseThrew(body: string)

  const BatchFailurePrefix: string := "The bundler has failed to include UserOperation in a batch: "
  const PaymasterLabel: string := "(paymaster address: "

  /** `${failedOpMessage}` for the message before any `FailedOp` rewrite. */
  function MessageTemplate(m: BodyMessage): (r: string)
    requires !m.Unparseable?
    ensures m.MessageText? ==> r == m.text
    ensures m.MessageUndefined? ==> r == TemplateText(None)
    ensures m.MessageNull? ==> r == "null"
  {
    match m
    case MessageUndefined => "undefined"
    case MessageNull => "null"
    case MessageText(t) => t
  }

  /** The reason and the paymaster text put into the normalised message:
      the 3rd and 2nd comma-separated fields of a `FailedOp(...)` capture,
      or the message itself and no paymaster text. */
  function ReasonAndPaymaster(m: BodyMessage): (r: (string, string))
    requires !m.Unparseable?
    ensures m.MessageText? && MatchFailedOp(m.text).Some? ==>
      var parts := Split(MatchFailedOp(m.text).value, ',');
      r == (PieceText(parts, 2), PaymasterLabel + PieceText(parts, 1) + ")")
    ensures !(m.MessageText? && MatchFailedOp(m.text).Some?) ==> r == (MessageTemplate(m), "")
  {
    if m.MessageText? && Includes(m.text, "FailedOp") then
      match MatchFailedOp(m.text)
      case Some(capture) =>
        var split := Split(capture, ',');
        (PieceText(split, 2), PaymasterLabel + PieceText(split, 1) + ")")
      case None => (m.text, "")
    else if m.MessageText? then
      MatchImpliesIncludes(m.text);
      (MessageTemplate(m), "")
    else
      (MessageTemplate(m), "")
  }

  /** The template literal `${failedOpMessage} ${paymasterInfo})` behind the prefix. */
  function BatchFailureMessage(reason: string, paymasterInfo: string): (m: string)
    ensures |m| == |BatchFailurePrefix| + |reason| + 1 + |paymasterInfo| + 1
    ensures m[..|BatchFailurePrefix|] == BatchFailurePrefix
    ensures m[|BatchFailurePrefix|..|BatchFailurePrefix| + |reason|] == reason
    ensures m[|BatchFailurePrefix| + |reason|] == ' '
    ensures m[|BatchFailurePrefix| + |reason| + 1..|m| - 1] == paymasterInfo
    ensures m[|m| - 1] == ')'
  {
    var m := BatchFailurePrefix + reason + " " + paymasterInfo + ")";
    assert m[..|BatchFailurePrefix|] == BatchFailurePrefix;
    assert m[|BatchFailurePrefix|..|BatchFailurePrefix| + |reason|] == reason;
    assert m[|BatchFailurePrefix| + |reason| + 1..|m| - 1] == paymasterInfo;
    m
  }

  /** `unwrapError(errorIn)`; `jsonErrorMessage` stands for parsing the body
      and reading its `error.message`. */
  function UnwrapError(errorIn: ErrorValue, jsonErrorMessage: string -> BodyMessage): (r: Unwrapped)
    ensures r == Returned(errorIn) <==> errorIn.body.None?
    ensures r.ParseThrew? <==> errorIn.body.Some? && jsonErrorMessage(errorIn.body.value).Unparseable?
    ensures r.ParseThrew? ==> r.body == errorIn.body.value
    ensures errorIn.body.Some? && r.Returned? ==>
      r.error.stack == errorIn.stack && r.error.body.None? &&
      |r.error.message| > |BatchFailurePrefix| &&
      r.error.message[..|BatchFailurePrefix|] == BatchFailurePrefix &&
      r.error.message[|r.error.message| - 1] == ')'
  {
    if errorIn.body.Some? then
      var failedOpMessage := jsonErrorMessage(errorIn.body.value);
      if failedOpMessage.Unparseable? then ParseThrew(errorIn.body.value)
      else
        var (reason, paymasterInfo) := ReasonAndPaymaster(failedOpMessage);
        var message := BatchFailureMessage(reason, paymasterInfo);
        Returned(ErrorValue(message, None, errorIn.stack))
    else
      Returned(errorIn)
  }

  /** Spelled out, the `FailedOp` message carries two closing parentheses. */
  lemma FailedOpMessageText(reason: string, paymaster: string)
    ensures BatchFailureMessage(reason, PaymasterLabel + paymaster + ")") ==
      BatchFailurePrefix + reason + " (paymaster address: " + paymaster + "))"
  {
    var info := PaymasterLabel + paymaster + ")";
    assert " " + PaymasterLabel == " (paymaster address: ";
    assert BatchFailurePrefix + reason + " " + info + ")" ==
      BatchFailurePrefix + reason + (" " + PaymasterLabel) + paymaster + "))";
  }

  /** Spelled out, the message without a paymaster ends in `" )"`. */
  lemma PlainMessageText(reason: string)
    ensures BatchFailureMessage(reason, "") == BatchFailurePrefix + reason + " )"
  {
  }

  /** A body whose message is text without `(`, then `FailedOp(` +
      comma-separated fields + `)`, then text without `)`, is reported with the 3rd field as the
      reason and the 2nd as the paymaster; a missing field reads `undefined`. */
  lemma UnwrapFailedOpFields(errorIn: ErrorValue, jsonErrorMessage: string -> BodyMessage,
                             pre: string, fields: seq<string>, post: string)
    requires errorIn.body.Some?
    requires '(' !in pre && ')' !in post
    requires |fields| >= 1 && forall k :: 0 <= k < |fields| ==> ',' !in fields[k]
    requires forall m :: 0 <= m < |Join(fields, ',')| ==> !IsLineTerminator(Join(fields, ',')[m])
    requires jsonErrorMessage(errorIn.body.value) == MessageText(pre + FailedOpOpen + Join(fields, ',') + ")" + post)
    ensures UnwrapError(errorIn, jsonErrorMessage) == Returned(ErrorValue(
      BatchFailureMessage(PieceText(fields, 2), PaymasterLabel + PieceText(fields, 1) + ")"),
      None, errorIn.stack))
  {
    CaptureAfterPrefix(pre, Join(fields, ','), post);
    SplitJoin(fields, ',');
  }

  /** With at least three fields, the message names exactly the reason
      (3rd field) and the paymaster (2nd field), whatever surrounds the
      `FailedOp(...)` under the same conditions. */
  lemma UnwrapFailedOpReport(errorIn: ErrorValue, jsonErrorMessage: string -> BodyMessage,
                             pre: string, fields: seq<string>, post: string)
    requires errorIn.body.Some?
    requires '(' !in pre && ')' !in post
    requires |fields| >= 3 && forall k :: 0 <= k < |fields| ==> ',' !in fields[k]
    requires forall m :: 0 <= m < |Join(fields, ',')| ==> !IsLineTerminator(Join(fields, ',')[m])
    requires jsonErrorMessage(errorIn.body.value) == MessageText(pre + FailedOpOpen + Join(fields, ',') + ")" + post)
    ensures UnwrapError(errorIn, jsonErrorMessage) == Returned(ErrorValue(
      BatchFailurePrefix + fields[2] + " (paymaster address: " + fields[1] + "))", None, errorIn.stack))
  {
    UnwrapFailedOpFields(errorIn, jsonErrorMessage, pre, fields, post);
    FailedOpMessageText(fields[2], fields[1]);
  }

  /** A `FailedOp(...)` message with a single field yields `undefined`
      for both the reason and the paymaster. */
  lemma UnwrapFailedOpOneField(errorIn: ErrorValue, jsonErrorMessage: string -> BodyMessage,
                                pre: string, only: string, post: string)
    requires errorIn.body.Some?
    requires '(' !in pre && ')' !in post
    requires ',' !in only
    requires forall m :: 0 <= m < |only| ==> !IsLineTerminator(only[m])
    requires jsonErrorMessage(errorIn.body.value) == MessageText(pre + FailedOpOpen + only + ")" + post)
    ensures UnwrapError(errorIn, jsonErrorMessage) == Returned(ErrorValue(
      BatchFailurePrefix + "undefined" + " (paymaster address: " + "undefined" + "))", None, errorIn.stack))
  {
    var fields := [only];
    assert Join(fields, ',') == only;
    UnwrapFailedOpFields(errorIn, jsonErrorMessage, pre, fields, post);
    FailedOpMessageText("undefined", "undefined");
  }

  /** Without a `FailedOp(...)` match the original message is the reason,
      no paymaster is named, and the message ends in `" )"`. */
  lemma UnwrapWithoutFailedOp(errorIn: ErrorValue, jsonErrorMessage: string -> BodyMessage)
    requires errorIn.body.Some?
    requires !jsonErrorMessage(errorIn.body.value).Unparseable?
    requires jsonErrorMessage(errorIn.body.value).MessageText? ==>
      MatchFailedOp(jsonErrorMessage(errorIn.body.value).text).None?
    ensures UnwrapError(errorIn, jsonErrorMessage) == Returned(ErrorValue(
      BatchFailurePrefix + MessageTemplate(jsonErrorMessage(errorIn.body.value)) + " )", None, errorIn.stack))
  {
    PlainMessageText(MessageTemplate(jsonErrorMessage(errorIn.body.value)));
  }
}
