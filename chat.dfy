/**
 * The assistant chat (ChatInterface): an append-only transcript, the
 * submitting flag, and the single pending-transfer slot that the
 * confirmation dialog acts on.  The prompt handler is an input function and
 * the wallet extension's answer an input outcome; the dispatch itself is
 * `Wallet.SendTransaction`.
 */
module Chat {
  import opened Js
  import opened Wallet

  datatype Role = User | Ai

  /** A transcript entry; an AI message may carry a transfer the user can re-offer. */
  datatype Message = Message(role: Role, content: string, transaction: Option<TransferRequest>)

  const Greeting := "Hello! I'm your StackAI agent. How can I help you today? You can ask me to transfer funds, invest, or check your balance."
  const ApologyText := "Sorry, I couldn't process that. Please try again."
  const CanceledText := "It looks like the transaction was canceled."
  const FailedText := "The transaction failed. Please check your wallet and try again."
  const UnknownErrorText := "An unknown error occurred."
  const CancelMarker := "canceled"

  /** The toasts the chat raises. */
  datatype Notice =
    | WalletNotConnected
    | RequestProblem
    | TransactionBroadcast
    | TransactionCanceled
    | TransactionFailed(description: string)

  /** The prompt handler's answer: reply text with an optional transfer, or a thrown error. */
  datatype HandlerOutcome = Replied(text: string, transaction: Option<TransferRequest>) | HandlerThrew

  /** The arguments the prompt handler is called with. */
  datatype PromptQuery = PromptQuery(prompt: string, balance: real)

  /** The transcript entry for a handler outcome: the reply (with its transfer) or the fixed apology. */
  function ReplyMessage(h: HandlerOutcome): (m: Message)
    ensures m.role == Ai
    ensures h.Replied? ==> m.content == h.text && m.transaction == h.transaction
    ensures h.HandlerThrew? ==> m.content == ApologyText && m.transaction.None?
  {
    match h
    case Replied(text, tx) => Message(Ai, text, tx)
    case HandlerThrew => Message(Ai, ApologyText, None)
  }

  /**
   * The catch branch of the confirmation: an error message containing
   * "canceled" is a cancellation notice, anything else a failure whose
   * description is the message (or a fixed text when it is empty).
   */
  function ClassifyFailure(message: string): (outcome: (Notice, string))
    ensures outcome.1 == CanceledText <==> Contains(message, CancelMarker)
    ensures outcome.0 == TransactionCanceled <==> Contains(message, CancelMarker)
    ensures !Contains(message, CancelMarker) ==>
              outcome == (TransactionFailed(if message == "" then UnknownErrorText else message), FailedText)
  {
    if Contains(message, CancelMarker) then (TransactionCanceled, CanceledText)
    else (TransactionFailed(if message == "" then UnknownErrorText else message), FailedText)
  }

  const SuccessLead := "I've successfully broadcasted the transaction to send "

  /** The transcript text after a resolved send: amount, asset and recipient of the transfer. */
  function SuccessText(tx: TransferRequest, showNumber: real -> string): string
  {
    SuccessLead + showNumber(tx.amount) + (" " + tx.asset + " to " + tx.recipient + ".")
  }

  /** The success text names the amount sent right after its lead-in and ends with the recipient and a period. */
  lemma SuccessTextEchoesTransfer(tx: TransferRequest, showNumber: real -> string)
    ensures var text := SuccessText(tx, showNumber);
      && OccursAt(text, showNumber(tx.amount), |SuccessLead|)
      && OccursAt(text, tx.recipient + ".", |text| - |tx.recipient| - 1)
  {
    var text := SuccessText(tx, showNumber);
    OccursAfter(SuccessLead, showNumber(tx.amount), " " + tx.asset + " to " + tx.recipient + ".");
    assert text[|text| - |tx.recipient| - 1..] == tx.recipient + ".";
  }

  /** Notice and transcript entry for a settled send: success text on resolve, classified failure on reject. */
  function ConfirmationOutcome(r: SendResult, tx: TransferRequest, showNumber: real -> string): (outcome: (Notice, Message))
    ensures outcome.1.role == Ai && outcome.1.transaction.None?
    ensures r.SendResolved? <==> outcome.0 == TransactionBroadcast
    ensures r.SendResolved? ==> outcome.1.content == SuccessText(tx, showNumber)
    ensures r.SendRejected? ==> (outcome.0, outcome.1.content) == ClassifyFailure(r.message)
  {
    match r
    case SendResolved(_, _) => (TransactionBroadcast, Message(Ai, SuccessText(tx, showNumber), None))
    case SendRejected(message, _) =>
      var (notice, text) := ClassifyFailure(message);
      (notice, Message(Ai, text, None))
  }

  /** The wallet's cancel rejection reads as a cancellation in the chat. */
  lemma ProviderCancelReadsAsCancel(tx: TransferRequest, sender: string, net: Network, showNumber: real -> string)
    requires tx.asset == "STX" && sender != ""
    ensures var r := SendTransaction(Some(tx), Some(sender), net, ProviderCanceled);
      && r.SendRejected? && r.attempted.Some?
      && ConfirmationOutcome(r, tx, showNumber) == (TransactionCanceled, Message(Ai, CanceledText, None))
  {
    assert CancelMessage[20..28] == CancelMarker;
    ContainsAt(CancelMessage, CancelMarker, 20);
  }

  /** An unsupported asset whose name has no 'c' is reported as a failure carrying the wallet's message. */
  lemma UnsupportedAssetReadsAsFailure(tx: TransferRequest, sender: string, net: Network,
                                       outcome: ProviderOutcome, showNumber: real -> string)
    requires tx.asset != "STX" && sender != "" && 'c' !in tx.asset
    ensures var r := SendTransaction(Some(tx), Some(sender), net, outcome);
      && r == SendRejected(UnsupportedMessage(tx.asset), None)
      && ConfirmationOutcome(r, tx, showNumber)
         == (TransactionFailed(UnsupportedMessage(tx.asset)), Message(Ai, FailedText, None))
  {
    var m := UnsupportedMessage(tx.asset);
    assert 'c' !in " transfers are not yet supported.";
    assert 'c' in CancelMarker;
    assert 'c' !in m by {
      assert m == tx.asset + " transfers are not yet supported.";
    }
    NotContainsMissingChar(m, CancelMarker, 'c');
  }

  /** The substring test is a heuristic: a non-STX asset named "canceled" is shown as a cancellation. */
  lemma AssetNamedCanceledReadsAsCancel(sender: string, net: Network, amount: real, recipient: string,
                                        outcome: ProviderOutcome, showNumber: real -> string)
    requires sender != ""
    ensures var tx := TransferRequest(CancelMarker, amount, recipient);
      ConfirmationOutcome(SendTransaction(Some(tx), Some(sender), net, outcome), tx, showNumber).0 == TransactionCanceled
  {
    var m := UnsupportedMessage(CancelMarker);
    assert m[0..8] == CancelMarker;
    ContainsAt(m, CancelMarker, 0);
  }

  class ChatSession {
    var messages: seq<Message>
    var isSubmitting: bool
    /** The pending-transfer slot: at most one transfer awaits confirmation. */
    var pendingTransaction: Option<TransferRequest>

    /** Between user actions: the transcript starts with the greeting and no submit is in progress. */
    ghost predicate Valid()
      reads this
    {
      |messages| >= 1 && messages[0] == Message(Ai, Greeting, None) && !isSubmitting
    }

    constructor ()
      ensures Valid()
      ensures messages == [Message(Ai, Greeting, None)] && pendingTransaction.None?
    {
      messages := [Message(Ai, Greeting, None)];
      isSubmitting := false;
      pendingTransaction := None;
    }

    /**
     * `onSubmit`: without a connected STX address, only a toast; otherwise the
     * user message, then the handler's reply or the apology, and the slot
     * takes the reply's transfer if it carries one.
     */
    method Submit(prompt: string, wallet: WalletSession, handler: (string, real) -> HandlerOutcome)
      returns (notice: Option<Notice>, query: Option<PromptQuery>)
      requires Valid()
      modifies this
      ensures Valid()
      ensures old(messages) <= messages
      ensures !Truthy(wallet.stxAddress) ==>
                && notice == Some(WalletNotConnected) && query.None?
                && messages == old(messages) && pendingTransaction == old(pendingTransaction)
      ensures Truthy(wallet.stxAddress) ==>
                var h := handler(prompt, wallet.stxBalance);
                && query == Some(PromptQuery(prompt, wallet.stxBalance))
                && messages == old(messages) + [Message(User, prompt, None), ReplyMessage(h)]
                && notice == (if h.HandlerThrew? then Some(RequestProblem) else None)
                && pendingTransaction == (if h.Replied? && h.transaction.Some? then h.transaction
                                          else old(pendingTransaction))
    {
      if !Truthy(wallet.stxAddress) {
        notice := Some(WalletNotConnected);
        query := None;
        return;
      }
      isSubmitting := true;
      messages := messages + [Message(User, prompt, None)];
      query := Some(PromptQuery(prompt, wallet.stxBalance));
      var h := handler(prompt, wallet.stxBalance);
      match h {
        case Replied(text, tx) =>
          messages := messages + [Message(Ai, text, tx)];
          if tx.Some? {
            pendingTransaction := tx;
          }
          notice := None;
        case HandlerThrew =>
          notice := Some(RequestProblem);
          messages := messages + [Message(Ai, ApologyText, None)];
      }
      isSubmitting := false;
    }

    /**
     * `onConfirmTransaction`: with an empty slot nothing happens; otherwise the
     * transfer is sent, one outcome message is appended, and the slot is
     * emptied whatever the outcome.
     */
    method ConfirmTransaction(wallet: WalletSession, outcome: ProviderOutcome, showNumber: real -> string)
      returns (notice: Option<Notice>, send: Option<SendResult>)
      requires Valid()
      modifies this
      ensures Valid()
      ensures old(messages) <= messages
      ensures old(pendingTransaction).None? ==>
                notice.None? && send.None? && messages == old(messages) && pendingTransaction.None?
      ensures old(pendingTransaction).Some? ==>
                var tx := old(pendingTransaction).value;
                var r := SendTransaction(Some(tx), wallet.stxAddress, wallet.network, outcome);
                var (n, m) := ConfirmationOutcome(r, tx, showNumber);
                && send == Some(r) && notice == Some(n)
                && messages == old(messages) + [m]
                && pendingTransaction.None?
    {
      if pendingTransaction.None? {
        notice := None;
        send := None;
        return;
      }
      var tx := pendingTransaction.value;
      var r := SendTransaction(Some(tx), wallet.stxAddress, wallet.network, outcome);
      var (n, m) := ConfirmationOutcome(r, tx, showNumber);
      messages := messages + [m];
      notice := Some(n);
      send := Some(r);
      pendingTransaction := None;
    }

    /** The "Confirm Transaction" button of a transcript entry: offer that entry's transfer again. */
    method ReopenOffer(i: nat)
      requires Valid() && i < |messages| && messages[i].transaction.Some?
      modifies this`pendingTransaction
      ensures Valid()
      ensures pendingTransaction == messages[i].transaction
    {
      pendingTransaction := messages[i].transaction;
    }

    /** The dialog's Cancel button, or closing the dialog: empty the slot without sending. */
    method ClearPending()
      requires Valid()
      modifies this`pendingTransaction
      ensures Valid()
      ensures pendingTransaction.None?
    {
      pendingTransaction := None;
    }
  }
}
