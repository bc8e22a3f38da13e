/**
 * The server action that answers a chat prompt (handleUserPrompt): an empty
 * prompt is refused, otherwise the intent parser is asked (with a fixed mock
 * balance) and its structured intent is mapped to a reply.  The parser is an
 * input function that may fail; number-to-text conversion is an input too.
 */
module Actions {
  import opened Js

  /** The action kinds of the intent schema. */
  datatype ActionType = Transfer | Invest | Withdraw | Swap | GetBalance | Unknown

  /** The structured intent the parser returns (all fields but the action and rationale optional). */
  datatype Intent = Intent(
    actionType: ActionType,
    targetAddress: Option<string>,
    amount: Option<real>,
    assetType: Option<string>,
    investmentStrategy: Option<string>,
    stockTicker: Option<string>,
    rationale: string,
    confidenceLevel: Option<real>)

  /** What the parser is asked: the prompt and the balance it may spend. */
  datatype ParseInput = ParseInput(prompt: string, availableBalance: int)

  /** The parser either fails (throws) or returns an intent. */
  datatype ParseOutcome = ParseFailure | Parsed(intent: Intent)

  /** The mock balance handed to the parser and quoted in replies. */
  const AvailableBalance: nat := 1200

  /**
   * Host number formatting: `show(x)` is `String(x)`, for amounts, and
   * `percent(x)` is `(x * 100).toFixed(0)`, for the confidence level.
   */
  datatype NumberFormat = NumberFormat(show: real -> string, percent: real -> string)

  /** The reply chosen, before it is written out as text. */
  datatype Reply =
    | EnterCommand
    | PrepareTransfer(amount: real, asset: string, target: string)
    | AskTransferDetails
    | RecommendStock(ticker: string, confidence: Option<real>)
    | ExecuteStrategy(strategy: string)
    | AskInvestDetails
    | ReportBalance
    | PrepareWithdraw(amount: real, asset: string)
    | AskWithdrawDetails
    | SwapNotImplemented(rationale: string)
    | Rephrase
    | TroubleUnderstanding

  /** The switch over the intent; field completeness is JavaScript truthiness. */
  function SelectReply(i: Intent): (r: Reply)
    ensures r.PrepareTransfer? <==>
              i.actionType == Transfer && TruthyNumber(i.amount) && Truthy(i.assetType) && Truthy(i.targetAddress)
    ensures r.PrepareTransfer? ==>
              r == PrepareTransfer(i.amount.value, i.assetType.value, i.targetAddress.value)
    ensures r == AskTransferDetails <==> i.actionType == Transfer && !r.PrepareTransfer?
    ensures r.PrepareWithdraw? <==> i.actionType == Withdraw && TruthyNumber(i.amount) && Truthy(i.assetType)
    ensures r.PrepareWithdraw? ==> r == PrepareWithdraw(i.amount.value, i.assetType.value)
    ensures r == AskWithdrawDetails <==> i.actionType == Withdraw && !r.PrepareWithdraw?
    ensures r.RecommendStock? <==> i.actionType == Invest && Truthy(i.stockTicker)
    ensures r.RecommendStock? ==>
              && i.stockTicker.Some? && r.ticker == i.stockTicker.value
              && r.confidence == (if TruthyNumber(i.confidenceLevel) then i.confidenceLevel else None)
    ensures r.ExecuteStrategy? ==> i.investmentStrategy.Some? && r.strategy == i.investmentStrategy.value
    ensures r.ExecuteStrategy? <==>
              i.actionType == Invest && !Truthy(i.stockTicker) && Truthy(i.investmentStrategy)
    ensures r == AskInvestDetails <==>
              i.actionType == Invest && !Truthy(i.stockTicker) && !Truthy(i.investmentStrategy)
    ensures r == ReportBalance <==> i.actionType == GetBalance
    ensures r.SwapNotImplemented? <==> i.actionType == Swap
    ensures r.SwapNotImplemented? ==> r.rationale == i.rationale
    ensures r == Rephrase <==> i.actionType == Unknown
    ensures r != EnterCommand && r != TroubleUnderstanding
  {
    match i.actionType
    case Transfer =>
      if TruthyNumber(i.amount) && Truthy(i.assetType) && Truthy(i.targetAddress) then
        PrepareTransfer(i.amount.value, i.assetType.value, i.targetAddress.value)
      else AskTransferDetails
    case Invest =>
      if Truthy(i.stockTicker) then
        RecommendStock(i.stockTicker.value, if TruthyNumber(i.confidenceLevel) then i.confidenceLevel else None)
      else if Truthy(i.investmentStrategy) then ExecuteStrategy(i.investmentStrategy.value)
      else AskInvestDetails
    case GetBalance => ReportBalance
    case Withdraw =>
      if TruthyNumber(i.amount) && Truthy(i.assetType) then PrepareWithdraw(i.amount.value, i.assetType.value)
      else AskWithdrawDetails
    case Swap => SwapNotImplemented(i.rationale)
    case Unknown => Rephrase
  }

  /** The reply for a prompt: refuse an empty one, ask the parser otherwise, and never throw. */
  function ReplyFor(prompt: string, parser: ParseInput -> ParseOutcome): (r: Reply)
    ensures r == EnterCommand <==> prompt == ""
    ensures r == TroubleUnderstanding <==> prompt != "" && parser(ParseInput(prompt, AvailableBalance)).ParseFailure?
    ensures prompt != "" && parser(ParseInput(prompt, AvailableBalance)).Parsed? ==>
              r == SelectReply(parser(ParseInput(prompt, AvailableBalance)).intent)
  {
    if prompt == "" then EnterCommand
    else match parser(ParseInput(prompt, AvailableBalance))
      case ParseFailure => TroubleUnderstanding
      case Parsed(intent) => SelectReply(intent)
  }

  const EnterCommandText := "Please enter a command."
  const AskTransferDetailsText := "I see you want to make a transfer. To proceed, please provide the amount, asset (BTC or STX), and the recipient's address."
  const AskInvestDetailsText := "I understand you want to invest. You can ask me for a stock recommendation or specify an investment strategy."
  const AskWithdrawDetailsText := "I understand you want to withdraw. Please specify the amount and asset type (e.g. BTC or STX)."
  const RephraseText := "I'm not quite sure how to handle that. I can help with transfers, simulated investments, and checking your balance. Could you please rephrase your request?"
  const TroubleText := "Sorry, I had trouble understanding that. Please try again."
  /** `${availableBalance}` in reply texts; `AvailableBalanceText` shows it is the balance's decimal text. */
  const BalanceDigits := "1200"
  const BalanceText := "Your current available balance is approximately 1200 STX."

  const TransferLead := "I'm preparing to transfer "
  const RecommendLead := "Based on my analysis, a good investment could be "
  const StrategyLead := "Okay, I will execute the investment strategy: \""
  const SwapLead := "Swap functionality is not yet implemented, but I understand you want to perform a swap. "

  const WithdrawLead := "I am preparing to withdraw "

  /** The reply written out as the text the action returns. */
  function ReplyText(r: Reply, fmt: NumberFormat): string
  {
    match r
    case EnterCommand => EnterCommandText
    case PrepareTransfer(amount, asset, target) =>
      TransferLead + fmt.show(amount) + (" " + asset + " to " + target + ". Please confirm the transaction.")
    case AskTransferDetails => AskTransferDetailsText
    case RecommendStock(ticker, confidence) =>
      RecommendLead + ticker
        + (". The prediction is a price rise with a confidence level of "
           + (if confidence.Some? then fmt.percent(confidence.value) else "N/A")
           + "%. Shall I proceed with a simulated investment?")
    case ExecuteStrategy(strategy) =>
      StrategyLead + strategy + ("\". I will use a portion of your " + BalanceDigits + " STX balance for a simulated trade.")
    case AskInvestDetails => AskInvestDetailsText
    case ReportBalance => "Your current available balance is approximately " + BalanceDigits + " STX."
    case PrepareWithdraw(amount, asset) => WithdrawLead + fmt.show(amount) + (" " + asset + ". Please confirm.")
    case AskWithdrawDetails => AskWithdrawDetailsText
    case SwapNotImplemented(rationale) => SwapLead + rationale
    case Rephrase => RephraseText
    case TroubleUnderstanding => TroubleText
  }

  /** A transfer reply names the amount right after its lead-in. */
  lemma TransferReplyEchoesAmount(amount: real, asset: string, target: string, fmt: NumberFormat)
    ensures OccursAt(ReplyText(PrepareTransfer(amount, asset, target), fmt), fmt.show(amount), |TransferLead|)
  {
    OccursAfter(TransferLead, fmt.show(amount), " " + asset + " to " + target + ". Please confirm the transaction.");
  }

  /** A withdraw reply names the amount right after its lead-in. */
  lemma WithdrawReplyEchoesAmount(amount: real, asset: string, fmt: NumberFormat)
    ensures OccursAt(ReplyText(PrepareWithdraw(amount, asset), fmt), fmt.show(amount), |WithdrawLead|)
  {
    OccursAfter(WithdrawLead, fmt.show(amount), " " + asset + ". Please confirm.");
  }

  /** A recommendation names the ticker right after its lead-in. */
  lemma RecommendationEchoesTicker(ticker: string, confidence: Option<real>, fmt: NumberFormat)
    ensures OccursAt(ReplyText(RecommendStock(ticker, confidence), fmt), ticker, |RecommendLead|)
  {
    OccursAfter(RecommendLead, ticker, ". The prediction is a price rise with a confidence level of "
      + (if confidence.Some? then fmt.percent(confidence.value) else "N/A")
      + "%. Shall I proceed with a simulated investment?");
  }

  /** A strategy reply quotes the strategy right after its lead-in. */
  lemma StrategyReplyEchoesStrategy(strategy: string, fmt: NumberFormat)
    ensures OccursAt(ReplyText(ExecuteStrategy(strategy), fmt), strategy, |StrategyLead|)
  {
    OccursAfter(StrategyLead, strategy,
      "\". I will use a portion of your " + BalanceDigits + " STX balance for a simulated trade.");
  }

  /** The swap reply ends with the rationale. */
  lemma SwapReplyEndsWithRationale(rationale: string, fmt: NumberFormat)
    ensures var text := ReplyText(SwapNotImplemented(rationale), fmt);
      OccursAt(text, rationale, |SwapLead|) && |text| == |SwapLead| + |rationale|
  {
    OccursAfter(SwapLead, rationale, "");
    assert SwapLead + rationale + "" == SwapLead + rationale;
  }

  /**
   * `handleUserPrompt`: "Please enter a command." for the empty prompt
   * without asking the parser, the apology when the parser fails, and
   * otherwise the text of the reply to the parsed intent; never a throw.
   */
  function HandleUserPrompt(prompt: string, parser: ParseInput -> ParseOutcome, fmt: NumberFormat): (text: string)
    ensures prompt == "" ==> text == EnterCommandText
    ensures prompt != "" && parser(ParseInput(prompt, AvailableBalance)).ParseFailure? ==> text == TroubleText
    ensures prompt != "" && parser(ParseInput(prompt, AvailableBalance)).Parsed? ==>
              text == ReplyText(SelectReply(parser(ParseInput(prompt, AvailableBalance)).intent), fmt)
  {
    ReplyText(ReplyFor(prompt, parser), fmt)
  }

  /** An empty prompt is answered with a fixed text, whatever the parser would say: it is never asked. */
  lemma EmptyPromptSkipsParser(p1: ParseInput -> ParseOutcome, p2: ParseInput -> ParseOutcome, fmt: NumberFormat)
    ensures HandleUserPrompt("", p1, fmt) == HandleUserPrompt("", p2, fmt) == EnterCommandText
  {
  }

  /** The reply depends on the parser only through its answer for the prompt with the fixed balance of 1200. */
  lemma ParserSeesPromptAndFixedBalance(prompt: string, p1: ParseInput -> ParseOutcome,
                                        p2: ParseInput -> ParseOutcome, fmt: NumberFormat)
    requires p1(ParseInput(prompt, 1200)) == p2(ParseInput(prompt, 1200))
    ensures HandleUserPrompt(prompt, p1, fmt) == HandleUserPrompt(prompt, p2, fmt)
  {
  }

  /** A parser failure on a non-empty prompt yields the fixed apology. */
  lemma ParserFailureApologises(prompt: string, parser: ParseInput -> ParseOutcome, fmt: NumberFormat)
    requires prompt != "" && parser(ParseInput(prompt, AvailableBalance)) == ParseFailure
    ensures HandleUserPrompt(prompt, parser, fmt) == TroubleText
  {
  }

  /** The mock balance reads "1200" in reply texts. */
  lemma AvailableBalanceText()
    ensures NatToString(AvailableBalance) == BalanceDigits
  {
    assert NatToString(1) == "1";
    assert NatToString(12) == NatToString(1) + "2";
    assert NatToString(120) == NatToString(12) + "0";
  }

  /** The balance reply quotes the fixed 1200 STX, whatever else the intent holds. */
  lemma BalanceReplyIsFixed(i: Intent, fmt: NumberFormat)
    requires i.actionType == GetBalance
    ensures ReplyText(SelectReply(i), fmt) == BalanceText
  {
  }

  /** A transfer of amount 0 counts as incomplete, even with asset and recipient given. */
  lemma ZeroAmountTransferAsksForDetails(i: Intent, fmt: NumberFormat)
    requires i.actionType == Transfer && i.amount == Some(0.0)
    ensures ReplyText(SelectReply(i), fmt) == AskTransferDetailsText
  {
  }

  /** A complete transfer intent is echoed with exactly its amount, asset and recipient. */
  lemma CompleteTransferEchoesFields(i: Intent, fmt: NumberFormat)
    requires i.actionType == Transfer && TruthyNumber(i.amount) && Truthy(i.assetType) && Truthy(i.targetAddress)
    ensures ReplyText(SelectReply(i), fmt)
            == TransferLead + fmt.show(i.amount.value)
               + (" " + i.assetType.value + " to " + i.targetAddress.value + ". Please confirm the transaction.")
  {
  }
}
