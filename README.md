# StackAI Wallet: wallet store, chat confirmation flow, intent replies and history view

This project is a Dafny model of the client-side core of the StackAI Wallet dashboard. Every member verifies against its contract. The model covers four parts:

- **Wallet session store** (`Wallet`, from `src/components/wallet-provider.tsx`).
  - A class `WalletSession` holds the fields the React provider overwrites: the session data, the STX and BTC addresses, both balances, the transaction list, the loading flag and the active network.
  - Its methods are network switching, the start-up restore, disconnect, the two balance fetches, the paginated history fetch and the refresh after a finished transfer.
  - The history loop is a `while` loop proved against the recursive specification `Walk`/`FetchAll`. The lemmas about `FetchAll` state when the loop asks for another page, the limit and offset of each request, and what ends up stored.
  - `SendTransaction` is the confirmed-transfer dispatch (`handleSendTransaction`). It covers the guard, the unsupported-asset error, the micro-STX conversion and the provider's finish or cancel.
- **Chat transcript and pending-transfer slot** (`Chat`, from `src/components/chat-interface.tsx`).
  - A class `ChatSession` holds an append-only transcript, the submitting flag and a single optional pending transfer.
  - Submit, confirm, re-offer and cancel are the methods that act on it.
  - A failure is classified by whether the error message contains "canceled".
- **Intent to reply** (`Actions`, from `src/app/actions.ts`). The case analysis maps a parsed intent to the reply. The completeness checks use JavaScript truthiness, and the parser may fail.
- **Recent-activity card** (`History`, from `src/components/transaction-history.tsx`). It covers the status badge, the explorer link, content precedence, the first-ten table and the per-row direction, details, shortened details and type label.

`Js` holds the JavaScript semantics these rely on:

- `null`/`undefined` as `Option`;
- truthiness, where `""` and `0` are falsy;
- `includes`;
- `slice(0, n)` and `slice(-n)`;
- `replace` with a string pattern, which replaces only the first occurrence;
- decimal rendering of a non-negative integer.

`Js.IndexOf` (`indexOf`) is not used by the core. It is there only to state the explorer-link finding below.

Inputs stand in for everything outside the program:

- The indexer's pages are a finite script of responses. A request past the end of the script counts as a rejected fetch.
- The balance endpoints' answers are inputs.
- The wallet extension's sign-in state and its finish/cancel callback are inputs.
- The persisted network id is an input.
- The prompt handler is an input, and so is the intent parser.
- Host number formatting (`String(x)`, `toFixed(0)`) is a function parameter.

The model keeps these behaviours of the code:

- A failed balance fetch sets the balance to 0 (`src/components/wallet-provider.tsx:80-85`, `:96-101`). It does not keep the previous value.
- No in-flight fetch is tagged with the selection it was issued for, so nothing is discarded when the network changes.
- Switching the network does not touch the chat's pending slot.

## Model

| member | source | states |
|---|---|---|
| Js.ContainsIff | src/components/chat-interface.tsx:111 | `includes` answers true exactly when the substring occurs at some position of the message |
| Js.ReplaceFirstAbsent | src/components/transaction-history.tsx:131 | `replace` leaves a string without the pattern unchanged |
| Js.ReplaceFirstSplit | src/components/transaction-history.tsx:131 | in `head + "_" + tail` with no `_` in head, the result is `head + " " + tail`, so later underscores remain |
| Js.ContainsAt | src/components/chat-interface.tsx:111 | one occurrence of the substring at any position makes `includes` answer true |
| Js.SliceHead | src/components/transaction-history.tsx:120 | `slice(0, n)` is a prefix of length min(n, length) |
| Js.SliceLast | src/components/transaction-history.tsx:120 | `slice(-n)` is a suffix of length min(n, length) |
| Js.DecimalRoundTrip | src/components/wallet-provider.tsx:119 | the decimal text of the limit and offset in a follow-up URL reads back as the same number |
| Js.NatToStringInjective | src/components/wallet-provider.tsx:119 | distinct offsets give distinct URL text |
| Wallet.FindById | src/components/wallet-provider.tsx:64 | `find` returns the first network in the list whose id matches (no earlier network has that id), or none when no id matches |
| Wallet.ResolveSavedNetwork | src/components/wallet-provider.tsx:62-66 | the restored network is in the registry, and an absent or unknown id gives testnet |
| Wallet.RestoreAfterPersist | src/components/wallet-provider.tsx:53-66 | restoring the id `setNetwork` persisted gives back that network |
| Wallet.SelectAddresses | src/components/wallet-provider.tsx:144-145 | mainnet takes the profile's mainnet STX and BTC addresses; every other network takes the testnet ones |
| Wallet.DevnetUsesTestnetAddresses | src/components/wallet-provider.tsx:144-145 | devnet selects the same addresses as testnet |
| Wallet.StxFromMicro | src/components/wallet-provider.tsx:94 | STX balance times 1,000,000 is the micro-STX amount |
| Wallet.BtcFromSatoshis | src/components/wallet-provider.tsx:78 | BTC balance times 100,000,000 is the satoshi amount |
| Wallet.MicroFromStx | src/components/wallet-provider.tsx:190 | `Math.round(amount * 1e6)` lies within one half of amount * 1e6, and a half rounds up |
| Wallet.MicroStxRoundTrip | src/components/wallet-provider.tsx:190 | a display amount that came from micro-STX converts back to the same micro-STX |
| Wallet.StxBalanceUrl | src/components/wallet-provider.tsx:91 | the balances request goes to the network's indexer, with the address after `/extended/v1/address/` and nothing after `/balances` |
| Wallet.BtcBalanceUrl | src/components/wallet-provider.tsx:75 | the BlockCypher request names the chain, then `/addrs/`, then the address, and ends with `/balance` |
| Wallet.StoredBalance | src/components/wallet-provider.tsx:89-103 | an ok answer stores the converted amount; a non-ok answer or a rejected fetch stores 0 |
| Wallet.BtcApiNetwork | src/components/wallet-provider.tsx:69-73 | BlockCypher is asked only on mainnet (`main`) and testnet (`test3`) |
| Wallet.TransactionsUrl | src/components/wallet-provider.tsx:110-119 | every page request goes to the address's transactions endpoint; the first page has nothing after it, a follow-up has its limit/offset query after it |
| Wallet.FollowUpQueryReadsBack | src/components/wallet-provider.tsx:119 | a follow-up query reads `?limit=`, the limit's digits, `&offset=` and the offset's digits, and both read back as the numbers requested |
| Wallet.FetchAll | src/components/wallet-provider.tsx:108-127 | one fetch starts with the first page and makes at least one and at most one more request than the indexer has pages |
| Wallet.Walk | src/components/wallet-provider.tsx:113-127 | one loop run asks at least one page and at most one more than the script holds, starting with the given query |
| Wallet.WalkFollowUp | src/components/wallet-provider.tsx:118-119 | from any accumulated prefix, each further request follows a continuing page, with that page's limit and the records so far as offset |
| Wallet.WalkStop | src/components/wallet-provider.tsx:113-132 | from any accumulated prefix, the loop stops at a rejected, non-ok or non-continuing page and stores `[]`, the records so far, or the records including the last page |
| Wallet.FetchAllFollowUps | src/components/wallet-provider.tsx:118-119 | request i+1 is made only if page i was non-empty and reported a total above the records accumulated; its limit is page i's and its offset the records accumulated through page i |
| Wallet.EmptyPageStops | src/components/wallet-provider.tsx:118 | an empty page is the last one requested |
| Wallet.FetchAllStored | src/components/wallet-provider.tsx:113-132 | the first request has no query; the stored list is the in-order concatenation of the pages fetched, the pages before a non-ok answer, or `[]` after a thrown fetch |
| Wallet.WalkComplete | src/components/wallet-provider.tsx:113-128 | with consistent non-empty pages, the loop from any prefix requests each page once and appends all their records |
| Wallet.FetchAllComplete | src/components/wallet-provider.tsx:113-128 | with non-empty pages that report the true total, every page is fetched once and all `total` records are stored, in order |
| Wallet.SendTransaction | src/components/wallet-provider.tsx:183-218 | a missing transfer or sender rejects with the guard message; a non-STX asset rejects as unsupported; neither calls the provider; STX calls it with round(amount*1e6) micro-STX and the fixed memo, then resolves with a refresh for the sender on finish or rejects with the cancel message |
| Wallet.TwentyFiveStx | src/components/wallet-provider.tsx:190-196 | 25 STX reaches the provider as 25,000,000 micro-STX |
| Wallet.WalletSession.constructor | src/components/wallet-provider.tsx:44-51 | nothing loaded, balances 0, empty history, flag down, testnet active |
| Wallet.WalletSession.RestoreNetwork | src/components/wallet-provider.tsx:62-66 | the active network becomes the one restored from the persisted id |
| Wallet.WalletSession.Disconnect | src/components/wallet-provider.tsx:173-181 | signs out, clears session data and addresses, zeroes both balances, empties the history; network and loading flag are unchanged |
| Wallet.WalletSession.SetNetwork | src/components/wallet-provider.tsx:53-60 | activates and persists the network; disconnects only when signed in, otherwise nothing else changes |
| Wallet.WalletSession.FetchStxBalance | src/components/wallet-provider.tsx:89-103 | requests the balances URL of the network and address; stores the converted amount, or 0 |
| Wallet.WalletSession.FetchBtcBalance | src/components/wallet-provider.tsx:68-87 | off mainnet and testnet stores 0 with no request; otherwise requests BlockCypher and stores the converted amount, or 0 |
| Wallet.QueryUrlsAt | src/components/wallet-provider.tsx:110-119 | the request list has one URL per query, and request i is the transactions URL of query i |
| Wallet.WalletSession.CollectHistory | src/components/wallet-provider.tsx:108-132 | the `while (currentUrl)` loop requests exactly the URLs of `FetchAll`'s queries, in order, and returns `FetchAll`'s list; `[]` when a fetch throws |
| Wallet.WalletSession.FetchTransactions | src/components/wallet-provider.tsx:105-136 | while the pages are collected the flag is up and the list is empty (`whileFetching`); afterwards the list is `FetchAll`'s, the requests are `FetchAll`'s URLs and the flag is down on every path |
| Wallet.WalletSession.FetchForAddresses | src/components/wallet-provider.tsx:148-155 | with an STX address, its balance and history are fetched and their URLs requested first; with a BTC address, its balance (0 and no request off mainnet/testnet); a missing address leaves its fields, including the loading flag, unchanged |
| Wallet.WalletSession.SyncSession | src/components/wallet-provider.tsx:138-157 | signed out: nothing changes and nothing is requested; signed in without a profile: only the session data is loaded; with a profile: the active network's addresses are selected and the fetches of `FetchForAddresses` run, with exactly its requests |
| Wallet.WalletSession.RefreshAfterTransfer | src/components/wallet-provider.tsx:197-206 | after a finished transfer the sender's STX balance is refetched, then the history; the requests are the balance URL followed by the history URLs |
| Chat.ReplyMessage | src/components/chat-interface.tsx:76-90 | the transcript entry is the AI reply with its transfer, or the fixed apology without one when the handler throws |
| Chat.ClassifyFailure | src/components/chat-interface.tsx:109-123 | a message containing "canceled" gives the cancel notice and text, and nothing else does; any other message gives the failure text and a notice carrying the message (or the fixed text when it is empty) |
| Chat.SuccessTextEchoesTransfer | src/components/chat-interface.tsx:106 | the success text names the amount sent right after its lead-in and ends with the recipient |
| Chat.ConfirmationOutcome | src/components/chat-interface.tsx:100-125 | the broadcast notice and success text exactly when the send resolved; otherwise the classification of the rejection message |
| Chat.ProviderCancelReadsAsCancel | src/components/chat-interface.tsx:109-115 | the provider's cancel rejection ("The transaction was canceled.") is shown as a cancellation |
| Chat.UnsupportedAssetReadsAsFailure | src/components/chat-interface.tsx:116-123 | an unsupported asset whose name has no 'c' is shown as a failure carrying the wallet's message |
| Chat.AssetNamedCanceledReadsAsCancel | src/components/chat-interface.tsx:111 | the substring test also shows an unsupported asset named "canceled" as a cancellation |
| Chat.ChatSession.constructor | src/components/chat-interface.tsx:33-40 | the transcript is the greeting alone and the slot is empty |
| Chat.ChatSession.Submit | src/components/chat-interface.tsx:61-95 | without an STX address: a toast only, transcript and slot unchanged, handler not called; otherwise exactly the user message and the handler's reply (or apology) are appended, and the slot takes the reply's transfer if it has one; the flag is down afterwards |
| Chat.ChatSession.ConfirmTransaction | src/components/chat-interface.tsx:97-130 | an empty slot is a no-op; otherwise the pending transfer is sent with the wallet's address and network, exactly one outcome message is appended and the slot is emptied |
| Chat.ChatSession.ReopenOffer | src/components/chat-interface.tsx:160 | the slot is replaced by the transfer of the chosen transcript entry |
| Chat.ChatSession.ClearPending | src/components/chat-interface.tsx:223-239 | Cancel or closing the dialog empties the slot without a send |
| Actions.SelectReply | src/app/actions.ts:21-55 | transfer and withdraw replies only with all their fields truthy, echoing those fields, otherwise the matching ask-for-details reply; invest prefers the ticker (echoed, with the confidence when truthy), then the strategy (echoed), then a generic reply; balance, swap (with rationale) and unknown each give their own reply; never the empty-prompt or parser-failure answer |
| Actions.ReplyFor | src/app/actions.ts:8-62 | the empty-prompt answer exactly for the empty prompt, the parser-failure answer exactly when the parser fails on a non-empty one, otherwise the reply to the parsed intent |
| Actions.HandleUserPrompt | src/app/actions.ts:8-63 | "Please enter a command." for the empty prompt, the apology when the parser fails, otherwise the text of the reply to the parsed intent |
| Actions.TransferReplyEchoesAmount | src/app/actions.ts:24 | the transfer reply names the amount right after "I'm preparing to transfer " |
| Actions.RecommendationEchoesTicker | src/app/actions.ts:31 | the recommendation names the ticker right after its lead-in |
| Actions.StrategyReplyEchoesStrategy | src/app/actions.ts:33 | the strategy reply quotes the strategy right after its lead-in |
| Actions.WithdrawReplyEchoesAmount | src/app/actions.ts:43 | the withdraw reply names the amount right after "I am preparing to withdraw " |
| Actions.SwapReplyEndsWithRationale | src/app/actions.ts:49 | the swap reply is its fixed lead-in followed by the rationale and nothing else |
| Actions.AvailableBalanceText | src/app/actions.ts:6-39 | the mock balance 1200 reads "1200" in the reply texts |
| Actions.EmptyPromptSkipsParser | src/app/actions.ts:9-11 | an empty prompt is answered "Please enter a command." whatever the parser would return |
| Actions.ParserSeesPromptAndFixedBalance | src/app/actions.ts:13-17 | the reply depends on the parser only through its answer for the prompt and balance 1200 |
| Actions.ParserFailureApologises | src/app/actions.ts:59-62 | a parser failure yields the fixed apology, so the action never throws |
| Actions.BalanceReplyIsFixed | src/app/actions.ts:38-40 | a balance request always quotes 1200 STX |
| Actions.ZeroAmountTransferAsksForDetails | src/app/actions.ts:22-27 | amount 0 counts as missing: a transfer asks for details |
| Actions.CompleteTransferEchoesFields | src/app/actions.ts:23-24 | a complete transfer reply names exactly the intent's amount, asset and recipient |
| History.StatusBadge | src/components/transaction-history.tsx:29-53 | success, pending and failed get their labels and variants; any other status is shown raw with the outline variant |
| History.StatusBadgeRawIff | src/components/transaction-history.tsx:29-53 | the badge text equals the status exactly when the status is none of the three known ones |
| History.ExplorerUrl | src/components/transaction-history.tsx:63-66 | no query on mainnet, `?chain=<id>` on every other network |
| History.AsWrittenLinkPutsTxIdInQuery | src/components/transaction-history.tsx:63-132 | off mainnet the built link's path ends at the base, and the tx id follows the `?chain=` query |
| History.ExplorerLinkAsWritten | src/components/transaction-history.tsx:132 | the built link starts with the explorer URL and ends with "/" and the tx id |
| History.AsWrittenTestnetLink | src/components/transaction-history.tsx:132 | on testnet the link built for `0xabc` is `https://explorer.stacks.co/txid?chain=testnet/0xabc` |
| History.IntendedTestnetLink | src/components/transaction-history.tsx:63-66 | the corrected testnet link for `0xabc` is `https://explorer.stacks.co/txid/0xabc?chain=testnet` |
| History.ExplorerLinkPathAndQuery | src/components/transaction-history.tsx:63-132 | for an id without '?', the intended link's path is base + "/" + id and its query names the chain; on mainnet it equals the link as built |
| History.TypeLabel | src/components/transaction-history.tsx:131 | "Transfer" for `token_transfer`; otherwise the type with its first `_` replaced by a space |
| History.TypeLabelSplitsAtFirstUnderscore | src/components/transaction-history.tsx:131 | for a type `head_tail`, the label is `head tail`, and underscores in the tail stay |
| History.ShortDetails | src/components/transaction-history.tsx:120 | details of 14 or more characters show as their first 10, "..." and their last 4 (17 characters); shorter ones show their first min(10, n), "..." and their last min(4, n), so overlapping parts repeat |
| History.RenderRow | src/components/transaction-history.tsx:117-145 | a row exists exactly when the record has an STX transfer; it is sent iff the sender is the own address, reads "to recipient" or "from sender", and carries the shortened details, type label, the link as built (`${explorerUrl}/${tx_id}`), exact STX amount and badge |
| History.RenderRows | src/components/transaction-history.tsx:116-150 | rows in record order, one per record, and none exactly when some record has no transfer |
| History.Shown | src/components/transaction-history.tsx:116 | the first min(10, n) records, as a prefix |
| History.RenderContent | src/components/transaction-history.tsx:68-154 | connect prompt exactly without an address; else five skeletons exactly while loading; else the empty notice exactly for an empty list; else the table |
| History.TableShowsFirstTen | src/components/transaction-history.tsx:116 | the table has min(10, n) rows, the k-th rendered from the k-th record |
| History.RenderFailureIff | src/components/transaction-history.tsx:116-118 | rendering throws exactly when one of the first ten records has no STX transfer |
| History.ShowViewAll | src/components/transaction-history.tsx:165 | "View All" appears exactly when an address is present and the table would list at least one record |
| History.ViewAllAgreesWithContent | src/components/transaction-history.tsx:165 | "View All" shows only with a skeleton or table body, and without it the body is the prompt, the skeletons or the empty notice |

## Left out

- HTTP and JSON: requests are modelled by their URLs, and responses are inputs. Response bodies without the expected fields are not modelled.
- Wallet extension and persistence: `showConnect`, `openSTXTransfer`, `UserSession` and `localStorage` are inputs, namely the sign-in state, the finish/cancel outcome and the stored id. `openSTXTransfer` and `signUserOut` themselves are not modelled.
- `handleConnect` (`src/components/wallet-provider.tsx:159-171`) is not modelled. It only opens the extension's dialog and reloads the page.
- Timing: the 3000 ms delay before the refresh and the scrolling are not modelled. `Wallet.WalletSession.RefreshAfterTransfer` stands for the refresh that `SendResolved.refreshFor` requests.
- Concurrency: the effects are asynchronous and may interleave. The model runs each one to completion, one after another. `Wallet.WalletSession.SyncSession` runs the STX fetches, then the BTC fetch.
- Floating point and locale: amounts are exact reals, and `toLocaleString` on the history amount is not modelled. `String(x)` and `toFixed(0)` in reply texts are parameters. `Math.round` is exact rounding half up, without IEEE error.
- `Js.TruthyNumber`: NaN, which JavaScript also treats as falsy, is not a value of the model.
- `Actions.SelectReply`: the switch's `default` case is not modelled. It cannot be reached because the action type ranges over the six schema values. The first response string (`src/app/actions.ts:19`) is always overwritten, so it is not modelled either.
- The LLM flows and the intent parser's prompt are not part of this model. Only the shape of the intent is used.
- The chat's handler (`src/components/chat-interface.tsx:77-78`) is modelled as an input that returns a text and an optional transfer. The server action in `src/app/actions.ts` returns only a string, and the model does not connect the two.
- Logging: the `console.error`, `console.warn` and `console.log` calls (`src/components/wallet-provider.tsx:80-215`, `src/app/actions.ts:60`) are not modelled. No state or result depends on them.
- Script exhaustion: a request for a page after the indexer script is exhausted counts as a rejected fetch.
- `History.RenderRow`: a record whose `stx_transfers` is present but empty, or absent, takes the same throwing path. The thrown error is the card's `RenderFailure`. The formatted amount is the exact STX value rather than its locale text.

## Findings

| source | as written | input that shows it | evidently intended | confidence | as-written member | corrected member |
|---|---|---|---|---|---|---|
| src/components/transaction-history.tsx:63-66, 132 | off mainnet the base already ends in `?chain=<id>`, and the link appends `/<tx_id>` to it, so the tx id lands inside the query | testnet, tx id `0xabc`: `https://explorer.stacks.co/txid?chain=testnet/0xabc` | `https://explorer.stacks.co/txid/0xabc?chain=testnet`: the id in the path, the chain in the query | not executed | History.ExplorerLinkAsWritten (History.AsWrittenLinkPutsTxIdInQuery, History.AsWrittenTestnetLink) | History.ExplorerLink (History.ExplorerLinkPathAndQuery, History.IntendedTestnetLink) |

The table rows (`History.RenderRow`) keep the link as the component builds it, so the card is modelled as it behaves. `History.ExplorerLink` is the corrected link, and `History.ExplorerLinkPathAndQuery` shows it agrees with the built link on mainnet.
