/**
 * The wallet session store of the dashboard (WalletProvider): the known
 * networks and the active one, the signed-in user's addresses for that
 * network, the two balances, the paginated transaction history with its
 * loading flag, and the dispatch of a confirmed STX transfer to the signing
 * provider.
 *
 * Every HTTP response, the wallet extension's sign-in state and the
 * provider's finish/cancel callback are inputs of the operations that
 * consume them.
 */
module Wallet {
  import opened Js

  // ---------------------------------------------------------------------
  // Networks
  // ---------------------------------------------------------------------

  /** A network environment: its id, display name and indexer base URL. */
  datatype Network = Network(id: string, name: string, url: string)

  const Mainnet := Network("mainnet", "Mainnet", "https://api.hiro.so")
  const Testnet := Network("testnet", "Testnet", "https://api.testnet.hiro.so")
  const Devnet := Network("devnet", "Devnet", "http://localhost:3999")

  /** The fixed registry, in the order the source lists it. */
  const Networks: seq<Network> := [Mainnet, Testnet, Devnet]

  /** `ns.find(n => n.id === id)`: the first network whose id is `id`. */
  function FindById(ns: seq<Network>, id: Option<string>): (r: Option<Network>)
    ensures r.Some? ==> r.value in ns && id == Some(r.value.id)
    ensures r.None? ==> forall k :: 0 <= k < |ns| ==> id != Some(ns[k].id)
    ensures r.Some? && |ns| > 0 && id == Some(ns[0].id) ==> r.value == ns[0]
    ensures r.Some? ==> exists k :: 0 <= k < |ns| && ns[k] == r.value &&
                                    forall j :: 0 <= j < k ==> id != Some(ns[j].id)
  {
    if ns == [] then None
    else if id == Some(ns[0].id) then Some(ns[0])
    else FindById(ns[1..], id)
  }

  /** The network restored at start-up from the persisted id; testnet when the id is absent or unknown. */
  function ResolveSavedNetwork(saved: Option<string>): (n: Network)
    ensures n in Networks
    ensures (forall k :: 0 <= k < |Networks| ==> saved != Some(Networks[k].id)) ==> n == Testnet
    ensures n != Testnet ==> saved == Some(n.id)
  {
    match FindById(Networks, saved)
    case Some(found) => found
    case None => Testnet
  }

  /** Persisting a network of the registry and restoring it gives that network back. */
  lemma RestoreAfterPersist(n: Network)
    requires n in Networks
    ensures ResolveSavedNetwork(Some(n.id)) == n
  {
  }

  // ---------------------------------------------------------------------
  // Records
  // ---------------------------------------------------------------------

  /** One STX movement inside a transaction record (amount in micro-STX). */
  datatype StxTransfer = StxTransfer(recipient: string, amount: int)

  /** A transaction record as the indexer returns it; never changed once fetched. */
  datatype Tx = Tx(txId: string, senderAddress: string, txStatus: string, txType: string,
                   stxTransfers: seq<StxTransfer>)

  /** The address part of the signed-in profile, per network family. */
  datatype Profile = Profile(stxMainnet: Option<string>, stxTestnet: Option<string>,
                             btcMainnet: Option<string>, btcTestnet: Option<string>)

  /** What the wallet extension's session returns for the signed-in user. */
  datatype UserData = UserData(profile: Option<Profile>)

  /** A transfer offered by the assistant and awaiting confirmation. */
  datatype TransferRequest = TransferRequest(asset: string, amount: real, recipient: string)

  datatype Addresses = Addresses(stx: Option<string>, btc: Option<string>)

  /** Mainnet selects the profile's mainnet addresses; every other network selects the testnet ones. */
  function SelectAddresses(p: Profile, net: Network): (a: Addresses)
    ensures a == Addresses(p.stxMainnet, p.btcMainnet) || a == Addresses(p.stxTestnet, p.btcTestnet)
    ensures net.id == "mainnet" ==> a == Addresses(p.stxMainnet, p.btcMainnet)
    ensures net.id != "mainnet" ==> a == Addresses(p.stxTestnet, p.btcTestnet)
  {
    if net.id == "mainnet" then Addresses(p.stxMainnet, p.btcMainnet)
    else Addresses(p.stxTestnet, p.btcTestnet)
  }

  /** Over the registry: only mainnet uses mainnet addresses, devnet reuses the testnet ones. */
  lemma DevnetUsesTestnetAddresses(p: Profile)
    ensures SelectAddresses(p, Devnet) == SelectAddresses(p, Testnet)
    ensures SelectAddresses(p, Mainnet) == Addresses(p.stxMainnet, p.btcMainnet)
  {
  }

  // ---------------------------------------------------------------------
  // Units
  // ---------------------------------------------------------------------

  const MicroStxPerStx: int := 1000000
  const SatoshisPerBtc: int := 100000000

  /** Display STX from micro-STX: exact division by 1,000,000. */
  function StxFromMicro(micro: int): (stx: real)
    ensures stx * (MicroStxPerStx as real) == micro as real
  {
    micro as real / MicroStxPerStx as real
  }

  /** Display BTC from satoshis: exact division by 100,000,000. */
  function BtcFromSatoshis(sats: int): (btc: real)
    ensures btc * (SatoshisPerBtc as real) == sats as real
  {
    sats as real / SatoshisPerBtc as real
  }

  /**
   * `Math.round(amount * 1_000_000)`: the nearest integer, halves rounded up
   * (towards positive infinity, as `Math.round` does for negative halves too).
   */
  function MicroFromStx(amount: real): (micro: int)
    ensures amount * (MicroStxPerStx as real) - 0.5 < micro as real <= amount * (MicroStxPerStx as real) + 0.5
  {
    (amount * (MicroStxPerStx as real) + 0.5).Floor
  }

  /** Converting a display amount that came from micro-STX back gives the same micro-STX. */
  lemma MicroStxRoundTrip(micro: int)
    ensures MicroFromStx(StxFromMicro(micro)) == micro
  {
    var x := StxFromMicro(micro) * (MicroStxPerStx as real);
    assert x == micro as real;
    assert micro as real <= x + 0.5 < (micro + 1) as real;
  }

  // ---------------------------------------------------------------------
  // Balances
  // ---------------------------------------------------------------------

  /** A balance endpoint's answer: an ok body with the smallest-unit amount, a non-ok status, or a rejected fetch. */
  datatype BalanceResponse = BalanceOk(smallestUnits: int) | BalanceNotOk(status: int) | BalanceRejected

  /** The balance that a fetch stores: the converted amount, or 0 on any failure. */
  function StoredBalance(response: BalanceResponse, perUnit: int): (b: real)
    requires perUnit > 0
    ensures response.BalanceOk? ==> b * (perUnit as real) == response.smallestUnits as real
    ensures !response.BalanceOk? ==> b == 0.0
  {
    if response.BalanceOk? then response.smallestUnits as real / perUnit as real else 0.0
  }

  const AddressPath := "/extended/v1/address/"

  /** The balances endpoint: on the network's indexer, with the address right after the address path. */
  function StxBalanceUrl(net: Network, address: string): (url: string)
    ensures OccursAt(url, address, |net.url| + |AddressPath|)
    ensures url[..|net.url|] == net.url
    ensures OccursAt(url, AddressPath, |net.url|)
    ensures url[|net.url| + |AddressPath| + |address|..] == "/balances"
  {
    OccursAfter(net.url + AddressPath, address, "/balances");
    OccursAfter(net.url, AddressPath, address + "/balances");
    net.url + AddressPath + address + "/balances"
  }

  /** The BlockCypher chain name for the network; none outside mainnet and testnet. */
  function BtcApiNetwork(net: Network): (api: Option<string>)
    ensures api.Some? <==> net.id == "mainnet" || net.id == "testnet"
    ensures api.Some? ==> api.value == if net.id == "mainnet" then "main" else "test3"
  {
    if net.id != "mainnet" && net.id != "testnet" then None
    else Some(if net.id == "mainnet" then "main" else "test3")
  }

  const BlockCypherBtc := "https://api.blockcypher.com/v1/btc/"

  /** The BlockCypher balance endpoint: the chain name, then the address, then `/balance`. */
  function BtcBalanceUrl(api: string, address: string): (url: string)
    ensures OccursAt(url, api, |BlockCypherBtc|)
    ensures url[..|BlockCypherBtc|] == BlockCypherBtc
    ensures OccursAt(url, "/addrs/", |BlockCypherBtc| + |api|)
    ensures OccursAt(url, address, |BlockCypherBtc| + |api| + |"/addrs/"|)
    ensures url[|BlockCypherBtc| + |api| + |"/addrs/"| + |address|..] == "/balance"
  {
    OccursAfter(BlockCypherBtc, api, "/addrs/" + address + "/balance");
    OccursAfter(BlockCypherBtc + api + "/addrs/", address, "/balance");
    OccursAfter(BlockCypherBtc + api, "/addrs/", address + "/balance");
    BlockCypherBtc + api + "/addrs/" + address + "/balance"
  }

  // ---------------------------------------------------------------------
  // History pagination
  // ---------------------------------------------------------------------

  /** One indexer answer for a transactions page: an ok body, a non-ok status, or a rejected fetch/parse. */
  datatype PageResponse =
    | Page(results: seq<Tx>, total: int, limit: nat)
    | NotOk(status: int)
    | Rejected

  /** Which page is requested: the first (no query string) or a follow-up with limit and offset. */
  datatype Query = FirstPage | NextPage(limit: nat, offset: nat)

  /** The address's transactions endpoint, without a query. */
  function TransactionsBase(net: Network, address: string): string
  {
    net.url + AddressPath + address + "/transactions"
  }

  /** `?limit=<limit>&offset=<offset>`, the numbers in decimal. */
  function FollowUpQuery(limit: nat, offset: nat): string
  {
    "?limit=" + NatToString(limit) + "&offset=" + NatToString(offset)
  }

  /**
   * The query of a follow-up request: `?limit=` and the limit's digits, then
   * `&offset=` and the offset's digits up to the end; both read back as the
   * numbers asked for.
   */
  lemma FollowUpQueryReadsBack(limit: nat, offset: nat)
    ensures var query := FollowUpQuery(limit, offset); var l := NatToString(limit);
      && query[..7] == "?limit="
      && OccursAt(query, l, 7) && DecimalValue(l) == limit
      && OccursAt(query, "&offset=", 7 + |l|)
      && DecimalValue(query[15 + |l|..]) == offset
  {
    var l := NatToString(limit);
    var o := NatToString(offset);
    OccursAfter("?limit=", l, "&offset=" + o);
    OccursAfter("?limit=" + l, "&offset=", o);
    assert FollowUpQuery(limit, offset)[15 + |l|..] == o;
    DecimalRoundTrip(limit);
    DecimalRoundTrip(offset);
  }

  /** A page request: the endpoint alone for the first page, the endpoint followed by the query for the others. */
  function TransactionsUrl(net: Network, address: string, q: Query): (url: string)
    ensures |url| >= |TransactionsBase(net, address)|
    ensures url[..|TransactionsBase(net, address)|] == TransactionsBase(net, address)
    ensures q.FirstPage? ==> url == TransactionsBase(net, address)
    ensures q.NextPage? ==> url[|TransactionsBase(net, address)|..] == FollowUpQuery(q.limit, q.offset)
  {
    var base := TransactionsBase(net, address);
    match q
    case FirstPage => base
    case NextPage(limit, offset) => base + FollowUpQuery(limit, offset)
  }

  /** The URLs of a list of page queries, in order. */
  function QueryUrls(net: Network, address: string, qs: seq<Query>): (urls: seq<string>)
    ensures |urls| == |qs|
  {
    if qs == [] then [] else QueryUrls(net, address, qs[..|qs| - 1]) + [TransactionsUrl(net, address, qs[|qs| - 1])]
  }

  /** Request `i` is the URL of query `i`. */
  lemma {:induction false} QueryUrlsAt(net: Network, address: string, qs: seq<Query>, i: nat)
    requires i < |qs|
    ensures QueryUrls(net, address, qs)[i] == TransactionsUrl(net, address, qs[i])
    decreases |qs|
  {
    if i < |qs| - 1 {
      QueryUrlsAt(net, address, qs[..|qs| - 1], i);
    }
  }

  /** What one run of the history loop yields: the list stored and the pages requested, in order. */
  datatype HistoryFetch = HistoryFetch(stored: seq<Tx>, queries: seq<Query>)

  /**
   * The history loop from the point where `acc` has been accumulated and `q`
   * is about to be requested, answered by the indexer script `rs` in order.
   * A request past the end of the script is a rejected fetch.
   */
  function Walk(rs: seq<PageResponse>, acc: seq<Tx>, q: Query): (w: HistoryFetch)
    ensures 1 <= |w.queries| <= |rs| + 1
    ensures w.queries[0] == q
    decreases |rs|
  {
    if rs == [] then HistoryFetch([], [q])
    else match rs[0]
      case Rejected => HistoryFetch([], [q])
      case NotOk(_) => HistoryFetch(acc, [q])
      case Page(results, total, limit) =>
        var all := acc + results;
        if total > |all| && |results| > 0 then
          var rest := Walk(rs[1..], all, NextPage(limit, |all|));
          HistoryFetch(rest.stored, [q] + rest.queries)
        else
          HistoryFetch(all, [q])
  }

  /**
   * `Walk` in the loop's own accumulating form: `done` holds the queries
   * already made, and the result lists them first.
   */
  ghost function WalkTail(rs: seq<PageResponse>, acc: seq<Tx>, done: seq<Query>, q: Query): HistoryFetch
    decreases |rs|
  {
    if rs == [] then HistoryFetch([], done + [q])
    else match rs[0]
      case Rejected => HistoryFetch([], done + [q])
      case NotOk(_) => HistoryFetch(acc, done + [q])
      case Page(results, total, limit) =>
        var all := acc + results;
        if total > |all| && |results| > 0 then WalkTail(rs[1..], all, done + [q], NextPage(limit, |all|))
        else HistoryFetch(all, done + [q])
  }

  lemma {:induction false} WalkTailIsWalk(rs: seq<PageResponse>, acc: seq<Tx>, done: seq<Query>, q: Query)
    ensures WalkTail(rs, acc, done, q) == HistoryFetch(Walk(rs, acc, q).stored, done + Walk(rs, acc, q).queries)
    decreases |rs|
  {
    if rs != [] && Continues(rs[0], |acc|) {
      var all := acc + rs[0].results;
      var q' := NextPage(rs[0].limit, |all|);
      WalkTailIsWalk(rs[1..], all, done + [q], q');
      AppendAssoc(done, [q], Walk(rs[1..], all, q').queries);
    }
  }

  /** The whole history fetch: start from nothing with the first page. */
  function FetchAll(rs: seq<PageResponse>): (f: HistoryFetch)
    ensures 1 <= |f.queries| <= |rs| + 1
    ensures f.queries[0] == FirstPage
  {
    Walk(rs, [], FirstPage)
  }

  function ResultsOf(p: PageResponse): seq<Tx>
  {
    if p.Page? then p.results else []
  }

  /** The in-order concatenation of the records the responses carry. */
  function Records(rs: seq<PageResponse>): seq<Tx>
  {
    if rs == [] then [] else ResultsOf(rs[0]) + Records(rs[1..])
  }

  /** After `before` records, the page `p` makes the loop ask for another one. */
  predicate Continues(p: PageResponse, before: nat)
  {
    p.Page? && |p.results| > 0 && p.total > before + |p.results|
  }

  lemma RecordsPrefix(rs: seq<PageResponse>, i: nat)
    requires 0 < i <= |rs|
    ensures Records(rs[..i]) == ResultsOf(rs[0]) + Records(rs[1..][..i - 1])
  {
    assert rs[..i][1..] == rs[1..][..i - 1];
  }

  /** Every request after the first follows a continuing page, with offset = records so far and the page's limit. */
  lemma {:induction false} WalkFollowUp(rs: seq<PageResponse>, acc: seq<Tx>, q: Query, i: nat)
    requires i + 1 < |Walk(rs, acc, q).queries|
    ensures i < |rs|
    ensures Continues(rs[i], |acc| + |Records(rs[..i])|)
    ensures Walk(rs, acc, q).queries[i + 1] == NextPage(rs[i].limit, |acc| + |Records(rs[..i + 1])|)
    decreases |rs|
  {
    var w := Walk(rs, acc, q);
    assert rs != [] && rs[0].Page?;
    var all := acc + rs[0].results;
    assert rs[0].total > |all| && |rs[0].results| > 0;
    var rest := Walk(rs[1..], all, NextPage(rs[0].limit, |all|));
    assert w.queries == [q] + rest.queries;
    RecordsPrefix(rs, i + 1);
    if i == 0 {
      assert rs[..0] == [];
      assert Records(rs[1..][..0]) == [] by { assert rs[1..][..0] == []; }
    } else {
      WalkFollowUp(rs[1..], all, NextPage(rs[0].limit, |all|), i - 1);
      RecordsPrefix(rs, i);
      assert rs[1..][i - 1] == rs[i];
    }
  }

  /**
   * The loop, started with `acc` accumulated, stopped at the answer to request
   * `k` and stored `stored`: nothing after a rejected fetch (or past the
   * script), the records so far after a non-ok page, and after an ok page
   * that does not continue, everything including that page.
   */
  predicate StopsAt(rs: seq<PageResponse>, acc: seq<Tx>, stored: seq<Tx>, k: nat)
    requires k <= |rs|
  {
    && ((k == |rs| || rs[k].Rejected?) ==> stored == [])
    && (k < |rs| && rs[k].NotOk? ==> stored == acc + Records(rs[..k]))
    && (k < |rs| && rs[k].Page? ==>
          !Continues(rs[k], |acc| + |Records(rs[..k])|) && stored == acc + Records(rs[..k + 1]))
  }

  /** Stopping at `j` after a continuing first page is stopping at `j + 1` from the start. */
  lemma StopsAtShift(rs: seq<PageResponse>, acc: seq<Tx>, stored: seq<Tx>, j: nat)
    requires rs != [] && rs[0].Page? && j <= |rs[1..]|
    requires StopsAt(rs[1..], acc + rs[0].results, stored, j)
    ensures StopsAt(rs, acc, stored, j + 1)
  {
    if j < |rs[1..]| {
      var tail := rs[1..];
      assert tail[j] == rs[j + 1];
      match rs[j + 1]
      case Rejected =>
      case NotOk(_) =>
        RecordsPrefix(rs, j + 1);
        AppendAssoc(acc, rs[0].results, Records(tail[..j]));
      case Page(_, _, _) =>
        RecordsPrefix(rs, j + 1);
        RecordsPrefix(rs, j + 2);
        AppendAssoc(acc, rs[0].results, Records(tail[..j]));
        AppendAssoc(acc, rs[0].results, Records(tail[..j + 1]));
    }
  }

  /** Where the loop stops and what it stores: the records so far, or nothing on a rejected fetch. */
  lemma {:induction false} WalkStop(rs: seq<PageResponse>, acc: seq<Tx>, q: Query)
    ensures |Walk(rs, acc, q).queries| - 1 <= |rs|
    ensures StopsAt(rs, acc, Walk(rs, acc, q).stored, |Walk(rs, acc, q).queries| - 1)
    decreases |rs|
  {
    if rs != [] {
      if Continues(rs[0], |acc|) {
        var all := acc + rs[0].results;
        var q' := NextPage(rs[0].limit, |all|);
        var rest := Walk(rs[1..], all, q');
        assert Walk(rs, acc, q) == HistoryFetch(rest.stored, [q] + rest.queries);
        WalkStop(rs[1..], all, q');
        StopsAtShift(rs, acc, rest.stored, |rest.queries| - 1);
      } else {
        assert |Walk(rs, acc, q).queries| == 1;
        assert rs[..0] == [];
        RecordsPrefix(rs, 1);
        assert rs[1..][..0] == [];
      }
    }
  }

  /** Requests after the first: each follows a page that reported more records than accumulated and was non-empty. */
  lemma FetchAllFollowUps(rs: seq<PageResponse>, i: nat)
    requires i + 1 < |FetchAll(rs).queries|
    ensures i < |rs| && Continues(rs[i], |Records(rs[..i])|)
    ensures FetchAll(rs).queries[i + 1] == NextPage(rs[i].limit, |Records(rs[..i + 1])|)
  {
    WalkFollowUp(rs, [], FirstPage, i);
  }

  /** An empty page never leads to a further request. */
  lemma EmptyPageStops(rs: seq<PageResponse>, i: nat)
    requires i < |rs| && rs[i].Page? && rs[i].results == []
    ensures |FetchAll(rs).queries| <= i + 1
  {
    if i + 1 < |FetchAll(rs).queries| {
      FetchAllFollowUps(rs, i);
    }
  }

  /**
   * The stored list: the concatenation of the pages fetched when the loop
   * ends on an ok page, the pages before a non-ok answer, `[]` on a
   * rejected fetch.
   */
  lemma FetchAllStored(rs: seq<PageResponse>)
    ensures var f := FetchAll(rs); var k := |f.queries| - 1;
      && f.queries[0] == FirstPage
      && ((k == |rs| || rs[k].Rejected?) ==> f.stored == [])
      && (k < |rs| && rs[k].NotOk? ==> f.stored == Records(rs[..k]))
      && (k < |rs| && rs[k].Page? ==> !Continues(rs[k], |Records(rs[..k])|) && f.stored == Records(rs[..k + 1]))
  {
    WalkStop(rs, [], FirstPage);
    assert StopsAt(rs, [], FetchAll(rs).stored, |FetchAll(rs).queries| - 1);
  }

  /** A script of non-empty ok pages each reporting `total` records in all. */
  predicate ConsistentPages(rs: seq<PageResponse>, total: int)
  {
    forall k :: 0 <= k < |rs| ==> rs[k].Page? && |rs[k].results| > 0 && rs[k].total == total
  }

  lemma {:induction false} WalkComplete(rs: seq<PageResponse>, acc: seq<Tx>, q: Query, total: int)
    requires |rs| > 0 && ConsistentPages(rs, total)
    requires total == |acc| + |Records(rs)|
    ensures Walk(rs, acc, q) == HistoryFetch(acc + Records(rs), Walk(rs, acc, q).queries)
    ensures |Walk(rs, acc, q).queries| == |rs|
    decreases |rs|
  {
    var all := acc + rs[0].results;
    if |rs| > 1 {
      assert ConsistentPages(rs[1..], total) by {
        forall k | 0 <= k < |rs[1..]| ensures rs[1..][k].Page? && |rs[1..][k].results| > 0 && rs[1..][k].total == total {
          assert rs[1..][k] == rs[k + 1];
        }
      }
      assert rs[1..][0] == rs[1];
      assert |Records(rs[1..])| > 0;
      WalkComplete(rs[1..], all, NextPage(rs[0].limit, |all|), total);
    } else {
      assert rs[1..] == [];
    }
  }

  /**
   * When every page is non-empty and reports the true total, the loop fetches
   * every page once and stores exactly `total` records: all of them, in order.
   */
  lemma FetchAllComplete(rs: seq<PageResponse>, total: int)
    requires |rs| > 0 && ConsistentPages(rs, total) && total == |Records(rs)|
    ensures FetchAll(rs).stored == Records(rs)
    ensures |FetchAll(rs).stored| == total
    ensures |FetchAll(rs).queries| == |rs|
  {
    WalkComplete(rs, [], FirstPage, total);
  }

  // ---------------------------------------------------------------------
  // Dispatch of a confirmed transfer
  // ---------------------------------------------------------------------

  const GuardMessage := "Transaction details are missing or user is not connected."
  const CancelMessage := "The transaction was canceled."
  const TransferMemo := "Sent from StackAI Wallet"

  function UnsupportedMessage(asset: string): string
  {
    asset + " transfers are not yet supported."
  }

  /** How the wallet extension ends the transfer dialog: `onFinish` or `onCancel`. */
  datatype ProviderOutcome = ProviderFinished | ProviderCanceled

  /** The arguments handed to the wallet extension's STX transfer. */
  datatype StxTransferCall = StxTransferCall(network: Network, recipient: string, microStx: int, memo: string)

  /**
   * The settled promise of a send: rejected with a message (with the provider
   * call, if one was made), or resolved after the provider call with a
   * balance-and-history refresh requested for the sender.
   */
  datatype SendResult =
    | SendRejected(message: string, attempted: Option<StxTransferCall>)
    | SendResolved(call: StxTransferCall, refreshFor: string)

  /** `handleSendTransaction`: guard, asset check, then the provider call and its outcome. */
  function SendTransaction(tx: Option<TransferRequest>, sender: Option<string>, net: Network,
                           outcome: ProviderOutcome): (r: SendResult)
    ensures (r.SendRejected? && r.attempted.None?) <==> !(tx.Some? && Truthy(sender) && tx.value.asset == "STX")
    ensures (tx.None? || !Truthy(sender)) ==> r == SendRejected(GuardMessage, None)
    ensures tx.Some? && Truthy(sender) && tx.value.asset != "STX" ==>
              r == SendRejected(UnsupportedMessage(tx.value.asset), None)
    ensures tx.Some? && Truthy(sender) && tx.value.asset == "STX" ==>
              var call := StxTransferCall(net, tx.value.recipient, MicroFromStx(tx.value.amount), TransferMemo);
              r == if outcome == ProviderFinished then SendResolved(call, sender.value)
                   else SendRejected(CancelMessage, Some(call))
  {
    if tx.None? || !Truthy(sender) then SendRejected(GuardMessage, None)
    else if tx.value.asset == "STX" then
      var call := StxTransferCall(net, tx.value.recipient, MicroFromStx(tx.value.amount), TransferMemo);
      match outcome
      case ProviderFinished => SendResolved(call, sender.value)
      case ProviderCanceled => SendRejected(CancelMessage, Some(call))
    else SendRejected(UnsupportedMessage(tx.value.asset), None)
  }

  /** A 25 STX transfer reaches the provider as 25,000,000 micro-STX. */
  lemma TwentyFiveStx(sender: string, net: Network, recipient: string)
    requires sender != ""
    ensures SendTransaction(Some(TransferRequest("STX", 25.0, recipient)), Some(sender), net, ProviderFinished)
            == SendResolved(StxTransferCall(net, recipient, 25000000, TransferMemo), sender)
  {
    assert MicroFromStx(25.0) == 25000000;
  }

  // ---------------------------------------------------------------------
  // The session store
  // ---------------------------------------------------------------------

  class WalletSession {
    /** The wallet extension's sign-in state (`userSession`); `Some` while signed in. */
    var authSession: Option<UserData>
    /** The persisted `selectedNetwork` entry. */
    var storedNetworkId: Option<string>

    var userData: Option<UserData>
    var stxAddress: Option<string>
    var btcAddress: Option<string>
    var stxBalance: real
    var btcBalance: real
    var transactions: seq<Tx>
    var isLoadingTransactions: bool
    var network: Network

    /** The store's invariant: a registry network is active, and addresses exist only for loaded session data. */
    ghost predicate Valid()
      reads this`network, this`userData, this`authSession, this`stxAddress, this`btcAddress
    {
      && network in Networks
      && (userData.None? ==> stxAddress.None? && btcAddress.None?)
      && (userData.Some? ==> userData == authSession)
    }

    /** The initial state: nothing loaded, testnet active. */
    constructor (auth: Option<UserData>, stored: Option<string>)
      ensures Valid()
      ensures authSession == auth && storedNetworkId == stored
      ensures userData.None? && stxAddress.None? && btcAddress.None?
      ensures stxBalance == 0.0 && btcBalance == 0.0 && transactions == [] && !isLoadingTransactions
      ensures network == Testnet
    {
      authSession := auth;
      storedNetworkId := stored;
      userData := None;
      stxAddress := None;
      btcAddress := None;
      stxBalance := 0.0;
      btcBalance := 0.0;
      transactions := [];
      isLoadingTransactions := false;
      network := Testnet;
    }

    /** The start-up effect: activate the persisted network, or testnet. */
    method RestoreNetwork()
      requires Valid()
      modifies this`network
      ensures Valid()
      ensures network == ResolveSavedNetwork(storedNetworkId)
    {
      network := ResolveSavedNetwork(storedNetworkId);
    }

    /** `handleDisconnect`: sign out and reset addresses, balances and history; network and loading flag stay. */
    method Disconnect()
      requires Valid()
      modifies this
      ensures Valid()
      ensures authSession.None? && userData.None? && stxAddress.None? && btcAddress.None?
      ensures stxBalance == 0.0 && btcBalance == 0.0 && transactions == []
      ensures network == old(network) && storedNetworkId == old(storedNetworkId)
      ensures isLoadingTransactions == old(isLoadingTransactions)
    {
      authSession := None;
      userData := None;
      stxAddress := None;
      btcAddress := None;
      stxBalance := 0.0;
      btcBalance := 0.0;
      transactions := [];
    }

    /** `setNetwork`: activate and persist `n`; disconnect only if signed in. */
    method SetNetwork(n: Network)
      requires Valid() && n in Networks
      modifies this
      ensures Valid()
      ensures network == n && storedNetworkId == Some(n.id)
      ensures isLoadingTransactions == old(isLoadingTransactions)
      ensures old(authSession).Some? ==>
                && authSession.None? && userData.None? && stxAddress.None? && btcAddress.None?
                && stxBalance == 0.0 && btcBalance == 0.0 && transactions == []
      ensures old(authSession).None? ==>
                && authSession == old(authSession) && userData == old(userData)
                && stxAddress == old(stxAddress) && btcAddress == old(btcAddress)
                && stxBalance == old(stxBalance) && btcBalance == old(btcBalance)
                && transactions == old(transactions)
    {
      network := n;
      storedNetworkId := Some(n.id);
      if authSession.Some? {
        Disconnect();
      }
    }

    /** `fetchStxBalance`: request the balances endpoint and store the converted amount, or 0 on failure. */
    method FetchStxBalance(address: string, net: Network, response: BalanceResponse) returns (request: string)
      modifies this`stxBalance
      ensures request == StxBalanceUrl(net, address)
      ensures stxBalance == StoredBalance(response, MicroStxPerStx)
    {
      request := StxBalanceUrl(net, address);
      match response
      case BalanceOk(micro) => stxBalance := StxFromMicro(micro);
      case BalanceNotOk(_) => stxBalance := 0.0;
      case BalanceRejected => stxBalance := 0.0;
    }

    /** `fetchBtcBalance`: outside mainnet and testnet store 0 with no request; otherwise as for STX. */
    method FetchBtcBalance(address: string, net: Network, response: BalanceResponse) returns (request: Option<string>)
      modifies this`btcBalance
      ensures BtcApiNetwork(net).None? ==> request.None? && btcBalance == 0.0
      ensures BtcApiNetwork(net).Some? ==>
                request == Some(BtcBalanceUrl(BtcApiNetwork(net).value, address))
                && btcBalance == StoredBalance(response, SatoshisPerBtc)
    {
      if net.id != "mainnet" && net.id != "testnet" {
        btcBalance := 0.0;
        request := None;
        return;
      }
      var api := if net.id == "mainnet" then "main" else "test3";
      request := Some(BtcBalanceUrl(api, address));
      match response
      case BalanceOk(sats) => btcBalance := BtcFromSatoshis(sats);
      case BalanceNotOk(_) => btcBalance := 0.0;
      case BalanceRejected => btcBalance := 0.0;
    }

    /**
     * The `try` block of `fetchTransactions`: request pages while the reported
     * total exceeds the records accumulated and the last page was non-empty,
     * each follow-up with the page's limit and the records so far as offset.
     * Returns the list to store (`[]` when a fetch throws) and the requests made.
     */
    static method CollectHistory(address: string, net: Network, indexer: seq<PageResponse>)
      returns (stored: seq<Tx>, requests: seq<string>)
      ensures stored == FetchAll(indexer).stored
      ensures requests == QueryUrls(net, address, FetchAll(indexer).queries)
    {
      var all: seq<Tx> := [];
      var current: Option<Query> := Some(FirstPage);
      var remaining := indexer;
      var threw := false;
      ghost var queries: seq<Query> := [];
      ghost var plan := WalkTail(indexer, [], [], FirstPage);
      requests := [];
      while current.Some?
        invariant requests == QueryUrls(net, address, queries)
        invariant current.Some? ==> !threw && plan == WalkTail(remaining, all, queries, current.value)
        invariant current.None? ==> plan == HistoryFetch(if threw then [] else all, queries)
        decreases |remaining| + (if current.Some? then 1 else 0)
      {
        var q := current.value;
        ghost var before := queries;
        requests := requests + [TransactionsUrl(net, address, q)];
        queries := queries + [q];
        assert queries[..|before|] == before;
        if remaining == [] {
          // a request past the end of the script: the fetch rejects
          threw := true;
          current := None;
        } else {
          var response := remaining[0];
          remaining := remaining[1..];
          match response
          case Rejected =>
            threw := true;
            current := None;
          case NotOk(_) =>
            current := None;
          case Page(results, total, limit) =>
            all := all + results;
            if total > |all| && |results| > 0 {
              current := Some(NextPage(limit, |all|));
            } else {
              current := None;
            }
        }
      }
      WalkTailIsWalk(indexer, [], [], FirstPage);
      assert [] + FetchAll(indexer).queries == FetchAll(indexer).queries;
      stored := if threw then [] else all;
    }

    /**
     * `fetchTransactions`: raise the loading flag and clear the list, collect
     * the pages, then store the result and lower the flag (`finally`).
     */
    method FetchTransactions(address: string, net: Network, indexer: seq<PageResponse>)
      returns (requests: seq<string>, ghost whileFetching: (bool, seq<Tx>))
      modifies this`transactions, this`isLoadingTransactions
      ensures whileFetching == (true, [])
      ensures transactions == FetchAll(indexer).stored
      ensures requests == QueryUrls(net, address, FetchAll(indexer).queries)
      ensures !isLoadingTransactions
    {
      isLoadingTransactions := true;
      transactions := [];
      whileFetching := (isLoadingTransactions, transactions);
      var stored;
      stored, requests := CollectHistory(address, net, indexer);
      transactions := stored;
      isLoadingTransactions := false;
    }

    /**
     * The fetches of the session effect for the selected addresses: STX
     * balance and history when the STX address is present, BTC balance when
     * the BTC address is, in that order.
     */
    method FetchForAddresses(a: Addresses, stxResponse: BalanceResponse, indexer: seq<PageResponse>,
                             btcResponse: BalanceResponse)
      returns (requests: seq<string>)
      modifies this`stxBalance, this`btcBalance, this`transactions, this`isLoadingTransactions
      ensures stxBalance == (if Truthy(a.stx) then StoredBalance(stxResponse, MicroStxPerStx) else old(stxBalance))
      ensures transactions == (if Truthy(a.stx) then FetchAll(indexer).stored else old(transactions))
      ensures isLoadingTransactions == (if Truthy(a.stx) then false else old(isLoadingTransactions))
      ensures btcBalance == (if !Truthy(a.btc) then old(btcBalance)
                             else if BtcApiNetwork(network).None? then 0.0
                             else StoredBalance(btcResponse, SatoshisPerBtc))
      ensures requests == (if Truthy(a.stx)
                           then [StxBalanceUrl(network, a.stx.value)]
                                + QueryUrls(network, a.stx.value, FetchAll(indexer).queries)
                           else [])
                          + (if Truthy(a.btc) && BtcApiNetwork(network).Some?
                             then [BtcBalanceUrl(BtcApiNetwork(network).value, a.btc.value)]
                             else [])
    {
      var stxRequests: seq<string> := [];
      if Truthy(a.stx) {
        var r := FetchStxBalance(a.stx.value, network, stxResponse);
        var pages, _ := FetchTransactions(a.stx.value, network, indexer);
        stxRequests := [r] + pages;
      }
      var btcRequests: seq<string> := [];
      if Truthy(a.btc) {
        var r := FetchBtcBalance(a.btc.value, network, btcResponse);
        if r.Some? {
          btcRequests := [r.value];
        }
      }
      requests := stxRequests + btcRequests;
    }

    /**
     * The session effect: when signed in, load the session data; with a
     * profile, select the active network's addresses and fetch for them
     * (run here one after another).
     */
    method SyncSession(stxResponse: BalanceResponse, indexer: seq<PageResponse>, btcResponse: BalanceResponse)
      returns (requests: seq<string>)
      requires Valid()
      modifies this`userData, this`stxAddress, this`btcAddress, this`stxBalance, this`btcBalance,
               this`transactions, this`isLoadingTransactions
      ensures Valid()
      ensures network == old(network) && authSession == old(authSession) && storedNetworkId == old(storedNetworkId)
      ensures authSession.None? ==>
                && userData == old(userData) && stxAddress == old(stxAddress) && btcAddress == old(btcAddress)
                && stxBalance == old(stxBalance) && btcBalance == old(btcBalance)
                && transactions == old(transactions) && isLoadingTransactions == old(isLoadingTransactions)
                && requests == []
      ensures authSession.Some? ==> userData == authSession
      ensures authSession.Some? && authSession.value.profile.None? ==>
                && stxAddress == old(stxAddress) && btcAddress == old(btcAddress)
                && stxBalance == old(stxBalance) && btcBalance == old(btcBalance)
                && transactions == old(transactions) && isLoadingTransactions == old(isLoadingTransactions)
                && requests == []
      ensures authSession.Some? && authSession.value.profile.Some? ==>
                var a := SelectAddresses(authSession.value.profile.value, network);
                && stxAddress == a.stx && btcAddress == a.btc
                && stxBalance == (if Truthy(a.stx) then StoredBalance(stxResponse, MicroStxPerStx) else old(stxBalance))
                && transactions == (if Truthy(a.stx) then FetchAll(indexer).stored else old(transactions))
                && btcBalance == (if !Truthy(a.btc) then old(btcBalance)
                                  else if BtcApiNetwork(network).None? then 0.0
                                  else StoredBalance(btcResponse, SatoshisPerBtc))
                && isLoadingTransactions == (if Truthy(a.stx) then false else old(isLoadingTransactions))
                && requests == (if Truthy(a.stx)
                                then [StxBalanceUrl(network, a.stx.value)]
                                     + QueryUrls(network, a.stx.value, FetchAll(indexer).queries)
                                else [])
                               + (if Truthy(a.btc) && BtcApiNetwork(network).Some?
                                  then [BtcBalanceUrl(BtcApiNetwork(network).value, a.btc.value)]
                                  else [])
    {
      requests := [];
      if authSession.None? {
        return;
      }
      userData := authSession;
      var profile := authSession.value.profile;
      if profile.None? {
        return;
      }
      var a := SelectAddresses(profile.value, network);
      stxAddress := a.stx;
      btcAddress := a.btc;
      requests := FetchForAddresses(a, stxResponse, indexer, btcResponse);
    }

    /** The refresh a finished transfer schedules for the sender: STX balance, then history. */
    method RefreshAfterTransfer(sender: string, stxResponse: BalanceResponse, indexer: seq<PageResponse>)
      returns (requests: seq<string>)
      modifies this`stxBalance, this`transactions, this`isLoadingTransactions
      ensures stxBalance == StoredBalance(stxResponse, MicroStxPerStx)
      ensures transactions == FetchAll(indexer).stored && !isLoadingTransactions
      ensures requests == [StxBalanceUrl(network, sender)] + QueryUrls(network, sender, FetchAll(indexer).queries)
    {
      var r := FetchStxBalance(sender, network, stxResponse);
      var pages, _ := FetchTransactions(sender, network, indexer);
      requests := [r] + pages;
    }
  }
}
