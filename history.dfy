/**
 * The recent-activity card (TransactionHistory): which content it shows,
 * and how each of the first ten records becomes a row (direction, shortened
 * counterpart, type label, status badge, explorer link).  Locale number
 * formatting is not modelled; the amount is the exact STX value.
 */
module History {
  import opened Js
  import opened Wallet

  datatype BadgeVariant = Secondary | Destructive | Outline

  datatype Badge = Badge(text: string, variant: BadgeVariant)

  /** `getStatusBadge`: the three known statuses get their labels, any other shows its raw text. */
  function StatusBadge(status: string): (b: Badge)
    ensures status == "success" ==> b == Badge("Success", Secondary)
    ensures status == "pending" ==> b == Badge("Pending", Secondary)
    ensures status == "failed" ==> b == Badge("Failed", Destructive)
    ensures status != "success" && status != "pending" && status != "failed" ==> b == Badge(status, Outline)
  {
    if status == "success" then Badge("Success", Secondary)
    else if status == "pending" then Badge("Pending", Secondary)
    else if status == "failed" then Badge("Failed", Destructive)
    else Badge(status, Outline)
  }

  /** The badge shows the raw status text exactly when the status is not one of the three known ones. */
  lemma StatusBadgeRawIff(status: string)
    ensures StatusBadge(status).text == status <==> status != "success" && status != "pending" && status != "failed"
  {
    assert "Success" != "success" && "Pending" != "pending" && "Failed" != "failed" by {
      assert "Success"[0] != "success"[0];
      assert "Pending"[0] != "pending"[0];
      assert "Failed"[0] != "failed"[0];
    }
  }

  const ExplorerBase := "https://explorer.stacks.co/txid"

  /** `explorerUrl`: no query on mainnet, `?chain=<id>` on any other network. */
  function ExplorerUrl(net: Network): (url: string)
    ensures net.id == "mainnet" ==> url == ExplorerBase
    ensures net.id != "mainnet" ==> url == ExplorerBase + "?chain=" + net.id
  {
    if net.id == "mainnet" then ExplorerBase else ExplorerBase + "?chain=" + net.id
  }

  /** The row link as the component builds it: `${explorerUrl}/${tx_id}`. */
  function ExplorerLinkAsWritten(net: Network, txId: string): (link: string)
    ensures |link| == |ExplorerUrl(net)| + 1 + |txId|
    ensures link[..|ExplorerUrl(net)|] == ExplorerUrl(net)
    ensures link[|ExplorerUrl(net)|] == '/' && link[|ExplorerUrl(net)| + 1..] == txId
  {
    ExplorerUrl(net) + "/" + txId
  }

  /** The link with the transaction id in the path and the chain in the query. */
  function ExplorerLink(net: Network, txId: string): string
  {
    ExplorerBase + "/" + txId + (if net.id == "mainnet" then "" else "?chain=" + net.id)
  }

  /** Off mainnet the built link's path is only the base: the transaction id lands inside the query. */
  lemma AsWrittenLinkPutsTxIdInQuery(net: Network, txId: string)
    requires net.id != "mainnet"
    ensures var link := ExplorerLinkAsWritten(net, txId);
      && IndexOf(link, '?') == |ExplorerBase|
      && link[..|ExplorerBase|] == ExplorerBase
      && link[|ExplorerBase|..] == "?chain=" + net.id + "/" + txId
  {
    var link := ExplorerLinkAsWritten(net, txId);
    assert '?' !in ExplorerBase;
    assert link == ExplorerBase + ("?chain=" + net.id + "/" + txId);
    IndexOfAppend(ExplorerBase, "?chain=" + net.id + "/" + txId, '?');
  }

  /** A concrete instance: the link built on testnet for transaction id "0xabc". */
  lemma AsWrittenTestnetLink()
    ensures ExplorerLinkAsWritten(Testnet, "0xabc") == "https://explorer.stacks.co/txid?chain=testnet/0xabc"
  {
    assert ExplorerUrl(Testnet) == "https://explorer.stacks.co/txid?chain=testnet";
  }

  /** The same instance with the corrected link. */
  lemma IntendedTestnetLink()
    ensures ExplorerLink(Testnet, "0xabc") == "https://explorer.stacks.co/txid/0xabc?chain=testnet"
  {
  }

  /** With the corrected link the path is base + "/" + id and the query names the chain; on mainnet both agree. */
  lemma ExplorerLinkPathAndQuery(net: Network, txId: string)
    requires '?' !in txId
    ensures var link := ExplorerLink(net, txId); var path := ExplorerBase + "/" + txId;
      && link[..|path|] == path
      && (net.id == "mainnet" ==> IndexOf(link, '?') == -1 && link == ExplorerLinkAsWritten(net, txId))
      && (net.id != "mainnet" ==> IndexOf(link, '?') == |path| && link[|path|..] == "?chain=" + net.id)
  {
    var path := ExplorerBase + "/" + txId;
    var link := ExplorerLink(net, txId);
    assert '?' !in ExplorerBase;
    assert '?' !in path by {
      forall k | 0 <= k < |path| ensures path[k] != '?' {
        if k < |ExplorerBase| { assert path[k] == ExplorerBase[k]; }
        else if k > |ExplorerBase| { assert path[k] == txId[k - |ExplorerBase| - 1]; }
      }
    }
    if net.id == "mainnet" {
      assert link == path + "";
      IndexOfAppend(path, "", '?');
    } else {
      assert link == path + ("?chain=" + net.id);
      IndexOfAppend(path, "?chain=" + net.id, '?');
    }
  }

  /** The type label: "Transfer" for token transfers, otherwise the first '_' becomes a space. */
  function TypeLabel(txType: string): (typeText: string)
    ensures txType == "token_transfer" ==> typeText == "Transfer"
    ensures txType != "token_transfer" ==> typeText == ReplaceFirst(txType, '_', ' ')
  {
    if txType == "token_transfer" then "Transfer" else ReplaceFirst(txType, '_', ' ')
  }

  /** Only the first underscore is replaced; later ones stay. */
  lemma TypeLabelSplitsAtFirstUnderscore(head: string, tail: string)
    requires '_' !in head && head + "_" + tail != "token_transfer"
    ensures TypeLabel(head + "_" + tail) == head + " " + tail
  {
    assert head + "_" + tail == head + ['_'] + tail;
    assert head + " " + tail == head + [' '] + tail;
    ReplaceFirstSplit(head, '_', ' ', tail);
  }

  /** `${details.slice(0,10)}...${details.slice(-4)}`. */
  function ShortDetails(details: string): (shown: string)
    ensures |details| >= 14 ==>
              |shown| == 17 && shown == details[..10] + "..." + details[|details| - 4..]
    ensures 4 <= |details| < 14 ==>
              shown == (if |details| < 10 then details else details[..10]) + "..." + details[|details| - 4..]
    ensures |details| <= 4 ==> shown == details + "..." + details
  {
    SliceHead(details, 10) + "..." + SliceLast(details, 4)
  }

  /** One table row, as displayed. */
  datatype Row = Row(sent: bool, details: string, shownDetails: string, typeLabel: string,
                     link: string, amount: real, badge: Badge)

  /**
   * The row for `tx` seen by the owner of `own`; `None` when the record has no
   * STX transfer, where reading the first transfer's amount throws.
   */
  function RenderRow(tx: Tx, own: string, net: Network): (row: Option<Row>)
    ensures row.None? <==> tx.stxTransfers == []
    ensures row.Some? ==>
              && (row.value.sent <==> tx.senderAddress == own)
              && row.value.details == (if row.value.sent then "to " + tx.stxTransfers[0].recipient
                                       else "from " + tx.senderAddress)
              && row.value.shownDetails == ShortDetails(row.value.details)
              && row.value.typeLabel == TypeLabel(tx.txType)
              && row.value.link == ExplorerLinkAsWritten(net, tx.txId)
              && row.value.amount * (MicroStxPerStx as real) == tx.stxTransfers[0].amount as real
              && row.value.badge == StatusBadge(tx.txStatus)
  {
    if tx.stxTransfers == [] then None
    else
      var transfer := tx.stxTransfers[0];
      var sent := tx.senderAddress == own;
      var details := if sent then "to " + transfer.recipient else "from " + tx.senderAddress;
      Some(Row(sent, details, ShortDetails(details), TypeLabel(tx.txType), ExplorerLinkAsWritten(net, tx.txId),
               StxFromMicro(transfer.amount), StatusBadge(tx.txStatus)))
  }

  /** Rows for a list of records, in order (`map`); `None` if any of them cannot be rendered. */
  function RenderRows(txs: seq<Tx>, own: string, net: Network): (rows: Option<seq<Row>>)
    ensures rows.None? <==> exists k :: 0 <= k < |txs| && txs[k].stxTransfers == []
    ensures rows.Some? ==>
              |rows.value| == |txs| &&
              forall k :: 0 <= k < |txs| ==> RenderRow(txs[k], own, net) == Some(rows.value[k])
  {
    if exists k :: 0 <= k < |txs| && txs[k].stxTransfers == [] then None
    else Some(seq(|txs|, k requires 0 <= k < |txs| => RenderRow(txs[k], own, net).value))
  }

  const TableLimit: nat := 10
  const SkeletonCount: nat := 5

  /** What the card body shows. */
  datatype Content =
    | ConnectPrompt
    | Skeletons(count: nat)
    | NoTransactions
    | Table(rows: seq<Row>)
    | RenderFailure

  /** The first ten records (all of them if fewer). */
  function Shown(txs: seq<Tx>): (shown: seq<Tx>)
    ensures |shown| == if |txs| < TableLimit then |txs| else TableLimit
    ensures shown <= txs
  {
    if |txs| < TableLimit then txs else txs[..TableLimit]
  }

  /** `renderContent`: no address, then loading, then empty list, then the table of the first ten. */
  function RenderContent(stxAddress: Option<string>, loading: bool, txs: seq<Tx>, net: Network): (c: Content)
    ensures c == ConnectPrompt <==> !Truthy(stxAddress)
    ensures c.Skeletons? <==> Truthy(stxAddress) && loading
    ensures c.Skeletons? ==> c.count == SkeletonCount
    ensures c == NoTransactions <==> Truthy(stxAddress) && !loading && txs == []
    ensures (c.Table? || c == RenderFailure) <==> Truthy(stxAddress) && !loading && txs != []
  {
    if !Truthy(stxAddress) then ConnectPrompt
    else if loading then Skeletons(SkeletonCount)
    else if txs == [] then NoTransactions
    else
      match RenderRows(Shown(txs), stxAddress.value, net)
      case None => RenderFailure
      case Some(rows) => Table(rows)
  }

  /** The table lists at most the first ten records, in list order, one row each. */
  lemma TableShowsFirstTen(stxAddress: Option<string>, loading: bool, txs: seq<Tx>, net: Network)
    requires RenderContent(stxAddress, loading, txs, net).Table?
    ensures var rows := RenderContent(stxAddress, loading, txs, net).rows;
      && |rows| == (if |txs| < 10 then |txs| else 10)
      && forall k :: 0 <= k < |rows| ==> RenderRow(txs[k], stxAddress.value, net) == Some(rows[k])
  {
    var shown := Shown(txs);
    assert forall k :: 0 <= k < |shown| ==> shown[k] == txs[k];
  }

  /** Rendering fails exactly when one of the first ten records has no STX transfer. */
  lemma RenderFailureIff(stxAddress: Option<string>, loading: bool, txs: seq<Tx>, net: Network)
    requires Truthy(stxAddress) && !loading && txs != []
    ensures RenderContent(stxAddress, loading, txs, net) == RenderFailure <==>
            exists k :: 0 <= k < |txs| && k < 10 && txs[k].stxTransfers == []
  {
    var shown := Shown(txs);
    assert forall k :: 0 <= k < |shown| ==> shown[k] == txs[k];
  }

  /** "View All" appears iff an address is present and the list is non-empty. */
  function ShowViewAll(stxAddress: Option<string>, txs: seq<Tx>): (shown: bool)
    ensures shown <==> Truthy(stxAddress) && |Shown(txs)| > 0
  {
    Truthy(stxAddress) && |txs| > 0
  }

  /** With "View All" shown the body is never the connect prompt nor the empty notice. */
  lemma ViewAllAgreesWithContent(stxAddress: Option<string>, loading: bool, txs: seq<Tx>, net: Network)
    ensures ShowViewAll(stxAddress, txs) ==>
              var c := RenderContent(stxAddress, loading, txs, net);
              c.Skeletons? || c.Table? || c == RenderFailure
    ensures !ShowViewAll(stxAddress, txs) ==>
              RenderContent(stxAddress, loading, txs, net) in {ConnectPrompt, NoTransactions, Skeletons(SkeletonCount)}
  {
  }
}
