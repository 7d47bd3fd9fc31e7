/**
 * The Dashboard page: its screen cascade (the only page that reports a
 * failed wallet query), the wallet summary panel and the "Recent
 * Transactions" panel.
 */
module Dashboard {
  import opened Wrappers
  import opened JsText
  import opened MultiSigOperations
  import opened TransactionCard
  import opened WalletPages

  /** The number of transactions the recent panel shows at most. */
  const RecentCount: nat := 3

  /**
   * The dashboard checks the wallet query's error between the loading test and
   * the empty-list test, so it is the one page on which a failed wallet query
   * is reported as such.
   */
  function DashboardScreen(isConnected: bool, walletsLoading: bool, walletsError: Option<QueryError>,
                           walletCount: nat): (r: Screen)
    ensures r == WalletsError <==> isConnected && !walletsLoading && walletsError.Some?
    ensures r == MainView <==> isConnected && !walletsLoading && walletsError.None? && walletCount > 0
    ensures r == ScreenOf(isConnected, walletsLoading, walletsError.Some?, walletCount)
  {
    ScreenOf(isConnected, walletsLoading, walletsError.Some?, walletCount)
  }

  /** The alert text of the wallets-error screen. */
  function WalletsErrorText(e: QueryError): (r: string)
    ensures e.OtherValue? ==> r == "Failed to load wallets"
    ensures e.ErrorInstance? ==> r == e.message
  {
    ErrorText(e, "Failed to load wallets")
  }

  /**
   * "Recent Transactions": spinner, error alert, "No pending transactions"
   * for an empty list, otherwise the first three fetched records as they
   * come (executed ones included).
   */
  function RecentPanel(selected: string, loading: bool, error: Option<QueryError>,
                       txs: seq<PendingTransaction>): (r: Panel<seq<PendingTransaction>>)
    ensures r == Hidden <==> selected == []
    ensures r == Loading <==> selected != [] && loading
    ensures r.Failed? <==> selected != [] && !loading && error.Some?
    ensures r.Failed? ==> r.message == ErrorText(error.value, "Failed to load transactions")
    ensures r == Empty <==> selected != [] && !loading && error.None? && txs == []
    ensures r.Shown? ==> r.content == SliceHead(txs, RecentCount)
  {
    if selected == [] then Hidden
    else if loading then Loading
    else if error.Some? then Failed(ErrorText(error.value, "Failed to load transactions"))
    else if txs == [] then Empty
    else Shown(SliceHead(txs, RecentCount))
  }

  /**
   * The recent panel shows a non-empty prefix of at most three records of the
   * fetched list, in order and without filtering, and the whole list when it
   * has three or fewer.
   */
  lemma RecentIsUnfilteredPrefix(selected: string, txs: seq<PendingTransaction>)
    requires selected != [] && txs != []
    ensures var r := RecentPanel(selected, false, None, txs);
      && r.Shown?
      && r.content <= txs
      && 1 <= |r.content| <= RecentCount
      && r.content[0] == txs[0]
      && (|txs| <= RecentCount ==> r.content == txs)
  {
  }

  /**
   * The dashboard renders its cards without handlers, so no Confirm or
   * Execute button ever appears there and no card is disabled.
   */
  function RecentCard(tx: PendingTransaction): (r: CardView)
    ensures !r.showConfirm && !r.showExecute && !r.buttonsDisabled
    ensures r.status == Status(tx)
    ensures r.showWaiting <==> !tx.executed && tx.isConfirmedByUser && !tx.canExecute
  {
    ViewCard(tx, false, false, false)
  }
}
