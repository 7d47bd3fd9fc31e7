/**
 * The Pending Transactions page: which cards it renders, when it shows the
 * empty-state message, the loading flag it hands each card, and the cache
 * keys its confirm and execute mutations invalidate.
 */
module PendingTransactions {
  import opened Wrappers
  import opened QueryClient
  import opened MultiSigOperations
  import opened TransactionCard
  import opened WalletPages

  /** `filter(tx => !tx.executed)`: the unexecuted records, in fetched order. */
  function Unexecuted(txs: seq<PendingTransaction>): (r: seq<PendingTransaction>)
    ensures |r| <= |txs|
    ensures forall tx :: tx in r <==> tx in txs && !tx.executed
  {
    if txs == [] then []
    else if txs[0].executed then Unexecuted(txs[1..])
    else [txs[0]] + Unexecuted(txs[1..])
  }

  /** Filtering distributes over concatenation, so the relative order is kept. */
  lemma {:induction false} UnexecutedConcat(a: seq<PendingTransaction>, b: seq<PendingTransaction>)
    ensures Unexecuted(a + b) == Unexecuted(a) + Unexecuted(b)
  {
    if a != [] {
      assert (a + b)[0] == a[0];
      assert (a + b)[1..] == a[1..] + b;
      UnexecutedConcat(a[1..], b);
    } else {
      assert a + b == b;
    }
  }

  /** A list of executed transactions only renders no card. */
  lemma {:induction false} UnexecutedEmptyWhenAllExecuted(txs: seq<PendingTransaction>)
    requires forall i :: 0 <= i < |txs| ==> txs[i].executed
    ensures Unexecuted(txs) == []
  {
    if txs != [] {
      UnexecutedEmptyWhenAllExecuted(txs[1..]);
    }
  }

  /** A list with nothing executed in it is rendered whole. */
  lemma {:induction false} UnexecutedKeepsAllWhenNoneExecuted(txs: seq<PendingTransaction>)
    requires forall i :: 0 <= i < |txs| ==> !txs[i].executed
    ensures Unexecuted(txs) == txs
  {
    if txs != [] {
      UnexecutedKeepsAllWhenNoneExecuted(txs[1..]);
    }
  }

  /**
   * The transactions section: nothing without a selected wallet; then the
   * spinner, the error alert, the empty-state message for an empty fetched
   * list, and otherwise the cards of the unexecuted transactions.
   */
  function TransactionsPanel(selected: string, loading: bool, error: Option<QueryError>,
                             txs: seq<PendingTransaction>): (r: Panel<seq<PendingTransaction>>)
    ensures r == Hidden <==> selected == []
    ensures r == Loading <==> selected != [] && loading
    ensures r.Failed? <==> selected != [] && !loading && error.Some?
    ensures r.Failed? ==> r.message == ErrorText(error.value, "Failed to load transactions")
    ensures r == Empty <==> selected != [] && !loading && error.None? && txs == []
    ensures r.Shown? <==> selected != [] && !loading && error.None? && txs != []
    ensures r.Shown? ==> r.content == Unexecuted(txs)
  {
    if selected == [] then Hidden
    else if loading then Loading
    else if error.Some? then Failed(ErrorText(error.value, "Failed to load transactions"))
    else if txs == [] then Empty
    else Shown(Unexecuted(txs))
  }

  /**
   * The empty-state test looks at the unfiltered list: when every fetched
   * transaction is executed, the page shows neither a card nor the message.
   */
  lemma AllExecutedShowsNothing(selected: string, txs: seq<PendingTransaction>)
    requires selected != [] && txs != []
    requires forall i :: 0 <= i < |txs| ==> txs[i].executed
    ensures TransactionsPanel(selected, false, None, txs) == Shown([])
  {
    UnexecutedEmptyWhenAllExecuted(txs);
  }

  /**
   * The section as its empty-state text ("All transactions have been
   * executed or there are no pending transactions") describes it: the
   * message whenever no unexecuted transaction is left, so the card list is
   * never empty.
   */
  function IntendedTransactionsPanel(selected: string, loading: bool, error: Option<QueryError>,
                                     txs: seq<PendingTransaction>): (r: Panel<seq<PendingTransaction>>)
    ensures r == Empty <==> selected != [] && !loading && error.None? && Unexecuted(txs) == []
    ensures r.Shown? ==> r.content == Unexecuted(txs) && r.content != []
  {
    if selected == [] then Hidden
    else if loading then Loading
    else if error.Some? then Failed(ErrorText(error.value, "Failed to load transactions"))
    else if Unexecuted(txs) == [] then Empty
    else Shown(Unexecuted(txs))
  }

  /**
   * Both sections agree whenever something unexecuted is left; they differ
   * exactly on a non-empty, fully executed list, where only the corrected
   * one shows the message.
   */
  lemma IntendedPanelDiffersOnlyWhenAllExecuted(selected: string, loading: bool, error: Option<QueryError>,
                                                txs: seq<PendingTransaction>)
    ensures Unexecuted(txs) != [] ==>
      IntendedTransactionsPanel(selected, loading, error, txs) == TransactionsPanel(selected, loading, error, txs)
    ensures selected != [] && !loading && error.None? && txs != [] && Unexecuted(txs) == [] ==>
      && IntendedTransactionsPanel(selected, loading, error, txs) == Empty
      && TransactionsPanel(selected, loading, error, txs) == Shown([])
  {
  }

  /**
   * The card for one listed transaction: both handlers are given and the
   * buttons are disabled while either mutation is pending.
   */
  function PendingCard(tx: PendingTransaction, confirmPending: bool, executePending: bool): (r: CardView)
    ensures r.buttonsDisabled <==> confirmPending || executePending
    ensures r.showConfirm <==> !tx.executed && !tx.isConfirmedByUser
    ensures r.showExecute <==> !tx.executed && tx.canExecute
    ensures r.status == Status(tx)
  {
    ViewCard(tx, true, true, confirmPending || executePending)
  }

  /** Every card on this page belongs to an unexecuted transaction, so its action area is shown. */
  lemma ListedCardsShowActions(txs: seq<PendingTransaction>, i: nat, confirmPending: bool, executePending: bool)
    requires i < |Unexecuted(txs)|
    ensures PendingCard(Unexecuted(txs)[i], confirmPending, executePending).showActions
    ensures PendingCard(Unexecuted(txs)[i], confirmPending, executePending).status != Executed
  {
    assert Unexecuted(txs)[i] in Unexecuted(txs);
  }

  /** Keys invalidated after a successful confirmation. */
  function ConfirmInvalidates(selected: string): (r: seq<seq<string>>)
    ensures forall k :: k in r ==> ParseKey(k) == Some(KeyParts(Transactions, selected))
    ensures QueryKey(Transactions, selected) in r
  {
    [QueryKey(Transactions, selected)]
  }

  /** Keys invalidated after a successful execution: the transactions and the wallet summary. */
  function ExecuteInvalidates(selected: string): (r: seq<seq<string>>)
    ensures forall k :: k in r ==>
      ParseKey(k) == Some(KeyParts(Transactions, selected)) || ParseKey(k) == Some(KeyParts(KeyKind.WalletInfo, selected))
    ensures QueryKey(Transactions, selected) in r && QueryKey(KeyKind.WalletInfo, selected) in r
  {
    [QueryKey(Transactions, selected), QueryKey(KeyKind.WalletInfo, selected)]
  }

  /**
   * Confirming refreshes only the transaction list; executing also refreshes
   * the wallet summary (the balance moved); neither touches the wallet list.
   */
  lemma InvalidationScopes(selected: string)
    ensures QueryKey(KeyKind.WalletInfo, selected) !in ConfirmInvalidates(selected)
    ensures forall k :: k in ConfirmInvalidates(selected) ==> k in ExecuteInvalidates(selected)
    ensures forall a :: QueryKey(UserWallets, a) !in ExecuteInvalidates(selected)
  {
    QueryKeysAreDistinct(KeyKind.WalletInfo, selected, Transactions, selected);
    forall a ensures QueryKey(UserWallets, a) !in ExecuteInvalidates(selected) {
      QueryKeysAreDistinct(UserWallets, a, Transactions, selected);
      QueryKeysAreDistinct(UserWallets, a, KeyKind.WalletInfo, selected);
    }
  }

  /** The query client as far as this page drives it: the keys invalidated so far, in order. */
  class InvalidationLog {
    var invalidated: seq<seq<string>>

    constructor ()
      ensures invalidated == []
    {
      invalidated := [];
    }

    /** `confirmMutation.onSuccess`. */
    method OnConfirmSuccess(selected: string)
      modifies this
      ensures invalidated == old(invalidated) + ConfirmInvalidates(selected)
    {
      invalidated := invalidated + [QueryKey(Transactions, selected)];
    }

    /** `executeMutation.onSuccess`. */
    method OnExecuteSuccess(selected: string)
      modifies this
      ensures invalidated == old(invalidated) + ExecuteInvalidates(selected)
    {
      invalidated := invalidated + [QueryKey(Transactions, selected)];
      invalidated := invalidated + [QueryKey(KeyKind.WalletInfo, selected)];
    }
  }
}
