/**
 * What the card of one pending transaction shows: its status badge, the
 * call-data preview and which action controls appear, as functions of the
 * transaction record and of the handlers the page passes in.
 */
module TransactionCard {
  import opened Wrappers
  import opened JsText
  import opened MultiSigOperations

  datatype StatusBadge = Executed | ReadyToExecute | Pending

  /** `getStatusBadge`: executed wins over executable, which wins over pending. */
  function Status(tx: PendingTransaction): (r: StatusBadge)
    ensures r == Executed <==> tx.executed
    ensures r == ReadyToExecute <==> !tx.executed && tx.canExecute
    ensures r == Pending <==> !tx.executed && !tx.canExecute
  {
    if tx.executed then Executed
    else if tx.canExecute then ReadyToExecute
    else Pending
  }

  /** The badge's text and style variant; each status has its own. */
  function BadgeLabel(b: StatusBadge): (r: string)
  {
    match b
    case Executed => "Executed"
    case ReadyToExecute => "Ready to Execute"
    case Pending => "Pending"
  }

  function BadgeVariant(b: StatusBadge): string
  {
    match b
    case Executed => "success"
    case ReadyToExecute => "warning"
    case Pending => "secondary"
  }

  lemma BadgesAreDistinguishable(b1: StatusBadge, b2: StatusBadge)
    ensures BadgeLabel(b1) == BadgeLabel(b2) <==> b1 == b2
    ensures BadgeVariant(b1) == BadgeVariant(b2) <==> b1 == b2
  {
    if b1 != b2 {
      assert BadgeLabel(b1)[0] != BadgeLabel(b2)[0] || |BadgeLabel(b1)| != |BadgeLabel(b2)|;
      assert BadgeVariant(b1)[0] != BadgeVariant(b2)[0] || BadgeVariant(b1)[1] != BadgeVariant(b2)[1];
    }
  }

  /** Number of call-data characters the card shows. */
  const PreviewLength: nat := 100

  /** The shown prefix of the call data and whether `...` follows it. */
  datatype DataPreview = DataPreview(shown: string, ellipsis: bool)

  /**
   * The data row: absent for empty data and for `0x`; otherwise the first
   * hundred characters, followed by `...` exactly when something was cut.
   */
  function Preview(data: string): (r: Option<DataPreview>)
    ensures r.None? <==> data == [] || data == "0x"
    ensures r.Some? ==>
      && r.value.shown <= data
      && |r.value.shown| == Min(PreviewLength, |data|)
      && (r.value.ellipsis <==> |data| > PreviewLength)
      && (!r.value.ellipsis ==> r.value.shown == data)
  {
    if data == [] || data == "0x" then None
    else Some(DataPreview(SliceHead(data, PreviewLength), |data| > PreviewLength))
  }

  /** The parts of the card that depend on the record and the page's props. */
  datatype CardView = CardView(
    status: StatusBadge,
    preview: Option<DataPreview>,
    showActions: bool,
    showConfirm: bool,
    showExecute: bool,
    showWaiting: bool,
    buttonsDisabled: bool)

  /**
   * The card for `tx`: the action area only for unexecuted transactions;
   * inside it Confirm for a user who has not confirmed (when the page gives a
   * handler), Execute for an executable transaction (when the page gives a
   * handler), and the waiting note for a confirmed but not executable one.
   */
  function ViewCard(tx: PendingTransaction, hasOnConfirm: bool, hasOnExecute: bool, isLoading: bool): (r: CardView)
    ensures r.status == Status(tx) && r.preview == Preview(tx.data)
    ensures r.showActions <==> !tx.executed
    ensures r.showConfirm <==> !tx.executed && !tx.isConfirmedByUser && hasOnConfirm
    ensures r.showExecute <==> !tx.executed && tx.canExecute && hasOnExecute
    ensures r.showWaiting <==> !tx.executed && tx.isConfirmedByUser && !tx.canExecute
    ensures r.buttonsDisabled == isLoading
  {
    var actions := !tx.executed;
    CardView(
      Status(tx),
      Preview(tx.data),
      actions,
      actions && !tx.isConfirmedByUser && hasOnConfirm,
      actions && tx.canExecute && hasOnExecute,
      actions && tx.isConfirmedByUser && !tx.canExecute,
      isLoading)
  }

  /** An executed transaction shows no control at all, whatever the handlers. */
  lemma ExecutedCardHasNoControls(tx: PendingTransaction, hasOnConfirm: bool, hasOnExecute: bool, isLoading: bool)
    requires tx.executed
    ensures var v := ViewCard(tx, hasOnConfirm, hasOnExecute, isLoading);
      !v.showActions && !v.showConfirm && !v.showExecute && !v.showWaiting
  {
  }

  /**
   * The waiting note excludes both buttons: it needs a confirming user, which
   * hides Confirm, and a non-executable record, which hides Execute.
   */
  lemma WaitingExcludesButtons(tx: PendingTransaction, hasOnConfirm: bool, hasOnExecute: bool, isLoading: bool)
    ensures var v := ViewCard(tx, hasOnConfirm, hasOnExecute, isLoading);
      v.showWaiting ==> !v.showConfirm && !v.showExecute
  {
  }

  /**
   * For every record the enumeration produces, "Ready to Execute" is shown
   * exactly when the transaction has reached its threshold and has not run,
   * and the Execute button (given a handler) exactly then too.
   */
  lemma ReadyBadgeMatchesThreshold(c: WalletContract, i: nat, hasOnConfirm: bool, isLoading: bool)
    requires i < |PendingList(c)|
    ensures var tx := PendingList(c)[i];
      && (Status(tx) == ReadyToExecute <==> tx.confirmations >= tx.threshold && !tx.executed)
      && (ViewCard(tx, hasOnConfirm, true, isLoading).showExecute <==> Status(tx) == ReadyToExecute)
  {
    PendingListSpec(c);
  }
}
