/**
 * What the Dashboard, Pending Transactions and Manage Signers pages have in
 * common: the `selectedWallet` state with its auto-select effect, the
 * screen cascade in front of the main view, and the shape of a panel backed
 * by one query (spinner, error alert, content).
 */
module WalletPages {
  import opened Wrappers

  /** The full-page screens, in the order the pages test for them. */
  datatype Screen = NotConnected | LoadingWallets | WalletsError | NoWallets | MainView

  /**
   * The early returns of a page: not connected, then loading the user's
   * wallets, then (on pages that check it) a failed wallet query, then an
   * empty wallet list; only then the main view.
   */
  function ScreenOf(isConnected: bool, walletsLoading: bool, walletsFailed: bool, walletCount: nat): (r: Screen)
    ensures r == NotConnected <==> !isConnected
    ensures r == LoadingWallets <==> isConnected && walletsLoading
    ensures r == WalletsError <==> isConnected && !walletsLoading && walletsFailed
    ensures r == NoWallets <==> isConnected && !walletsLoading && !walletsFailed && walletCount == 0
    ensures r == MainView <==> isConnected && !walletsLoading && !walletsFailed && walletCount > 0
  {
    if !isConnected then NotConnected
    else if walletsLoading then LoadingWallets
    else if walletsFailed then WalletsError
    else if walletCount == 0 then NoWallets
    else MainView
  }

  /**
   * The cascade of the pages without a wallets-error branch (Pending
   * Transactions and Manage Signers).
   */
  function ScreenIgnoringWalletsError(isConnected: bool, walletsLoading: bool, walletCount: nat): (r: Screen)
    ensures r != WalletsError
    ensures r == ScreenOf(isConnected, walletsLoading, false, walletCount)
  {
    ScreenOf(isConnected, walletsLoading, false, walletCount)
  }

  /**
   * On those pages a failed wallet query leaves the list at its default `[]`,
   * so they report "No wallets found" rather than an error, where the
   * dashboard reports the error.
   */
  lemma FailedWalletQueryShowsNoWallets()
    ensures ScreenIgnoringWalletsError(true, false, 0) == NoWallets
    ensures ScreenOf(true, false, true, 0) == WalletsError
  {
  }

  /**
   * A rejected query value: an `Error` instance carries its `message`; any
   * other thrown value has none.
   */
  datatype QueryError = ErrorInstance(message: string) | OtherValue

  /**
   * `error instanceof Error ? error.message : fallback`. Unlike the hook's
   * `handleError`, an `Error` with an empty message shows the empty message.
   */
  function ErrorText(e: QueryError, fallback: string): (r: string)
    ensures e.ErrorInstance? ==> r == e.message
    ensures e.OtherValue? ==> r == fallback
  {
    match e
    case ErrorInstance(message) => message
    case OtherValue => fallback
  }

  /**
   * A section backed by one query: hidden (no wallet selected, or nothing to
   * show), a spinner, an error alert, the empty-state message, or content.
   */
  datatype Panel<T> = Hidden | Loading | Failed(message: string) | Empty | Shown(content: T)

  /**
   * The wallet-summary section shared by the dashboard and the signer page:
   * nothing without a selection; then spinner, error alert, or the view of
   * the summary when it is present (nothing otherwise).
   */
  function WalletInfoPanel<T>(selected: string, loading: bool, error: Option<QueryError>,
                              view: Option<T>): (r: Panel<T>)
    ensures r != Empty
    ensures r == Loading <==> selected != [] && loading
    ensures r.Failed? <==> selected != [] && !loading && error.Some?
    ensures r.Failed? ==> r.message == ErrorText(error.value, "Failed to load wallet info")
    ensures r.Shown? <==> selected != [] && !loading && error.None? && view.Some?
    ensures r.Shown? ==> r.content == view.value
  {
    if selected == [] then Hidden
    else if loading then Loading
    else if error.Some? then Failed(ErrorText(error.value, "Failed to load wallet info"))
    else if view.Some? then Shown(view.value)
    else Hidden
  }

  /**
   * The auto-select effect: with nothing selected (`null` is modelled as the
   * empty string) and a non-empty wallet list, select the first wallet;
   * otherwise keep the current selection.
   */
  function AutoSelected(selected: string, userWallets: seq<string>): (r: string)
    ensures selected != [] ==> r == selected
    ensures selected == [] && |userWallets| > 0 ==> r == userWallets[0]
    ensures selected == [] && userWallets == [] ==> r == []
  {
    if |userWallets| > 0 && selected == [] then userWallets[0] else selected
  }

  /** The effect settles: running it again on its own result changes nothing. */
  lemma AutoSelectSettles(selected: string, userWallets: seq<string>)
    ensures AutoSelected(AutoSelected(selected, userWallets), userWallets) == AutoSelected(selected, userWallets)
  {
  }

  /** A selection that is empty or one of the listed wallets stays so. */
  lemma AutoSelectKeepsListedSelection(selected: string, userWallets: seq<string>)
    requires selected == [] || selected in userWallets
    ensures var r := AutoSelected(selected, userWallets); r == [] || r in userWallets
  {
  }

  /**
   * Whenever a page reaches its main view (so its wallet list is non-empty),
   * the effect leaves a wallet selected, provided the first wallet is a
   * non-empty address.
   */
  lemma MainViewGetsSelection(isConnected: bool, walletsLoading: bool, walletsFailed: bool,
                              selected: string, userWallets: seq<string>)
    requires ScreenOf(isConnected, walletsLoading, walletsFailed, |userWallets|) == MainView
    requires userWallets[0] != []
    ensures AutoSelected(selected, userWallets) != []
  {
  }

  /** The `selectedWallet` state of one page. */
  class WalletSelector {
    var selected: string

    constructor ()
      ensures selected == []
    {
      selected := [];
    }

    /** The auto-select effect, run with the current wallet list. */
    method AutoSelect(userWallets: seq<string>)
      modifies this
      ensures selected == AutoSelected(old(selected), userWallets)
    {
      if |userWallets| > 0 && selected == [] {
        selected := userWallets[0];
      }
    }

    /** A click on a wallet in the selection list. */
    method Select(walletAddress: string)
      modifies this
      ensures selected == walletAddress
    {
      selected := walletAddress;
    }
  }
}
