# multi-guard-fe: a verified model of the front end's rules

multi-guard-fe is a React front end for a multi-signature wallet. Each wallet
has a list of owners and a threshold. A transaction submitted to the wallet
runs only once `threshold` owners have confirmed it. The front end creates
wallets, submits transactions, lists them with their confirmation state, and
lets owners confirm and execute them.

This project models the deterministic rules behind those screens in Dafny and
proves what they promise. Remote contract reads, timers, the clipboard and the
network switch are replaced by explicit inputs. A read is "this read
succeeded with value v" or "this read threw". A timer is "the reset timer
fired".

Module layout (one module per core file, plus three shared ones):

- `Wrappers`: `Option` and `Result`.
- `JsText`: the JavaScript string operations the rules depend on, with their
  JavaScript meaning:
  - `slice` with clamped and negative bounds;
  - `trim` with the ECMAScript whitespace set;
  - ASCII `toLowerCase`;
  - the decimal rendering of a number in a template literal.
- `Web3`: `formatAddress` and `isValidAddress`.
- `QueryClient`: the retry predicate and the query-key builders.
- `MultiSigOperations`: covers
  - the on-chain enumeration loop of `getPendingTransactions`;
  - the owners probe and the result of `getWalletInfo`;
  - `handleError`;
  - the hook's `isLoading`/`error` state, as a class.
- `CreateWallet`, `CreateTransaction`: the form guards and validation chains.
  `handleWalletSelect` and the owner field list are classes.
- `TransactionCard`: the status badge, the action-button predicates and the
  call-data preview.
- `WalletPages`: what the three wallet pages share:
  - the screen cascade;
  - the panel shape of one query;
  - the auto-select effect and the `selectedWallet` state (as a class).
- `PendingTransactions`, `Dashboard`, `ManageSigners`: the page-specific rules.
- `NetworkValidation`: the network hook's state record (a class) and
  `getNetworkName`.
- `CopyableAddress`: the copy button's state machine (a class) and its
  display mappings.

Conventions:

- Strings are `seq<char>`.
- A JavaScript `null`/`undefined` string that every guard treats as falsy
  is modelled as the empty string. This covers `selectedWallet`,
  `error.reason`, `error.message`, the created wallet address and the user
  address inside the hook.
- Where the source tells `undefined` apart from `""`, the model uses
  `Option`. Examples are the connected address in the "You" match and the
  chain id.
- Amounts (`value`, `balance`) are kept in wei as `nat`. Their ether
  formatting is floating point and is left out.
- A contract is the value `MultiSigOperations.WalletContract`:
  - `transactions(i)` succeeds exactly for `i < |transactions|`;
  - an absent map key means that read threw.

  So the `while (true)` enumeration terminates with no precondition.

## Model

| member | source | states |
|---|---|---|
| JsText.SliceHead | src/utils/web3.ts:38 | `slice(0, n)` yields a prefix of length min(n, length of s) |
| JsText.SliceTail | src/utils/web3.ts:38 | `slice(-n)` yields the last min(n, length of s) characters for n >= 1, and the whole string for n = 0 (as `slice(-0)` does) |
| JsText.TrimStart | src/pages/CreateWallet.tsx:95 | the result is a suffix, starts with a non-whitespace character (or is empty), and only whitespace was dropped |
| JsText.TrimEnd | src/pages/CreateWallet.tsx:95 | the result is a prefix, ends with a non-whitespace character (or is empty), and only whitespace was dropped |
| JsText.TrimEmptyIffBlank | src/pages/CreateWallet.tsx:95 | `s.trim() === ''` exactly when every character of `s` is ECMAScript whitespace |
| JsText.ToLower | src/pages/ManageSigners.tsx:192 | same length, each character lower-cased |
| JsText.ToLowerIdempotent | src/pages/ManageSigners.tsx:192 | lower-casing twice is lower-casing once |
| JsText.NatToString | src/pages/ManageSigners.tsx:187 | the rendering of a natural number is a non-empty string of digits |
| JsText.ParseNatToString | src/pages/ManageSigners.tsx:187 | parsing the decimal rendering gives the number back |
| JsText.NatToStringInjective | src/pages/ManageSigners.tsx:187 | different numbers render differently |
| JsText.IntToString | src/hooks/useNetworkValidation.ts:88 | a negative number renders as `-` followed by its magnitude |
| JsText.IntToStringInjective | src/hooks/useNetworkValidation.ts:88 | different integers render differently |
| Web3.FormatAddress | src/utils/web3.ts:36-39 | `""` gives `""`; otherwise the first `min(6,n)` characters, `...`, and the last `min(4,n)` characters |
| Web3.FormatAddressOfFullLength | src/utils/web3.ts:38 | a 42-character address is shown in 13 characters as `a[..6] + "..." + a[38..]` |
| Web3.HexRunToEndIff | src/utils/web3.ts:50 | `[a-fA-F0-9]{n}$` matches exactly the strings of `n` hex digits |
| Web3.IsValidAddressIff | src/utils/web3.ts:50 | valid iff the length is 42, the string starts with lower-case `0x`, and 40 hex digits (either case) follow |
| Web3.HexDigitIsNotWhitespace | src/utils/web3.ts:50 | no hex digit is whitespace |
| Web3.ValidAddressIsTrimmed | src/utils/web3.ts:50 | `trim` leaves a valid address unchanged |
| Web3.PaddedOrUpperPrefixRejected | src/utils/web3.ts:50 | leading or trailing whitespace, or an upper-case `0X`, is rejected |
| Web3.FormatAddressExample | src/components/ui/__tests__/CopyableAddress.test.tsx:26-30 | the test address formats as `0x1234...5678` |
| QueryClient.ClientErrorsAreNotRetried | src/utils/queryClient.ts:10-14 | a status in [400, 500) is never retried, whatever the failure count |
| QueryClient.OtherErrorsFollowCountRule | src/utils/queryClient.ts:10-16 | any other error (no status, 399, 500) is retried iff `failureCount < 3` |
| QueryClient.RetryBudget | src/utils/queryClient.ts:8-17 | a query that keeps failing is retried exactly 3 times, or 0 times on a 4xx |
| QueryClient.ShouldRetryMutation | src/utils/queryClient.ts:19-21 | mutations are never retried |
| QueryClient.QueryKey | src/utils/queryClient.ts:26-32 | each key reads back as the builder and the address it was built from |
| QueryClient.QueryKeysAreDistinct | src/utils/queryClient.ts:27-31 | two keys are equal iff they come from the same builder and the same address |
| MultiSigOperations.ErrorMessage | src/hooks/useMultiSigOperations.ts:21-26 | `reason` if truthy, else `message` if truthy, else the default; never empty when the default is not |
| MultiSigOperations.PendingFromProbes | src/hooks/useMultiSigOperations.ts:71-95 | the records from index `k` on are the successful probes `k, k+1, …` up to the first failing one |
| MultiSigOperations.PendingListSpec | src/hooks/useMultiSigOperations.ts:68-97 | record `i` has `index = i`, comes from the reads at `i` and has `canExecute` iff enough confirmations and not executed; `n` is the first failing index |
| MultiSigOperations.ExecutedIsNeverExecutable | src/hooks/useMultiSigOperations.ts:88 | no returned record is both executed and executable |
| MultiSigOperations.CompleteWhenAllReadsSucceed | src/hooks/useMultiSigOperations.ts:79-89 | when every read succeeds, one record per stored transaction is returned, executed ones included |
| MultiSigOperations.FailureAtZeroGivesEmptyList | src/hooks/useMultiSigOperations.ts:92-94 | a failure at index 0 yields the empty list, not an error |
| MultiSigOperations.ProbeTransactions | src/hooks/useMultiSigOperations.ts:67-97 | the `while (true)` loop returns the enumeration list and logs the requested indices as exactly 0, 1, …, n in order, where n is the first failing index (nothing is read past it) |
| MultiSigOperations.KeepTruthy | src/hooks/useMultiSigOperations.ts:39 | keeps exactly the successful, non-empty results |
| MultiSigOperations.KeepTruthyConcat | src/hooks/useMultiSigOperations.ts:39 | the filter distributes over concatenation, so index order is kept |
| MultiSigOperations.OwnerReads | src/hooks/useMultiSigOperations.ts:37-38 | exactly ten probes, slots 0 to 9, a failed one caught as null |
| MultiSigOperations.OwnersProbe | src/hooks/useMultiSigOperations.ts:36-40 | at most 10 owners; an owner is listed iff some slot returned it; `[]` without an `owners` accessor |
| MultiSigOperations.FailedReadsAreDropped | src/hooks/useMultiSigOperations.ts:38-39 | failed probes contribute nothing |
| MultiSigOperations.OwnersProbeExample | src/hooks/useMultiSigOperations.ts:36-39 | three owners in slots 0 to 2 and seven failing probes give those three owners, in order |
| MultiSigOperations.WalletInfoOf | src/hooks/useMultiSigOperations.ts:35-52 | succeeds iff the threshold, balance and (for a connected user) ownership reads succeed; the fields come from those reads and the owners probe |
| MultiSigOperations.MultiSigOperations.constructor | src/hooks/useMultiSigOperations.ts:18-19 | not loading, no error |
| MultiSigOperations.MultiSigOperations.HandleError | src/hooks/useMultiSigOperations.ts:21-26 | stores `ErrorMessage` and changes nothing else |
| MultiSigOperations.MultiSigOperations.GetPendingTransactions | src/hooks/useMultiSigOperations.ts:60-104 | without a contract or a user: `[]`, an empty probe log, state unchanged; otherwise the enumeration list with the probe log 0..n, error cleared, not loading |
| MultiSigOperations.MultiSigOperations.GetWalletInfo | src/hooks/useMultiSigOperations.ts:28-58 | without a contract, provider or wallet address: null, state unchanged; otherwise the summary, or null with the chosen error message |
| CreateWallet.DropBlankOwners | src/pages/CreateWallet.tsx:95 | keeps exactly the rows whose address is not blank after trimming |
| CreateWallet.DropBlankOwnersConcat | src/pages/CreateWallet.tsx:95 | the filter distributes over concatenation, so row order is kept |
| CreateWallet.OnSubmit | src/pages/CreateWallet.tsx:93-106 | "owners required" iff every row is blank; otherwise it submits the non-blank rows and the unchanged threshold |
| CreateWallet.OwnerAddresses | src/pages/CreateWallet.tsx:45 | `map(address).filter(Boolean)`: exactly the non-empty addresses |
| CreateWallet.AddressesOf | src/pages/CreateWallet.tsx:45 | `map(address)` keeps every row's address in order |
| CreateWallet.EmptyAddressIsBlank | src/pages/CreateWallet.tsx:95 | an empty row is blank |
| CreateWallet.NonEmptyRowsKeepAllAddresses | src/pages/CreateWallet.tsx:45 | when no address is empty, `filter(Boolean)` drops nothing |
| CreateWallet.SurvivorsForwardedUntrimmed | src/pages/CreateWallet.tsx:95-105 | every row surviving `onSubmit` reaches validation with its address untrimmed |
| CreateWallet.FirstInvalid | src/pages/CreateWallet.tsx:48-52 | the lowest index whose address is invalid, or none when all are valid |
| CreateWallet.SetSizeDetectsDuplicates | src/pages/CreateWallet.tsx:55-58 | `new Set(owners).size === owners.length` iff the owners are pairwise distinct (exact, case-sensitive) |
| CreateWallet.ValidationOutcomeSpec | src/pages/CreateWallet.tsx:45-63 | accepted iff all valid, distinct and 1 <= threshold <= number of owners, then with exactly those owners and that threshold; the first invalid address is reported before duplicates and threshold |
| CreateWallet.ValidateWalletParams | src/pages/CreateWallet.tsx:47-63 | the `for` loop and `Set` build compute exactly the validation outcome |
| CreateWallet.CreateWalletMutation | src/pages/CreateWallet.tsx:44-75 | factory called only after validation passes, with the validated parameters; an empty created address raises `Failed to create wallet` |
| CreateWallet.OwnerFieldError | src/pages/CreateWallet.tsx:149-155 | no error iff the field is blank or a valid address; otherwise `Invalid Ethereum address` |
| CreateWallet.OwnerFields.constructor | src/pages/CreateWallet.tsx:29-32 | one empty owner row |
| CreateWallet.OwnerFields.AddOwner | src/pages/CreateWallet.tsx:108-110 | appends one empty row at the end |
| CreateWallet.OwnerFields.RemoveOwner | src/pages/CreateWallet.tsx:112-116 | removes the row only when more than one exists, so at least one row always remains |
| CreateWallet.OwnerFields.ValidOwnersCount | src/pages/CreateWallet.tsx:118 | the number of owners the mutation receives after `onSubmit` drops blank rows (the count shown as "N owners"); zero iff submitting would report "owners required" |
| CreateWallet.OwnerFields.SubmitDisabled | src/pages/CreateWallet.tsx:263 | disabled iff creating, or every row is blank |
| CreateWallet.OwnerFields.ThresholdMax | src/pages/CreateWallet.tsx:206-213 | the valid-owner count, or exactly 1 when that count is 0 |
| CreateWallet.OwnerFields.ThresholdFieldMatchesRangeCheck | src/pages/CreateWallet.tsx:206-213 | with rows filled in and valid, distinct addresses, the mutation accepts a threshold iff it lies in the field's bounds 1 to ThresholdMax |
| CreateTransaction.CallData | src/pages/CreateTransaction.tsx:78 | empty data becomes `0x`; non-empty data is forwarded unchanged |
| CreateTransaction.SubmitChecks | src/pages/CreateTransaction.tsx:61-79 | wallet checked first, then recipient, then amount; on success it forwards the recipient, the amount and the call data |
| CreateTransaction.SubmitMutation | src/pages/CreateTransaction.tsx:61-86 | submits only when the guards pass; a false answer raises `Failed to submit transaction` |
| CreateTransaction.SubmittedParamsAreWellFormed | src/pages/CreateTransaction.tsx:62-79 | whatever is submitted has a valid recipient and non-empty data; without a wallet nothing is submitted |
| CreateTransaction.RecipientFieldError | src/pages/CreateTransaction.tsx:207-215 | no error iff the address is valid; empty gives the required message |
| CreateTransaction.CreateTransactionPage.constructor | src/pages/CreateTransaction.tsx:22-38 | nothing selected, default form values |
| CreateTransaction.CreateTransactionPage.HandleWalletSelect | src/pages/CreateTransaction.tsx:107-110 | selection and the form's `walletAddress` become the same value; other fields unchanged |
| TransactionCard.Status | src/components/wallet/TransactionCard.tsx:25-33 | Executed iff executed; Ready iff not executed and executable; otherwise Pending |
| TransactionCard.BadgesAreDistinguishable | src/components/wallet/TransactionCard.tsx:25-33 | each status has its own label and its own variant |
| TransactionCard.Preview | src/components/wallet/TransactionCard.tsx:67-75 | shown iff data is non-empty and not `0x`; a prefix of length `min(100, n)`, with `...` iff `n > 100` |
| TransactionCard.ViewCard | src/components/wallet/TransactionCard.tsx:95-129 | action area iff unexecuted; Confirm iff unconfirmed with a handler; Execute iff executable with a handler; waiting iff confirmed and not executable |
| TransactionCard.ExecutedCardHasNoControls | src/components/wallet/TransactionCard.tsx:95 | an executed transaction shows no control at all |
| TransactionCard.WaitingExcludesButtons | src/components/wallet/TransactionCard.tsx:97-127 | the waiting note never appears together with either button |
| TransactionCard.ReadyBadgeMatchesThreshold | src/components/wallet/TransactionCard.tsx:29-31 | for enumerated records, "Ready to Execute" iff confirmations reach the threshold and not executed, and then Execute shows |
| WalletPages.ScreenOf | src/pages/Dashboard.tsx:58-105 | not connected, then loading, then wallets error, then no wallets, then the main view, each exactly in its case |
| WalletPages.ScreenIgnoringWalletsError | src/pages/PendingTransactions.tsx:68-107 | the same cascade without an error screen |
| WalletPages.FailedWalletQueryShowsNoWallets | src/pages/ManageSigners.tsx:42-73 | without an error branch, a failed wallet query shows "No wallets found"; the dashboard shows the error |
| WalletPages.ErrorText | src/pages/PendingTransactions.tsx:177-179 | an `Error`'s message, otherwise the fallback text |
| WalletPages.WalletInfoPanel | src/pages/Dashboard.tsx:159-172 | loading, else error, else the summary when present, else nothing |
| WalletPages.AutoSelected | src/pages/Dashboard.tsx:52-56 | the first wallet only when nothing is selected; a selection is never overwritten |
| WalletPages.AutoSelectSettles | src/pages/PendingTransactions.tsx:62-66 | re-running the effect changes nothing |
| WalletPages.AutoSelectKeepsListedSelection | src/pages/ManageSigners.tsx:36-40 | the selection stays empty or one of the listed wallets |
| WalletPages.MainViewGetsSelection | src/pages/PendingTransactions.tsx:62-107 | once the main view is reached, the effect leaves a wallet selected |
| WalletPages.WalletSelector.constructor | src/pages/Dashboard.tsx:12 | nothing selected initially |
| WalletPages.WalletSelector.AutoSelect | src/pages/ManageSigners.tsx:36-40 | the new selection is `AutoSelected` of the old one |
| WalletPages.WalletSelector.Select | src/pages/Dashboard.tsx:143 | a click selects that wallet |
| PendingTransactions.Unexecuted | src/pages/PendingTransactions.tsx:195-196 | exactly the unexecuted records, never more than fetched |
| PendingTransactions.UnexecutedConcat | src/pages/PendingTransactions.tsx:195-196 | the filter distributes over concatenation, so fetched order is kept |
| PendingTransactions.UnexecutedEmptyWhenAllExecuted | src/pages/PendingTransactions.tsx:196 | an all-executed list filters to nothing |
| PendingTransactions.UnexecutedKeepsAllWhenNoneExecuted | src/pages/PendingTransactions.tsx:196 | a list with nothing executed is kept whole |
| PendingTransactions.TransactionsPanel | src/pages/PendingTransactions.tsx:166-210 | hidden without a selection; then loading, error, empty message iff the fetched list is empty, else the unexecuted cards |
| PendingTransactions.AllExecutedShowsNothing | src/pages/PendingTransactions.tsx:181-196 | a non-empty, fully executed list shows neither a card nor the empty message |
| PendingTransactions.IntendedTransactionsPanel | src/pages/PendingTransactions.tsx:181-196 | corrected section: the message iff nothing unexecuted is left, so the card list is never empty |
| PendingTransactions.IntendedPanelDiffersOnlyWhenAllExecuted | src/pages/PendingTransactions.tsx:181-196 | the two sections agree unless the list is non-empty and fully executed |
| PendingTransactions.PendingCard | src/pages/PendingTransactions.tsx:198-207 | buttons disabled iff either mutation is pending; both handlers given |
| PendingTransactions.ListedCardsShowActions | src/pages/PendingTransactions.tsx:195-207 | every rendered card has its action area and is not marked Executed |
| PendingTransactions.ConfirmInvalidates | src/pages/PendingTransactions.tsx:41-45 | only the selected wallet's transactions key |
| PendingTransactions.ExecuteInvalidates | src/pages/PendingTransactions.tsx:51-58 | the selected wallet's transactions and walletInfo keys |
| PendingTransactions.InvalidationScopes | src/pages/PendingTransactions.tsx:39-59 | confirm never invalidates walletInfo; execute covers confirm's keys; no user-wallets key is touched |
| PendingTransactions.InvalidationLog.OnConfirmSuccess | src/pages/PendingTransactions.tsx:41-45 | appends the confirm keys to the invalidation log |
| PendingTransactions.InvalidationLog.OnExecuteSuccess | src/pages/PendingTransactions.tsx:51-58 | appends the execute keys to the invalidation log |
| Dashboard.DashboardScreen | src/pages/Dashboard.tsx:58-105 | the wallets-error screen appears iff connected, loaded and the wallet query failed |
| Dashboard.WalletsErrorText | src/pages/Dashboard.tsx:79-85 | the error's message, otherwise `Failed to load wallets` |
| Dashboard.RecentPanel | src/pages/Dashboard.tsx:187-209 | "No pending transactions" iff the list is empty with no loading or error; otherwise the first three records |
| Dashboard.RecentIsUnfilteredPrefix | src/pages/Dashboard.tsx:202 | 1 to 3 records, a prefix of the fetched list, unfiltered, whole when 3 or fewer |
| Dashboard.RecentCard | src/pages/Dashboard.tsx:203-206 | no handlers, so no Confirm or Execute button and never disabled |
| ManageSigners.OwnerLabel | src/pages/ManageSigners.tsx:187 | `Owner #` followed by the decimal `index + 1` |
| ManageSigners.OwnerLabelsDistinct | src/pages/ManageSigners.tsx:173-187 | positions and labels correspond one to one |
| ManageSigners.IsYouIgnoresCase | src/pages/ManageSigners.tsx:192 | case on either side does not matter; the user's own address matches; never without a connected address |
| ManageSigners.Details | src/pages/ManageSigners.tsx:173-243 | one row per owner in order, with formatted address, number and "You" flag; the notice iff not an owner |
| ManageSigners.AtMostOneYou | src/pages/ManageSigners.tsx:192 | when owners differ ignoring case, at most one row is marked "You" |
| ManageSigners.NoticeFollowsOwnershipRead | src/pages/ManageSigners.tsx:233 | for a fetched summary, the notice appears iff no user is connected or the ownership read said no |
| ManageSigners.SignerPanel | src/pages/ManageSigners.tsx:116-248 | the summary cascade with the signer details as content |
| NetworkValidation.StoredChainId | src/hooks/useNetworkValidation.ts:27 | an absent or zero chain id is stored as null; any other one unchanged |
| NetworkValidation.NetworkName | src/hooks/useNetworkValidation.ts:75-90 | null or 0 gives `Unknown`; the four known ids get their names; any other id gives `Chain <id>` |
| NetworkValidation.GenericNameIsNotFixed | src/hooks/useNetworkValidation.ts:87-88 | `Chain <id>` never starts like a fixed name or `Unknown` |
| NetworkValidation.NetworkNameInjective | src/hooks/useNetworkValidation.ts:75-90 | different non-zero ids get different names |
| NetworkValidation.NetworkValidator.constructor | src/hooks/useNetworkValidation.ts:17-23 | invalid, no chain, not loading, no error; required chain is Sepolia |
| NetworkValidation.NetworkValidator.ValidateNetwork | src/hooks/useNetworkValidation.ts:26-36 | valid iff the chain is 11155111; falsy id stored as null; error cleared; loading untouched |
| NetworkValidation.NetworkValidator.SwitchToSepolia | src/hooks/useNetworkValidation.ts:39-72 | result is true iff switching is available and succeeds; unavailable sets its error and keeps loading; success raises loading and clears the error; failure clears loading and stores the thrown message or `Failed to switch network` |
| NetworkValidation.NetworkValidator.SwitchSettled | src/hooks/useNetworkValidation.ts:54-56 | the deferred reset clears only `isLoading` |
| NetworkValidation.NetworkValidator.ClearError | src/hooks/useNetworkValidation.ts:93-95 | only the error changes |
| NetworkValidation.NetworkValidator.CurrentNetworkName | src/hooks/useNetworkValidation.ts:111 | `getNetworkName` of the stored chain: `Sepolia Testnet` whenever the network is valid, `Unknown` without a chain, the full name mapping otherwise |
| NetworkValidation.NetworkValidator.RequiredNetworkName | src/hooks/useNetworkValidation.ts:112 | always `Sepolia Testnet` |
| NetworkValidation.SuccessfulSwitchScenario | src/hooks/useNetworkValidation.ts:49-57 | a successful switch returns true and raises loading; the deferred reset lowers it; Sepolia is then valid and named `Sepolia Testnet` |
| CopyableAddress.DisplayAddress | src/components/ui/CopyableAddress.tsx:54 | `formatAddress(address)` when truncating, else the full address |
| CopyableAddress.LabelOr | src/components/ui/CopyableAddress.tsx:135 | a missing or empty label falls back |
| CopyableAddress.Title | src/components/ui/CopyableAddress.tsx:126-137 | `Copying...`, `Copied!`, `Failed to copy`, or `Copy <label or "address">` |
| CopyableAddress.TitleSignature | src/components/ui/CopyableAddress.tsx:126-137 | three character positions identify each title's state |
| CopyableAddress.TitleIdentifiesState | src/components/ui/CopyableAddress.tsx:126-137 | for any label, two titles are equal iff their states are |
| CopyableAddress.Variant | src/components/ui/CopyableAddress.tsx:115-124 | `success` iff success, `destructive` iff error, `ghost` otherwise |
| CopyableAddress.Disabled | src/components/ui/CopyableAddress.tsx:157 | disabled iff copying, and then the ghost variant |
| CopyableAddress.Announcement | src/components/ui/CopyableAddress.tsx:171-174 | the screen-reader text for success and error, nothing otherwise |
| CopyableAddress.RenderingExamples | src/components/ui/__tests__/CopyableAddress.test.tsx:26-36 | the test address displays as `0x1234...5678` truncated, in full otherwise; `label` gives `Copy wallet address` |
| CopyableAddress.CopyButton.constructor | src/components/ui/CopyableAddress.tsx:41-52 | idle, nothing written, `onCopy` not called; without the `onCopy` prop no call is ever logged |
| CopyableAddress.CopyButton.CopyToClipboard | src/components/ui/CopyableAddress.tsx:56-91 | empty address: nothing changes; otherwise the full address is written and the button passes through copying. A write that throws ends in error with no call. Otherwise `onCopy`, when given, is called once with the full address, and the button ends in success unless that call threw, in which case it ends in error |
| CopyableAddress.CopyButton.HandleKeyDown | src/components/ui/CopyableAddress.tsx:93-98 | only Enter and Space copy, with the same outcomes as a click; any other key, or either of them on an empty address, changes nothing |
| CopyableAddress.CopyButton.ResetTimerFired | src/components/ui/CopyableAddress.tsx:82-89 | the reset returns the button to idle and nothing else changes |
| CopyableAddress.CopyButton.DisplayedText | src/components/ui/CopyableAddress.tsx:148 | the displayed text of this instance |
| CopyableAddress.CopyButton.ButtonTitle | src/components/ui/CopyableAddress.tsx:158 | the title of the current state |
| CopyableAddress.CopyScenarios | src/components/ui/__tests__/CopyableAddress.test.tsx:51-121 | the test scenarios as events: a click writes the full address and shows `Copied!` with one `onCopy` call; a failing click shows `Failed to copy` without a call; another key writes nothing and Enter copies; an empty address never writes; without the prop nothing is called; a throwing `onCopy` ends in `Failed to copy` after the call |

The classes keep these invariants in their `Valid()` predicates:

- `CopyButton`: every clipboard write and every `onCopy` call carries the
  full address, and there are never more `onCopy` calls than writes.
- `NetworkValidator`: `isValidNetwork` always agrees with the stored chain
  id.
- `OwnerFields`: at least one owner row.
- `CreateTransactionPage`: the selection and the form's `walletAddress` agree.

`MultiSigOperations.ProbeTransactions` is specified by `PendingList`, and the
lemmas above are proved about `PendingList`. Likewise,
`CreateWallet.ValidateWalletParams` is specified by `ValidationOutcome`.

Several predicates and functions model source lines directly and carry no
contract of their own. The lemma rows above specify them:

- `QueryClient.ShouldRetry` models the `retry` option
  (src/utils/queryClient.ts:10-16). It is specified by
  `ClientErrorsAreNotRetried`, `OtherErrorsFollowCountRule` and
  `RetryBudget`.
- `Web3.IsValidAddress` models the regex of src/utils/web3.ts:49-51. It is
  specified by `IsValidAddressIff`, `ValidAddressIsTrimmed` and
  `PaddedOrUpperPrefixRejected`.
- `JsText.Trim` is `String.prototype.trim` (src/pages/CreateWallet.tsx:95).
  It is `TrimEnd` after `TrimStart`, specified by those two functions and by
  `TrimEmptyIffBlank`.
- `ManageSigners.IsYou` models the "You" comparison
  (src/pages/ManageSigners.tsx:192). It is specified by `IsYouIgnoresCase`
  and `AtMostOneYou`.
- `TransactionCard.BadgeLabel` and `TransactionCard.BadgeVariant` model the
  label and variant of `getStatusBadge`
  (src/components/wallet/TransactionCard.tsx:25-33). They are specified by
  `BadgesAreDistinguishable`.

## Left out

- `formatEther`, `parseEther` and the ether strings in the records: floating
  point. Amounts stay in wei.
- The percentage bars on the card and on the signer page: floating point.
- CreateTransaction.SubmitChecks: the amount check (`parseEther` plus the
  `< 0` test) is not computed. Its outcome is the input `valueRejection`,
  because it works on floating point and `BigInt` conversion errors.
- CreateWallet: the threshold is an `int`. A `NaN` or fractional threshold
  from a number input is not modelled.
- Contract writes are thin wrappers over ethers that are not part of this
  model: `createWallet` (with its `WalletCreated` log parsing),
  `submitTransaction`, `confirmTransaction`, `executeTransaction` and
  `getUserWallets`. Their answers are inputs: the created address, the
  submit result.
- `useWallet`, `useContract` and the appKit setup are not part of this model.
  Connection state, addresses and the presence of a contract or provider are
  inputs.
- `Promise.all` concurrency:
  - The owners probe is a sequence of results in index order.
  - When several reads of `getWalletInfo` fail, the model reports the first
    in the order of the `Promise.all` array.
  - Inside `getPendingTransactions` all three reads of an index are treated
    together: any failure ends the loop.
- The outer `catch` of `getPendingTransactions` is left out: the inner
  `catch` absorbs every read failure, so it cannot be reached from the reads
  modelled here.
- Timers are modelled as explicit events (`ResetTimerFired`,
  `SwitchSettled`), not elapsed time. A pending timer that fires after a
  later copy has started is one such event at that point.
- The copy is atomic between events. The in-flight copying state is recorded
  in `history` but is never the state between two events, so overlapping
  copies are not modelled.
- CopyableAddress.CopyButton.CopyToClipboard: the clipboard API and the
  `execCommand` fallback are one outcome, `writeDidNotThrow`. A fallback
  whose `execCommand('copy')` returns false still counts as success, as in
  the source, so the model does not say whether the clipboard really
  changed. The two reset delays (2 s after success, 3 s after an error,
  including an error raised by `onCopy`) are both `ResetTimerFired`.
- The DOM, `console.error`, navigation, `window.open` and scrolling.
- react-query caching, stale times and refetch intervals. Only the key
  builders, the retry predicate and the invalidation calls are modelled.
- react-hook-form internals. The validators are functions of the field
  value.
- `toLowerCase` is modelled on ASCII letters only. Addresses are ASCII.
- Landing sections, header, sidebar, layout, routing, button/badge/alert
  style variants, the ABI and type files, NetworkAlert and
  FaucetNotification: presentation or declarations only.

## Findings

| source | as written | input that shows it | evidently intended | confidence | as-written member | corrected member |
|---|---|---|---|---|---|---|
| src/pages/PendingTransactions.tsx:181-196 | the empty-state test looks at the unfiltered list, but only unexecuted transactions get cards | a selected wallet whose fetched list is one executed transaction: no card and no message, an empty section | the message ("All transactions have been executed or there are no pending transactions") whenever no unexecuted transaction is left | medium, not executed | PendingTransactions.AllExecutedShowsNothing | PendingTransactions.IntendedTransactionsPanel |
