/**
 * The read side of the multi-signature wallet hook: enumerating a wallet's
 * transactions by probing indices 0, 1, 2, ... until a read fails, probing
 * the first ten owner slots, assembling the wallet summary, and turning a
 * caught error into the message the hook stores.
 *
 * The remote contract is a value: every read the hook issues either
 * succeeds with a value or throws, and which one happens is fixed by the
 * `WalletContract` it is given.
 */
module MultiSigOperations {
  import opened Wrappers

  /**
   * A value caught by a `catch`: its `reason` and `message` properties, each
   * `""` when missing (a missing and an empty property are both falsy).
   */
  datatype Thrown = Thrown(reason: string, message: string)

  /**
   * `handleError`'s choice of message: the error's `reason` if it is truthy,
   * else its `message` if that is truthy, else the caller's default.
   */
  function ErrorMessage(error: Thrown, defaultMessage: string): (r: string)
    ensures r == error.reason || r == error.message || r == defaultMessage
    ensures error.reason != "" ==> r == error.reason
    ensures error.reason == "" && error.message != "" ==> r == error.message
    ensures error.reason == "" && error.message == "" ==> r == defaultMessage
    ensures defaultMessage != "" ==> r != ""
  {
    if error.reason != "" then error.reason
    else if error.message != "" then error.message
    else defaultMessage
  }

  /** One entry of the contract's `transactions` array, as the contract returns it. */
  datatype RawTransaction = RawTransaction(
    to: string, value: nat, data: string, executed: bool, numConfirmations: nat)

  /** The record the hook builds for each transaction it finds (`value` kept in wei). */
  datatype PendingTransaction = PendingTransaction(
    index: nat,
    to: string,
    value: nat,
    data: string,
    executed: bool,
    confirmations: nat,
    threshold: nat,
    isConfirmedByUser: bool,
    canExecute: bool)

  /** The wallet summary returned by `getWalletInfo` (`balance` kept in wei). */
  datatype WalletInfo = WalletInfo(
    address: string, owners: seq<string>, threshold: nat, balance: nat, isOwner: bool)

  /**
   * What every read of one deployed wallet contract returns, for a fixed
   * connected user:
   *  - `transactions(i)` succeeds iff `i < |transactions|`;
   *  - `confirmations(i, user)` during the probe of index `i`: absent key = the call throws;
   *  - `threshold()` as read during the probe of index `i`: absent key = the call throws;
   *  - `owners(i)`: absent key = the call throws; `hasOwnersAccessor` is false when the
   *    contract object has no `owners` member at all;
   *  - `threshold()`, `getBalance` and `isOwner(user)` as read by `getWalletInfo`.
   */
  datatype WalletContract = WalletContract(
    transactions: seq<RawTransaction>,
    userConfirmed: map<nat, bool>,
    thresholdDuringProbe: map<nat, nat>,
    hasOwnersAccessor: bool,
    owners: map<nat, string>,
    threshold: Result<nat, Thrown>,
    balance: Result<nat, Thrown>,
    userIsOwner: Result<bool, Thrown>)

  /** A transaction may be executed once it has enough confirmations and has not run yet. */
  predicate CanExecute(confirmations: nat, threshold: nat, executed: bool)
  {
    confirmations >= threshold && !executed
  }

  /**
   * The outcome of probing index `i`: the record the loop pushes, or `None`
   * when the transaction read, the confirmation read or the threshold read
   * throws.
   */
  function ProbeAt(c: WalletContract, i: nat): Option<PendingTransaction>
  {
    if i < |c.transactions| && i in c.userConfirmed && i in c.thresholdDuringProbe then
      var tx := c.transactions[i];
      var threshold := c.thresholdDuringProbe[i];
      Some(PendingTransaction(
        i, tx.to, tx.value, tx.data, tx.executed, tx.numConfirmations, threshold,
        c.userConfirmed[i], CanExecute(tx.numConfirmations, threshold, tx.executed)))
    else None
  }

  /** The records found by probing from index `from` on until the first failing probe. */
  function PendingFrom(c: WalletContract, from: nat): seq<PendingTransaction>
    decreases |c.transactions| - from
  {
    match ProbeAt(c, from)
    case None => []
    case Some(tx) => [tx] + PendingFrom(c, from + 1)
  }

  /** The list `getPendingTransactions` returns for a connected user. */
  function PendingList(c: WalletContract): seq<PendingTransaction>
  {
    PendingFrom(c, 0)
  }

  lemma {:induction false} PendingFromProbes(c: WalletContract, from: nat)
    ensures var r := PendingFrom(c, from);
      && (forall i :: 0 <= i < |r| ==> ProbeAt(c, from + i) == Some(r[i]))
      && ProbeAt(c, from + |r|).None?
    decreases |c.transactions| - from
  {
    if ProbeAt(c, from).Some? {
      PendingFromProbes(c, from + 1);
    }
  }

  /**
   * What the enumeration returns: its length `n` is the first index whose
   * probe fails; the record at position `i` is the one built for index `i`
   * (so the indices are exactly 0..n-1 in order), executed transactions are
   * kept, and `canExecute` holds iff there are enough confirmations and the
   * transaction has not been executed.
   */
  lemma PendingListSpec(c: WalletContract)
    ensures var r := PendingList(c);
      && |r| <= |c.transactions|
      && ProbeAt(c, |r|).None?
      && forall i :: 0 <= i < |r| ==>
        && ProbeAt(c, i) == Some(r[i])
        && r[i].index == i
        && r[i].executed == c.transactions[i].executed
        && r[i].isConfirmedByUser == c.userConfirmed[i]
        && r[i].threshold == c.thresholdDuringProbe[i]
        && (r[i].canExecute <==> r[i].confirmations >= r[i].threshold && !r[i].executed)
  {
    var r := PendingList(c);
    PendingFromProbes(c, 0);
    if |r| > 0 {
      assert ProbeAt(c, |r| - 1) == Some(r[|r| - 1]);
    }
  }

  /** No record the enumeration returns is both executed and executable. */
  lemma ExecutedIsNeverExecutable(c: WalletContract, i: nat)
    requires i < |PendingList(c)|
    ensures PendingList(c)[i].executed ==> !PendingList(c)[i].canExecute
  {
    PendingListSpec(c);
  }

  /**
   * When every transaction's confirmation and threshold reads succeed, the
   * enumeration returns one record per stored transaction, executed ones
   * included: filtering is left to the pages.
   */
  lemma CompleteWhenAllReadsSucceed(c: WalletContract)
    requires forall i :: 0 <= i < |c.transactions| ==> i in c.userConfirmed && i in c.thresholdDuringProbe
    ensures |PendingList(c)| == |c.transactions|
    ensures forall i :: 0 <= i < |c.transactions| ==>
      PendingList(c)[i].executed == c.transactions[i].executed
  {
    PendingListSpec(c);
  }

  /** A failure at index 0 yields an empty list, not an error. */
  lemma FailureAtZeroGivesEmptyList(c: WalletContract)
    requires ProbeAt(c, 0).None?
    ensures PendingList(c) == []
  {
  }

  /**
   * The `while (true)` loop of `getPendingTransactions`: read transaction
   * `index`, then the user's confirmation and the threshold, push the
   * record and move on; stop at the first read that throws. `probes` logs,
   * in order, every index whose transaction is requested.
   */
  method ProbeTransactions(c: WalletContract) returns (txs: seq<PendingTransaction>, probes: seq<nat>)
    ensures txs == PendingList(c)
    ensures |probes| == |txs| + 1
    ensures forall k :: 0 <= k < |probes| ==> probes[k] == k
    ensures forall i :: 0 <= i < |txs| ==> txs[i].index == i && ProbeAt(c, i) == Some(txs[i])
    ensures ProbeAt(c, |txs|).None?
  {
    txs := [];
    probes := [];
    var index: nat := 0;
    while true
      invariant index == |txs| <= |c.transactions|
      invariant |probes| == index && forall k :: 0 <= k < |probes| ==> probes[k] == k
      invariant forall i :: 0 <= i < index ==> txs[i].index == i && ProbeAt(c, i) == Some(txs[i])
      invariant PendingList(c) == txs + PendingFrom(c, index)
      decreases |c.transactions| - index
    {
      probes := probes + [index];
      if index >= |c.transactions| {
        break;
      }
      var tx := c.transactions[index];
      if index !in c.userConfirmed || index !in c.thresholdDuringProbe {
        break;
      }
      var isConfirmed := c.userConfirmed[index];
      var threshold := c.thresholdDuringProbe[index];
      txs := txs + [PendingTransaction(
        index, tx.to, tx.value, tx.data, tx.executed, tx.numConfirmations, threshold,
        isConfirmed, tx.numConfirmations >= threshold && !tx.executed)];
      index := index + 1;
    }
  }

  /** The number of owner slots `getWalletInfo` reads. */
  const OwnerSlots: nat := 10

  /** `owners(i).catch(() => null)`. */
  function OwnerRead(c: WalletContract, i: nat): Option<string>
  {
    if i in c.owners then Some(c.owners[i]) else None
  }

  /** `filter(Boolean)` over owner reads: drops failed reads and empty strings, keeps the order. */
  function KeepTruthy(results: seq<Option<string>>): (r: seq<string>)
    ensures |r| <= |results|
    ensures forall x :: x in r <==> x != "" && Some(x) in results
  {
    if results == [] then []
    else
      var rest := KeepTruthy(results[1..]);
      assert results == [results[0]] + results[1..];
      if results[0].Some? && results[0].value != "" then [results[0].value] + rest else rest
  }

  lemma {:induction false} KeepTruthyConcat(a: seq<Option<string>>, b: seq<Option<string>>)
    ensures KeepTruthy(a + b) == KeepTruthy(a) + KeepTruthy(b)
    decreases |a|
  {
    if a != [] {
      assert (a + b)[1..] == a[1..] + b;
      KeepTruthyConcat(a[1..], b);
    } else {
      assert a + b == b;
    }
  }

  /** The results of the ten owner probes, in index order. */
  function OwnerReads(c: WalletContract): (r: seq<Option<string>>)
    ensures |r| == OwnerSlots
    ensures forall i :: 0 <= i < OwnerSlots ==> r[i] == OwnerRead(c, i)
  {
    seq(OwnerSlots, i requires 0 <= i => OwnerRead(c, i))
  }

  /**
   * The owners part of `getWalletInfo`: all ten slots are probed, a failing
   * slot does not stop the later ones, and the owners are the truthy
   * results in slot order; with no `owners` member the list is empty.
   */
  function OwnersProbe(c: WalletContract): (r: seq<string>)
    ensures |r| <= OwnerSlots
    ensures c.hasOwnersAccessor ==> r == KeepTruthy(OwnerReads(c))
    ensures !c.hasOwnersAccessor ==> r == []
    ensures forall x :: x in r <==>
      c.hasOwnersAccessor && x != "" && exists i :: 0 <= i < OwnerSlots && OwnerRead(c, i) == Some(x)
  {
    if c.hasOwnersAccessor then KeepTruthy(OwnerReads(c)) else []
  }

  /**
   * `getWalletInfo` once its guard has passed: the threshold, balance and
   * membership reads all have to succeed (the membership read is skipped,
   * and `isOwner` is false, when no user is connected). When several fail,
   * the model reports the first in `Promise.all` order.
   */
  function WalletInfoOf(c: WalletContract, walletAddress: string, userAddress: string): (r: Result<WalletInfo, Thrown>)
    ensures r.Success? <==>
      c.threshold.Success? && c.balance.Success? && (userAddress != "" ==> c.userIsOwner.Success?)
    ensures r.Success? ==>
      && r.value.address == walletAddress
      && r.value.owners == OwnersProbe(c)
      && r.value.threshold == c.threshold.value
      && r.value.balance == c.balance.value
      && r.value.isOwner == (userAddress != "" && c.userIsOwner.value)
  {
    if c.threshold.Failure? then Failure(c.threshold.error)
    else if c.balance.Failure? then Failure(c.balance.error)
    else if userAddress != "" && c.userIsOwner.Failure? then Failure(c.userIsOwner.error)
    else
      var isOwner := if userAddress != "" then c.userIsOwner.value else false;
      Success(WalletInfo(walletAddress, OwnersProbe(c), c.threshold.value, c.balance.value, isOwner))
  }

  lemma {:induction false} FailedReadsAreDropped(results: seq<Option<string>>)
    requires forall i :: 0 <= i < |results| ==> results[i].None?
    ensures KeepTruthy(results) == []
    decreases |results|
  {
    if results != [] {
      FailedReadsAreDropped(results[1..]);
    }
  }

  /** The concrete owner scenario: three owners, reads throw from slot 3 on. */
  lemma OwnersProbeExample(c: WalletContract)
    requires c.hasOwnersAccessor
    requires c.owners == map[0 := "0xOWNER0", 1 := "0xOWNER1", 2 := "0xOWNER2"]
    ensures OwnersProbe(c) == ["0xOWNER0", "0xOWNER1", "0xOWNER2"]
  {
    var results := OwnerReads(c);
    var found := results[..3];
    assert found == [Some("0xOWNER0"), Some("0xOWNER1"), Some("0xOWNER2")];
    assert KeepTruthy(found[2..]) == ["0xOWNER2"];
    assert KeepTruthy(found[1..]) == ["0xOWNER1", "0xOWNER2"];
    FailedReadsAreDropped(results[3..]);
    assert results == found + results[3..];
    KeepTruthyConcat(found, results[3..]);
  }

  /**
   * The state of the hook (`isLoading`, `error`) and the inputs its reads
   * depend on: whether a contract object and a provider exist, the wallet
   * address and the connected user's address (`""` when absent).
   */
  class MultiSigOperations {
    var isLoading: bool
    var error: Option<string>
    const hasContract: bool
    const hasProvider: bool
    const walletAddress: string
    const userAddress: string

    constructor (hasContract: bool, hasProvider: bool, walletAddress: string, userAddress: string)
      ensures !isLoading && error == None
      ensures this.hasContract == hasContract && this.hasProvider == hasProvider
      ensures this.walletAddress == walletAddress && this.userAddress == userAddress
    {
      isLoading := false;
      error := None;
      this.hasContract := hasContract;
      this.hasProvider := hasProvider;
      this.walletAddress := walletAddress;
      this.userAddress := userAddress;
    }

    /** `handleError`: store the chosen message; the caller then returns null. */
    method HandleError(e: Thrown, defaultMessage: string)
      modifies this`error
      ensures error == Some(ErrorMessage(e, defaultMessage))
    {
      error := Some(ErrorMessage(e, defaultMessage));
    }

    /**
     * `getPendingTransactions`: without a contract or a connected user it
     * returns `[]` and reads nothing; otherwise it clears the error, runs the
     * probe loop and ends with `isLoading` false.
     */
    method GetPendingTransactions(c: WalletContract) returns (txs: seq<PendingTransaction>, probes: seq<nat>)
      modifies this`isLoading, this`error
      ensures !hasContract || userAddress == "" ==>
        txs == [] && probes == [] && isLoading == old(isLoading) && error == old(error)
      ensures hasContract && userAddress != "" ==>
        && txs == PendingList(c) && !isLoading && error == None
        && |probes| == |txs| + 1 && (forall k :: 0 <= k < |probes| ==> probes[k] == k)
    {
      if !hasContract || userAddress == "" {
        return [], [];
      }
      isLoading := true;
      error := None;
      txs, probes := ProbeTransactions(c);
      isLoading := false;
    }

    /**
     * `getWalletInfo`: without a contract, a provider or a wallet address it
     * returns null and touches nothing; otherwise the summary, or null with
     * the error message stored when one of the reads throws.
     */
    method GetWalletInfo(c: WalletContract) returns (info: Option<WalletInfo>)
      modifies this`isLoading, this`error
      ensures !hasContract || !hasProvider || walletAddress == "" ==>
        info == None && isLoading == old(isLoading) && error == old(error)
      ensures hasContract && hasProvider && walletAddress != "" ==>
        var r := WalletInfoOf(c, walletAddress, userAddress);
        && !isLoading
        && (r.Success? ==> info == Some(r.value) && error == None)
        && (r.Failure? ==> info == None && error == Some(ErrorMessage(r.error, "Failed to fetch wallet info")))
    {
      if !hasContract || !hasProvider || walletAddress == "" {
        return None;
      }
      isLoading := true;
      error := None;
      var r := WalletInfoOf(c, walletAddress, userAddress);
      if r.Success? {
        info := Some(r.value);
      } else {
        HandleError(r.error, "Failed to fetch wallet info");
        info := None;
      }
      isLoading := false;
    }
  }
}
