/**
 * The shared query client: when a failed query is retried, that mutations are
 * never retried, and the cache keys every page uses to read and invalidate
 * remote data.
 */
module QueryClient {
  import opened Wrappers

  /** Highest failure count after which queries stop retrying. */
  const MaxFailuresRetried: nat := 3

  predicate IsClientErrorStatus(status: int)
  {
    400 <= status < 500
  }

  /**
   * The query `retry` callback. `status` is the error's numeric `status`
   * property, `None` when the error is not an object or has no such property.
   */
  predicate ShouldRetry(failureCount: nat, status: Option<int>)
  {
    if status.Some? && IsClientErrorStatus(status.value) then false
    else failureCount < MaxFailuresRetried
  }

  /** A 4xx status is never retried, whatever the failure count. */
  lemma ClientErrorsAreNotRetried(failureCount: nat, status: int)
    requires 400 <= status < 500
    ensures !ShouldRetry(failureCount, Some(status))
  {
  }

  /**
   * Any other error (no status, 399, 500, ...) falls through to the count rule:
   * it is retried exactly while fewer than three failures have been seen.
   */
  lemma OtherErrorsFollowCountRule(failureCount: nat, status: Option<int>)
    requires status.None? || !IsClientErrorStatus(status.value)
    ensures ShouldRetry(failureCount, status) <==> failureCount < 3
  {
  }

  /**
   * How many retries react-query performs in a row when every attempt fails
   * with the same error, starting from the failure count `failureCount`.
   */
  function RetriesFrom(status: Option<int>, failureCount: nat): nat
    decreases MaxFailuresRetried - failureCount
  {
    if ShouldRetry(failureCount, status) then 1 + RetriesFrom(status, failureCount + 1) else 0
  }

  /** A query that keeps failing is retried three times, or not at all on a 4xx error. */
  lemma {:induction false} RetryBudget(status: Option<int>)
    ensures RetriesFrom(status, 0) == if status.Some? && IsClientErrorStatus(status.value) then 0 else 3
  {
    assert RetriesFrom(status, 3) == 0;
    assert RetriesFrom(status, 2) == (if ShouldRetry(2, status) then 1 else 0);
    assert RetriesFrom(status, 1) == (if ShouldRetry(1, status) then 1 + RetriesFrom(status, 2) else 0);
  }

  /** The mutations `retry: false` option. */
  function ShouldRetryMutation(failureCount: nat, status: Option<int>): (r: bool)
    ensures !r
  {
    false
  }

  /** The five `queryKeys` builders, one per cached resource. */
  datatype KeyKind = Wallet | WalletInfo | Transactions | UserWallets | Balance

  function Tag(kind: KeyKind): string
  {
    match kind
    case Wallet => "wallet"
    case WalletInfo => "walletInfo"
    case Transactions => "transactions"
    case UserWallets => "userWallets"
    case Balance => "balance"
  }

  function KindOfTag(tag: string): Option<KeyKind>
  {
    if tag == "wallet" then Some(Wallet)
    else if tag == "walletInfo" then Some(WalletInfo)
    else if tag == "transactions" then Some(Transactions)
    else if tag == "userWallets" then Some(UserWallets)
    else if tag == "balance" then Some(Balance)
    else None
  }

  datatype KeyParts = KeyParts(kind: KeyKind, address: string)

  /** Reads a cache key back into the builder and the address it was made from. */
  function ParseKey(key: seq<string>): Option<KeyParts>
  {
    if |key| == 2 && KindOfTag(key[0]).Some? then Some(KeyParts(KindOfTag(key[0]).value, key[1]))
    else None
  }

  /**
   * `queryKeys.<kind>(address)`: the pair `[tag, address]`. The key determines
   * both the builder and the address it was built from.
   */
  function QueryKey(kind: KeyKind, address: string): (r: seq<string>)
    ensures ParseKey(r) == Some(KeyParts(kind, address))
  {
    [Tag(kind), address]
  }

  /** Keys of different builders never collide, and each builder is injective. */
  lemma QueryKeysAreDistinct(k1: KeyKind, a1: string, k2: KeyKind, a2: string)
    ensures QueryKey(k1, a1) == QueryKey(k2, a2) <==> k1 == k2 && a1 == a2
  {
    if QueryKey(k1, a1) == QueryKey(k2, a2) {
      assert ParseKey(QueryKey(k1, a1)) == ParseKey(QueryKey(k2, a2));
    }
  }
}
