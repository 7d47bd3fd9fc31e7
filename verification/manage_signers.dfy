/**
 * The Manage Signers page: the numbered owner list with its "You" badge, the
 * non-owner notice, and the signer-details section.
 */
module ManageSigners {
  import opened Wrappers
  import opened JsText
  import opened Web3
  import opened MultiSigOperations
  import opened WalletPages

  /** `Owner #{index + 1}`: owners are numbered from one. */
  function OwnerLabel(index: nat): (r: string)
    ensures |r| > 7 && r[..7] == "Owner #" && r[7..] == NatToString(index + 1)
  {
    "Owner #" + NatToString(index + 1)
  }

  /** Different positions get different labels. */
  lemma OwnerLabelsDistinct(i: nat, j: nat)
    ensures OwnerLabel(i) == OwnerLabel(j) <==> i == j
  {
    if OwnerLabel(i) == OwnerLabel(j) {
      assert OwnerLabel(i)[7..] == OwnerLabel(j)[7..];
      NatToStringInjective(i + 1, j + 1);
    }
  }

  /**
   * `owner.toLowerCase() === address?.toLowerCase()`, with `address` absent
   * when no wallet is connected (the comparison is then against `undefined`).
   */
  predicate IsYou(owner: string, address: Option<string>)
  {
    address.Some? && ToLower(owner) == ToLower(address.value)
  }

  /**
   * The badge ignores letter case on either side, always marks the connected
   * address itself, and never appears without a connected address.
   */
  lemma IsYouIgnoresCase(owner: string, address: string)
    ensures IsYou(owner, Some(address)) <==> IsYou(ToLower(owner), Some(address))
    ensures IsYou(owner, Some(address)) <==> IsYou(owner, Some(ToLower(address)))
    ensures IsYou(address, Some(address))
    ensures !IsYou(owner, None)
  {
    ToLowerIdempotent(owner);
    ToLowerIdempotent(address);
  }

  /** One row of the owner list. */
  datatype OwnerRow = OwnerRow(display: string, caption: string, isYou: bool)

  /** The configuration, owner rows and access notice shown for a loaded wallet. */
  datatype SignerDetails = SignerDetails(
    ownerCount: nat, threshold: nat, rows: seq<OwnerRow>, showNonOwnerNotice: bool)

  /**
   * The details of `info` for the connected `address`: one row per owner in
   * order, with its short address, its number and its "You" badge, and the
   * non-owner notice exactly when the user is not an owner.
   */
  function Details(info: WalletInfo, address: Option<string>): (r: SignerDetails)
    ensures r.ownerCount == |info.owners| == |r.rows| && r.threshold == info.threshold
    ensures forall i :: 0 <= i < |r.rows| ==>
      r.rows[i] == OwnerRow(FormatAddress(info.owners[i]), OwnerLabel(i), IsYou(info.owners[i], address))
    ensures r.showNonOwnerNotice <==> !info.isOwner
  {
    SignerDetails(
      |info.owners|,
      info.threshold,
      seq(|info.owners|, i requires 0 <= i < |info.owners| =>
        OwnerRow(FormatAddress(info.owners[i]), OwnerLabel(i), IsYou(info.owners[i], address))),
      !info.isOwner)
  }

  /**
   * When the owners differ even ignoring case (as distinct addresses do), at
   * most one row carries the "You" badge.
   */
  lemma AtMostOneYou(info: WalletInfo, address: Option<string>, i: nat, j: nat)
    requires forall k, l :: 0 <= k < l < |info.owners| ==> ToLower(info.owners[k]) != ToLower(info.owners[l])
    requires i < |info.owners| && j < |info.owners|
    requires Details(info, address).rows[i].isYou && Details(info, address).rows[j].isYou
    ensures i == j
  {
    var rows := Details(info, address).rows;
    assert rows[i].isYou == IsYou(info.owners[i], address);
    assert rows[j].isYou == IsYou(info.owners[j], address);
  }

  /**
   * For a summary read by `getWalletInfo`, the notice appears exactly when a
   * user is connected and the contract says they are not an owner, or when
   * no user is connected at all.
   */
  lemma NoticeFollowsOwnershipRead(c: WalletContract, walletAddress: string, userAddress: string,
                                   address: Option<string>)
    requires WalletInfoOf(c, walletAddress, userAddress).Success?
    ensures Details(WalletInfoOf(c, walletAddress, userAddress).value, address).showNonOwnerNotice
      <==> userAddress == "" || !c.userIsOwner.value
  {
  }

  /** The signer-details section: the shared summary cascade around `Details`. */
  function SignerPanel(selected: string, loading: bool, error: Option<QueryError>,
                       info: Option<WalletInfo>, address: Option<string>): (r: Panel<SignerDetails>)
    ensures r.Shown? <==> selected != [] && !loading && error.None? && info.Some?
    ensures r.Shown? ==> r.content == Details(info.value, address)
    ensures r == WalletInfoPanel(selected, loading, error, if info.Some? then Some(Details(info.value, address)) else None)
  {
    WalletInfoPanel(selected, loading, error, if info.Some? then Some(Details(info.value, address)) else None)
  }
}
