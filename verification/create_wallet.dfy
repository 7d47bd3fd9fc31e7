/**
 * The wallet-creation page: the owner field list, the submit handler that
 * drops blank owners, and the mutation's ordered validation chain (first
 * invalid address, then duplicates, then the threshold range) before the
 * factory is asked to create the wallet.
 */
module CreateWallet {
  import opened Wrappers
  import opened JsText
  import opened Web3

  /** One owner row of the form. */
  datatype OwnerEntry = OwnerEntry(address: string)

  /** The form's values; `threshold` is the number typed into the threshold field. */
  datatype WalletForm = WalletForm(owners: seq<OwnerEntry>, threshold: int)

  /** What is handed to the factory's `createWallet`. */
  datatype WalletParams = WalletParams(owners: seq<string>, threshold: int)

  const OwnersRequiredMessage := "At least one owner is required"
  const DuplicateMessage := "Duplicate addresses are not allowed"
  const ThresholdMessage := "Threshold must be between 1 and the number of owners"
  const CreationFailedMessage := "Failed to create wallet"

  function InvalidAddressMessage(address: string): string
  {
    "Invalid address: " + address
  }

  /** `o.address.trim() === ''`. */
  predicate IsBlank(entry: OwnerEntry)
  {
    Trim(entry.address) == []
  }

  /** `owners.filter(o => o.address.trim() !== '')`: the non-blank rows, in order, untouched. */
  function DropBlankOwners(entries: seq<OwnerEntry>): (r: seq<OwnerEntry>)
    ensures |r| <= |entries|
    ensures forall e :: e in r <==> e in entries && !IsBlank(e)
  {
    if entries == [] then []
    else
      var rest := DropBlankOwners(entries[1..]);
      assert entries == [entries[0]] + entries[1..];
      if IsBlank(entries[0]) then rest else [entries[0]] + rest
  }

  lemma {:induction false} DropBlankOwnersConcat(a: seq<OwnerEntry>, b: seq<OwnerEntry>)
    ensures DropBlankOwners(a + b) == DropBlankOwners(a) + DropBlankOwners(b)
    decreases |a|
  {
    if a == [] {
      assert a + b == b;
    } else {
      assert (a + b)[1..] == a[1..] + b;
      DropBlankOwnersConcat(a[1..], b);
    }
  }

  /** What `onSubmit` does: report the owners error, or start the mutation. */
  datatype SubmitAction = OwnersRequired | Mutate(data: WalletForm)

  /**
   * `onSubmit`: when every row is blank, the owners error is set and no wallet
   * creation is requested; otherwise the mutation receives the non-blank rows
   * (not trimmed) and the threshold as typed.
   */
  function OnSubmit(form: WalletForm): (r: SubmitAction)
    ensures r.OwnersRequired? <==> forall e :: e in form.owners ==> IsBlank(e)
    ensures r.Mutate? ==> r.data == WalletForm(DropBlankOwners(form.owners), form.threshold)
  {
    var validOwners := DropBlankOwners(form.owners);
    if |validOwners| == 0 then OwnersRequired
    else
      assert validOwners[0] in validOwners;
      Mutate(WalletForm(validOwners, form.threshold))
  }

  /** `data.owners.map(o => o.address).filter(Boolean)`. */
  function OwnerAddresses(entries: seq<OwnerEntry>): (r: seq<string>)
    ensures |r| <= |entries|
    ensures forall a :: a in r <==> a != [] && OwnerEntry(a) in entries
  {
    if entries == [] then []
    else
      var rest := OwnerAddresses(entries[1..]);
      assert entries == [entries[0]] + entries[1..];
      if entries[0].address == [] then rest else [entries[0].address] + rest
  }

  /** The addresses of the rows, in order. */
  function AddressesOf(entries: seq<OwnerEntry>): (r: seq<string>)
    ensures |r| == |entries|
    ensures forall i :: 0 <= i < |entries| ==> r[i] == entries[i].address
  {
    seq(|entries|, i requires 0 <= i < |entries| => entries[i].address)
  }

  lemma EmptyAddressIsBlank()
    ensures IsBlank(OwnerEntry(""))
  {
  }

  /** A list without empty addresses loses nothing to `filter(Boolean)`. */
  lemma {:induction false} NonEmptyRowsKeepAllAddresses(entries: seq<OwnerEntry>)
    requires forall i :: 0 <= i < |entries| ==> entries[i].address != []
    ensures OwnerAddresses(entries) == AddressesOf(entries)
    decreases |entries|
  {
    if entries != [] {
      NonEmptyRowsKeepAllAddresses(entries[1..]);
      assert AddressesOf(entries) == [entries[0].address] + AddressesOf(entries[1..]);
    }
  }

  /**
   * The rows that survive `onSubmit` reach the factory as they were typed:
   * every one of them, in order, and not trimmed.
   */
  lemma SurvivorsForwardedUntrimmed(entries: seq<OwnerEntry>)
    ensures OwnerAddresses(DropBlankOwners(entries)) == AddressesOf(DropBlankOwners(entries))
  {
    var kept := DropBlankOwners(entries);
    forall i | 0 <= i < |kept| ensures kept[i].address != [] {
      assert kept[i] in kept;
      EmptyAddressIsBlank();
    }
    NonEmptyRowsKeepAllAddresses(kept);
  }

  /** The first owner, in list order, that `isValidAddress` rejects. */
  function FirstInvalid(owners: seq<string>): (r: Option<nat>)
    ensures r.None? <==> forall i :: 0 <= i < |owners| ==> IsValidAddress(owners[i])
    ensures r.Some? ==>
      && r.value < |owners|
      && !IsValidAddress(owners[r.value])
      && forall i :: 0 <= i < r.value ==> IsValidAddress(owners[i])
  {
    if owners == [] then None
    else if !IsValidAddress(owners[0]) then Some(0)
    else
      match FirstInvalid(owners[1..])
      case None => None
      case Some(k) => Some(k + 1)
  }

  /** `new Set(owners)`. */
  function ToSet(owners: seq<string>): set<string>
  {
    set a | a in owners
  }

  /** No two owners are the same string (exact, case-sensitive comparison). */
  predicate Distinct(owners: seq<string>)
  {
    forall i, j :: 0 <= i < j < |owners| ==> owners[i] != owners[j]
  }

  /** `new Set(owners).size === owners.length` exactly when no string repeats. */
  lemma {:induction false} SetSizeDetectsDuplicates(owners: seq<string>)
    ensures |ToSet(owners)| <= |owners|
    ensures |ToSet(owners)| == |owners| <==> Distinct(owners)
    decreases |owners|
  {
    if owners == [] {
      assert ToSet(owners) == {};
    } else {
      var rest := owners[1..];
      SetSizeDetectsDuplicates(rest);
      assert ToSet(owners) == {owners[0]} + ToSet(rest);
      if owners[0] in rest {
        assert ToSet(owners) == ToSet(rest);
        var j :| 0 <= j < |rest| && rest[j] == owners[0];
        assert owners[0] == owners[j + 1];
      } else {
        assert owners[0] !in ToSet(rest);
        assert Distinct(owners) <==> Distinct(rest) by {
          if Distinct(rest) {
            forall i, j | 0 <= i < j < |owners| ensures owners[i] != owners[j] {
              if i > 0 {
                assert owners[i] == rest[i - 1] && owners[j] == rest[j - 1];
              } else {
                assert owners[j] == rest[j - 1];
              }
            }
          }
          if Distinct(owners) {
            forall i, j | 0 <= i < j < |rest| ensures rest[i] != rest[j] {
              assert rest[i] == owners[i + 1] && rest[j] == owners[j + 1];
            }
          }
        }
      }
    }
  }

  /**
   * The outcome of the mutation's checks on the owner strings and the
   * threshold, in the order the code makes them.
   */
  function ValidationOutcome(owners: seq<string>, threshold: int): Result<WalletParams, string>
  {
    match FirstInvalid(owners)
    case Some(k) => Failure(InvalidAddressMessage(owners[k]))
    case None =>
      if |ToSet(owners)| != |owners| then Failure(DuplicateMessage)
      else if threshold < 1 || threshold > |owners| then Failure(ThresholdMessage)
      else Success(WalletParams(owners, threshold))
  }

  /**
   * The chain accepts exactly the lists of valid, pairwise distinct addresses
   * with a threshold between 1 and their number, and then forwards them
   * unchanged; an invalid address is reported before duplicates, and
   * duplicates before the threshold.
   */
  lemma ValidationOutcomeSpec(owners: seq<string>, threshold: int)
    ensures var r := ValidationOutcome(owners, threshold);
      && (r.Success? <==>
          (forall i :: 0 <= i < |owners| ==> IsValidAddress(owners[i]))
          && Distinct(owners) && 1 <= threshold <= |owners|)
      && (r.Success? ==> r.value == WalletParams(owners, threshold))
      && ((exists i :: 0 <= i < |owners| && !IsValidAddress(owners[i])) ==>
          exists k :: 0 <= k < |owners| && r == Failure(InvalidAddressMessage(owners[k]))
            && !IsValidAddress(owners[k])
            && forall i :: 0 <= i < k ==> IsValidAddress(owners[i]))
      && ((forall i :: 0 <= i < |owners| ==> IsValidAddress(owners[i])) && !Distinct(owners) ==>
          r == Failure(DuplicateMessage))
  {
    SetSizeDetectsDuplicates(owners);
    var first := FirstInvalid(owners);
    if first.Some? {
      assert ValidationOutcome(owners, threshold) == Failure(InvalidAddressMessage(owners[first.value]));
    }
  }

  /**
   * The mutation's checks as the code runs them: a `for` loop that throws at
   * the first invalid address, then the `Set` size comparison, then the
   * threshold range.
   */
  method ValidateWalletParams(owners: seq<string>, threshold: int) returns (r: Result<WalletParams, string>)
    ensures r == ValidationOutcome(owners, threshold)
  {
    for i := 0 to |owners|
      invariant forall j :: 0 <= j < i ==> IsValidAddress(owners[j])
    {
      if !IsValidAddress(owners[i]) {
        assert FirstInvalid(owners) == Some(i);
        return Failure(InvalidAddressMessage(owners[i]));
      }
    }
    var uniqueOwners := ToSet(owners);
    if |uniqueOwners| != |owners| {
      return Failure(DuplicateMessage);
    }
    if threshold < 1 || threshold > |owners| {
      return Failure(ThresholdMessage);
    }
    r := Success(WalletParams(owners, threshold));
  }

  /**
   * The whole `mutationFn`: the checks, then the factory call, whose result
   * `created` is the new wallet's address or `""` when it produced none.
   * `requested` is what the factory was asked to create, `None` when it was
   * not called.
   */
  method CreateWalletMutation(data: WalletForm, created: string)
    returns (r: Result<string, string>, requested: Option<WalletParams>)
    ensures var owners := OwnerAddresses(data.owners);
      var check := ValidationOutcome(owners, data.threshold);
      && (check.Failure? ==> r == Failure(check.error) && requested == None)
      && (check.Success? ==> requested == Some(WalletParams(owners, data.threshold)))
      && (check.Success? && created == [] ==> r == Failure(CreationFailedMessage))
      && (check.Success? && created != [] ==> r == Success(created))
  {
    var owners := OwnerAddresses(data.owners);
    var check := ValidateWalletParams(owners, data.threshold);
    if check.Failure? {
      return Failure(check.error), None;
    }
    ValidationOutcomeSpec(owners, data.threshold);
    requested := Some(check.value);
    if created == [] {
      r := Failure(CreationFailedMessage);
    } else {
      r := Success(created);
    }
  }

  /** The per-row validator: a blank row is allowed, anything else must be an address. */
  function OwnerFieldError(value: string): (r: Option<string>)
    ensures r.None? <==> AllWhitespace(value) || IsValidAddress(value)
    ensures r.Some? ==> r.value == "Invalid Ethereum address"
  {
    TrimEmptyIffBlank(value);
    if Trim(value) == [] then None
    else if !IsValidAddress(value) then Some("Invalid Ethereum address")
    else None
  }

  /** The owner rows of the form, as `useFieldArray` keeps them. */
  class OwnerFields {
    var fields: seq<OwnerEntry>

    ghost predicate Valid()
      reads this
    {
      |fields| >= 1
    }

    /** The default form has one empty row. */
    constructor ()
      ensures Valid() && fields == [OwnerEntry("")]
    {
      fields := [OwnerEntry("")];
    }

    /** `addOwner`: one empty row at the end. */
    method AddOwner()
      requires Valid()
      modifies this
      ensures Valid() && fields == old(fields) + [OwnerEntry("")]
    {
      fields := fields + [OwnerEntry("")];
    }

    /** `removeOwner`: removes row `index` unless it is the only row. */
    method RemoveOwner(index: int)
      requires Valid()
      modifies this
      ensures Valid()
      ensures old(|fields|) > 1 && 0 <= index < old(|fields|) ==>
        fields == old(fields[..index]) + old(fields[index + 1..])
      ensures !(old(|fields|) > 1 && 0 <= index < old(|fields|)) ==> fields == old(fields)
    {
      if |fields| > 1 && 0 <= index < |fields| {
        fields := fields[..index] + fields[index + 1..];
      }
    }

    /**
     * `validOwnersCount`: the rows `onSubmit` would keep, which is also the
     * number of owners the mutation then validates and creates the wallet with.
     */
    function ValidOwnersCount(): (n: nat)
      reads this
      ensures n <= |fields|
      ensures n == 0 <==> OnSubmit(WalletForm(fields, 1)).OwnersRequired?
      ensures n == |OwnerAddresses(DropBlankOwners(fields))|
    {
      SurvivorsForwardedUntrimmed(fields);
      |DropBlankOwners(fields)|
    }

    /** The submit button is disabled while creating or when no row is filled in. */
    function SubmitDisabled(isPending: bool): (r: bool)
      reads this
      ensures r <==> isPending || forall e :: e in fields ==> IsBlank(e)
    {
      isPending || ValidOwnersCount() == 0
    }

    /** The threshold field's upper bound, `validOwnersCount || 1`. */
    function ThresholdMax(): (m: nat)
      reads this
      ensures m >= 1
      ensures ValidOwnersCount() == 0 ==> m == 1
      ensures ValidOwnersCount() > 0 ==> m == ValidOwnersCount()
    {
      if ValidOwnersCount() == 0 then 1 else ValidOwnersCount()
    }

    /**
     * Once some row is filled in, the threshold field's bounds `1..ThresholdMax()`
     * are exactly the range the mutation accepts for the rows `onSubmit` keeps,
     * whenever their addresses are valid and distinct.
     */
    lemma ThresholdFieldMatchesRangeCheck(threshold: int)
      requires ValidOwnersCount() > 0
      requires var owners := OwnerAddresses(DropBlankOwners(fields));
        (forall i :: 0 <= i < |owners| ==> IsValidAddress(owners[i])) && Distinct(owners)
      ensures var owners := OwnerAddresses(DropBlankOwners(fields));
        ValidationOutcome(owners, threshold).Success? <==> 1 <= threshold <= ThresholdMax()
    {
      ValidationOutcomeSpec(OwnerAddresses(DropBlankOwners(fields)), threshold);
    }
  }
}
