/**
 * The network-validation hook: a small state record that `validateNetwork`,
 * `switchToSepolia`, the deferred reset after a switch and `clearError`
 * update, and the display names of the supported chains.
 */
module NetworkValidation {
  import opened Wrappers
  import opened JsText

  /** `SUPPORTED_NETWORKS`. */
  const EthereumChainId: int := 1
  const SepoliaChainId: int := 11155111
  const PolygonChainId: int := 137
  const MumbaiChainId: int := 80001

  const SwitchUnavailableMessage := "Network switching is not available"
  const SwitchFailedMessage := "Failed to switch network"

  /** `chainId || null`: an absent or zero chain id is stored as `null`. */
  function StoredChainId(chainId: Option<int>): (r: Option<int>)
    ensures r != Some(0)
    ensures chainId.Some? && chainId.value != 0 ==> r == chainId
    ensures chainId.None? || chainId == Some(0) ==> r.None?
  {
    if chainId.Some? && chainId.value != 0 then chainId else None
  }

  /** `getNetworkName`. */
  function NetworkName(chainId: Option<int>): (r: string)
    ensures chainId.None? || chainId == Some(0) ==> r == "Unknown"
    ensures chainId == Some(EthereumChainId) ==> r == "Ethereum Mainnet"
    ensures chainId == Some(SepoliaChainId) ==> r == "Sepolia Testnet"
    ensures chainId == Some(PolygonChainId) ==> r == "Polygon"
    ensures chainId == Some(MumbaiChainId) ==> r == "Mumbai Testnet"
    ensures chainId.Some? && chainId.value !in {0, EthereumChainId, SepoliaChainId, PolygonChainId, MumbaiChainId}
      ==> r == "Chain " + IntToString(chainId.value)
  {
    if chainId.None? || chainId.value == 0 then "Unknown"
    else if chainId.value == EthereumChainId then "Ethereum Mainnet"
    else if chainId.value == SepoliaChainId then "Sepolia Testnet"
    else if chainId.value == PolygonChainId then "Polygon"
    else if chainId.value == MumbaiChainId then "Mumbai Testnet"
    else "Chain " + IntToString(chainId.value)
  }

  /** "Chain <id>" never collides with a fixed name or with "Unknown". */
  lemma GenericNameIsNotFixed(id: int)
    ensures ("Chain " + IntToString(id))[0] == 'C'
    ensures NetworkName(None)[0] == 'U'
    ensures NetworkName(Some(EthereumChainId))[0] == 'E'
    ensures NetworkName(Some(SepoliaChainId))[0] == 'S'
    ensures NetworkName(Some(PolygonChainId))[0] == 'P'
    ensures NetworkName(Some(MumbaiChainId))[0] == 'M'
  {
  }

  /** Different non-zero chain ids get different names; every name is non-empty. */
  lemma NetworkNameInjective(a: int, b: int)
    requires a != 0 && b != 0
    ensures NetworkName(Some(a)) == NetworkName(Some(b)) ==> a == b
  {
    var na, nb := NetworkName(Some(a)), NetworkName(Some(b));
    GenericNameIsNotFixed(a);
    GenericNameIsNotFixed(b);
    if na == nb && a !in {EthereumChainId, SepoliaChainId, PolygonChainId, MumbaiChainId}
                && b !in {EthereumChainId, SepoliaChainId, PolygonChainId, MumbaiChainId} {
      assert na[6..] == IntToString(a);
      assert nb[6..] == IntToString(b);
      IntToStringInjective(a, b);
    }
  }

  /** How the wallet's `switchNetwork` call ended when it threw. */
  datatype SwitchFailure = ErrorInstance(message: string) | OtherThrown

  /** The hook's state record; `requiredChainId` never changes. */
  class NetworkValidator {
    var isValidNetwork: bool
    var currentChainId: Option<int>
    var isLoading: bool
    var error: Option<string>
    const requiredChainId: int

    /** The validity flag always reflects the stored chain id. */
    ghost predicate Valid()
      reads this
    {
      && (isValidNetwork <==> currentChainId == Some(SepoliaChainId))
      && currentChainId != Some(0)
      && requiredChainId == SepoliaChainId
    }

    constructor ()
      ensures Valid()
      ensures !isValidNetwork && currentChainId.None? && !isLoading && error.None?
    {
      isValidNetwork := false;
      currentChainId := None;
      requiredChainId := SepoliaChainId;
      isLoading := false;
      error := None;
    }

    /** `validateNetwork` for the wallet's current `chainId`. */
    method ValidateNetwork(chainId: Option<int>)
      requires Valid()
      modifies this
      ensures Valid()
      ensures currentChainId == StoredChainId(chainId)
      ensures isValidNetwork <==> chainId == Some(SepoliaChainId)
      ensures error.None? && isLoading == old(isLoading)
    {
      currentChainId := StoredChainId(chainId);
      isValidNetwork := currentChainId == Some(SepoliaChainId);
      error := None;
    }

    /**
     * `switchToSepolia`. `switchAvailable` says whether the wallet offers
     * `switchNetwork`; `failure` is what the call threw, `None` when it
     * resolved. After a successful switch `isLoading` stays set until the
     * deferred reset (`SwitchSettled`) runs.
     */
    method SwitchToSepolia(switchAvailable: bool, failure: Option<SwitchFailure>) returns (switched: bool)
      requires Valid()
      modifies this
      ensures Valid()
      ensures switched <==> switchAvailable && failure.None?
      ensures isValidNetwork == old(isValidNetwork) && currentChainId == old(currentChainId)
      ensures !switchAvailable ==> error == Some(SwitchUnavailableMessage) && isLoading == old(isLoading)
      ensures switchAvailable && failure.None? ==> error.None? && isLoading
      ensures switchAvailable && failure.Some? ==> !isLoading && error == Some(
        match failure.value
        case ErrorInstance(message) => message
        case OtherThrown => SwitchFailedMessage)
    {
      if !switchAvailable {
        error := Some(SwitchUnavailableMessage);
        return false;
      }
      isLoading := true;
      error := None;
      match failure
      case None =>
        switched := true;
      case Some(ErrorInstance(message)) =>
        isLoading := false;
        error := Some(message);
        switched := false;
      case Some(OtherThrown) =>
        isLoading := false;
        error := Some(SwitchFailedMessage);
        switched := false;
    }

    /** The timer set after a successful switch fires. */
    method SwitchSettled()
      requires Valid()
      modifies this
      ensures Valid()
      ensures !isLoading
      ensures isValidNetwork == old(isValidNetwork) && currentChainId == old(currentChainId) && error == old(error)
    {
      isLoading := false;
    }

    /** `clearError`: only the error changes. */
    method ClearError()
      requires Valid()
      modifies this
      ensures Valid()
      ensures error.None?
      ensures isValidNetwork == old(isValidNetwork) && currentChainId == old(currentChainId)
      ensures isLoading == old(isLoading)
    {
      error := None;
    }

    /** `currentNetworkName`: the name of whatever chain is stored. */
    function CurrentNetworkName(): (r: string)
      reads this
      requires Valid()
      ensures r == NetworkName(currentChainId)
      ensures isValidNetwork ==> r == "Sepolia Testnet"
      ensures currentChainId.None? ==> r == "Unknown"
    {
      NetworkName(currentChainId)
    }

    /** `requiredNetworkName` is always Sepolia's name. */
    function RequiredNetworkName(): (r: string)
      reads this
      requires Valid()
      ensures r == "Sepolia Testnet"
    {
      NetworkName(Some(requiredChainId))
    }
  }

  /**
   * A successful switch from mainnet: the call answers true and raises the
   * loading flag, the deferred reset lowers it, and once the wallet reports
   * Sepolia the network is valid and named as such, with no error left.
   */
  method SuccessfulSwitchScenario() returns (validBefore: bool, switched: bool, loadingAfterSwitch: bool,
                                             loadingAfterSettle: bool, validAfter: bool, name: string)
    ensures !validBefore && switched && loadingAfterSwitch && !loadingAfterSettle
    ensures validAfter && name == "Sepolia Testnet"
  {
    var v := new NetworkValidator();
    v.ValidateNetwork(Some(EthereumChainId));
    validBefore := v.isValidNetwork;
    switched := v.SwitchToSepolia(true, None);
    loadingAfterSwitch := v.isLoading;
    v.SwitchSettled();
    loadingAfterSettle := v.isLoading;
    v.ValidateNetwork(Some(SepoliaChainId));
    validAfter := v.isValidNetwork && v.error.None?;
    name := v.CurrentNetworkName();
  }
}
