/**
 * The transaction-submission page: the guard chain its mutation runs before
 * submitting, the recipient field's validator, and the wallet selection that
 * keeps the page state and the form in step.
 */
module CreateTransaction {
  import opened Wrappers
  import opened Web3

  /** The form's values, all strings as typed. */
  datatype TransactionForm = TransactionForm(walletAddress: string, to: string, value: string, data: string)

  /** What the mutation hands to `submitTransaction`. */
  datatype SubmitParams = SubmitParams(to: string, value: string, data: string)

  const NoWalletMessage := "Please select a wallet"
  const InvalidRecipientMessage := "Invalid recipient address"
  const SubmitFailedMessage := "Failed to submit transaction"

  /** `data || '0x'`: empty call data becomes `0x`; anything else is kept. */
  function CallData(data: string): (r: string)
    ensures r != []
    ensures data != [] ==> r == data
  {
    if data == [] then "0x" else data
  }

  /**
   * The guards of `mutationFn`, in order: a wallet must be selected, then the
   * recipient must be a valid address, then the amount must pass the
   * conversion to wei and the sign check. That last check works on floating
   * point and is an input here: `valueRejection` is `None` when the amount
   * passes and otherwise the message of the error it raises. The parameters
   * forward the recipient and the amount unchanged and the call data through
   * `CallData`.
   */
  function SubmitChecks(selectedWallet: string, form: TransactionForm, valueRejection: Option<string>)
    : (r: Result<SubmitParams, string>)
    ensures selectedWallet == [] ==> r == Failure(NoWalletMessage)
    ensures selectedWallet != [] && !IsValidAddress(form.to) ==> r == Failure(InvalidRecipientMessage)
    ensures selectedWallet != [] && IsValidAddress(form.to) && valueRejection.Some?
      ==> r == Failure(valueRejection.value)
    ensures r.Success? <==> selectedWallet != [] && IsValidAddress(form.to) && valueRejection.None?
    ensures r.Success? ==> r.value == SubmitParams(form.to, form.value, CallData(form.data))
  {
    if selectedWallet == [] then Failure(NoWalletMessage)
    else if !IsValidAddress(form.to) then Failure(InvalidRecipientMessage)
    else if valueRejection.Some? then Failure(valueRejection.value)
    else Success(SubmitParams(form.to, form.value, CallData(form.data)))
  }

  /** One run of the mutation: what was submitted (if anything) and how it ended. */
  datatype Submission = Submission(requested: Option<SubmitParams>, outcome: Result<bool, string>)

  /**
   * `mutationFn` with the hook's answer `submitted`: nothing is submitted when
   * a guard fails; a `false` answer becomes the submission error.
   */
  function SubmitMutation(selectedWallet: string, form: TransactionForm, valueRejection: Option<string>,
                          submitted: bool): (r: Submission)
    ensures r.requested.Some? <==> SubmitChecks(selectedWallet, form, valueRejection).Success?
    ensures r.requested.None? ==> r.outcome == Failure(SubmitChecks(selectedWallet, form, valueRejection).error)
    ensures r.requested.Some? ==> r.outcome == (if submitted then Success(true) else Failure(SubmitFailedMessage))
  {
    match SubmitChecks(selectedWallet, form, valueRejection)
    case Failure(e) => Submission(None, Failure(e))
    case Success(params) =>
      Submission(Some(params), if submitted then Success(true) else Failure(SubmitFailedMessage))
  }

  /**
   * A submitted transaction always has a valid recipient and non-empty call
   * data, and the wallet check shadows every later one.
   */
  lemma SubmittedParamsAreWellFormed(selectedWallet: string, form: TransactionForm,
                                     valueRejection: Option<string>, submitted: bool)
    ensures var r := SubmitMutation(selectedWallet, form, valueRejection, submitted);
      && (r.requested.Some? ==> IsValidAddress(r.requested.value.to) && r.requested.value.data != [])
      && (selectedWallet == [] ==> r == Submission(None, Failure(NoWalletMessage)))
  {
  }

  /** The recipient field: required, then it must be a valid address. */
  function RecipientFieldError(value: string): (r: Option<string>)
    ensures r.None? <==> IsValidAddress(value)
    ensures value == [] ==> r == Some("Recipient address is required")
    ensures value != [] && !IsValidAddress(value) ==> r == Some("Invalid Ethereum address")
  {
    if value == [] then Some("Recipient address is required")
    else if !IsValidAddress(value) then Some("Invalid Ethereum address")
    else None
  }

  /** The page's `selectedWallet` state together with the form values. */
  class CreateTransactionPage {
    var selectedWallet: string
    var form: TransactionForm

    /** The selection and the form's hidden `walletAddress` field always agree. */
    ghost predicate Valid()
      reads this
    {
      form.walletAddress == selectedWallet
    }

    constructor ()
      ensures Valid()
      ensures selectedWallet == "" && form == TransactionForm("", "", "0", "0x")
    {
      selectedWallet := "";
      form := TransactionForm("", "", "0", "0x");
    }

    /** `handleWalletSelect`: the selection and the form field both become `walletAddress`. */
    method HandleWalletSelect(walletAddress: string)
      requires Valid()
      modifies this
      ensures Valid()
      ensures selectedWallet == walletAddress
      ensures form == old(form).(walletAddress := walletAddress)
    {
      selectedWallet := walletAddress;
      form := form.(walletAddress := walletAddress);
    }
  }
}
