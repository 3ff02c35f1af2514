/**
 * The inspector's account checks: the fee-payer and program validators, the
 * lookup-table address resolution, and which message the account line shows.
 */
module AccountValidators {
  import opened Common
  import opened ParsedTx

  /** The system program's id, 11111111111111111111111111111111: thirty-two zero bytes. */
  const SystemProgramId := PublicKey([
    0, 0, 0, 0, 0, 0, 0, 0, 0, 0, 0, 0, 0, 0, 0, 0,
    0, 0, 0, 0, 0, 0, 0, 0, 0, 0, 0, 0, 0, 0, 0, 0])

  /** The fields of a fetched account the checks read. */
  datatype Account = Account(lamports: nat, owner: PublicKey, executable: bool, space: Option<nat>)

  const AccountMissing := "Account doesn't exist"
  const NotSystemOwned := "Only system-owned accounts can pay fees"
  const InsufficientFunds := "Insufficient funds for fees"
  const NotExecutable := "Only executable accounts can be invoked"

  /** A validator: an error message, or none when the account is fit for its place. */
  type Validator = Account -> Option<string>

  /**
   * The check `createFeePayerValidator(feeLamports)` applies: absent account first,
   * then a non-system owner, then too few lamports for the fee.
   */
  function FeePayerCheck(feeLamports: int, account: Account): (r: Option<string>)
    ensures account.lamports == 0 ==> r == Some(AccountMissing)
    ensures account.lamports != 0 && account.owner != SystemProgramId ==> r == Some(NotSystemOwned)
    ensures r == Some(InsufficientFunds) <==>
              account.lamports != 0 && account.owner == SystemProgramId && account.lamports < feeLamports
    ensures r.None? <==>
              account.lamports != 0 && account.owner == SystemProgramId && account.lamports >= feeLamports
  {
    if account.lamports == 0 then Some(AccountMissing)
    else if account.owner != SystemProgramId then Some(NotSystemOwned)
    else if account.lamports < feeLamports then Some(InsufficientFunds)
    else None
  }

  /** `createFeePayerValidator`: the validator that applies the fee-payer check for that fee. */
  function CreateFeePayerValidator(feeLamports: int): (v: Validator)
    ensures forall account :: v(account) == FeePayerCheck(feeLamports, account)
  {
    account => FeePayerCheck(feeLamports, account)
  }

  /** An account that can pay a fee can pay any smaller one. */
  lemma FeePayerMonotone(fee: int, smallerFee: int, account: Account)
    requires smallerFee <= fee && FeePayerCheck(fee, account).None?
    ensures FeePayerCheck(smallerFee, account).None?
  {
  }

  /** `programValidator`: absent account first, then a non-executable one. */
  function ProgramValidator(account: Account): (r: Option<string>)
    ensures account.lamports == 0 ==> r == Some(AccountMissing)
    ensures account.lamports != 0 && !account.executable ==> r == Some(NotExecutable)
    ensures r.None? <==> account.lamports != 0 && account.executable
  {
    if account.lamports == 0 then Some(AccountMissing)
    else if !account.executable then Some(NotExecutable)
    else None
  }

  /** What the lookup-table hook yields: an error string or a table's state. */
  datatype LookupTable = ErrorText(text: string) | Table(addresses: seq<PublicKey>)

  /** What the lookup-table address line shows. */
  datatype LookupView = Loading | InvalidLookupTable | InvalidLookupTableIndex | Resolved(pubkey: PublicKey)

  /**
   * The decision of `AddressFromLookupTableWithContext`: no table (or an empty string,
   * which is falsy) is still loading, a string is an invalid table, an index past the
   * addresses is an invalid index, and otherwise the address at the index.
   */
  function ResolveLookupTableAddress(lookupTable: Option<LookupTable>, index: nat): (r: LookupView)
    ensures r == Loading <==> lookupTable in {None, Some(ErrorText(""))}
    ensures r == InvalidLookupTable <==> lookupTable.Some? && lookupTable.value.ErrorText? && lookupTable.value.text != ""
    ensures r == InvalidLookupTableIndex <==> lookupTable.Some? && lookupTable.value.Table? && index >= |lookupTable.value.addresses|
    ensures r.Resolved? ==> lookupTable.Some? && lookupTable.value.Table? && index < |lookupTable.value.addresses|
                            && r.pubkey == lookupTable.value.addresses[index]
  {
    if lookupTable.None? || lookupTable == Some(ErrorText("")) then Loading
    else if lookupTable.value.ErrorText? then InvalidLookupTable
    else if index >= |lookupTable.value.addresses| then InvalidLookupTableIndex
    else Resolved(lookupTable.value.addresses[index])
  }

  /** What the account line of an address shows. */
  datatype AccountView =
    | LoadingAccount
    | Warning(message: string)
    | Missing
    | Details(owner: PublicKey, lamports: nat, space: Option<nat>)

  /**
   * `AccountInfo`: loading until the account is known; then a validator's non-empty
   * message; then the zero-lamport message; then the account's details.
   */
  function AccountInfoView(account: Option<Account>, validator: Option<Validator>): (r: AccountView)
    ensures account.None? <==> r == LoadingAccount
    ensures r.Warning? <==> account.Some? && validator.Some? && validator.value(account.value).Some?
                             && validator.value(account.value).value != ""
    ensures r.Warning? ==> r.message == validator.value(account.value).value
    ensures r == Missing ==> account.value.lamports == 0
    ensures r.Details? ==> r.lamports != 0 && account == Some(Account(r.lamports, r.owner, account.value.executable, r.space))
  {
    match account
    case None => LoadingAccount
    case Some(a) =>
      var errorMessage := if validator.Some? then validator.value(a) else None;
      if errorMessage.Some? && errorMessage.value != "" then Warning(errorMessage.value)
      else if a.lamports == 0 then Missing
      else Details(a.owner, a.lamports, a.space)
  }

  /** With either validator, a zero-lamport account shows the validator's warning, not the muted line. */
  lemma ValidatorMessageFirst(account: Account, feeLamports: int)
    requires account.lamports == 0
    ensures AccountInfoView(Some(account), Some(CreateFeePayerValidator(feeLamports))) == Warning(AccountMissing)
    ensures AccountInfoView(Some(account), Some(ProgramValidator)) == Warning(AccountMissing)
  {
  }
}
