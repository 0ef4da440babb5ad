/**
 * The message-storage contract helpers of the Blockchain Learning Lab:
 * validation and submission of a new message, reading the stored message,
 * waiting for a receipt, probing for the contract, and address display.
 *
 * The wallet library is not modelled: the module-level provider is an
 * `Option<Provider>` (absent when no browser wallet was initialised), and
 * a `Provider` is the set of answers the library would give.  With the
 * external calls reduced to those answers, each helper is a function of
 * its inputs and the answers.
 */
module SmartContract {
  import opened Wrappers
  import opened Text
  import opened Decimal

  const MaxMessageLength: nat := 280
  /** "0x123456789012345678901234567890123456789A", in pieces: the ends are what `formatAddress` shows. */
  const ContractAddress: string := "0x1234" + "56789012345678901234567890123456" + "789A"
  const ZeroAddress: string := "0x0000000000000000000000000000000000000000"

  const NoMessageYet: string := "No message stored yet"
  const DemoMessage: string := "Hello from the blockchain! (Demo message)"
  const NoSender: string := "No sender"

  const EmptyMessageError: string := "Message cannot be empty"
  const TooLongError: string := "Message must be 280 characters or less"
  const ProviderMissingError: string := "Provider not initialized"
  const WalletMissingError: string := "Wallet not connected"

  const InsufficientFundsCode: string := "INSUFFICIENT_FUNDS"
  // The two longest texts are written in two pieces: the verifier does not look inside a literal this long.
  const InsufficientFundsText: string := "Insufficient funds for transaction" + " and gas fees"
  const UserRejectedMarker: string := "user rejected"
  const CancelledText: string := "Transaction cancelled by user"
  const ContractErrorPrefix: string := "Contract error: "
  const StoreFailedText: string := "Failed to store message." + " Please try again."

  /** An error thrown by the wallet library: its `code`, if any, and its `message` ("" when it has none). */
  datatype JsError = JsError(code: Option<string>, message: string)

  /** The settled outcome of one awaited library call. */
  datatype Call<+T> = Returns(value: T) | Throws(error: JsError)

  datatype TxResponse = TxResponse(hash: string)

  datatype Receipt = Receipt(status: int, blockNumber: nat, gasUsed: nat)

  /** The answers of the wallet provider and of the deployed contract. */
  datatype Provider = Provider(
    getSigner: Call<bool>,                              // whether a signer comes back
    estimateGas: string -> Call<nat>,                   // storeMessage.estimateGas(message)
    sendStoreMessage: (string, nat) -> Call<TxResponse>, // storeMessage(message, {gasLimit})
    waitForTransaction: string -> Call<Option<Receipt>>, // null when no receipt is produced
    getMessage: Call<string>,
    getMessageSender: Call<string>,
    getCode: string -> Call<string>)

  /** A call made on the contract, with the arguments it was given. */
  datatype ContractCall =
    | EstimateGas(message: string)
    | StoreMessageTx(message: string, gasLimit: nat)

  /** What `storeMessage` settles with, and the contract calls it made on the way. */
  datatype Submission = Submission(outcome: Result<TxResponse, string>, calls: seq<ContractCall>)

  /** The stored message and its sender, as shown on the contracts page. */
  datatype StoredMessage = StoredMessage(message: string, sender: string)

  /** What `waitForMessageTransaction` resolves to. */
  datatype TxResult = TxResult(success: bool, blockNumber: Option<nat>, gasUsed: Option<string>)

  const DemoData: StoredMessage := StoredMessage(DemoMessage, ZeroAddress)

  /** Both contract reads settle with a value. */
  predicate ReadsBoth(provider: Option<Provider>) {
    provider.Some? && provider.value.getMessage.Returns? && provider.value.getMessageSender.Returns?
  }

  /**
   * `readMessage`: never fails.  When both reads succeed, an empty message
   * or sender is replaced by its placeholder; when either fails, or there
   * is no provider, the fixed demo data is returned.
   */
  function ReadMessage(provider: Option<Provider>): (r: StoredMessage)
    ensures r.message != [] && r.sender != []
    ensures !ReadsBoth(provider) ==> r == DemoData
    ensures ReadsBoth(provider) ==>
      var stored, sender := provider.value.getMessage.value, provider.value.getMessageSender.value;
      && (stored != [] ==> r.message == stored)
      && (stored == [] ==> r.message == NoMessageYet)
      && (sender != [] ==> r.sender == sender)
      && (sender == [] ==> r.sender == ZeroAddress)
  {
    match provider
    case None => DemoData
    case Some(p) =>
      if p.getMessage.Throws? || p.getMessageSender.Throws? then DemoData
      else StoredMessage(OrElse(p.getMessage.value, NoMessageYet), OrElse(p.getMessageSender.value, ZeroAddress))
  }

  /**
   * The checks `storeMessage` makes before touching the wallet: a blank
   * message is refused first; then one longer than 280 characters,
   * counted before trimming.  An accepted message is sent trimmed.
   */
  function ValidateMessage(m: string): (r: Result<string, string>)
    ensures r.Success? <==> !IsBlank(m) && |m| <= MaxMessageLength
    ensures IsBlank(m) ==> r == Failure(EmptyMessageError)
    ensures !IsBlank(m) && |m| > MaxMessageLength ==> r == Failure(TooLongError)
    ensures r.Success? ==> r.value == Trim(m) && 0 < |r.value| <= MaxMessageLength
  {
    if IsBlank(m) then Failure(EmptyMessageError)
    else if |m| > MaxMessageLength then Failure(TooLongError)
    else Success(Trim(m))
  }

  /** `estimatedGas * 120n / 100n`: the estimate plus a 20% buffer, rounded down. */
  function GasLimit(estimated: nat): (limit: nat)
    ensures estimated <= limit
    ensures 5 * limit <= 6 * estimated
    ensures 100 * limit <= 120 * estimated < 100 * limit + 100
  {
    estimated * 120 / 100
  }

  /**
   * The user-facing text for an error thrown while submitting, in the
   * source's priority order: insufficient funds, then a user rejection,
   * then any other message, and only without a message the generic text.
   */
  function TranslateError(e: JsError): (text: string)
    ensures text == InsufficientFundsText <==> e.code == Some(InsufficientFundsCode)
    ensures text == CancelledText <==>
      e.code != Some(InsufficientFundsCode) && Contains(e.message, UserRejectedMarker)
    ensures StartsWith(text, ContractErrorPrefix) <==>
      e.code != Some(InsufficientFundsCode) && e.message != [] && !Contains(e.message, UserRejectedMarker)
    ensures StartsWith(text, ContractErrorPrefix) ==> text[|ContractErrorPrefix|..] == e.message
    ensures text == StoreFailedText <==> e.code != Some(InsufficientFundsCode) && e.message == []
  {
    assert !Contains([], UserRejectedMarker);
    // The four texts differ in their first character.
    assert InsufficientFundsText[0] == 'I' && CancelledText[0] == 'T' && StoreFailedText[0] == 'F';
    assert forall x: string :: StartsWith(x, ContractErrorPrefix) ==> x[..|ContractErrorPrefix|][0] == 'C';
    if e.code == Some(InsufficientFundsCode) then InsufficientFundsText
    else if e.message != [] && Contains(e.message, UserRejectedMarker) then CancelledText
    else if e.message != [] then ContractErrorPrefix + e.message
    else StoreFailedText
  }

  /** The error a plain `new Error(message)` thrown inside the helpers translates to. */
  function ThrownText(message: string): string {
    TranslateError(JsError(None, message))
  }

  /**
   * `storeMessage`: validates, obtains a signer, estimates gas for the
   * trimmed message, and sends the trimmed message with the buffered gas
   * limit.  Validation failures are reported before any contract call;
   * every failure after validation is translated by `TranslateError`.
   */
  function StoreMessage(provider: Option<Provider>, m: string): (r: Submission)
    ensures ValidateMessage(m).Failure? ==> r == Submission(Failure(ValidateMessage(m).error), [])
    ensures |r.calls| <= 2
    ensures forall i :: 0 <= i < |r.calls| ==> r.calls[i].message == Trim(m)
    ensures |r.calls| >= 1 ==> r.calls[0].EstimateGas?
    ensures |r.calls| == 2 ==>
      && provider.Some? && provider.value.estimateGas(Trim(m)).Returns?
      && r.calls[1].StoreMessageTx?
      && r.calls[1].gasLimit == GasLimit(provider.value.estimateGas(Trim(m)).value)
    ensures r.outcome.Success? <==>
      && ValidateMessage(m).Success? && provider.Some?
      && provider.value.getSigner == Returns(true)
      && provider.value.estimateGas(Trim(m)).Returns?
      && provider.value.sendStoreMessage(Trim(m), GasLimit(provider.value.estimateGas(Trim(m)).value)).Returns?
    ensures r.outcome.Success? ==>
      |r.calls| == 2 && provider.value.sendStoreMessage(Trim(m), r.calls[1].gasLimit) == Returns(r.outcome.value)
    ensures ValidateMessage(m).Success? && provider.None? ==>
      r == Submission(Failure(ThrownText(ProviderMissingError)), [])
    ensures ValidateMessage(m).Success? && provider.Some? && provider.value.getSigner == Returns(false) ==>
      r == Submission(Failure(ThrownText(WalletMissingError)), [])
    ensures ValidateMessage(m).Success? && provider.Some? && provider.value.getSigner.Throws? ==>
      r == Submission(Failure(TranslateError(provider.value.getSigner.error)), [])
    ensures (ValidateMessage(m).Success? && provider.Some? && provider.value.getSigner == Returns(true) &&
             provider.value.estimateGas(Trim(m)).Throws?) ==>
      r == Submission(Failure(TranslateError(provider.value.estimateGas(Trim(m)).error)), [EstimateGas(Trim(m))])
    ensures (ValidateMessage(m).Success? && provider.Some? && provider.value.getSigner == Returns(true) &&
             provider.value.estimateGas(Trim(m)).Returns?) ==> |r.calls| == 2
    ensures |r.calls| == 2 && r.outcome.Failure? ==>
      && provider.value.sendStoreMessage(Trim(m), r.calls[1].gasLimit).Throws?
      && r.outcome.error == TranslateError(provider.value.sendStoreMessage(Trim(m), r.calls[1].gasLimit).error)
  {
    match ValidateMessage(m)
    case Failure(e) => Submission(Failure(e), [])
    case Success(t) =>
      match provider
      case None => Submission(Failure(ThrownText(ProviderMissingError)), [])
      case Some(p) =>
        match p.getSigner
        case Throws(e) => Submission(Failure(TranslateError(e)), [])
        case Returns(hasSigner) =>
          if !hasSigner then Submission(Failure(ThrownText(WalletMissingError)), [])
          else
            match p.estimateGas(t)
            case Throws(e) => Submission(Failure(TranslateError(e)), [EstimateGas(t)])
            case Returns(estimated) =>
              var limit := GasLimit(estimated);
              var calls := [EstimateGas(t), StoreMessageTx(t, limit)];
              match p.sendStoreMessage(t, limit)
              case Throws(e) => Submission(Failure(TranslateError(e)), calls)
              case Returns(tx) => Submission(Success(tx), calls)
  }

  /** The receipt the provider reports for a hash: none without a provider, when waiting throws, or when it resolves to null. */
  function ReceiptFor(provider: Option<Provider>, txHash: string): Option<Receipt> {
    if provider.Some? && provider.value.waitForTransaction(txHash).Returns?
    then provider.value.waitForTransaction(txHash).value
    else None
  }

  /**
   * `waitForMessageTransaction`: never fails.  It succeeds exactly when a
   * receipt exists with status 1; block number and gas used are reported
   * whenever a receipt exists, the gas as its decimal text.
   */
  function WaitForMessageTransaction(provider: Option<Provider>, txHash: string): (r: TxResult)
    ensures r.success <==> ReceiptFor(provider, txHash).Some? && ReceiptFor(provider, txHash).value.status == 1
    ensures ReceiptFor(provider, txHash).None? ==> r == TxResult(false, None, None)
    ensures ReceiptFor(provider, txHash).Some? ==>
      && r.blockNumber == Some(ReceiptFor(provider, txHash).value.blockNumber)
      && r.gasUsed.Some? && AllDigits(r.gasUsed.value) && r.gasUsed.value != []
      && (r.gasUsed.value[0] == '0' ==> r.gasUsed.value == "0")
      && DigitsValue(r.gasUsed.value) == ReceiptFor(provider, txHash).value.gasUsed
  {
    match provider
    case None => TxResult(false, None, None)
    case Some(p) =>
      match p.waitForTransaction(txHash)
      case Throws(_) => TxResult(false, None, None)
      case Returns(None) => TxResult(false, None, None)
      case Returns(Some(receipt)) =>
        DecimalRoundTrip(receipt.gasUsed);
        TxResult(receipt.status == 1, Some(receipt.blockNumber), Some(DecimalString(receipt.gasUsed)))
  }

  /**
   * `isContractAvailable`: false without a provider, true when probing
   * the contract's code fails (the demo keeps its interface visible), and
   * otherwise whether any code is deployed at the address.
   */
  function IsContractAvailable(provider: Option<Provider>): (available: bool)
    ensures provider.None? ==> !available
    ensures provider.Some? && provider.value.getCode(ContractAddress).Throws? ==> available
    ensures provider.Some? && provider.value.getCode(ContractAddress).Returns? ==>
      (available <==> provider.value.getCode(ContractAddress).value != "0x")
  {
    match provider
    case None => false
    case Some(p) =>
      match p.getCode(ContractAddress)
      case Throws(_) => true
      case Returns(code) => code != "0x"
  }

  /** `getContractAddress`: the fixed address of the demo contract. */
  function GetContractAddress(): (address: string)
    ensures |address| == 42 && StartsWith(address, "0x") && address != ZeroAddress
    ensures FormatAddress(address) == "0x1234...789A"
  {
    assert ContractAddress[..6] == "0x1234" && ContractAddress[38..] == "789A";
    assert ContractAddress[2] == '1' && ZeroAddress[2] == '0';
    ContractAddress
  }

  /**
   * `formatAddress`: "No sender" for an empty or zero address, otherwise
   * `address.slice(0, 6) + "..." + address.slice(-4)`, which is 13
   * characters for any address of at least 10.
   */
  function FormatAddress(address: string): (r: string)
    ensures r == NoSender <==> address == [] || address == ZeroAddress
    ensures r != NoSender ==>
      var head := if |address| < 6 then |address| else 6;
      var tail := if |address| < 4 then 0 else |address| - 4;
      && |r| == head + 3 + (|address| - tail)
      && r[..head] == address[..head] && r[head..head + 3] == "..." && r[head + 3..] == address[tail..]
    ensures address != [] && address != ZeroAddress && |address| >= 10 ==>
      |r| == 13 && r[..6] == address[..6] && r[6..9] == "..." && r[9..] == address[|address| - 4..]
  {
    if address == [] || address == ZeroAddress then NoSender
    else
      var head := if |address| < 6 then |address| else 6;
      var tail := if |address| < 4 then 0 else |address| - 4;
      var r := address[..head] + "..." + address[tail..];
      assert r[head] == '.' && '.' !in NoSender;
      r
  }

  /**
   * The contracts page trims before calling `storeMessage`, after checking
   * the untrimmed length; the helper's own checks then always pass, and
   * trimming again changes nothing.
   */
  lemma PageCheckedTextPassesValidation(m: string)
    requires !IsBlank(m) && |m| <= MaxMessageLength
    ensures ValidateMessage(Trim(m)) == Success(Trim(m))
  {
    TrimIdempotent(m);
  }

  /**
   * The 280-character limit counts white space that trimming would drop:
   * a message at most 280 long, padded past the limit with trailing
   * spaces, is refused although its trimmed text is unchanged.
   */
  lemma TrailingWhiteSpaceCountsTowardsLimit(m: string, w: string)
    requires !IsBlank(m) && AllWhiteSpace(w) && |m + w| > MaxMessageLength
    ensures Trim(m + w) == Trim(m)
    ensures ValidateMessage(m + w) == Failure(TooLongError)
  {
    TrimIgnoresAppendedWhiteSpace(m, w);
  }
}
