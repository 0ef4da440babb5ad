/**
 * The smart-contract page: the user types a message, the page checks it,
 * submits it through the contract helpers, and follows the transaction
 * from pending to confirmed or failed.
 */
module Contracts {
  import opened Wrappers
  import opened Text
  import opened SmartContract
  import opened Ui

  /** The page's transaction panel. */
  datatype TxStatus = TxStatus(status: Phase, hash: Option<string>, blockNumber: Option<nat>, gasUsed: Option<string>)

  const IdleStatus: TxStatus := TxStatus(Idle, None, None, None)
  const PendingStatus: TxStatus := TxStatus(Pending, None, None, None)
  const FailedStatus: TxStatus := TxStatus(Failed, None, None, None)

  /** The stored message as last read, with the time of the read. */
  datatype ContractState = ContractState(message: string, sender: string, lastUpdated: Option<int>)

  const MessageRequiredToast: Toast := Toast("Message Required", "Please enter a message to store.", true)
  const MessageTooLongToast: Toast := Toast("Message Too Long", "Message must be 280 characters or less.", true)
  const TransactionSentToast: Toast := Toast("Transaction Sent!", "Your message is being stored on the blockchain.", false)
  const MessageStoredToast: Toast :=
    Toast("Message Stored!", "Your message has been permanently stored on the blockchain.", false)
  const TransactionFailedToast: Toast := Toast("Transaction Failed", "The transaction was not successful.", true)

  function InteractionFailedToast(errorMessage: string): Toast {
    Toast("Contract Interaction Failed", OrElse(errorMessage, "Failed to store message. Please try again."), true)
  }

  /** The state a finished read leaves in the page. */
  function Loaded(stored: StoredMessage, now: int): ContractState {
    ContractState(stored.message, stored.sender, Some(now))
  }

  /** The "Store Message" button is disabled while writing, while pending, or for a blank message. */
  predicate StoreButtonDisabled(isWriting: bool, tx: TxStatus, newMessage: string) {
    isWriting || tx.status == Pending || IsBlank(newMessage)
  }

  /** The "Last updated by" line appears only for a known, non-zero sender. */
  predicate ShowsLastUpdatedBy(state: ContractState) {
    state.sender != [] && state.sender != ZeroAddress
  }

  /** The line never reads "Last updated by: No sender". */
  lemma LastUpdatedByShowsAnAddress(state: ContractState)
    requires ShowsLastUpdatedBy(state)
    ensures FormatAddress(state.sender) != NoSender
  {
  }

  /** After a read whose sender is empty, the placeholder zero address hides the line. */
  lemma EmptySenderHidesLastUpdatedBy(provider: Option<Provider>, now: int)
    requires ReadsBoth(provider) && provider.value.getMessageSender.value == []
    ensures !ShowsLastUpdatedBy(Loaded(ReadMessage(provider), now))
  {
  }

  class ContractsPage {
    var account: Option<string>
    var contractState: ContractState
    var newMessage: string
    var txStatus: TxStatus
    var isReading: bool
    var isWriting: bool
    /** Every value handed to the transaction-status setter, in order. */
    ghost var statusLog: seq<TxStatus>

    constructor ()
      ensures account == None && contractState == ContractState([], [], None) && newMessage == []
      ensures txStatus == IdleStatus && !isReading && !isWriting && statusLog == []
    {
      account := None;
      contractState := ContractState([], [], None);
      newMessage := [];
      txStatus := IdleStatus;
      isReading, isWriting := false, false;
      statusLog := [];
    }

    /** `!account` is false: an account is known and is not the empty string. */
    predicate Connected()
      reads this
    {
      account.Some? && account.value != []
    }

    /** The three checks `handleStoreMessage` makes before submitting. */
    predicate GuardsPass()
      reads this
    {
      Connected() && !IsBlank(newMessage) && |newMessage| <= MaxMessageLength
    }

    /** No handler is half-way: nothing is being read or written and no transaction is pending. */
    predicate Settled()
      reads this
    {
      !isReading && !isWriting && txStatus.status != Pending
    }

    /** `checkConnection`: records the account the wallet reports, if any. */
    method CheckConnection(current: Option<string>)
      modifies this`account
      ensures account == current
    {
      account := current;
    }

    method SetTxStatus(s: TxStatus)
      modifies this`txStatus, this`statusLog
      ensures txStatus == s && statusLog == old(statusLog) + [s]
    {
      txStatus := s;
      statusLog := statusLog + [s];
    }

    /** `loadContractState`: reads the contract and stamps the result with the current time. */
    method LoadContractState(provider: Option<Provider>, now: int)
      modifies this`isReading, this`contractState
      ensures contractState == Loaded(ReadMessage(provider), now)
      ensures contractState.message != [] && contractState.sender != []
      ensures !isReading
    {
      isReading := true;
      var state := ReadMessage(provider);
      contractState := Loaded(state, now);
      isReading := false;
    }

    /**
     * `handleStoreMessage`.  Checks, in order, the wallet, a blank message
     * and the untrimmed length; a failed check only raises its toast and
     * changes nothing.  Otherwise the message is submitted (`Submit`).
     */
    method HandleStoreMessage(provider: Option<Provider>, now: int) returns (toasts: seq<Toast>)
      modifies this`txStatus, this`statusLog, this`newMessage, this`isWriting, this`isReading, this`contractState
      ensures !old(Connected()) ==> toasts == [WalletNotConnectedToast]
      ensures old(Connected()) && old(IsBlank(newMessage)) ==> toasts == [MessageRequiredToast]
      ensures old(Connected()) && !old(IsBlank(newMessage)) && old(|newMessage|) > MaxMessageLength ==>
        toasts == [MessageTooLongToast]
      ensures !old(GuardsPass()) ==>
        && txStatus == old(txStatus) && statusLog == old(statusLog) && isWriting == old(isWriting)
        && newMessage == old(newMessage) && contractState == old(contractState) && isReading == old(isReading)
      ensures old(GuardsPass()) ==>
        Submitted(StoreMessage(provider, Trim(old(newMessage))).outcome, provider, now,
                  old(newMessage), old(statusLog), old(contractState), old(isReading), toasts)
      ensures old(GuardsPass()) ==> !isWriting
      ensures old(GuardsPass()) ==> txStatus.status == Confirmed || txStatus.status == Failed
      ensures old(GuardsPass()) ==> (txStatus.status == Confirmed <==> newMessage == [])
      ensures old(GuardsPass()) && txStatus.status == Failed ==> txStatus.hash.None?
      ensures old(GuardsPass()) ==> (!StoreButtonDisabled(isWriting, txStatus, newMessage) <==> txStatus.status == Failed)
      ensures old(Settled()) ==> Settled()
    {
      if !Connected() {
        toasts := [WalletNotConnectedToast];
        return;
      }
      if IsBlank(newMessage) {
        toasts := [MessageRequiredToast];
        return;
      }
      if |newMessage| > MaxMessageLength {
        toasts := [MessageTooLongToast];
        return;
      }
      toasts := Submit(StoreMessage(provider, Trim(newMessage)).outcome, provider, now);
    }

    /**
     * The state after the contract helper answered `outcome` for `typed`:
     * the status log gains pending, then (once sent) pending with the
     * hash, then the final status.  A failed submission keeps the input
     * and reports no hash.
     */
    ghost predicate Submitted(outcome: Result<TxResponse, string>, provider: Option<Provider>, now: int, typed: string,
                              log0: seq<TxStatus>, state0: ContractState, reading0: bool, toasts: seq<Toast>)
      reads this`txStatus, this`statusLog, this`newMessage, this`contractState, this`isReading
    {
      match outcome
      case Failure(error) =>
        && txStatus == FailedStatus && statusLog == log0 + [PendingStatus, FailedStatus]
        && newMessage == typed && contractState == state0 && isReading == reading0
        && toasts == [InteractionFailedToast(error)]
      case Success(tx) =>
        Awaited(provider, now, tx.hash, typed, log0 + [PendingStatus], state0, reading0, toasts)
    }

    /**
     * The state after waiting for the transaction `hash`: the status
     * shows the hash while pending; a confirmed transaction clears the
     * input and re-reads the contract, a failed one keeps the input and
     * reports no hash.
     */
    ghost predicate Awaited(provider: Option<Provider>, now: int, hash: string, typed: string,
                            log0: seq<TxStatus>, state0: ContractState, reading0: bool, toasts: seq<Toast>)
      reads this`txStatus, this`statusLog, this`newMessage, this`contractState, this`isReading
    {
      var result := WaitForMessageTransaction(provider, hash);
      var sent := TxStatus(Pending, Some(hash), None, None);
      if result.success then
        && txStatus == TxStatus(Confirmed, Some(hash), result.blockNumber, result.gasUsed)
        && statusLog == log0 + [sent, txStatus]
        && newMessage == [] && contractState == Loaded(ReadMessage(provider), now) && !isReading
        && toasts == [TransactionSentToast, MessageStoredToast]
      else
        && txStatus == FailedStatus && statusLog == log0 + [sent, FailedStatus]
        && newMessage == typed && contractState == state0 && isReading == reading0
        && toasts == [TransactionSentToast, TransactionFailedToast]
    }

    /**
     * Lines 113-168 of the handler, entered once the three checks have
     * passed and the contract helper has answered `outcome`.
     */
    method Submit(outcome: Result<TxResponse, string>, provider: Option<Provider>, now: int) returns (toasts: seq<Toast>)
      requires newMessage != []
      modifies this`txStatus, this`statusLog, this`newMessage, this`isWriting, this`isReading, this`contractState
      ensures Submitted(outcome, provider, now, old(newMessage), old(statusLog), old(contractState), old(isReading), toasts)
      ensures !isWriting && (txStatus.status == Confirmed || txStatus.status == Failed)
      ensures txStatus.status == Confirmed <==> newMessage == []
      ensures txStatus.status == Failed ==> txStatus.hash.None? && newMessage == old(newMessage)
      ensures !isReading || isReading == old(isReading)
    {
      isWriting := true;
      SetTxStatus(PendingStatus);
      match outcome {
        case Failure(error) =>
          SetTxStatus(FailedStatus);
          toasts := [InteractionFailedToast(error)];
        case Success(tx) =>
          toasts := Await(provider, now, tx.hash);
      }
      isWriting := false;
    }

    /** Lines 120-156: show the hash, wait for the receipt, and settle the status. */
    method Await(provider: Option<Provider>, now: int, hash: string) returns (toasts: seq<Toast>)
      requires newMessage != []
      modifies this`txStatus, this`statusLog, this`newMessage, this`isReading, this`contractState
      ensures Awaited(provider, now, hash, old(newMessage), old(statusLog), old(contractState), old(isReading), toasts)
      ensures txStatus.status == Confirmed || txStatus.status == Failed
      ensures txStatus.status == Confirmed <==> newMessage == []
      ensures txStatus.status == Failed ==> txStatus.hash.None? && newMessage == old(newMessage)
      ensures !isReading || isReading == old(isReading)
    {
      SetTxStatus(TxStatus(Pending, Some(hash), None, None));
      toasts := [TransactionSentToast];
      var result := WaitForMessageTransaction(provider, hash);
      if result.success {
        SetTxStatus(TxStatus(Confirmed, Some(hash), result.blockNumber, result.gasUsed));
        toasts := toasts + [MessageStoredToast];
        newMessage := [];
        LoadContractState(provider, now);
      } else {
        SetTxStatus(FailedStatus);
        toasts := toasts + [TransactionFailedToast];
      }
    }

    /** `resetTransaction`: back to idle with an empty input. */
    method ResetTransaction()
      modifies this`txStatus, this`statusLog, this`newMessage
      ensures txStatus == IdleStatus && statusLog == old(statusLog) + [IdleStatus] && newMessage == []
      ensures old(Settled()) ==> Settled()
      ensures StoreButtonDisabled(isWriting, txStatus, newMessage)
    {
      SetTxStatus(IdleStatus);
      newMessage := [];
    }
  }
}
