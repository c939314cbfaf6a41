/**
 * The vault client component: its state slots, the wallet's event handlers,
 * the connect action, the contract gate and poller effects, the refresh,
 * and the two write actions (keepAlive and setBeneficiary).
 *
 * Every wallet or chain call is replaced by its outcome, given as a
 * parameter, so each handler runs as one atomic update of the slots.
 * React's effects are methods too: an effect's body runs only when one of
 * its dependencies differs, by identity, from the value recorded at the
 * effect's previous run, and `Commit` runs both effects the way React does
 * after a state change. Object identities (signers, contracts, interval
 * ids) are serial numbers drawn from `nextSerial`.
 */
module VaultApp {
  import opened Wrappers
  import opened JsNumber
  import opened WalletSession

  /**
   * The texts the status and error slots can hold. Both slots start empty and
   * are only ever overwritten, never cleared.
   */
  datatype Message =
    | Empty
    | NoWalletMsg | ConnectedMsg | ConnectFailedMsg | LoadFailedMsg
    | KeepAlivePendingMsg | KeepAliveDoneMsg | KeepAliveFailedMsg
    | InvalidAddressMsg | BeneficiaryPendingMsg | BeneficiaryDoneMsg | BeneficiaryFailedMsg

  /** The text on display for each message. */
  function Text(m: Message): string {
    match m
    case Empty => ""
    case NoWalletMsg => "No Ethereum wallet detected."
    case ConnectedMsg => "Wallet connected."
    case ConnectFailedMsg => "Wallet connection failed."
    case LoadFailedMsg => "Failed to load contract data."
    case KeepAlivePendingMsg => "Sending keepAlive..."
    case KeepAliveDoneMsg => "keepAlive successful."
    case KeepAliveFailedMsg => "keepAlive failed."
    case InvalidAddressMsg => "Invalid address."
    case BeneficiaryPendingMsg => "Setting beneficiary..."
    case BeneficiaryDoneMsg => "Beneficiary set successfully."
    case BeneficiaryFailedMsg => "Failed to set beneficiary."
  }

  /** Distinct messages display distinct texts. */
  lemma TextInjective(a: Message, b: Message)
    requires Text(a) == Text(b)
    ensures a == b
  {
  }

  /** A signer from `provider.getSigner()`; a new one has a new serial. */
  datatype Signer = Signer(serial: nat)

  /** An `ethers.Contract` built over a signer; a new one has a new serial. */
  datatype Contract = Contract(serial: nat, signer: Signer)

  /** The four vault fields on display. */
  datatype Snapshot = Snapshot(timeLeft: nat, balance: string, owner: string, beneficiary: string)

  /**
   * What the four reads of one refresh (status, balance, owner, beneficiary)
   * give together: all four values, or a failure of any of them.
   */
  datatype Reads = Loaded(snapshot: Snapshot) | ReadFailed

  /** A write's fate: confirmed, refused when submitted, or failed while awaiting `tx.wait()`. */
  datatype Submission = Confirmed | SubmissionFailed | ConfirmationFailed

  /** The calls the component makes to the wallet or the chain. */
  datatype Request = RequestAccounts | GetNetwork | ReadVault | KeepAlive | SetBeneficiary(address: string)

  /** What the component does that can be observed from outside, in order. */
  datatype Effect = Sent(request: Request) | ShowStatus(message: Message) | ShowError(message: Message)

  /** The snapshot after one refresh: the four new values together, or the old four. */
  function AfterRefresh(prev: Snapshot, result: Reads): Snapshot {
    if result.Loaded? then result.snapshot else prev
  }

  /** The error slot after one refresh. */
  function ErrorAfterRefresh(prev: Message, result: Reads): Message {
    if result.ReadFailed? then LoadFailedMsg else prev
  }

  /** The effects of one refresh: one read request, then the error if it failed. */
  function RefreshEffects(result: Reads): seq<Effect> {
    if result.ReadFailed? then [Sent(ReadVault), ShowError(LoadFailedMsg)] else [Sent(ReadVault)]
  }

  class App {
    // The component's state slots. `hasProvider` is the provider slot: a
    // provider exists exactly when the browser injected a wallet.
    var hasProvider: bool
    var signer: Option<Signer>
    var walletAddress: string
    var networkId: Option<JsInt>
    var contract: Option<Contract>
    var contractBalance: string
    var timeLeft: nat
    var owner: string
    var beneficiary: string
    var beneficiaryInput: string
    var statusMsg: Message
    var errorMsg: Message

    // The dependencies React recorded when each effect last ran.
    var gateSigner: Option<Signer>
    var gateNetwork: Option<JsInt>
    var pollerContract: Option<Contract>

    // The interval the poller effect's cleanup will clear, and the intervals
    // the browser still fires.
    var interval: Option<nat>
    var liveIntervals: set<nat>

    var nextSerial: nat
    ghost var effects: seq<Effect>

    /** The class invariant: the gate part, and the poller's timer part. */
    ghost predicate Valid()
      reads this`hasProvider, this`signer, this`contract, this`nextSerial
      reads this`gateSigner, this`gateNetwork, this`pollerContract, this`interval, this`liveIntervals
    {
      && (signer.Some? ==> hasProvider && signer.value.serial < nextSerial)
      && GateValid()
      && TimerValid()
    }

    /** The contract exists exactly when the gate was open at the gate effect's last run, over its signer. */
    ghost predicate GateValid()
      reads this`contract, this`nextSerial, this`gateSigner, this`gateNetwork
    {
      && (contract.Some? <==> GateOpen(Session(gateSigner.Some?, gateNetwork)))
      && (contract.Some? ==> gateSigner == Some(contract.value.signer) && contract.value.serial < nextSerial)
    }

    /** An interval is armed exactly when the poller last ran with a contract, and it is the only live one. */
    ghost predicate TimerValid()
      reads this`nextSerial, this`pollerContract, this`interval, this`liveIntervals
    {
      && (interval.Some? <==> pollerContract.Some?)
      && (interval.Some? ==> interval.value < nextSerial)
      && liveIntervals == (if interval.Some? then {interval.value} else {})
    }

    /** Both effects have run since the last change of their dependencies. */
    ghost predicate Settled()
      reads this`signer, this`networkId, this`contract, this`gateSigner, this`gateNetwork, this`pollerContract
    {
      gateSigner == signer && gateNetwork == networkId && pollerContract == contract
    }

    /** The two slots the gate reads. */
    function SessionView(): Session
      reads this`signer, this`networkId
    {
      Session(signer.Some?, networkId)
    }

    function SnapshotView(): Snapshot
      reads this`timeLeft, this`contractBalance, this`owner, this`beneficiary
    {
      Snapshot(timeLeft, contractBalance, owner, beneficiary)
    }

    /**
     * Mounting: the initial slot values, the gate and poller effects' first
     * runs (which find no signer and no contract), and the setup effect,
     * which needs an injected wallet to create a provider and ask it for
     * the current network.
     */
    constructor (walletInjected: bool)
      ensures Valid() && Settled()
      ensures hasProvider == walletInjected
      ensures signer.None? && walletAddress == "" && networkId.None? && contract.None?
      ensures SnapshotView() == Snapshot(0, "0", "", "")
      ensures beneficiaryInput == "" && statusMsg == Empty
      ensures errorMsg == if walletInjected then Empty else NoWalletMsg
      ensures liveIntervals == {}
      ensures effects == if walletInjected then [Sent(GetNetwork)] else [ShowError(NoWalletMsg)]
    {
      signer, walletAddress, networkId, contract := None, "", None, None;
      contractBalance, timeLeft, owner, beneficiary := "0", 0, "", "";
      beneficiaryInput, statusMsg, errorMsg := "", Empty, Empty;
      gateSigner, gateNetwork, pollerContract := None, None, None;
      interval, liveIntervals, nextSerial := None, {}, 0;
      hasProvider := walletInjected;
      if walletInjected {
        effects := [Sent(GetNetwork)];
      } else {
        errorMsg := NoWalletMsg;
        effects := [ShowError(NoWalletMsg)];
      }
    }

    /** The provider's answer to the setup effect's network query. */
    method OnNetworkDetected(chainId: int)
      requires Valid() && hasProvider
      modifies this`networkId
      ensures Valid()
      ensures networkId == Some(Int(chainId))
      ensures SessionView() == Step(old(SessionView()), NetworkDetected(chainId))
    {
      networkId := Some(Int(chainId));
    }

    /** The wallet's `chainChanged` event, whose payload is the id in base 16. */
    method OnChainChanged(chainIdHex: string)
      requires Valid() && hasProvider
      modifies this`networkId
      ensures Valid()
      ensures networkId == Some(ParseInt16(chainIdHex))
      ensures SessionView() == Step(old(SessionView()), ChainChanged(chainIdHex))
    {
      networkId := Some(ParseInt16(chainIdHex));
    }

    /** The wallet's `accountsChanged` event. */
    method OnAccountsChanged(accounts: seq<string>)
      requires Valid() && hasProvider
      modifies this`walletAddress, this`signer, this`nextSerial
      ensures Valid()
      ensures |accounts| > 0 ==> walletAddress == accounts[0]
                                 && signer == Some(Signer(old(nextSerial))) && signer != old(signer)
                                 && nextSerial == old(nextSerial) + 1
      ensures |accounts| == 0 ==> walletAddress == "" && signer.None? && nextSerial == old(nextSerial)
      ensures SessionView() == Step(old(SessionView()), AccountsChanged(accounts))
    {
      if |accounts| > 0 {
        AdoptAccount(accounts[0]);
      } else {
        walletAddress := "";
        signer := None;
      }
    }

    /**
     * `setWalletAddress(address)` with `setSigner(provider.getSigner())`:
     * every call to `getSigner` gives a new signer object.
     */
    method AdoptAccount(address: string)
      requires Valid() && hasProvider
      modifies this`walletAddress, this`signer, this`nextSerial
      ensures Valid()
      ensures walletAddress == address && signer == Some(Signer(old(nextSerial)))
      ensures nextSerial == old(nextSerial) + 1
    {
      walletAddress := address;
      signer := Some(Signer(nextSerial));
      nextSerial := nextSerial + 1;
    }

    /**
     * `connectWallet`, given what `eth_requestAccounts` gave back. Without a
     * provider the call itself throws, which the handler reports like a refusal.
     */
    method ConnectWallet(outcome: ConnectOutcome)
      requires Valid()
      modifies this`walletAddress, this`signer, this`statusMsg, this`errorMsg, this`nextSerial, this`effects
      ensures Valid()
      ensures !hasProvider || outcome.Failed? ==>
                && walletAddress == old(walletAddress) && signer == old(signer)
                && statusMsg == old(statusMsg) && errorMsg == ConnectFailedMsg
                && nextSerial == old(nextSerial)
      ensures hasProvider && outcome == Granted([]) ==>
                && walletAddress == old(walletAddress) && signer == old(signer)
                && statusMsg == old(statusMsg) && errorMsg == old(errorMsg)
                && nextSerial == old(nextSerial)
      ensures hasProvider && outcome.Granted? && outcome.accounts != [] ==>
                && walletAddress == outcome.accounts[0]
                && signer == Some(Signer(old(nextSerial))) && signer != old(signer)
                && statusMsg == ConnectedMsg && errorMsg == old(errorMsg)
                && nextSerial == old(nextSerial) + 1
      ensures !hasProvider ==> effects == old(effects) + [ShowError(ConnectFailedMsg)]
      ensures hasProvider && outcome.Failed? ==>
                effects == old(effects) + [Sent(RequestAccounts), ShowError(ConnectFailedMsg)]
      ensures hasProvider && outcome == Granted([]) ==> effects == old(effects) + [Sent(RequestAccounts)]
      ensures hasProvider && outcome.Granted? && outcome.accounts != [] ==>
                effects == old(effects) + [Sent(RequestAccounts), ShowStatus(ConnectedMsg)]
      ensures SessionView() == Step(old(SessionView()), Connected(if hasProvider then outcome else Failed))
    {
      if !hasProvider {
        errorMsg := ConnectFailedMsg;
        effects := effects + [ShowError(ConnectFailedMsg)];
        return;
      }
      match outcome
      case Failed =>
        errorMsg := ConnectFailedMsg;
        effects := effects + [Sent(RequestAccounts), ShowError(ConnectFailedMsg)];
      case Granted(accounts) =>
        if |accounts| > 0 {
          AdoptAccount(accounts[0]);
          statusMsg := ConnectedMsg;
          effects := effects + [Sent(RequestAccounts), ShowStatus(ConnectedMsg)];
        } else {
          effects := effects + [Sent(RequestAccounts)];
        }
    }

    /**
     * The contract gate: when the signer or the network changed, build a new
     * contract over the signer if the gate is open, otherwise drop it.
     */
    method GateEffect()
      requires Valid()
      modifies this`gateSigner, this`gateNetwork, this`contract, this`nextSerial
      ensures Valid()
      ensures gateSigner == signer && gateNetwork == networkId
      ensures contract.Some? <==> GateOpen(SessionView())
      ensures contract.Some? ==> contract.value.signer == signer.value
      ensures old(gateSigner) == signer && old(gateNetwork) == networkId ==>
                contract == old(contract) && nextSerial == old(nextSerial)
      ensures (old(gateSigner) != signer || old(gateNetwork) != networkId) && GateOpen(SessionView()) ==>
                contract == Some(Contract(old(nextSerial), signer.value)) && contract != old(contract)
                && nextSerial == old(nextSerial) + 1
      ensures !GateOpen(SessionView()) ==> nextSerial == old(nextSerial)
    {
      if gateSigner == signer && gateNetwork == networkId {
        return;
      }
      gateSigner, gateNetwork := signer, networkId;
      if GateOpen(SessionView()) {
        contract := Some(Contract(nextSerial, signer.value));
        nextSerial := nextSerial + 1;
      } else {
        contract := None;
      }
    }

    /**
     * `loadContractData` as run by a closure that captured `captured` as the
     * contract: nothing without one; otherwise the four reads, whose values
     * replace the snapshot together, or whose failure leaves it as it was
     * and reports the error.
     */
    method LoadContractData(captured: Option<Contract>, result: Reads)
      modifies this`timeLeft, this`contractBalance, this`owner, this`beneficiary, this`errorMsg, this`effects
      ensures captured.None? ==>
                SnapshotView() == old(SnapshotView()) && errorMsg == old(errorMsg) && effects == old(effects)
      ensures captured.Some? && result.Loaded? ==>
                SnapshotView() == result.snapshot && errorMsg == old(errorMsg)
      ensures captured.Some? && result.ReadFailed? ==>
                SnapshotView() == old(SnapshotView()) && errorMsg == LoadFailedMsg
      ensures captured.Some? ==> effects == old(effects) + RefreshEffects(result)
    {
      if captured.None? {
        return;
      }
      match result
      case Loaded(s) =>
        timeLeft := s.timeLeft;
        contractBalance := s.balance;
        owner := s.owner;
        beneficiary := s.beneficiary;
        effects := effects + [Sent(ReadVault)];
      case ReadFailed =>
        errorMsg := LoadFailedMsg;
        effects := effects + [Sent(ReadVault), ShowError(LoadFailedMsg)];
    }

    /**
     * The poller: when the contract changed, clear the previous interval;
     * then, if there is a contract, refresh once at once and arm a new
     * interval.
     */
    method PollerEffect(first: Reads)
      requires Valid()
      modifies this`pollerContract, this`interval, this`liveIntervals, this`nextSerial
      modifies this`timeLeft, this`contractBalance, this`owner, this`beneficiary, this`errorMsg, this`effects
      ensures Valid()
      ensures pollerContract == contract
      ensures interval.Some? <==> contract.Some?
      ensures old(pollerContract) == contract ==>
                && interval == old(interval) && liveIntervals == old(liveIntervals)
                && nextSerial == old(nextSerial) && SnapshotView() == old(SnapshotView())
                && errorMsg == old(errorMsg) && effects == old(effects)
      ensures old(pollerContract) != contract && old(interval).Some? ==> old(interval).value !in liveIntervals
      ensures old(pollerContract) != contract && contract.None? ==>
                && liveIntervals == {} && nextSerial == old(nextSerial)
                && SnapshotView() == old(SnapshotView()) && errorMsg == old(errorMsg) && effects == old(effects)
      ensures old(pollerContract) != contract && contract.Some? ==>
                && SnapshotView() == AfterRefresh(old(SnapshotView()), first)
                && errorMsg == ErrorAfterRefresh(old(errorMsg), first)
                && effects == old(effects) + RefreshEffects(first)
                && interval == Some(old(nextSerial)) && liveIntervals == {old(nextSerial)}
                && nextSerial == old(nextSerial) + 1
    {
      if pollerContract == contract {
        return;
      }
      ClearInterval();
      pollerContract := contract;
      if contract.Some? {
        LoadContractData(contract, first);
        SetInterval();
      }
    }

    /** The previous run's cleanup, `clearInterval` of the timer it armed, if any. */
    method ClearInterval()
      requires liveIntervals == if interval.Some? then {interval.value} else {}
      modifies this`interval, this`liveIntervals
      ensures interval.None? && liveIntervals == {}
      ensures old(interval).Some? ==> old(interval).value !in liveIntervals
    {
      if interval.Some? {
        liveIntervals := liveIntervals - {interval.value};
      }
      interval := None;
    }

    /** `setInterval`: the browser arms a timer under an id it has not handed out before. */
    method SetInterval()
      requires interval.None? && liveIntervals == {}
      modifies this`interval, this`liveIntervals, this`nextSerial
      ensures interval == Some(old(nextSerial)) && liveIntervals == {old(nextSerial)}
      ensures nextSerial == old(nextSerial) + 1
    {
      interval := Some(nextSerial);
      liveIntervals := liveIntervals + {nextSerial};
      nextSerial := nextSerial + 1;
    }

    /**
     * The commit after a state change: the gate effect, then the poller
     * effect (run again once the gate's new contract is committed).
     */
    method Commit(first: Reads)
      requires Valid()
      modifies this`gateSigner, this`gateNetwork, this`contract, this`nextSerial
      modifies this`pollerContract, this`interval, this`liveIntervals
      modifies this`timeLeft, this`contractBalance, this`owner, this`beneficiary, this`errorMsg, this`effects
      ensures Valid() && Settled()
      ensures contract.Some? <==> GateOpen(SessionView())
      ensures interval.Some? <==> contract.Some?
      ensures contract.None? ==> liveIntervals == {}
      ensures contract.Some? ==> |liveIntervals| == 1
      ensures contract == old(pollerContract) ==>
                SnapshotView() == old(SnapshotView()) && effects == old(effects)
      ensures contract != old(pollerContract) && contract.Some? ==>
                && SnapshotView() == AfterRefresh(old(SnapshotView()), first)
                && effects == old(effects) + RefreshEffects(first)
      ensures errorMsg == if contract != old(pollerContract) && contract.Some?
                          then ErrorAfterRefresh(old(errorMsg), first) else old(errorMsg)
      ensures old(Settled()) ==> contract == old(contract) && liveIntervals == old(liveIntervals)
      ensures contract != old(pollerContract) && contract.None? ==>
                SnapshotView() == old(SnapshotView()) && effects == old(effects)
      ensures contract != old(pollerContract) && old(interval).Some? ==> old(interval).value !in liveIntervals
    {
      GateEffect();
      PollerEffect(first);
    }

    /** One firing of the poller's interval: a refresh through the effect's closure. */
    method OnIntervalTick(id: nat, result: Reads)
      requires Valid() && id in liveIntervals
      modifies this`timeLeft, this`contractBalance, this`owner, this`beneficiary, this`errorMsg, this`effects
      ensures Valid()
      ensures SnapshotView() == AfterRefresh(old(SnapshotView()), result)
      ensures errorMsg == ErrorAfterRefresh(old(errorMsg), result)
      ensures effects == old(effects) + RefreshEffects(result)
    {
      assert interval.Some?;
      LoadContractData(pollerContract, result);
    }

    /**
     * `sendKeepAlive`: nothing without a contract; otherwise the pending
     * status, the submission, and either the success status and one refresh
     * or the failure message, which leaves the pending status on display.
     */
    method SendKeepAlive(submission: Submission, refresh: Reads)
      requires Valid()
      modifies this`statusMsg, this`errorMsg, this`effects
      modifies this`timeLeft, this`contractBalance, this`owner, this`beneficiary
      ensures Valid()
      ensures contract.None? ==>
                && statusMsg == old(statusMsg) && errorMsg == old(errorMsg)
                && SnapshotView() == old(SnapshotView()) && effects == old(effects)
      ensures contract.Some? && submission.Confirmed? ==>
                && statusMsg == KeepAliveDoneMsg
                && SnapshotView() == AfterRefresh(old(SnapshotView()), refresh)
                && errorMsg == ErrorAfterRefresh(old(errorMsg), refresh)
                && effects == old(effects) + [ShowStatus(KeepAlivePendingMsg), Sent(KeepAlive),
                                              ShowStatus(KeepAliveDoneMsg)] + RefreshEffects(refresh)
      ensures contract.Some? && !submission.Confirmed? ==>
                && statusMsg == KeepAlivePendingMsg && errorMsg == KeepAliveFailedMsg
                && SnapshotView() == old(SnapshotView())
                && effects == old(effects) + [ShowStatus(KeepAlivePendingMsg), Sent(KeepAlive),
                                              ShowError(KeepAliveFailedMsg)]
    {
      if contract.None? {
        return;
      }
      Transact(KeepAlive, KeepAlivePendingMsg, KeepAliveDoneMsg, KeepAliveFailedMsg, submission, refresh);
    }

    /**
     * The `try` block both write actions share: show `pending`, submit
     * `request` and await it; on success show `done` and refresh, on any
     * failure show `failed` in the error slot.
     */
    method Transact(request: Request, pending: Message, done: Message, failed: Message,
                    submission: Submission, refresh: Reads)
      requires contract.Some?
      modifies this`statusMsg, this`errorMsg, this`effects
      modifies this`timeLeft, this`contractBalance, this`owner, this`beneficiary
      ensures submission.Confirmed? ==>
                && statusMsg == done
                && SnapshotView() == AfterRefresh(old(SnapshotView()), refresh)
                && errorMsg == ErrorAfterRefresh(old(errorMsg), refresh)
                && effects == old(effects) + [ShowStatus(pending), Sent(request), ShowStatus(done)]
                                           + RefreshEffects(refresh)
      ensures !submission.Confirmed? ==>
                && statusMsg == pending && errorMsg == failed
                && SnapshotView() == old(SnapshotView())
                && effects == old(effects) + [ShowStatus(pending), Sent(request), ShowError(failed)]
    {
      statusMsg := pending;
      if submission.Confirmed? {
        statusMsg := done;
        effects := effects + [ShowStatus(pending), Sent(request), ShowStatus(done)];
        LoadContractData(contract, refresh);
      } else {
        errorMsg := failed;
        effects := effects + [ShowStatus(pending), Sent(request), ShowError(failed)];
      }
    }

    /** The beneficiary text field's change handler. */
    method OnBeneficiaryInput(text: string)
      requires Valid()
      modifies this`beneficiaryInput
      ensures Valid()
      ensures beneficiaryInput == text
    {
      beneficiaryInput := text;
    }

    /**
     * `setBeneficiaryAddress`, with `isAddress` standing for ethers'
     * address check: nothing without a contract; a rejected input reports
     * the error and sends nothing; otherwise the pending status, the
     * submission of the input, and either the success status and one
     * refresh or the failure message.
     */
    method SetBeneficiaryAddress(isAddress: string -> bool, submission: Submission, refresh: Reads)
      requires Valid()
      modifies this`statusMsg, this`errorMsg, this`effects
      modifies this`timeLeft, this`contractBalance, this`owner, this`beneficiary
      ensures Valid()
      ensures contract.None? ==>
                && statusMsg == old(statusMsg) && errorMsg == old(errorMsg)
                && SnapshotView() == old(SnapshotView()) && effects == old(effects)
      ensures contract.Some? && !isAddress(beneficiaryInput) ==>
                && statusMsg == old(statusMsg) && errorMsg == InvalidAddressMsg
                && SnapshotView() == old(SnapshotView())
                && effects == old(effects) + [ShowError(InvalidAddressMsg)]
      ensures contract.Some? && isAddress(beneficiaryInput) && submission.Confirmed? ==>
                && statusMsg == BeneficiaryDoneMsg
                && SnapshotView() == AfterRefresh(old(SnapshotView()), refresh)
                && errorMsg == ErrorAfterRefresh(old(errorMsg), refresh)
                && effects == old(effects) + [ShowStatus(BeneficiaryPendingMsg), Sent(SetBeneficiary(beneficiaryInput)),
                                              ShowStatus(BeneficiaryDoneMsg)] + RefreshEffects(refresh)
      ensures contract.Some? && isAddress(beneficiaryInput) && !submission.Confirmed? ==>
                && statusMsg == BeneficiaryPendingMsg && errorMsg == BeneficiaryFailedMsg
                && SnapshotView() == old(SnapshotView())
                && effects == old(effects) + [ShowStatus(BeneficiaryPendingMsg), Sent(SetBeneficiary(beneficiaryInput)),
                                              ShowError(BeneficiaryFailedMsg)]
    {
      if contract.None? {
        return;
      }
      if !isAddress(beneficiaryInput) {
        errorMsg := InvalidAddressMsg;
        effects := effects + [ShowError(InvalidAddressMsg)];
        return;
      }
      Transact(SetBeneficiary(beneficiaryInput), BeneficiaryPendingMsg, BeneficiaryDoneMsg, BeneficiaryFailedMsg,
               submission, refresh);
    }

    /**
     * The wrong-network banner is rendered whenever `WrongNetwork(networkId)`
     * holds. Once both effects have run, it is shown only when there is no
     * contract, and with a signer its absence means there is one.
     */
    lemma WrongNetworkBanner()
      requires Valid() && Settled()
      ensures WrongNetwork(networkId) ==> contract.None?
      ensures !WrongNetwork(networkId) && signer.Some? ==> contract.Some?
    {
    }
  }
}
