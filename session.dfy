/**
 * The wallet session as the contract gate sees it: whether the component
 * holds a signer, and what its `networkId` slot holds. The wallet's events
 * and the connect action rewrite these two slots; the gate opens exactly on
 * a signer and network 8453. The lemmas show that the gate's verdict after
 * any sequence of events depends only on the latest event that set each
 * slot, never on the history before it.
 */
module WalletSession {
  import opened Wrappers
  import opened JsNumber

  /** Base mainnet, the one network the vault contract is deployed on. */
  const BaseChainId := 8453

  /** `network` is the `networkId` slot: None is its initial null. */
  datatype Session = Session(signerPresent: bool, network: Option<JsInt>)

  predicate OnBaseChain(network: Option<JsInt>) {
    network == Some(Int(BaseChainId))
  }

  /**
   * The condition for the wrong-network banner, `networkId !== BASE_CHAIN_ID`.
   * It is shown while the network is still unknown (null) and after a payload
   * that reads as NaN, since neither is strictly equal to 8453.
   */
  predicate WrongNetwork(network: Option<JsInt>): (wrong: bool)
    ensures network.None? ==> wrong
    ensures network == Some(NaN) ==> wrong
    ensures !wrong <==> network == Some(Int(BaseChainId))
  {
    !OnBaseChain(network)
  }

  /**
   * The contract gate's condition, `signer && networkId === BASE_CHAIN_ID`: it
   * is never open while the banner is shown, and without the banner it is
   * open exactly when there is a signer.
   */
  predicate GateOpen(s: Session): (open: bool)
    ensures open ==> !WrongNetwork(s.network)
    ensures !WrongNetwork(s.network) ==> (open <==> s.signerPresent)
  {
    s.signerPresent && OnBaseChain(s.network)
  }

  /** What `eth_requestAccounts` gave back: the authorised accounts, or a thrown error. */
  datatype ConnectOutcome = Granted(accounts: seq<string>) | Failed

  /** Everything that writes the signer or the network slot. */
  datatype WalletEvent =
    | AccountsChanged(accounts: seq<string>)
    | ChainChanged(chainIdHex: string)
    | NetworkDetected(chainId: int)
    | Connected(outcome: ConnectOutcome)

  /**
   * The two slots after one event, as the handlers write them: each event
   * rewrites exactly the slot it carries evidence for and leaves the other alone.
   */
  function Step(s: Session, e: WalletEvent): (r: Session)
    ensures r.signerPresent == (if SignerSetBy(e).Some? then SignerSetBy(e).value else s.signerPresent)
    ensures r.network == (if NetworkSetBy(e).Some? then Some(NetworkSetBy(e).value) else s.network)
  {
    match e
    case AccountsChanged(accounts) => s.(signerPresent := |accounts| > 0)
    case ChainChanged(hex) => s.(network := Some(ParseInt16(hex)))
    case NetworkDetected(id) => s.(network := Some(Int(id)))
    case Connected(outcome) =>
      if outcome.Granted? && |outcome.accounts| > 0 then s.(signerPresent := true) else s
  }

  /** The two slots after a sequence of events, first event first. */
  function Replay(s: Session, events: seq<WalletEvent>): Session
    decreases |events|
  {
    if events == [] then s else Replay(Step(s, events[0]), events[1..])
  }

  /** The signer presence an event leaves behind, when it writes the signer slot at all. */
  function SignerSetBy(e: WalletEvent): Option<bool> {
    match e
    case AccountsChanged(accounts) => Some(|accounts| > 0)
    case Connected(Granted(accounts)) => if |accounts| > 0 then Some(true) else None
    case _ => None
  }

  /** The network id an event writes, when it writes the network slot at all. */
  function NetworkSetBy(e: WalletEvent): Option<JsInt> {
    match e
    case ChainChanged(hex) => Some(ParseInt16(hex))
    case NetworkDetected(id) => Some(Int(id))
    case _ => None
  }

  /** Signer presence as set by the last event that sets it, `initial` when none does. */
  function LatestSigner(initial: bool, events: seq<WalletEvent>): bool {
    if events == [] then initial
    else match SignerSetBy(events[|events| - 1])
      case Some(present) => present
      case None => LatestSigner(initial, events[..|events| - 1])
  }

  /** The network slot as set by the last event that sets it, `initial` when none does. */
  function LatestNetwork(initial: Option<JsInt>, events: seq<WalletEvent>): Option<JsInt> {
    if events == [] then initial
    else match NetworkSetBy(events[|events| - 1])
      case Some(id) => Some(id)
      case None => LatestNetwork(initial, events[..|events| - 1])
  }

  predicate SetsSigner(events: seq<WalletEvent>) {
    exists i :: 0 <= i < |events| && SignerSetBy(events[i]).Some?
  }

  predicate SetsNetwork(events: seq<WalletEvent>) {
    exists i :: 0 <= i < |events| && NetworkSetBy(events[i]).Some?
  }

  lemma {:induction false} ReplayAppend(s: Session, events: seq<WalletEvent>, e: WalletEvent)
    ensures Replay(s, events + [e]) == Step(Replay(s, events), e)
    decreases |events|
  {
    if events != [] {
      assert (events + [e])[1..] == events[1..] + [e];
      ReplayAppend(Step(s, events[0]), events[1..], e);
    }
  }

  lemma {:induction false} ReplayConcat(s: Session, past: seq<WalletEvent>, events: seq<WalletEvent>)
    ensures Replay(s, past + events) == Replay(Replay(s, past), events)
    decreases |past|
  {
    if past != [] {
      assert (past + events)[1..] == past[1..] + events;
      ReplayConcat(Step(s, past[0]), past[1..], events);
    } else {
      assert past + events == events;
    }
  }

  /** After any sequence of events each slot holds what the latest event writing it wrote. */
  lemma {:induction false} ReplayIsLatest(s: Session, events: seq<WalletEvent>)
    ensures Replay(s, events)
            == Session(LatestSigner(s.signerPresent, events), LatestNetwork(s.network, events))
    decreases |events|
  {
    if events != [] {
      var init := events[..|events| - 1];
      var last := events[|events| - 1];
      assert events == init + [last];
      ReplayAppend(s, init, last);
      ReplayIsLatest(s, init);
    }
  }

  /**
   * The gate is open after a sequence of events exactly when the latest
   * signer-setting event left a signer and the latest network-setting event
   * wrote 8453.
   */
  lemma GateFollowsLatest(s: Session, events: seq<WalletEvent>)
    ensures GateOpen(Replay(s, events))
            <==> LatestSigner(s.signerPresent, events) && OnBaseChain(LatestNetwork(s.network, events))
  {
    ReplayIsLatest(s, events);
  }

  lemma {:induction false} LatestSignerIgnoresInitial(a: bool, b: bool, events: seq<WalletEvent>)
    requires SetsSigner(events)
    ensures LatestSigner(a, events) == LatestSigner(b, events)
    decreases |events|
  {
    var init := events[..|events| - 1];
    if SignerSetBy(events[|events| - 1]).None? {
      var i :| 0 <= i < |events| && SignerSetBy(events[i]).Some?;
      assert init[i] == events[i];
      LatestSignerIgnoresInitial(a, b, init);
    }
  }

  lemma {:induction false} LatestNetworkIgnoresInitial(a: Option<JsInt>, b: Option<JsInt>, events: seq<WalletEvent>)
    requires SetsNetwork(events)
    ensures LatestNetwork(a, events) == LatestNetwork(b, events)
    decreases |events|
  {
    var init := events[..|events| - 1];
    if NetworkSetBy(events[|events| - 1]).None? {
      var i :| 0 <= i < |events| && NetworkSetBy(events[i]).Some?;
      assert init[i] == events[i];
      LatestNetworkIgnoresInitial(a, b, init);
    }
  }

  /**
   * Once a sequence of events has set both slots, the state it leaves, and so
   * the gate's verdict, is the same whatever came before it.
   */
  lemma HistoryIndependent(s: Session, past: seq<WalletEvent>, t: Session, events: seq<WalletEvent>)
    requires SetsSigner(events) && SetsNetwork(events)
    ensures Replay(s, past + events) == Replay(t, events)
    ensures GateOpen(Replay(s, past + events)) == GateOpen(Replay(t, events))
  {
    var mid := Replay(s, past);
    ReplayConcat(s, past, events);
    ReplayIsLatest(mid, events);
    ReplayIsLatest(t, events);
    LatestSignerIgnoresInitial(mid.signerPresent, t.signerPresent, events);
    LatestNetworkIgnoresInitial(mid.network, t.network, events);
  }

  /** Disconnecting (an empty account list) closes the gate whatever the network. */
  lemma DisconnectClosesGate(s: Session)
    ensures !GateOpen(Step(s, AccountsChanged([])))
  {
  }

  /** Switching to a network other than 8453 closes the gate whatever the signer. */
  lemma SwitchAwayClosesGate(s: Session, hex: string)
    requires ParseInt16(hex) != Int(BaseChainId)
    ensures !GateOpen(Step(s, ChainChanged(hex)))
  {
  }
}
