/** The MetaMask connection manager: a small state machine over the wallet's
    connection and network state, a per-event listener registry, and the
    provider requests it issues. Every provider round-trip takes its answer as
    a parameter (`Reply`); the connection timer is an explicit event
    (`FireConnectionTimeout`). Listeners are opaque callback identities; what
    each call delivered is kept in the `delivered` log, and every provider
    request issued in the `requests` log. */
module MetaMaskConnection {
  import opened Wrappers
  import opened Provider

  datatype ConnectionState = NotInstalled | Disconnected | Connecting | Connected | Error

  datatype NetworkState = Unknown | WrongNetwork | CorrectNetwork | Switching

  /** What `state.error` holds: a message the manager wrote, or the provider's
      error payload itself (the `disconnect` event stores the payload). */
  datatype ErrorValue = Message(text: string) | Payload(error: ProviderError)

  /** `this.state`. The balance is kept in wei; the source divides by 10^18. */
  datatype State = State(
    connectionState: ConnectionState,
    networkState: NetworkState,
    account: Option<string>,
    chainId: Option<string>,
    balance: Option<nat>,
    error: Option<ErrorValue>,
    isMetaMaskInstalled: bool,
    connectionAttempts: nat,
    lastConnectionTime: Option<int>)

  /** The chain definition sent with `wallet_addEthereumChain` (Coston2 testnet). */
  datatype NetworkParams = NetworkParams(
    chainId: string, chainName: string,
    currencyName: string, currencySymbol: string, decimals: nat,
    rpcUrls: seq<string>, blockExplorerUrls: seq<string>)

  const FlareNetworkParams: NetworkParams := NetworkParams(
    "0x72", "Coston2 Testnet", "Coston2 Flare", "C2FLR", 18,
    ["https://coston2-api.flare.network/ext/C/rpc"], ["https://coston2-explorer.flare.network"])

  /** The default `requiredNetwork` option. */
  const DefaultRequiredNetwork: string := FlareNetworkParams.chainId

  /** Transaction and call parameters as a string-keyed object. */
  type Params = map<string, string>

  /** The provider requests the manager issues, in EIP-1193 `request` terms. */
  datatype Request =
    | RequestAccounts                    // eth_requestAccounts
    | ChainIdQuery                       // eth_chainId
    | GetBalance(account: string)        // eth_getBalance(account, 'latest')
    | SwitchChain(chainId: string)       // wallet_switchEthereumChain
    | AddChain(network: NetworkParams)   // wallet_addEthereumChain
    | SendTransaction(tx: Params)        // eth_sendTransaction
    | Call(call: Params)                 // eth_call(params, 'latest')

  /** A subscribed callback, identified by reference. */
  type Listener = nat

  /** The listener lists, by event name. */
  type Listeners = map<string, seq<Listener>>

  /** The data a listener is called with. */
  datatype EventData =
    | StateData(state: State)
    | NetworkData(network: NetworkState)
    | AccountData(account: Option<string>)
    | ErrorData(error: ErrorValue)

  /** One listener call made by `triggerEvent`; `threw` records that the callback raised. */
  datatype Delivery = Delivery(listener: Listener, event: string, data: EventData, threw: bool)

  /** A method that either returns a value or throws. */
  datatype Outcome<+T> = Returned(value: T) | Threw(error: ErrorValue)

  /** The wallet's answers to one `switchToRequiredNetwork`: to the switch request,
      to the add-chain request (asked only after code 4902) and to the chain id
      re-read that follows a successful add. */
  datatype SwitchReplies = SwitchReplies(switchReply: Reply<()>, addReply: Reply<()>, chainReply: Reply<string>)

  const OnConnectionStateChanged: string := "onConnectionStateChanged"
  const OnNetworkStateChanged: string := "onNetworkStateChanged"
  const OnAccountChanged: string := "onAccountChanged"
  const OnError: string := "onError"

  /** The keys of `this.eventListeners`; `on` and `off` ignore any other name. */
  const ListenerKeys: set<string> := {OnConnectionStateChanged, OnNetworkStateChanged, OnAccountChanged, OnError}

  const NotInstalledMessage: string := "MetaMask is not installed"
  const TimeoutMessage: string := "Connection timeout"
  const NoAccountsMessage: string := "No accounts found"
  const UserRejectedConnectMessage: string := "User rejected the connection request"
  const UserRejectedSwitchMessage: string := "User rejected the request to switch networks"
  const NotConnectedMessage: string := "MetaMask not connected"
  const WrongNetworkMessage: string := "Not connected to the required network"

  /** The network state for an observed chain id: exact string comparison with the required one. */
  function NetworkStateFor(chainId: string, required: string): (n: NetworkState)
    ensures n == CorrectNetwork || n == WrongNetwork
    ensures n == CorrectNetwork <==> chainId == required
  {
    if chainId == required then CorrectNetwork else WrongNetwork
  }

  /** `listeners.filter(cb => cb !== callback)`. */
  function Without(listeners: seq<Listener>, callback: Listener): (r: seq<Listener>)
    ensures callback !in r
    ensures |r| <= |listeners|
    ensures forall x :: x in r ==> x in listeners
  {
    if |listeners| == 0 then []
    else if listeners[0] == callback then Without(listeners[1..], callback)
    else [listeners[0]] + Without(listeners[1..], callback)
  }

  /** `off` keeps every other listener, with its multiplicity. */
  lemma {:induction false} WithoutKeepsOthers(listeners: seq<Listener>, callback: Listener, x: Listener)
    requires x != callback
    ensures multiset(Without(listeners, callback))[x] == multiset(listeners)[x]
  {
    if |listeners| > 0 {
      WithoutKeepsOthers(listeners[1..], callback, x);
      assert listeners == [listeners[0]] + listeners[1..];
    }
  }

  /** `off` keeps the others in order: filtering distributes over concatenation. */
  lemma {:induction false} WithoutAppend(a: seq<Listener>, b: seq<Listener>, callback: Listener)
    ensures Without(a + b, callback) == Without(a, callback) + Without(b, callback)
  {
    if |a| > 0 {
      assert (a + b)[1..] == a[1..] + b;
      WithoutAppend(a[1..], b, callback);
    } else {
      assert a + b == b;
    }
  }

  /** Removing a callback that was never subscribed changes nothing. */
  lemma {:induction false} WithoutAbsent(listeners: seq<Listener>, callback: Listener)
    requires callback !in listeners
    ensures Without(listeners, callback) == listeners
  {
    if |listeners| > 0 {
      assert callback !in listeners[1..];
      WithoutAbsent(listeners[1..], callback);
    }
  }

  /** How a chain switch ends, given the wallet's answers: whether it succeeded,
      the error message it stores (None: `state.error` is left alone), the error
      payload it broadcasts, and the requests it issued. */
  datatype SwitchEnd = SwitchEnd(ok: bool, error: Option<ErrorValue>, broadcast: Option<ErrorValue>, requests: seq<Request>)

  /** The `try`/`catch` of `switchToRequiredNetwork`, past its guard. */
  function SwitchOutcome(replies: SwitchReplies, required: string): (e: SwitchEnd)
    ensures e.ok <==> replies.switchReply.Answer?
                      || (replies.switchReply.error.code == UnrecognizedChain
                          && replies.addReply.Answer? && replies.chainReply == Answer(required))
    ensures |e.requests| >= 1 && e.requests[0] == SwitchChain(required)
    ensures AddChain(FlareNetworkParams) in e.requests <==>
              replies.switchReply.Failed? && replies.switchReply.error.code == UnrecognizedChain
    ensures e.ok ==> e.error.None? && e.broadcast.None?
    ensures replies.switchReply.Failed? && replies.switchReply.error.code == UserRejectedRequest ==>
              e.error == Some(Message(UserRejectedSwitchMessage))
  {
    match replies.switchReply
    case Answer(_) => SwitchEnd(true, None, None, [SwitchChain(required)])
    case Failed(err) =>
      if err.code == UnrecognizedChain then
        var tried := [SwitchChain(required), AddChain(FlareNetworkParams)];
        match replies.addReply
        case Failed(addError) =>
          SwitchEnd(false, Some(Message(MessageOr(addError, "Failed to add network"))), Some(Payload(addError)), tried)
        case Answer(_) =>
          match replies.chainReply
          case Failed(readError) =>
            SwitchEnd(false, Some(Message(MessageOr(readError, "Failed to add network"))), Some(Payload(readError)), tried + [ChainIdQuery])
          case Answer(chainId) =>
            SwitchEnd(chainId == required, None, None, tried + [ChainIdQuery])
      else if err.code == UserRejectedRequest then
        SwitchEnd(false, Some(Message(UserRejectedSwitchMessage)), Some(Payload(err)), [SwitchChain(required)])
      else
        SwitchEnd(false, Some(Message(MessageOr(err, "Failed to switch network"))), Some(Payload(err)), [SwitchChain(required)])
  }

  /** The requests' `eth_sendTransaction` parameters, in order. */
  function Submitted(requests: seq<Request>): (txs: seq<Params>)
    ensures |txs| <= |requests|
  {
    if |requests| == 0 then []
    else (if requests[0].SendTransaction? then [requests[0].tx] else []) + Submitted(requests[1..])
  }

  lemma {:induction false} SubmittedAppend(a: seq<Request>, b: seq<Request>)
    ensures Submitted(a + b) == Submitted(a) + Submitted(b)
  {
    if |a| > 0 {
      assert (a + b)[1..] == a[1..] + b;
      SubmittedAppend(a[1..], b);
    } else {
      assert a + b == b;
    }
  }

  /** A chain switch never submits a transaction. */
  lemma SwitchSubmitsNothing(replies: SwitchReplies, required: string)
    ensures Submitted(SwitchOutcome(replies, required).requests) == []
  {
    var rs := SwitchOutcome(replies, required).requests;
    assert Submitted(rs[|rs| - 1..]) == [];
    if |rs| == 2 { assert Submitted(rs[1..]) == []; }
    if |rs| == 3 { assert Submitted(rs[1..]) == Submitted(rs[2..]) + []; }
  }

  /** Regrouping four appended logs. */
  lemma AppendRegroup<T>(a: seq<T>, b: seq<T>, c: seq<T>, d: seq<T>)
    ensures a + b + c + d == a + (b + c + d)
  {
  }

  /** Regrouping three appended logs. */
  lemma AppendAssoc<T>(a: seq<T>, b: seq<T>, c: seq<T>)
    ensures a + b + c == a + (b + c)
  {
  }

  /** What one operation does: the state it leaves, and the provider requests and listener
      calls it adds, in order. */
  datatype Effect = Effect(state: State, requests: seq<Request>, delivered: seq<Delivery>)

  /** `!!state.account`: an account is held and it is not the empty string. */
  predicate HasAccountIn(s: State) {
    s.account.Some? && s.account.value != ""
  }

  /** `getAccountBalance` from state `s`: no request without an account; otherwise one balance
      request for the account, whose answer (in wei) is stored and whose failure changes nothing. */
  function BalanceEffect(s: State, reply: Reply<nat>): (fx: Effect)
    ensures fx.delivered == []
    ensures !HasAccountIn(s) ==> fx.state == s && fx.requests == []
    ensures HasAccountIn(s) ==> fx.requests == [GetBalance(s.account.value)]
    ensures fx.state == (if HasAccountIn(s) && reply.Answer? then s.(balance := Some(reply.value)) else s)
  {
    if !HasAccountIn(s) then Effect(s, [], [])
    else match reply
      case Answer(wei) => Effect(s.(balance := Some(wei)), [GetBalance(s.account.value)], [])
      case Failed(_) => Effect(s, [GetBalance(s.account.value)], [])
  }

  class Manager {
    /** `this.state`. */
    var state: State
    /** `this.eventListeners`. */
    var eventListeners: Listeners
    /** Whether the connection timer is set and not yet cleared or fired. */
    var connectionTimerArmed: bool
    /** Every listener call made, in order. */
    var delivered: seq<Delivery>
    /** Every provider request issued, in order. */
    var requests: seq<Request>

    /** `options.requiredNetwork` and `options.autoSwitchNetwork`. */
    const requiredNetwork: string
    const autoSwitchNetwork: bool
    /** The subscribed callbacks that throw when called (their behaviour is outside the manager). */
    const throwers: set<Listener>

    /** The manager's invariant: the four listener keys, and an account whenever connected. */
    ghost predicate Valid()
      reads this
    {
      eventListeners.Keys == ListenerKeys
      && (state.connectionState == Connected ==> state.account.Some?)
    }

    /** `!this.state.account` is false: an account is held and is not the empty string. */
    predicate HasAccount()
      reads this
    {
      HasAccountIn(state)
    }

    /** The calls made to `callbacks` for one event, in order; a listener in `throwers` throws. */
    function Deliveries(callbacks: seq<Listener>, event: string, data: EventData): seq<Delivery>
    {
      if callbacks == [] then []
      else
        var last := callbacks[|callbacks| - 1];
        Deliveries(callbacks[..|callbacks| - 1], event, data) + [Delivery(last, event, data, last in throwers)]
    }

    /** The calls `triggerEvent(event, data)` makes: every listener under `event`. */
    function Emit(ls: Listeners, event: string, data: EventData): seq<Delivery>
    {
      if event in ls then Deliveries(ls[event], event, data) else []
    }

    /** Every listener registered under `event` is called once with the data, in registration
        order, and a throwing listener does not stop the later ones; an unknown event reaches nobody. */
    lemma {:induction false} DeliveriesSpec(callbacks: seq<Listener>, event: string, data: EventData)
      ensures var ds := Deliveries(callbacks, event, data);
              |ds| == |callbacks|
              && forall i :: 0 <= i < |ds| ==> ds[i] == Delivery(callbacks[i], event, data, callbacks[i] in throwers)
    {
      if callbacks != [] {
        DeliveriesSpec(callbacks[..|callbacks| - 1], event, data);
      }
    }

    /** `triggerEvent` calls each listener under a known event once, in registration order, with a
        throwing listener caught; an unknown event name calls nobody. */
    lemma EmitSpec(ls: Listeners, event: string, data: EventData)
      ensures var ds := Emit(ls, event, data);
              (event in ls ==>
                 |ds| == |ls[event]|
                 && forall i :: 0 <= i < |ds| ==> ds[i] == Delivery(ls[event][i], event, data, ls[event][i] in throwers))
              && (event !in ls ==> ds == [])
    {
      if event in ls {
        DeliveriesSpec(ls[event], event, data);
      }
    }

    /** `switchToRequiredNetwork` from state `s`. Without a wallet or an account nothing happens.
        Otherwise the network passes through SWITCHING and ends CORRECT_NETWORK exactly when the
        switch succeeds; a failure may store an error and broadcast the provider's payload. The
        connection, the account, the chain id, the balance and the attempt count are untouched,
        and no transaction is submitted. */
    function SwitchEffect(ls: Listeners, s: State, replies: SwitchReplies): (fx: Effect)
    {
      if !(s.isMetaMaskInstalled && HasAccountIn(s)) then Effect(s, [], [])
      else
        var e := SwitchOutcome(replies, requiredNetwork);
        var after := s.(networkState := if e.ok then CorrectNetwork else WrongNetwork,
                        error := if e.error.Some? then e.error else s.error);
        Effect(after, e.requests,
               Emit(ls, OnNetworkStateChanged, NetworkData(Switching))
               + Emit(ls, OnNetworkStateChanged, NetworkData(after.networkState))
               + (if e.broadcast.Some? then Emit(ls, OnError, ErrorData(e.broadcast.value)) else []))
    }

    /** What `switchToRequiredNetwork` leaves: connection, account, chain id, balance, attempts and
        installation untouched; nothing without a wallet and an account; otherwise the network ends
        CORRECT_NETWORK exactly when the switch succeeds, the requests are those of the switch, and
        no transaction is submitted. */
    lemma SwitchEffectSpec(ls: Listeners, s: State, replies: SwitchReplies)
      ensures var fx := SwitchEffect(ls, s, replies);
              fx.state.connectionState == s.connectionState && fx.state.account == s.account
              && fx.state.chainId == s.chainId && fx.state.balance == s.balance
              && fx.state.connectionAttempts == s.connectionAttempts
              && (fx.state.isMetaMaskInstalled == s.isMetaMaskInstalled)
              && fx.state.lastConnectionTime == s.lastConnectionTime
              && (!(s.isMetaMaskInstalled && HasAccountIn(s)) ==> fx == Effect(s, [], []))
              && (s.isMetaMaskInstalled && HasAccountIn(s) ==>
                    (fx.state.networkState == CorrectNetwork <==> SwitchOutcome(replies, requiredNetwork).ok)
                    && fx.requests == SwitchOutcome(replies, requiredNetwork).requests)
              && Submitted(fx.requests) == []
    {
      SwitchSubmitsNothing(replies, requiredNetwork);
    }

    /** The `catch` of `connect` from state `s`: a user rejection (4001) disconnects, anything
        else is an ERROR; both store a message and broadcast the provider's payload. */
    function FailedEffect(ls: Listeners, s: State, err: ProviderError): (fx: Effect)
      ensures fx.state == s.(connectionState := if err.code == UserRejectedRequest then Disconnected else Error,
                             error := Some(Message(if err.code == UserRejectedRequest then UserRejectedConnectMessage
                                                   else MessageOr(err, "Unknown error"))))
      ensures fx.requests == []
    {
      var after := s.(connectionState := if err.code == UserRejectedRequest then Disconnected else Error,
                      error := Some(Message(if err.code == UserRejectedRequest then UserRejectedConnectMessage
                                            else MessageOr(err, "Unknown error"))));
      Effect(after, [], Emit(ls, OnConnectionStateChanged, StateData(after)) + Emit(ls, OnError, ErrorData(Payload(err))))
    }

    /** The first half of the success path of `connect`: the chain and its network state are
        recorded, the balance is read and the three changes are announced. */
    function AnnouncedEffect(ls: Listeners, s: State, chainId: string, balanceReply: Reply<nat>): (fx: Effect)
      ensures fx.state == BalanceEffect(s.(chainId := Some(chainId),
                                           networkState := NetworkStateFor(chainId, requiredNetwork)),
                                        balanceReply).state
      ensures fx.requests == (if HasAccountIn(s) then [GetBalance(s.account.value)] else [])
    {
      var read := s.(chainId := Some(chainId), networkState := NetworkStateFor(chainId, requiredNetwork));
      var b := BalanceEffect(read, balanceReply);
      Effect(b.state, b.requests,
             Emit(ls, OnConnectionStateChanged, StateData(b.state))
             + Emit(ls, OnNetworkStateChanged, NetworkData(b.state.networkState))
             + Emit(ls, OnAccountChanged, AccountData(b.state.account)))
    }

    /** The success path of `connect` once the chain id `chainId` has been read, from the state
        `s` that already holds the account: the chain and its network state are recorded, the
        balance is read, the three changes are announced, and on a wrong chain with auto-switch
        on the switch follows. */
    function ConnectedEffect(ls: Listeners, s: State, chainId: string, balanceReply: Reply<nat>,
                             switchReplies: SwitchReplies): (fx: Effect)
      requires s.connectionState == Connected && s.account.Some?
    {
      var a := AnnouncedEffect(ls, s, chainId, balanceReply);
      var sw := if chainId != requiredNetwork && autoSwitchNetwork then SwitchEffect(ls, a.state, switchReplies)
                else Effect(a.state, [], []);
      Effect(sw.state, a.requests + sw.requests, a.delivered + sw.delivered)
    }

    /** The success path of `connect` keeps the account and the connection, records the chain id;
        the network state is the plain comparison unless the automatic switch runs, in which case
        it is correct exactly when the switch succeeds; the requests are the balance request and
        the switch requests, in that order. */
    lemma ConnectedEffectSpec(ls: Listeners, s: State, chainId: string, balanceReply: Reply<nat>,
                              switchReplies: SwitchReplies)
      requires s.connectionState == Connected && s.account.Some?
      ensures var fx := ConnectedEffect(ls, s, chainId, balanceReply, switchReplies);
              fx.state.connectionState == Connected && fx.state.account == s.account
              && fx.state.chainId == Some(chainId)
              && fx.state.connectionAttempts == s.connectionAttempts
              && fx.state.isMetaMaskInstalled == s.isMetaMaskInstalled
              && fx.state.lastConnectionTime == s.lastConnectionTime
              && (!(chainId != requiredNetwork && autoSwitchNetwork && s.isMetaMaskInstalled && HasAccountIn(s)) ==>
                    fx.state.networkState == NetworkStateFor(chainId, requiredNetwork))
              && (chainId != requiredNetwork && autoSwitchNetwork && s.isMetaMaskInstalled && HasAccountIn(s) ==>
                    (fx.state.networkState == CorrectNetwork <==> SwitchOutcome(switchReplies, requiredNetwork).ok))
              && fx.requests == (if HasAccountIn(s) then [GetBalance(s.account.value)] else [])
                                + (if chainId != requiredNetwork && autoSwitchNetwork && s.isMetaMaskInstalled
                                      && HasAccountIn(s)
                                   then SwitchOutcome(switchReplies, requiredNetwork).requests else [])
    {
      var a := AnnouncedEffect(ls, s, chainId, balanceReply);
      if chainId != requiredNetwork && autoSwitchNetwork {
        SwitchEffectSpec(ls, a.state, switchReplies);
      }
    }

    /** The chain-id request of `connect` and what follows it, from the state `s` that already
        holds the account: a failed request ends like a failed connection, an answer leads to
        the success path. */
    function ChainEffect(ls: Listeners, s: State, chainReply: Reply<string>, balanceReply: Reply<nat>,
                         switchReplies: SwitchReplies): (fx: Effect)
      requires s.connectionState == Connected && s.account.Some?
    {
      match chainReply
      case Failed(err) =>
        var f := FailedEffect(ls, s, err);
        Effect(f.state, [ChainIdQuery], f.delivered)
      case Answer(chainId) =>
        var c := ConnectedEffect(ls, s, chainId, balanceReply, switchReplies);
        Effect(c.state, [ChainIdQuery] + c.requests, c.delivered)
    }

    /** After the chain-id request: connected exactly when it is answered, the account kept, and a
        failure ending like a failed connection. */
    lemma ChainEffectSpec(ls: Listeners, s: State, chainReply: Reply<string>, balanceReply: Reply<nat>,
                          switchReplies: SwitchReplies)
      requires s.connectionState == Connected && s.account.Some?
      ensures var fx := ChainEffect(ls, s, chainReply, balanceReply, switchReplies);
              |fx.requests| > 0 && fx.requests[0] == ChainIdQuery
              && (fx.state.account == s.account)
              && (fx.state.connectionState == Connected <==> chainReply.Answer?)
              && (chainReply.Failed? ==> fx.state == FailedEffect(ls, s, chainReply.error).state && fx.requests == [ChainIdQuery])
    {
      if chainReply.Answer? {
        ConnectedEffectSpec(ls, s, chainReply.value, balanceReply, switchReplies);
      }
    }

    /** Everything `connect` does after the account request settles, from state `s`. */
    function FinishEffect(ls: Listeners, s: State, accountsReply: Reply<seq<string>>, chainReply: Reply<string>,
                          balanceReply: Reply<nat>, switchReplies: SwitchReplies): (fx: Effect)
    {
      match accountsReply
      case Failed(err) => FailedEffect(ls, s, err)
      case Answer(accounts) =>
        if |accounts| == 0 then
          var after := s.(connectionState := Error, error := Some(Message(NoAccountsMessage)));
          Effect(after, [], Emit(ls, OnConnectionStateChanged, StateData(after))
                            + Emit(ls, OnError, ErrorData(Message(NoAccountsMessage))))
        else
          ChainEffect(ls, s.(connectionState := Connected, account := Some(accounts[0])), chainReply,
                      balanceReply, switchReplies)
    }

    /** A refused account request ends like a failed connection: DISCONNECTED on a user rejection
        (4001), ERROR otherwise, with the matching message, and no further request. */
    lemma FinishRefusedSpec(ls: Listeners, s: State, err: ProviderError, chainReply: Reply<string>,
                            balanceReply: Reply<nat>, switchReplies: SwitchReplies)
      ensures var fx := FinishEffect(ls, s, Failed(err), chainReply, balanceReply, switchReplies);
              fx.state == s.(connectionState := if err.code == UserRejectedRequest then Disconnected else Error,
                             error := Some(Message(if err.code == UserRejectedRequest then UserRejectedConnectMessage
                                                   else MessageOr(err, "Unknown error"))))
              && fx.requests == []
              && fx.delivered == Emit(ls, OnConnectionStateChanged, StateData(fx.state))
                                 + Emit(ls, OnError, ErrorData(Payload(err)))
    {
    }

    /** An empty account list is the no-accounts error: ERROR with its message, both events
        delivered, and no further request. */
    lemma FinishNoAccountsSpec(ls: Listeners, s: State, chainReply: Reply<string>, balanceReply: Reply<nat>,
                               switchReplies: SwitchReplies)
      ensures var fx := FinishEffect(ls, s, Answer([]), chainReply, balanceReply, switchReplies);
              fx.state == s.(connectionState := Error, error := Some(Message(NoAccountsMessage)))
              && fx.requests == []
              && fx.delivered == Emit(ls, OnConnectionStateChanged, StateData(fx.state))
                                 + Emit(ls, OnError, ErrorData(Message(NoAccountsMessage)))
    {
    }

    /** With at least one account: the first is held whatever follows, the chain id is requested
        next, and the connection ends CONNECTED exactly when the chain id arrives. A failed chain
        request ends like a failed connection; success records the chain and the network state,
        and issues the chain, balance and switch requests in order. The attempt count, the
        installation flag and the connection time are untouched. */
    lemma FinishAccountSpec(ls: Listeners, s: State, accounts: seq<string>, chainReply: Reply<string>,
                            balanceReply: Reply<nat>, switchReplies: SwitchReplies)
      requires |accounts| > 0
      ensures var fx := FinishEffect(ls, s, Answer(accounts), chainReply, balanceReply, switchReplies);
              fx.state.connectionAttempts == s.connectionAttempts
              && fx.state.isMetaMaskInstalled == s.isMetaMaskInstalled
              && fx.state.lastConnectionTime == s.lastConnectionTime
              && fx.state.account == Some(accounts[0])
              && |fx.requests| > 0 && fx.requests[0] == ChainIdQuery
              && (fx.state.connectionState == Connected <==> chainReply.Answer?)
              && (chainReply.Failed? ==>
                    var err := chainReply.error;
                    fx.state == s.(connectionState := if err.code == UserRejectedRequest then Disconnected else Error,
                                   account := Some(accounts[0]),
                                   error := Some(Message(if err.code == UserRejectedRequest then UserRejectedConnectMessage
                                                         else MessageOr(err, "Unknown error"))))
                    && fx.requests == [ChainIdQuery])
              && (chainReply.Answer? ==>
                    var switching := chainReply.value != requiredNetwork && autoSwitchNetwork
                                     && s.isMetaMaskInstalled && accounts[0] != "";
                    fx.state.chainId == Some(chainReply.value)
                    && (!switching ==> fx.state.networkState == NetworkStateFor(chainReply.value, requiredNetwork))
                    && (switching ==> (fx.state.networkState == CorrectNetwork
                                       <==> SwitchOutcome(switchReplies, requiredNetwork).ok))
                    && fx.requests == [ChainIdQuery]
                                      + (if accounts[0] != "" then [GetBalance(accounts[0])] else [])
                                      + (if switching then SwitchOutcome(switchReplies, requiredNetwork).requests else []))
    {
      var holding := s.(connectionState := Connected, account := Some(accounts[0]));
      ChainEffectSpec(ls, holding, chainReply, balanceReply, switchReplies);
      if chainReply.Answer? {
        ConnectedEffectSpec(ls, holding, chainReply.value, balanceReply, switchReplies);
      }
    }

    /** The whole of `connect` from state `s`; `timedOut` says that the timer fires while the
        account request is pending. */
    function ConnectEffect(ls: Listeners, s: State, now: int, timedOut: bool, accountsReply: Reply<seq<string>>,
                           chainReply: Reply<string>, balanceReply: Reply<nat>, switchReplies: SwitchReplies)
      : (fx: Effect)
    {
      if !s.isMetaMaskInstalled then
        Effect(s.(error := Some(Message(NotInstalledMessage))), [],
               Emit(ls, OnError, ErrorData(Message(NotInstalledMessage))))
      else if s.connectionState == Connecting then Effect(s, [], [])
      else
        var connecting := s.(connectionState := Connecting, connectionAttempts := s.connectionAttempts + 1,
                             lastConnectionTime := Some(now), error := None);
        var begun := Emit(ls, OnConnectionStateChanged, StateData(connecting));
        var pending := if timedOut then connecting.(connectionState := Error, error := Some(Message(TimeoutMessage)))
                       else connecting;
        var timeout := if timedOut then Emit(ls, OnConnectionStateChanged, StateData(pending))
                                        + Emit(ls, OnError, ErrorData(Message(TimeoutMessage)))
                       else [];
        var f := FinishEffect(ls, pending, accountsReply, chainReply, balanceReply, switchReplies);
        Effect(f.state, [RequestAccounts] + f.requests, begun + timeout + f.delivered)
    }

    /** The whole of `connect`: without a wallet only the not-installed error; while connecting
        nothing; otherwise one more attempt stamped `now`, the accounts request first, and the
        outcome of the account and chain requests. */
    lemma ConnectEffectSpec(ls: Listeners, s: State, now: int, timedOut: bool, accountsReply: Reply<seq<string>>,
                            chainReply: Reply<string>, balanceReply: Reply<nat>, switchReplies: SwitchReplies)
      ensures var fx := ConnectEffect(ls, s, now, timedOut, accountsReply, chainReply, balanceReply, switchReplies);
              (!s.isMetaMaskInstalled ==> fx.state == s.(error := Some(Message(NotInstalledMessage))) && fx.requests == [])
              && (s.isMetaMaskInstalled && s.connectionState == Connecting ==> fx == Effect(s, [], []))
              && (s.isMetaMaskInstalled && s.connectionState != Connecting ==>
                    fx.state.connectionAttempts == s.connectionAttempts + 1
                    && fx.state.lastConnectionTime == Some(now)
                    && |fx.requests| > 0 && fx.requests[0] == RequestAccounts
                    && (fx.state.connectionState == Connected <==>
                          accountsReply.Answer? && |accountsReply.value| > 0 && chainReply.Answer?)
                    && (fx.state.connectionState == Connected ==> fx.state.account == Some(accountsReply.value[0]))
                    && (accountsReply == Answer([]) ==>
                          fx.state.connectionState == Error && fx.state.error == Some(Message(NoAccountsMessage)))
                    && (accountsReply.Failed? ==>
                          fx.state.connectionState
                            == (if accountsReply.error.code == UserRejectedRequest then Disconnected else Error))
                    && (fx.state.connectionState == Connected ==>
                          var switching := chainReply.value != requiredNetwork && autoSwitchNetwork
                                           && accountsReply.value[0] != "";
                          fx.state.chainId == Some(chainReply.value)
                          && (!switching ==> fx.state.networkState == NetworkStateFor(chainReply.value, requiredNetwork))
                          && (switching ==> (fx.state.networkState == CorrectNetwork
                                             <==> SwitchOutcome(switchReplies, requiredNetwork).ok))))
              && fx.state.connectionAttempts >= s.connectionAttempts
    {
      if s.isMetaMaskInstalled && s.connectionState != Connecting {
        var connecting := s.(connectionState := Connecting, connectionAttempts := s.connectionAttempts + 1,
                             lastConnectionTime := Some(now), error := None);
        var pending := if timedOut then connecting.(connectionState := Error, error := Some(Message(TimeoutMessage)))
                       else connecting;
        var f := FinishEffect(ls, pending, accountsReply, chainReply, balanceReply, switchReplies);
        assert ConnectEffect(ls, s, now, timedOut, accountsReply, chainReply, balanceReply, switchReplies).state == f.state;
        assert ConnectEffect(ls, s, now, timedOut, accountsReply, chainReply, balanceReply, switchReplies).requests
               == [RequestAccounts] + f.requests;
        match accountsReply
        case Failed(err) => FinishRefusedSpec(ls, pending, err, chainReply, balanceReply, switchReplies);
        case Answer(accounts) =>
          if |accounts| == 0 {
            FinishNoAccountsSpec(ls, pending, chainReply, balanceReply, switchReplies);
          } else {
            FinishAccountSpec(ls, pending, accounts, chainReply, balanceReply, switchReplies);
          }
      }
    }

    /** Construction: detects the wallet and registers the provider handlers. With no wallet the
        state is NOT_INSTALLED with the not-installed error; the events this raises reach nobody,
        since no listener can be subscribed yet. */
    constructor (isMetaMaskInstalled: bool, requiredNetwork: string, autoSwitchNetwork: bool, throwers: set<Listener>)
      ensures Valid()
      ensures this.requiredNetwork == requiredNetwork && this.autoSwitchNetwork == autoSwitchNetwork
      ensures this.throwers == throwers
      ensures state.isMetaMaskInstalled == isMetaMaskInstalled
      ensures state.connectionState == (if isMetaMaskInstalled then Disconnected else NotInstalled)
      ensures state.error == (if isMetaMaskInstalled then None else Some(Message(NotInstalledMessage)))
      ensures state.networkState == Unknown && state.account.None? && state.balance.None?
      ensures state.connectionAttempts == 0
      ensures forall k :: k in ListenerKeys ==> eventListeners[k] == []
      ensures delivered == [] && requests == [] && !connectionTimerArmed
    {
      this.requiredNetwork := requiredNetwork;
      this.autoSwitchNetwork := autoSwitchNetwork;
      this.throwers := throwers;
      state := State(Disconnected, Unknown, None, None, None, None, isMetaMaskInstalled, 0, None);
      eventListeners := map[OnConnectionStateChanged := [], OnNetworkStateChanged := [],
                            OnAccountChanged := [], OnError := []];
      connectionTimerArmed := false;
      delivered := [];
      requests := [];
      new;
      if !isMetaMaskInstalled {
        state := state.(connectionState := NotInstalled, error := Some(Message(NotInstalledMessage)));
        TriggerEvent(OnConnectionStateChanged, StateData(state));
        TriggerEvent(OnError, ErrorData(Message(NotInstalledMessage)));
      }
    }

    /** `triggerEvent`: calls every listener under `event` in registration order; a listener that
        throws is caught and the loop goes on. An unknown event name calls nobody. */
    method TriggerEvent(event: string, data: EventData)
      modifies this`delivered
      ensures delivered == old(delivered) + Emit(eventListeners, event, data)
    {
      if event in eventListeners {
        var listeners := eventListeners[event];
        var i := 0;
        while i < |listeners|
          invariant 0 <= i <= |listeners|
          invariant delivered == old(delivered) + Deliveries(listeners[..i], event, data)
        {
          var callback := listeners[i];
          assert listeners[..i + 1][..i] == listeners[..i];
          var threw := callback in throwers;
          delivered := delivered + [Delivery(callback, event, data, threw)];
          i := i + 1;
        }
        assert listeners[..i] == listeners;
      }
    }

    /** `on`: appends the callback under a known event name; any other name is ignored. */
    method On(event: string, callback: Listener)
      requires Valid()
      modifies this`eventListeners
      ensures Valid()
      ensures event in ListenerKeys ==>
                eventListeners == old(eventListeners)[event := old(eventListeners)[event] + [callback]]
      ensures event !in ListenerKeys ==> eventListeners == old(eventListeners)
    {
      if event in eventListeners {
        eventListeners := eventListeners[event := eventListeners[event] + [callback]];
      }
    }

    /** `off`: removes every occurrence of the callback under a known event name, keeping the rest in order. */
    method Off(event: string, callback: Listener)
      requires Valid()
      modifies this`eventListeners
      ensures Valid()
      ensures event in ListenerKeys ==>
                eventListeners == old(eventListeners)[event := Without(old(eventListeners)[event], callback)]
      ensures event !in ListenerKeys ==> eventListeners == old(eventListeners)
    {
      if event in eventListeners {
        eventListeners := eventListeners[event := Without(eventListeners[event], callback)];
      }
    }

    /** `getState`: a copy of the state. */
    method GetState() returns (s: State)
      ensures s == state
    {
      s := state;
    }

    /** `disconnect`: always ends DISCONNECTED with no account and no balance, whatever the
        state was, so a second call yields the same state; it emits both events every time. */
    method Disconnect()
      requires Valid()
      modifies this`state, this`delivered
      ensures Valid()
      ensures state == old(state).(connectionState := Disconnected, account := None, balance := None)
      ensures delivered == old(delivered) + Emit(eventListeners, OnConnectionStateChanged, StateData(state))
                                          + Emit(eventListeners, OnAccountChanged, AccountData(None))
    {
      state := state.(connectionState := Disconnected, account := None, balance := None);
      TriggerEvent(OnConnectionStateChanged, StateData(state));
      TriggerEvent(OnAccountChanged, AccountData(None));
    }

    /** `getAccountBalance`: no request without an account; otherwise stores and returns the
        balance, and on a provider error returns null leaving the state (and its error) alone. */
    method GetAccountBalance(reply: Reply<nat>) returns (balance: Option<nat>)
      requires Valid()
      modifies this`state, this`requests
      ensures Valid()
      ensures !old(HasAccount()) ==> balance.None? && state == old(state) && requests == old(requests)
      ensures old(HasAccount()) ==> requests == old(requests) + [GetBalance(old(state.account).value)]
      ensures old(HasAccount()) && reply.Answer? ==>
                balance == Some(reply.value) && state == old(state).(balance := Some(reply.value))
      ensures reply.Failed? ==> balance.None? && state == old(state)
      ensures state == BalanceEffect(old(state), reply).state
              && requests == old(requests) + BalanceEffect(old(state), reply).requests
    {
      if !HasAccount() {
        return None;
      }
      requests := requests + [GetBalance(state.account.value)];
      match reply
      case Answer(wei) =>
        state := state.(balance := Some(wei));
        balance := Some(wei);
      case Failed(_) =>
        balance := None;
    }

    /** The `catch` of `switchToRequiredNetwork`, entered with the network SWITCHING after the
        switch request failed: on code 4902 the chain is added and the chain id read back, on 4001
        the rejection message is stored, and any other code stores its message or the fallback.
        It ends as `SwitchOutcome` says, with the requests after the first switch request. */
    method RecoverSwitch(replies: SwitchReplies) returns (ok: bool)
      requires Valid() && replies.switchReply.Failed?
      modifies this`state, this`delivered, this`requests
      ensures Valid()
      ensures var e := SwitchOutcome(replies, requiredNetwork);
              ok == e.ok
              && state == old(state).(networkState := if e.ok then CorrectNetwork else WrongNetwork,
                                      error := if e.error.Some? then e.error else old(state).error)
              && requests == old(requests) + e.requests[1..]
              && delivered == old(delivered) + Emit(eventListeners, OnNetworkStateChanged, NetworkData(state.networkState))
                              + (if e.broadcast.Some? then Emit(eventListeners, OnError, ErrorData(e.broadcast.value)) else [])
    {
      var err := replies.switchReply.error;
      if err.code == UnrecognizedChain {
        requests := requests + [AddChain(FlareNetworkParams)];
        match replies.addReply
        case Failed(addError) =>
          SwitchFailed(MessageOr(addError, "Failed to add network"), addError);
          ok := false;
        case Answer(_) =>
          requests := requests + [ChainIdQuery];
          match replies.chainReply
          case Failed(readError) =>
            SwitchFailed(MessageOr(readError, "Failed to add network"), readError);
            ok := false;
          case Answer(chainId) =>
            ok := chainId == requiredNetwork;
            state := state.(networkState := if ok then CorrectNetwork else WrongNetwork);
            TriggerEvent(OnNetworkStateChanged, NetworkData(state.networkState));
            assert delivered == old(delivered) + Emit(eventListeners, OnNetworkStateChanged, NetworkData(state.networkState)) + [];
      } else if err.code == UserRejectedRequest {
        SwitchFailed(UserRejectedSwitchMessage, err);
        ok := false;
      } else {
        SwitchFailed(MessageOr(err, "Failed to switch network"), err);
        ok := false;
      }
    }

    /** `switchToRequiredNetwork`: without a wallet or an account it returns false and touches
        nothing. Otherwise it passes through SWITCHING and ends CORRECT_NETWORK exactly when it
        returns true, WRONG_NETWORK otherwise; the connection state and account are untouched. */
    method SwitchToRequiredNetwork(replies: SwitchReplies) returns (ok: bool)
      requires Valid()
      modifies this`state, this`delivered, this`requests
      ensures Valid()
      ensures !old(state.isMetaMaskInstalled) || !old(HasAccount()) ==>
                !ok && state == old(state) && delivered == old(delivered) && requests == old(requests)
      ensures old(state.isMetaMaskInstalled) && old(HasAccount()) ==> ok == SwitchOutcome(replies, requiredNetwork).ok
      ensures state == SwitchEffect(eventListeners, old(state), replies).state
              && requests == old(requests) + SwitchEffect(eventListeners, old(state), replies).requests
              && delivered == old(delivered) + SwitchEffect(eventListeners, old(state), replies).delivered
      ensures ok <==> state.networkState == CorrectNetwork && old(state.isMetaMaskInstalled) && old(HasAccount())
    {
      if !state.isMetaMaskInstalled || !HasAccount() {
        return false;
      }
      ghost var s0, r0, d0 := state, requests, delivered;
      ghost var e := SwitchOutcome(replies, requiredNetwork);
      ghost var fx := SwitchEffect(eventListeners, s0, replies);
      ghost var switching := Emit(eventListeners, OnNetworkStateChanged, NetworkData(Switching));
      state := state.(networkState := Switching);
      TriggerEvent(OnNetworkStateChanged, NetworkData(Switching));
      requests := requests + [SwitchChain(requiredNetwork)];
      match replies.switchReply
      case Answer(_) =>
        state := state.(networkState := CorrectNetwork);
        TriggerEvent(OnNetworkStateChanged, NetworkData(CorrectNetwork));
        ok := true;
        assert e == SwitchEnd(true, None, None, [SwitchChain(requiredNetwork)]);
        assert fx.delivered == switching + Emit(eventListeners, OnNetworkStateChanged, NetworkData(CorrectNetwork)) + [];
        AppendRegroup(d0, switching, Emit(eventListeners, OnNetworkStateChanged, NetworkData(CorrectNetwork)), []);
      case Failed(err) =>
        ok := RecoverSwitch(replies);
        assert e.requests == [SwitchChain(requiredNetwork)] + e.requests[1..];
        AppendAssoc(r0, [SwitchChain(requiredNetwork)], e.requests[1..]);
        ghost var ended := Emit(eventListeners, OnNetworkStateChanged, NetworkData(state.networkState));
        ghost var broadcast := if e.broadcast.Some? then Emit(eventListeners, OnError, ErrorData(e.broadcast.value)) else [];
        AppendRegroup(d0, switching, ended, broadcast);
    }

    /** The failure ending of a chain switch: WRONG_NETWORK, the error message stored, and
        both the network change and the error broadcast. */
    method SwitchFailed(message: string, err: ProviderError)
      requires Valid()
      modifies this`state, this`delivered
      ensures Valid()
      ensures state == old(state).(networkState := WrongNetwork, error := Some(Message(message)))
      ensures delivered == old(delivered) + Emit(eventListeners, OnNetworkStateChanged, NetworkData(WrongNetwork))
                                          + Emit(eventListeners, OnError, ErrorData(Payload(err)))
    {
      state := state.(networkState := WrongNetwork, error := Some(Message(message)));
      TriggerEvent(OnNetworkStateChanged, NetworkData(WrongNetwork));
      TriggerEvent(OnError, ErrorData(Payload(err)));
    }

    /** The synchronous part of `connect`, up to the account request. The not-installed check
        comes first, then the guard against a connect already in progress; otherwise the state
        becomes CONNECTING, the error is cleared, the attempt is counted, the timer is set and
        the account request is issued. */
    method BeginConnect(now: int) returns (started: bool)
      requires Valid()
      modifies this`state, this`delivered, this`requests, this`connectionTimerArmed
      ensures Valid()
      ensures started <==> old(state.isMetaMaskInstalled) && old(state.connectionState) != Connecting
      ensures !old(state.isMetaMaskInstalled) ==>
                state == old(state).(error := Some(Message(NotInstalledMessage)))
                && delivered == old(delivered) + Emit(eventListeners, OnError, ErrorData(Message(NotInstalledMessage)))
      ensures old(state.isMetaMaskInstalled) && old(state.connectionState) == Connecting ==>
                state == old(state) && delivered == old(delivered)
      ensures !started ==> requests == old(requests) && connectionTimerArmed == old(connectionTimerArmed)
      ensures started ==>
                state == old(state).(connectionState := Connecting,
                                     connectionAttempts := old(state.connectionAttempts) + 1,
                                     lastConnectionTime := Some(now), error := None)
                && delivered == old(delivered) + Emit(eventListeners, OnConnectionStateChanged, StateData(state))
                && connectionTimerArmed && requests == old(requests) + [RequestAccounts]
    {
      if !state.isMetaMaskInstalled {
        state := state.(error := Some(Message(NotInstalledMessage)));
        TriggerEvent(OnError, ErrorData(Message(NotInstalledMessage)));
        return false;
      }
      if state.connectionState == Connecting {
        return false;
      }
      state := state.(connectionState := Connecting, connectionAttempts := state.connectionAttempts + 1,
                      lastConnectionTime := Some(now), error := None);
      TriggerEvent(OnConnectionStateChanged, StateData(state));
      connectionTimerArmed := true;
      requests := requests + [RequestAccounts];
      started := true;
    }

    /** The connection timer fires. A cleared timer never runs; a running one moves a state
        that is still CONNECTING to ERROR with the timeout message and does nothing otherwise. */
    method FireConnectionTimeout()
      requires Valid()
      modifies this`state, this`delivered, this`connectionTimerArmed
      ensures Valid()
      ensures !connectionTimerArmed
      ensures old(connectionTimerArmed) && old(state.connectionState) == Connecting ==>
                state == old(state).(connectionState := Error, error := Some(Message(TimeoutMessage)))
                && delivered == old(delivered) + Emit(eventListeners, OnConnectionStateChanged, StateData(state))
                                               + Emit(eventListeners, OnError, ErrorData(Message(TimeoutMessage)))
      ensures !(old(connectionTimerArmed) && old(state.connectionState) == Connecting) ==>
                state == old(state) && delivered == old(delivered)
    {
      if connectionTimerArmed {
        connectionTimerArmed := false;
        if state.connectionState == Connecting {
          state := state.(connectionState := Error, error := Some(Message(TimeoutMessage)));
          TriggerEvent(OnConnectionStateChanged, StateData(state));
          TriggerEvent(OnError, ErrorData(Message(TimeoutMessage)));
        }
      }
    }

    /** The `catch` of `connect`: code 4001 is a user rejection (DISCONNECTED), anything else an ERROR. */
    method ConnectFailed(err: ProviderError)
      requires Valid()
      modifies this`state, this`delivered, this`connectionTimerArmed
      ensures Valid() && !connectionTimerArmed
      ensures state == old(state).(
                connectionState := if err.code == UserRejectedRequest then Disconnected else Error,
                error := Some(Message(if err.code == UserRejectedRequest then UserRejectedConnectMessage
                                      else MessageOr(err, "Unknown error"))))
      ensures delivered == old(delivered) + Emit(eventListeners, OnConnectionStateChanged, StateData(state))
                                          + Emit(eventListeners, OnError, ErrorData(Payload(err)))
    {
      connectionTimerArmed := false;
      if err.code == UserRejectedRequest {
        state := state.(connectionState := Disconnected, error := Some(Message(UserRejectedConnectMessage)));
      } else {
        state := state.(connectionState := Error, error := Some(Message(MessageOr(err, "Unknown error"))));
      }
      TriggerEvent(OnConnectionStateChanged, StateData(state));
      TriggerEvent(OnError, ErrorData(Payload(err)));
    }

    /** Records the chain read by `connect`, reads the balance and announces the connection. */
    method AnnounceConnected(chainId: string, balanceReply: Reply<nat>)
      requires Valid()
      modifies this`state, this`delivered, this`requests
      ensures Valid()
      ensures state == AnnouncedEffect(eventListeners, old(state), chainId, balanceReply).state
              && requests == old(requests) + AnnouncedEffect(eventListeners, old(state), chainId, balanceReply).requests
              && delivered == old(delivered) + AnnouncedEffect(eventListeners, old(state), chainId, balanceReply).delivered
    {
      ghost var fx := AnnouncedEffect(eventListeners, state, chainId, balanceReply);
      ghost var d0 := delivered;
      state := state.(chainId := Some(chainId), networkState := NetworkStateFor(chainId, requiredNetwork));
      var _ := GetAccountBalance(balanceReply);
      assert state == fx.state;
      TriggerEvent(OnConnectionStateChanged, StateData(state));
      TriggerEvent(OnNetworkStateChanged, NetworkData(state.networkState));
      TriggerEvent(OnAccountChanged, AccountData(state.account));
      AppendRegroup(d0, Emit(eventListeners, OnConnectionStateChanged, StateData(state)),
                    Emit(eventListeners, OnNetworkStateChanged, NetworkData(state.networkState)),
                    Emit(eventListeners, OnAccountChanged, AccountData(state.account)));
    }

    /** The success path of `connect` after the chain id `chainId` arrives: the chain, the
        balance and the announcements, then the automatic switch on a wrong chain. */
    method CompleteConnection(chainId: string, balanceReply: Reply<nat>, switchReplies: SwitchReplies)
      requires Valid() && state.connectionState == Connected && state.account.Some?
      modifies this`state, this`delivered, this`requests
      ensures Valid()
      ensures var fx := ConnectedEffect(eventListeners, old(state), chainId, balanceReply, switchReplies);
              state == fx.state && requests == old(requests) + fx.requests && delivered == old(delivered) + fx.delivered
    {
      ghost var r0, d0 := requests, delivered;
      ghost var a := AnnouncedEffect(eventListeners, state, chainId, balanceReply);
      AnnounceConnected(chainId, balanceReply);
      ghost var r1, d1 := requests, delivered;
      if chainId != requiredNetwork && autoSwitchNetwork {
        var _ := SwitchToRequiredNetwork(switchReplies);
      }
      AppendAssoc(r0, a.requests, requests[|r1|..]);
      AppendAssoc(d0, a.delivered, delivered[|d1|..]);
    }

    /** The chain-id request of `connect` rejected with `err`, once the account is held: it ends
        like a failed connection. */
    method ChainRefused(err: ProviderError, balanceReply: Reply<nat>, switchReplies: SwitchReplies)
      requires Valid() && state.connectionState == Connected && state.account.Some?
      modifies this`state, this`delivered, this`requests, this`connectionTimerArmed
      ensures Valid() && !connectionTimerArmed
      ensures var fx := ChainEffect(eventListeners, old(state), Failed(err), balanceReply, switchReplies);
              state == fx.state && requests == old(requests) + fx.requests && delivered == old(delivered) + fx.delivered
    {
      ghost var d0 := delivered;
      ghost var f := FailedEffect(eventListeners, state, err);
      requests := requests + [ChainIdQuery];
      ConnectFailed(err);
      assert state == f.state;
      AppendAssoc(d0, Emit(eventListeners, OnConnectionStateChanged, StateData(state)),
                  Emit(eventListeners, OnError, ErrorData(Payload(err))));
    }

    /** The chain-id request of `connect` answered with `chainId`, once the account is held: the
        success path follows. */
    method ChainAnswered(chainId: string, balanceReply: Reply<nat>, switchReplies: SwitchReplies)
      requires Valid() && state.connectionState == Connected && state.account.Some?
      modifies this`state, this`delivered, this`requests
      ensures Valid()
      ensures var fx := ChainEffect(eventListeners, old(state), Answer(chainId), balanceReply, switchReplies);
              state == fx.state && requests == old(requests) + fx.requests && delivered == old(delivered) + fx.delivered
    {
      ghost var r0 := requests;
      ghost var c := ConnectedEffect(eventListeners, state, chainId, balanceReply, switchReplies);
      requests := requests + [ChainIdQuery];
      CompleteConnection(chainId, balanceReply, switchReplies);
      AppendAssoc(r0, [ChainIdQuery], c.requests);
    }

    /** The chain-id request of `connect` and everything after it, once the account is held. */
    method ReadChain(chainReply: Reply<string>, balanceReply: Reply<nat>, switchReplies: SwitchReplies)
      returns (ok: bool)
      requires Valid() && state.connectionState == Connected && state.account.Some?
      modifies this`state, this`delivered, this`requests, this`connectionTimerArmed
      ensures Valid()
      ensures ok <==> chainReply.Answer?
      ensures chainReply.Failed? ==> !connectionTimerArmed
      ensures chainReply.Answer? ==> connectionTimerArmed == old(connectionTimerArmed)
      ensures var fx := ChainEffect(eventListeners, old(state), chainReply, balanceReply, switchReplies);
              state == fx.state && requests == old(requests) + fx.requests && delivered == old(delivered) + fx.delivered
    {
      match chainReply
      case Failed(err) =>
        ChainRefused(err, balanceReply, switchReplies);
        ok := false;
      case Answer(chainId) =>
        ChainAnswered(chainId, balanceReply, switchReplies);
        ok := true;
    }

    /** The rest of `connect`, once the account request has settled. It clears the timer and does
        not look at the current state first: an answer that arrives after the timer moved the
        state to ERROR still ends CONNECTED. */
    method FinishConnect(accountsReply: Reply<seq<string>>, chainReply: Reply<string>,
                         balanceReply: Reply<nat>, switchReplies: SwitchReplies) returns (ok: bool)
      requires Valid()
      modifies this`state, this`delivered, this`requests, this`connectionTimerArmed
      ensures Valid() && !connectionTimerArmed
      ensures ok <==> accountsReply.Answer? && |accountsReply.value| > 0 && chainReply.Answer?
      ensures state == FinishEffect(eventListeners, old(state), accountsReply, chainReply, balanceReply, switchReplies).state
              && requests == old(requests)
                             + FinishEffect(eventListeners, old(state), accountsReply, chainReply, balanceReply, switchReplies).requests
              && delivered == old(delivered)
                              + FinishEffect(eventListeners, old(state), accountsReply, chainReply, balanceReply, switchReplies).delivered
    {
      connectionTimerArmed := false;
      ghost var s0, r0, d0 := state, requests, delivered;
      ghost var fx := FinishEffect(eventListeners, s0, accountsReply, chainReply, balanceReply, switchReplies);
      match accountsReply
      case Failed(err) =>
        ConnectFailed(err);
        ok := false;
        assert fx == FailedEffect(eventListeners, s0, err) && state == fx.state;
        AppendAssoc(d0, Emit(eventListeners, OnConnectionStateChanged, StateData(state)),
                    Emit(eventListeners, OnError, ErrorData(Payload(err))));
      case Answer(accounts) =>
        if |accounts| > 0 {
          state := state.(connectionState := Connected, account := Some(accounts[0]));
          assert fx == ChainEffect(eventListeners, state, chainReply, balanceReply, switchReplies);
          ok := ReadChain(chainReply, balanceReply, switchReplies);
          assert state == fx.state && requests == r0 + fx.requests && delivered == d0 + fx.delivered;
        } else {
          state := state.(connectionState := Error, error := Some(Message(NoAccountsMessage)));
          TriggerEvent(OnConnectionStateChanged, StateData(state));
          TriggerEvent(OnError, ErrorData(Message(NoAccountsMessage)));
          ok := false;
          assert state == fx.state;
          AppendAssoc(d0, Emit(eventListeners, OnConnectionStateChanged, StateData(state)),
                      Emit(eventListeners, OnError, ErrorData(Message(NoAccountsMessage))));
        }
    }

    /** `connect`, run to completion with the wallet's answers. `timedOut` says that the
        connection timer fires while the account request is still pending. */
    method Connect(now: int, timedOut: bool, accountsReply: Reply<seq<string>>, chainReply: Reply<string>,
                   balanceReply: Reply<nat>, switchReplies: SwitchReplies) returns (ok: bool)
      requires Valid()
      modifies this`state, this`delivered, this`requests, this`connectionTimerArmed
      ensures Valid()
      ensures ok <==> old(state.isMetaMaskInstalled) && old(state.connectionState) != Connecting
                      && accountsReply.Answer? && |accountsReply.value| > 0 && chainReply.Answer?
      ensures old(state.isMetaMaskInstalled) && old(state.connectionState) != Connecting ==> !connectionTimerArmed
      ensures var fx := ConnectEffect(eventListeners, old(state), now, timedOut, accountsReply, chainReply, balanceReply, switchReplies);
              state == fx.state && requests == old(requests) + fx.requests && delivered == old(delivered) + fx.delivered
    {
      ghost var s0, r0, d0 := state, requests, delivered;
      ghost var fx := ConnectEffect(eventListeners, s0, now, timedOut, accountsReply, chainReply, balanceReply, switchReplies);
      var started := BeginConnect(now);
      if !started {
        return false;
      }
      ghost var connecting := state;
      ghost var begun := Emit(eventListeners, OnConnectionStateChanged, StateData(connecting));
      ghost var timeout: seq<Delivery> := [];
      if timedOut {
        FireConnectionTimeout();
        timeout := Emit(eventListeners, OnConnectionStateChanged, StateData(state)) + Emit(eventListeners, OnError, ErrorData(Message(TimeoutMessage)));
      }
      assert delivered == d0 + begun + timeout;
      ghost var f := FinishEffect(eventListeners, state, accountsReply, chainReply, balanceReply, switchReplies);
      assert fx == Effect(f.state, [RequestAccounts] + f.requests, begun + timeout + f.delivered);
      ok := FinishConnect(accountsReply, chainReply, balanceReply, switchReplies);
      AppendAssoc(r0, [RequestAccounts], f.requests);
      AppendRegroup(d0, begun, timeout, f.delivered);
    }

    /** The `try`/`catch` around `eth_sendTransaction`: the parameters with `from` set to the
        current account are submitted; the hash is returned, or the error is broadcast and rethrown. */
    method SubmitTransaction(tx: Params, sendReply: Reply<string>) returns (r: Outcome<string>)
      requires state.account.Some?
      modifies this`delivered, this`requests
      ensures requests == old(requests) + [Request.SendTransaction(tx["from" := state.account.value])]
      ensures Submitted(requests[|old(requests)|..]) == [tx["from" := state.account.value]]
      ensures r == (match sendReply
                      case Answer(hash) => Returned(hash)
                      case Failed(err) => Threw(Payload(err)))
      ensures delivered == old(delivered)
                           + (if sendReply.Failed? then Emit(eventListeners, OnError, ErrorData(Payload(sendReply.error))) else [])
    {
      var params := tx["from" := state.account.value];
      requests := requests + [Request.SendTransaction(params)];
      assert requests[|old(requests)|..] == [Request.SendTransaction(params)];
      assert Submitted([Request.SendTransaction(params)][1..]) == [];
      match sendReply
      case Answer(hash) =>
        r := Returned(hash);
      case Failed(err) =>
        TriggerEvent(OnError, ErrorData(Payload(err)));
        r := Threw(Payload(err));
    }

    /** The network step of `sendTransaction`: nothing when already on the required network,
        otherwise a switch. It never submits a transaction. */
    method ReachRequiredNetwork(switchReplies: SwitchReplies) returns (ok: bool)
      requires Valid() && state.isMetaMaskInstalled && HasAccount()
      modifies this`state, this`delivered, this`requests
      ensures Valid() && state.isMetaMaskInstalled && HasAccount()
      ensures ok == (old(state.networkState) == CorrectNetwork || SwitchOutcome(switchReplies, requiredNetwork).ok)
      ensures var sw := if old(state.networkState) == CorrectNetwork then Effect(old(state), [], [])
                        else SwitchEffect(eventListeners, old(state), switchReplies);
              state == sw.state && requests == old(requests) + sw.requests && delivered == old(delivered) + sw.delivered
      ensures Submitted(requests[|old(requests)|..]) == []
      ensures state.connectionState == old(state.connectionState) && state.account == old(state.account)
      ensures state.connectionAttempts == old(state.connectionAttempts)
    {
      if state.networkState == CorrectNetwork {
        assert requests[|old(requests)|..] == [];
        return true;
      }
      ok := SwitchToRequiredNetwork(switchReplies);
      SwitchSubmitsNothing(switchReplies, requiredNetwork);
    }

    /** `sendTransaction`: throws before any submission without a wallet or an account, or when
        the network is not the required one and the switch fails. Otherwise it submits the
        caller's parameters with `from` forced to the current account. */
    method SendTransaction(tx: Params, switchReplies: SwitchReplies, sendReply: Reply<string>)
      returns (r: Outcome<string>)
      requires Valid()
      modifies this`state, this`delivered, this`requests
      ensures Valid()
      ensures |requests| >= |old(requests)| && requests[..|old(requests)|] == old(requests)
      ensures !old(state.isMetaMaskInstalled) || !old(HasAccount()) ==>
                r == Threw(Message(NotConnectedMessage))
                && state == old(state) && delivered == old(delivered) && requests == old(requests)
      ensures old(state.isMetaMaskInstalled) && old(HasAccount()) ==>
                var submitted := old(state.networkState) == CorrectNetwork
                                 || SwitchOutcome(switchReplies, requiredNetwork).ok;
                Submitted(requests[|old(requests)|..])
                  == (if submitted then [tx["from" := old(state.account).value]] else [])
                && (!submitted ==> r == Threw(Message(WrongNetworkMessage)))
                && (submitted ==> r == (match sendReply
                                         case Answer(hash) => Returned(hash)
                                         case Failed(err) => Threw(Payload(err))))
      ensures old(state.isMetaMaskInstalled) && old(HasAccount()) ==>
                var sw := if old(state.networkState) == CorrectNetwork then Effect(old(state), [], [])
                          else SwitchEffect(eventListeners, old(state), switchReplies);
                var submitted := old(state.networkState) == CorrectNetwork
                                 || SwitchOutcome(switchReplies, requiredNetwork).ok;
                state == sw.state
                && requests == old(requests) + sw.requests
                               + (if submitted then [Request.SendTransaction(tx["from" := old(state.account).value])] else [])
                && delivered == old(delivered) + sw.delivered
                                + (if submitted && sendReply.Failed? then Emit(eventListeners, OnError, ErrorData(Payload(sendReply.error)))
                                   else [])
      ensures state.connectionState == old(state.connectionState) && state.account == old(state.account)
      ensures state.connectionAttempts == old(state.connectionAttempts)
    {
      if !state.isMetaMaskInstalled || !HasAccount() {
        return Threw(Message(NotConnectedMessage));
      }
      ghost var before, d0 := requests, delivered;
      ghost var sw := if state.networkState == CorrectNetwork then Effect(state, [], [])
                      else SwitchEffect(eventListeners, state, switchReplies);
      var onNetwork := ReachRequiredNetwork(switchReplies);
      if !onNetwork {
        assert requests == before + sw.requests + [] && delivered == d0 + sw.delivered + [];
        return Threw(Message(WrongNetworkMessage));
      }
      ghost var mid := requests;
      r := SubmitTransaction(tx, sendReply);
      assert requests[|before|..] == mid[|before|..] + requests[|mid|..];
      SubmittedAppend(mid[|before|..], requests[|mid|..]);
      AppendAssoc(before, sw.requests, requests[|mid|..]);
      AppendAssoc(d0, sw.delivered, delivered[|d0| + |sw.delivered|..]);
    }

    /** `callContract`: needs only the wallet. `from` is the account when one is held and is
        dropped otherwise (an undefined member is not serialised); errors are broadcast and rethrown. */
    method CallContract(call: Params, reply: Reply<string>) returns (r: Outcome<string>)
      requires Valid()
      modifies this`delivered, this`requests
      ensures !state.isMetaMaskInstalled ==>
                r == Threw(Message(NotConnectedMessage)) && delivered == old(delivered) && requests == old(requests)
      ensures state.isMetaMaskInstalled ==>
                requests == old(requests) + [Call(if HasAccount() then call["from" := state.account.value]
                                                  else call - {"from"})]
                && r == (match reply
                         case Answer(result) => Returned(result)
                         case Failed(err) => Threw(Payload(err)))
                && delivered == old(delivered) + (if reply.Failed? then Emit(eventListeners, OnError, ErrorData(Payload(reply.error))) else [])
    {
      if !state.isMetaMaskInstalled {
        return Threw(Message(NotConnectedMessage));
      }
      var params := if HasAccount() then call["from" := state.account.value] else call - {"from"};
      requests := requests + [Call(params)];
      match reply
      case Answer(result) =>
        r := Returned(result);
      case Failed(err) =>
        TriggerEvent(OnError, ErrorData(Payload(err)));
        r := Threw(Payload(err));
    }

    /** The provider's `accountsChanged` event. An empty list disconnects; otherwise the first
        account becomes current (the connection state is left as it is) and its balance is read. */
    method OnAccountsChanged(accounts: seq<string>, balanceReply: Reply<nat>)
      requires Valid() && state.isMetaMaskInstalled
      modifies this`state, this`delivered, this`requests
      ensures Valid()
      ensures |accounts| == 0 ==>
                state == old(state).(connectionState := Disconnected, account := None, balance := None)
                && requests == old(requests)
                && delivered == old(delivered) + Emit(eventListeners, OnConnectionStateChanged, StateData(state))
                                               + Emit(eventListeners, OnAccountChanged, AccountData(None))
      ensures |accounts| > 0 ==>
                state == old(state).(account := Some(accounts[0]),
                                     balance := if accounts[0] != "" && balanceReply.Answer? then Some(balanceReply.value)
                                                else old(state.balance))
                && requests == old(requests) + (if accounts[0] != "" then [GetBalance(accounts[0])] else [])
                && delivered == old(delivered) + Emit(eventListeners, OnAccountChanged, AccountData(Some(accounts[0])))
      ensures state.connectionAttempts == old(state.connectionAttempts)
    {
      if |accounts| == 0 {
        state := state.(connectionState := Disconnected, account := None, balance := None);
        TriggerEvent(OnConnectionStateChanged, StateData(state));
        TriggerEvent(OnAccountChanged, AccountData(None));
      } else {
        state := state.(account := Some(accounts[0]));
        var _ := GetAccountBalance(balanceReply);
        TriggerEvent(OnAccountChanged, AccountData(Some(accounts[0])));
      }
    }

    /** The provider's `chainChanged` event: records the chain, recomputes the network state
        by exact match and, when it is wrong and auto-switch is on, tries a switch. */
    method OnChainChanged(chainId: string, switchReplies: SwitchReplies)
      requires Valid() && state.isMetaMaskInstalled
      modifies this`state, this`delivered, this`requests
      ensures Valid()
      ensures state.chainId == Some(chainId)
      ensures state.connectionState == old(state.connectionState) && state.account == old(state.account)
      ensures chainId == requiredNetwork ==> state.networkState == CorrectNetwork && requests == old(requests)
      ensures chainId != requiredNetwork && !autoSwitchNetwork ==>
                state.networkState == WrongNetwork && requests == old(requests)
      ensures chainId != requiredNetwork && autoSwitchNetwork && old(HasAccount()) ==>
                |requests| > |old(requests)| && requests[|old(requests)|] == SwitchChain(requiredNetwork)
                && (state.networkState == CorrectNetwork <==> SwitchOutcome(switchReplies, requiredNetwork).ok)
      ensures var read := old(state).(chainId := Some(chainId), networkState := NetworkStateFor(chainId, requiredNetwork));
              var sw := if chainId != requiredNetwork && autoSwitchNetwork then SwitchEffect(eventListeners, read, switchReplies)
                        else Effect(read, [], []);
              state == sw.state && requests == old(requests) + sw.requests
              && delivered == old(delivered) + Emit(eventListeners, OnNetworkStateChanged, NetworkData(read.networkState)) + sw.delivered
      ensures state.connectionAttempts == old(state.connectionAttempts)
    {
      state := state.(chainId := Some(chainId), networkState := NetworkStateFor(chainId, requiredNetwork));
      TriggerEvent(OnNetworkStateChanged, NetworkData(state.networkState));
      if chainId != requiredNetwork && autoSwitchNetwork {
        var _ := SwitchToRequiredNetwork(switchReplies);
      }
    }

    /** The provider's `connect` event: records the chain and recomputes the network state. */
    method OnProviderConnect(chainId: string)
      requires Valid() && state.isMetaMaskInstalled
      modifies this`state, this`delivered
      ensures Valid()
      ensures state == old(state).(chainId := Some(chainId), networkState := NetworkStateFor(chainId, requiredNetwork))
      ensures delivered == old(delivered) + Emit(eventListeners, OnNetworkStateChanged, NetworkData(state.networkState))
    {
      state := state.(chainId := Some(chainId), networkState := NetworkStateFor(chainId, requiredNetwork));
      TriggerEvent(OnNetworkStateChanged, NetworkData(state.networkState));
    }

    /** The provider's `disconnect` event: DISCONNECTED, no account or balance, and the
        error payload stored as the error and broadcast. */
    method OnProviderDisconnect(err: ProviderError)
      requires Valid() && state.isMetaMaskInstalled
      modifies this`state, this`delivered
      ensures Valid()
      ensures state == old(state).(connectionState := Disconnected, account := None, balance := None,
                                   error := Some(Payload(err)))
      ensures delivered == old(delivered) + Emit(eventListeners, OnConnectionStateChanged, StateData(state))
                                          + Emit(eventListeners, OnError, ErrorData(Payload(err)))
    {
      state := state.(connectionState := Disconnected, account := None, balance := None, error := Some(Payload(err)));
      TriggerEvent(OnConnectionStateChanged, StateData(state));
      TriggerEvent(OnError, ErrorData(Payload(err)));
    }
  }
}
