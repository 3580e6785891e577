/** The initialisation attempt shared by both Flare service files: wallet
    presence, account access, then a switch to the Coston testnet (adding the
    chain when the wallet does not know it). The wallet's answers are parameters. */
module FlareInit {
  import opened Wrappers
  import opened Provider

  /** Coston testnet, `parseInt('0x10', 16)`. */
  const CostonChainId: int := 16
  const CostonChainIdHex: string := "0x10"

  const NoWalletMessage: string := "MetaMask is not installed"

  /** The environment's answers to one initialisation: whether `window.ethereum` exists,
      and the replies to the account request, to awaiting the signer (only the ethers v6
      file awaits it), to the network query, to the chain switch and to the chain add. */
  datatype InitReplies = InitReplies(
    walletPresent: bool,
    accountsReply: Reply<()>,
    signerReply: Reply<()>,
    networkReply: Reply<int>,
    switchReply: Reply<()>,
    addReply: Reply<()>)

  /** How the `try` block ends: ready, or thrown with `error.message` (possibly undefined). */
  datatype InitResult = Ready | InitFailed(message: Option<string>)

  /** The `try` block of `initialize`. After a successful add the chain is not re-read:
      the attempt counts as ready. */
  function InitAttempt(r: InitReplies, awaitsSigner: bool): (res: InitResult)
    ensures res.Ready? <==>
              r.walletPresent && r.accountsReply.Answer? && (!awaitsSigner || r.signerReply.Answer?)
              && r.networkReply.Answer?
              && (r.networkReply.value == CostonChainId || r.switchReply.Answer?
                  || (r.switchReply.error.code == UnrecognizedChain && r.addReply.Answer?))
    ensures !r.walletPresent ==> res == InitFailed(Some(NoWalletMessage))
    ensures r.walletPresent && r.accountsReply.Failed? ==> res == InitFailed(r.accountsReply.error.message)
  {
    if !r.walletPresent then InitFailed(Some(NoWalletMessage))
    else if r.accountsReply.Failed? then InitFailed(r.accountsReply.error.message)
    else if awaitsSigner && r.signerReply.Failed? then InitFailed(r.signerReply.error.message)
    else if r.networkReply.Failed? then InitFailed(r.networkReply.error.message)
    else if r.networkReply.value == CostonChainId then Ready
    else match r.switchReply
      case Answer(_) => Ready
      case Failed(switchError) =>
        if switchError.code != UnrecognizedChain then InitFailed(switchError.message)
        else match r.addReply
          case Answer(_) => Ready
          case Failed(addError) => InitFailed(addError.message)
  }

  /** The three flags both services keep: `isInitialized`, `isConnecting`, `connectionError`. */
  datatype InitFlags = InitFlags(initialized: bool, connecting: bool, error: Option<string>)

  /** The flags after one call of `initialize`: nothing changes when the service is already
      initialised or another attempt is in progress; otherwise the attempt runs to completion,
      clears `isConnecting`, and sets `isInitialized` or records the error. */
  function AfterInitialize(f: InitFlags, r: InitReplies, awaitsSigner: bool): (g: InitFlags)
    ensures g.connecting == f.connecting
    ensures g.initialized <==> f.initialized || (!f.connecting && InitAttempt(r, awaitsSigner).Ready?)
    ensures f.initialized || f.connecting ==> g.error == f.error
    ensures !f.initialized && !f.connecting ==>
              g.error == if g.initialized then None else InitAttempt(r, awaitsSigner).message
  {
    if f.initialized || f.connecting then f
    else match InitAttempt(r, awaitsSigner)
      case Ready => InitFlags(true, false, None)
      case InitFailed(message) => InitFlags(false, false, message)
  }
}
