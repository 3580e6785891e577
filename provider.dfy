/** The browser wallet provider's error and reply shapes (EIP-1193, "Ethereum
    Provider JavaScript API"). Every provider round-trip of the model takes its
    answer as a `Reply`: the value the request resolved to, or the error it was
    rejected with. */
module Provider {
  import opened Wrappers

  /** A rejected request: `error.code` and `error.message` (which may be absent). */
  datatype ProviderError = ProviderError(code: int, message: Option<string>)

  /** EIP-1193, "Provider Errors": the user rejected the request. */
  const UserRejectedRequest: int := 4001

  /** The code a wallet gives for `wallet_switchEthereumChain` (EIP-3326) when the
      chain has not been added with `wallet_addEthereumChain` (EIP-3085). */
  const UnrecognizedChain: int := 4902

  datatype Reply<+T> = Answer(value: T) | Failed(error: ProviderError)

  /** `error.message || fallback`: JavaScript's `||` treats a missing or empty message as false. */
  function MessageOr(e: ProviderError, fallback: string): (m: string)
    ensures m == fallback || Some(m) == e.message
    ensures m == fallback <== e.message.None? || e.message == Some("")
    ensures e.message.Some? && e.message.value != "" ==> m == e.message.value
  {
    if e.message.Some? && e.message.value != "" then e.message.value else fallback
  }
}
