/** The Flare FDC (data purchase) service of the web app: a result cache keyed by
    request id in front of a `purchase` call on the DataPurchase contract, a
    fallback with a random transaction hash, and the module-level initialisation
    flags, held as the fields of one `FdcService` object. The contract's answers
    and `Math.random` are parameters. */
module FlareFdc {
  import opened Wrappers
  import opened Provider
  import opened RequestId
  import opened FlareInit

  /** `ethers.parseEther('0.01')`: 0.01 FLR in wei. */
  const PurchasePriceWei: nat := 10_000_000_000_000_000

  datatype Status = Pending | Completed

  /** `{requestId, txHash, status}` (with `isFallback: true` on the fallback path). */
  datatype FdcResult = FdcResult(requestId: string, txHash: string, status: Status, isFallback: bool)

  /** One `contract.purchase(requestId, { value: price })` call. */
  datatype PurchaseCall = PurchaseCall(requestId: string, valueWei: nat)

  /** The fallback result: a made-up transaction hash, reported as already completed. */
  function FallbackData(requestId: string, randomDigits: string): (r: FdcResult)
    requires |randomDigits| == 64 && IsHexString(randomDigits)
    ensures r.isFallback && r.status == Completed && r.requestId == requestId
    ensures |r.txHash| == 66 && r.txHash[..2] == "0x" && r.txHash[2..] == randomDigits
  {
    FdcResult(requestId, "0x" + randomDigits, Completed, true)
  }

  class FdcService {
    /** `fdcCache`. */
    var cache: map<string, FdcResult>
    var isInitialized: bool
    var isConnecting: bool
    var connectionError: Option<string>
    /** Every `purchase` call sent to the contract, in order. */
    var purchases: seq<PurchaseCall>

    /** Every cached entry is filed under its own request id. */
    ghost predicate Valid()
      reads this
    {
      forall id :: id in cache ==> cache[id].requestId == id
    }

    constructor ()
      ensures Valid()
      ensures cache == map[] && !isInitialized && !isConnecting && connectionError.None? && purchases == []
    {
      cache := map[];
      isInitialized := false;
      isConnecting := false;
      connectionError := None;
      purchases := [];
    }

    /** The guards of `initialize` (see the VRF service, which has the same ones). */
    method BeginInitialize() returns (early: Option<bool>)
      modifies this`isConnecting, this`connectionError
      ensures old(isInitialized) ==> early == Some(true)
      ensures !old(isInitialized) && old(isConnecting) ==> early == Some(false)
      ensures early.Some? ==> isConnecting == old(isConnecting) && connectionError == old(connectionError)
      ensures early.None? <==> !old(isInitialized) && !old(isConnecting)
      ensures early.None? ==> isConnecting && connectionError.None?
    {
      if isInitialized {
        return Some(true);
      }
      if isConnecting {
        return Some(false);
      }
      isConnecting := true;
      connectionError := None;
      early := None;
    }

    /** The rest of `initialize`; this file also awaits `provider.getSigner()`. */
    method FinishInitialize(replies: InitReplies) returns (ok: bool)
      requires isConnecting && connectionError.None?
      modifies this`isInitialized, this`isConnecting, this`connectionError
      ensures !isConnecting
      ensures ok <==> InitAttempt(replies, true).Ready?
      ensures ok ==> isInitialized && connectionError.None?
      ensures !ok ==> isInitialized == old(isInitialized) && connectionError == InitAttempt(replies, true).message
    {
      match InitAttempt(replies, true)
      case Ready =>
        isInitialized := true;
        isConnecting := false;
        ok := true;
      case InitFailed(message) =>
        connectionError := message;
        isConnecting := false;
        ok := false;
    }

    /** `initialize`, run to completion. */
    method Initialize(replies: InitReplies) returns (ok: bool)
      modifies this`isInitialized, this`isConnecting, this`connectionError
      ensures old(isInitialized) ==> ok && isInitialized && isConnecting == old(isConnecting)
      ensures !old(isInitialized) && old(isConnecting) ==>
                !ok && isConnecting && !isInitialized && connectionError == old(connectionError)
      ensures !old(isInitialized) && !old(isConnecting) ==>
                !isConnecting
                && (ok <==> InitAttempt(replies, true).Ready?)
                && (ok ==> isInitialized && connectionError.None?)
                && (!ok ==> !isInitialized && connectionError == InitAttempt(replies, true).message)
      ensures AfterInitialize(InitFlags(old(isInitialized), old(isConnecting), old(connectionError)), replies, true)
              == InitFlags(isInitialized, isConnecting, connectionError)
      ensures ok == isInitialized
    {
      var early := BeginInitialize();
      if early.Some? {
        return early.value;
      }
      ok := FinishInitialize(replies);
    }

    /** `useFallbackData`: stores the fallback result under the request id. */
    method UseFallbackData(paramsString: seq<CodeUnit>, randomDigits: string) returns (r: FdcResult)
      requires Valid()
      requires |randomDigits| == 64 && IsHexString(randomDigits)
      modifies this`cache
      ensures Valid()
      ensures r == FallbackData(RequestIdOf(paramsString), randomDigits)
      ensures cache == old(cache)[r.requestId := r]
    {
      var requestId := GenerateRequestId(paramsString);
      r := FdcResult(requestId, "0x" + randomDigits, Completed, true);
      cache := cache[requestId := r];
    }

    /** The contract call of `purchaseData`: one `purchase` of 0.01 FLR for the request id; a
        mined transaction gives a pending result carrying its hash, a failed one the fallback.
        Either result is cached under the request id. */
    method Purchase(paramsString: seq<CodeUnit>, purchaseReply: Reply<string>, randomDigits: string)
      returns (r: FdcResult)
      requires Valid()
      requires |randomDigits| == 64 && IsHexString(randomDigits)
      modifies this`cache, this`purchases
      ensures Valid()
      ensures purchases == old(purchases) + [PurchaseCall(RequestIdOf(paramsString), PurchasePriceWei)]
      ensures r == match purchaseReply
                   case Answer(txHash) => FdcResult(RequestIdOf(paramsString), txHash, Pending, false)
                   case Failed(_) => FallbackData(RequestIdOf(paramsString), randomDigits)
      ensures cache == old(cache)[RequestIdOf(paramsString) := r]
    {
      var requestId := GenerateRequestId(paramsString);
      purchases := purchases + [PurchaseCall(requestId, PurchasePriceWei)];
      match purchaseReply
      case Answer(txHash) =>
        r := FdcResult(requestId, txHash, Pending, false);
        cache := cache[requestId := r];
      case Failed(_) =>
        r := UseFallbackData(paramsString, randomDigits);
    }

    /** `purchaseData`. A cached id returns the cached entry and changes nothing. Otherwise the
        service is initialised if need be; a failed initialisation falls back without calling the
        contract. An initialised service sends one `purchase` of 0.01 FLR for the request id; a
        mined transaction gives a pending result carrying its hash, a failed one falls back. */
    method PurchaseData(paramsString: seq<CodeUnit>, replies: InitReplies,
                        purchaseReply: Reply<string>, randomDigits: string)
      returns (r: FdcResult)
      requires Valid()
      requires |randomDigits| == 64 && IsHexString(randomDigits)
      modifies this
      ensures Valid()
      ensures r.requestId == RequestIdOf(paramsString)
      ensures RequestIdOf(paramsString) in old(cache) ==>
                r == old(cache)[RequestIdOf(paramsString)]
                && cache == old(cache) && purchases == old(purchases)
                && isInitialized == old(isInitialized)
                && isConnecting == old(isConnecting) && connectionError == old(connectionError)
      ensures RequestIdOf(paramsString) !in old(cache) ==>
                var g := AfterInitialize(InitFlags(old(isInitialized), old(isConnecting), old(connectionError)), replies, true);
                cache == old(cache)[RequestIdOf(paramsString) := r]
                && isInitialized == g.initialized && isConnecting == g.connecting && connectionError == g.error
                && (!isInitialized ==>
                      purchases == old(purchases) && r == FallbackData(RequestIdOf(paramsString), randomDigits))
                && (isInitialized ==>
                      purchases == old(purchases) + [PurchaseCall(RequestIdOf(paramsString), PurchasePriceWei)]
                      && r == match purchaseReply
                              case Answer(txHash) => FdcResult(RequestIdOf(paramsString), txHash, Pending, false)
                              case Failed(_) => FallbackData(RequestIdOf(paramsString), randomDigits))
      ensures r.status == Pending <==>
                (RequestIdOf(paramsString) !in old(cache) && isInitialized && purchaseReply.Answer?)
                || (RequestIdOf(paramsString) in old(cache) && old(cache)[RequestIdOf(paramsString)].status == Pending)
    {
      var requestId := GenerateRequestId(paramsString);
      if requestId in cache {
        return cache[requestId];
      }
      ghost var g := AfterInitialize(InitFlags(isInitialized, isConnecting, connectionError), replies, true);
      if !isInitialized {
        var success := Initialize(replies);
        if !success {
          r := UseFallbackData(paramsString, randomDigits);
          assert !isInitialized && !g.initialized;
          return;
        }
      }
      assert isInitialized && g.initialized;
      assert isConnecting == g.connecting && connectionError == g.error;
      r := Purchase(paramsString, purchaseReply, randomDigits);
    }

    /** `clearCache`: afterwards every request misses the cache. */
    method ClearCache()
      modifies this`cache
      ensures cache == map[]
      ensures Valid()
    {
      cache := map[];
    }

    /** `getConnectionStatus`. */
    method GetConnectionStatus() returns (initialized: bool, connecting: bool, error: Option<string>)
      ensures initialized == isInitialized && connecting == isConnecting && error == connectionError
    {
      initialized, connecting, error := isInitialized, isConnecting, connectionError;
    }
  }
}
