/** The Flare VRF service of the back-end's static pages: a result cache keyed by
    request id in front of a simulated randomness request, a deterministic
    fallback, and the module-level initialisation flags. The module-level
    variables become the fields of one `VrfService` object. `Math.random` and
    `Date.now` are parameters. */
module FlareVrf {
  import opened Wrappers
  import opened RequestId
  import opened FlareInit

  /** `{requestId, randomHex, normalizedValue}` (with `isFallback: true` on the fallback path). */
  datatype VrfResult = VrfResult(requestId: string, randomHex: string, normalizedValue: real, isFallback: bool)

  /** `a ^ b` on two signed 32-bit integers. */
  function Xor32(a: Int32, b: Int32): Int32 {
    var x := ((a as int) % 0x1_0000_0000) as bv32 ^ ((b as int) % 0x1_0000_0000) as bv32;
    var u := x as int;
    if u >= 0x8000_0000 then u - 0x1_0000_0000 else u
  }

  /** `(n % 1000) / 1000`: a value in [0, 0.999] in steps of 0.001. */
  function Normalize(n: nat): (v: real)
    ensures 0.0 <= v <= 0.999
  {
    (n % 1000) as real / 1000.0
  }

  /** The fallback hash: the request hash mixed with the clock, `hash ^ Date.now()`. */
  function FallbackHash(paramsString: seq<CodeUnit>, now: int): Int32 {
    Xor32(HashOf(paramsString), ToInt32(now))
  }

  /** The fallback result for a parameter string at time `now`. */
  function FallbackResult(paramsString: seq<CodeUnit>, now: int): (r: VrfResult)
    ensures r.isFallback && r.requestId == RequestIdOf(paramsString)
    ensures 0.0 <= r.normalizedValue <= 0.999
    ensures r.normalizedValue == (Abs(FallbackHash(paramsString, now)) % 1000) as real / 1000.0
    ensures |r.randomHex| == 66 && r.randomHex[..2] == "0x" && IsHexString(r.randomHex[2..])
    ensures HexValue(r.randomHex[2..]) == Abs(FallbackHash(paramsString, now))
  {
    var h := FallbackHash(paramsString, now);
    RenderIdShape(h);
    VrfResult(RequestIdOf(paramsString), RenderId(h), Normalize(Abs(h)), true)
  }

  /** The main-path result from 64 random hex digits. */
  function MainResult(requestId: string, randomDigits: string): (r: VrfResult)
    requires |randomDigits| == 64 && IsHexString(randomDigits)
    ensures !r.isFallback && r.requestId == requestId
    ensures 0.0 <= r.normalizedValue < 1.0
    ensures r.randomHex == "0x" + randomDigits
    ensures r.normalizedValue == (HexValue(randomDigits) % 1000) as real / 1000.0
  {
    VrfResult(requestId, "0x" + randomDigits, Normalize(HexValue(randomDigits)), false)
  }

  class VrfService {
    /** `vrfCache`. */
    var cache: map<string, VrfResult>
    var isInitialized: bool
    var isConnecting: bool
    var connectionError: Option<string>

    /** Every cached entry is filed under its own request id. */
    ghost predicate Valid()
      reads this
    {
      forall id :: id in cache ==> cache[id].requestId == id
    }

    constructor ()
      ensures Valid()
      ensures cache == map[] && !isInitialized && !isConnecting && connectionError.None?
    {
      cache := map[];
      isInitialized := false;
      isConnecting := false;
      connectionError := None;
    }

    /** The guards of `initialize`: true at once when initialised, false at once while another
        initialisation is in progress (None: the attempt has started). */
    method BeginInitialize() returns (early: Option<bool>)
      modifies this`isConnecting, this`connectionError
      ensures old(isInitialized) ==> early == Some(true)
      ensures !old(isInitialized) && old(isConnecting) ==> early == Some(false)
      ensures early.Some? ==> isConnecting == old(isConnecting) && connectionError == old(connectionError)
      ensures early.None? <==> !old(isInitialized) && !old(isConnecting)
      ensures early.None? ==> isConnecting && connectionError.None?
    {
      if isInitialized {
        return Some(true);
      }
      if isConnecting {
        return Some(false);
      }
      isConnecting := true;
      connectionError := None;
      early := None;
    }

    /** The rest of `initialize`: both exits reset `isConnecting`; only the failure records an error. */
    method FinishInitialize(replies: InitReplies) returns (ok: bool)
      requires isConnecting && connectionError.None?
      modifies this`isInitialized, this`isConnecting, this`connectionError
      ensures !isConnecting
      ensures ok <==> InitAttempt(replies, false).Ready?
      ensures ok ==> isInitialized && connectionError.None?
      ensures !ok ==> isInitialized == old(isInitialized) && connectionError == InitAttempt(replies, false).message
    {
      match InitAttempt(replies, false)
      case Ready =>
        isInitialized := true;
        isConnecting := false;
        ok := true;
      case InitFailed(message) =>
        connectionError := message;
        isConnecting := false;
        ok := false;
    }

    /** `initialize`, run to completion. */
    method Initialize(replies: InitReplies) returns (ok: bool)
      modifies this`isInitialized, this`isConnecting, this`connectionError
      ensures old(isInitialized) ==> ok && isInitialized && isConnecting == old(isConnecting)
      ensures !old(isInitialized) && old(isConnecting) ==>
                !ok && isConnecting && !isInitialized && connectionError == old(connectionError)
      ensures !old(isInitialized) && !old(isConnecting) ==>
                !isConnecting
                && (ok <==> InitAttempt(replies, false).Ready?)
                && (ok ==> isInitialized && connectionError.None?)
                && (!ok ==> !isInitialized && connectionError == InitAttempt(replies, false).message)
      ensures AfterInitialize(InitFlags(old(isInitialized), old(isConnecting), old(connectionError)), replies, false)
              == InitFlags(isInitialized, isConnecting, connectionError)
      ensures ok == isInitialized
    {
      var early := BeginInitialize();
      if early.Some? {
        return early.value;
      }
      ok := FinishInitialize(replies);
    }

    /** `useFallbackRandom`: the hash mixed with the clock, stored under the request id. */
    method UseFallbackRandom(paramsString: seq<CodeUnit>, now: int) returns (r: VrfResult)
      requires Valid()
      modifies this`cache
      ensures Valid()
      ensures r == FallbackResult(paramsString, now)
      ensures cache == old(cache)[r.requestId := r]
    {
      var requestId := GenerateRequestId(paramsString);
      var hash := ComputeHash(paramsString);
      hash := Xor32(hash, ToInt32(now));
      assert hash == FallbackHash(paramsString, now);
      var randomHex := "0x" + PadStart(ToHex(Abs(hash)), 64, '0');
      var normalizedValue := (Abs(hash) % 1000) as real / 1000.0;
      assert randomHex == RenderId(hash) && normalizedValue == Normalize(Abs(hash));
      r := VrfResult(requestId, randomHex, normalizedValue, true);
      cache := cache[requestId := r];
    }

    /** `requestRandomness`. A cached id returns the cached entry and changes nothing. Otherwise
        the service is initialised if need be; a failed initialisation falls back, and a
        successful one yields the main-path result, cached under the request id. */
    method RequestRandomness(paramsString: seq<CodeUnit>, replies: InitReplies, randomDigits: string, now: int)
      returns (r: VrfResult)
      requires Valid()
      requires |randomDigits| == 64 && IsHexString(randomDigits)
      modifies this
      ensures Valid()
      ensures r.requestId == RequestIdOf(paramsString)
      ensures RequestIdOf(paramsString) in old(cache) ==>
                r == old(cache)[RequestIdOf(paramsString)]
                && cache == old(cache) && isInitialized == old(isInitialized)
                && isConnecting == old(isConnecting) && connectionError == old(connectionError)
      ensures RequestIdOf(paramsString) !in old(cache) ==>
                var g := AfterInitialize(InitFlags(old(isInitialized), old(isConnecting), old(connectionError)), replies, false);
                cache == old(cache)[RequestIdOf(paramsString) := r]
                && isInitialized == g.initialized && isConnecting == g.connecting && connectionError == g.error
                && r == if g.initialized then MainResult(RequestIdOf(paramsString), randomDigits)
                        else FallbackResult(paramsString, now)
      ensures 0.0 <= r.normalizedValue < 1.0 || RequestIdOf(paramsString) in old(cache)
    {
      var requestId := GenerateRequestId(paramsString);
      if requestId in cache {
        return cache[requestId];
      }
      if !isInitialized {
        var success := Initialize(replies);
        if !success {
          r := UseFallbackRandom(paramsString, now);
          return;
        }
      }
      r := MainResult(requestId, randomDigits);
      cache := cache[requestId := r];
    }

    /** `clearCache`: afterwards every request misses the cache. */
    method ClearCache()
      modifies this`cache
      ensures cache == map[]
      ensures Valid()
    {
      cache := map[];
    }

    /** `getConnectionStatus`. */
    method GetConnectionStatus() returns (initialized: bool, connecting: bool, error: Option<string>)
      ensures initialized == isInitialized && connecting == isConnecting && error == connectionError
    {
      initialized, connecting, error := isInitialized, isConnecting, connectionError;
    }
  }
}
