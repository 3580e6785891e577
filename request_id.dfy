/** Deterministic request ids of the Flare services: the Java `String.hashCode`
    recurrence over the serialised request parameters, rendered as `0x` followed
    by 64 lower-case hexadecimal digits. Both service files carry the same
    `generateRequestId`; it is modelled once here. */
module RequestId {

  /** A UTF-16 code unit, the value `charCodeAt` returns. */
  type CodeUnit = c: int | 0 <= c < 0x1_0000

  /** A signed 32-bit integer, the range of JavaScript's bitwise operators. */
  type Int32 = x: int | -0x8000_0000 <= x < 0x8000_0000

  /** ECMAScript's ToInt32: the value in the signed 32-bit range congruent to `x` modulo 2^32. */
  function ToInt32(x: int): (r: Int32)
    ensures (r - x) % 0x1_0000_0000 == 0
  {
    var m := (x + 0x8000_0000) % 0x1_0000_0000;
    assert x + 0x8000_0000 == (x + 0x8000_0000) / 0x1_0000_0000 * 0x1_0000_0000 + m;
    m - 0x8000_0000
  }

  /** Two signed 32-bit values that agree modulo 2^32 are equal. */
  lemma CongruentInt32Equal(a: Int32, b: Int32)
    requires (a - b) % 0x1_0000_0000 == 0
    ensures a == b
  {
    var q := (a - b) / 0x1_0000_0000;
    assert a - b == q * 0x1_0000_0000;
  }

  /** Reducing modulo 2^32 commutes with addition of an integer. */
  lemma ToInt32Shift(x: int, y: int)
    ensures ToInt32(ToInt32(x) + y) == ToInt32(x + y)
  {
    var a, b := ToInt32(ToInt32(x) + y), ToInt32(x + y);
    var k1 := (a - (ToInt32(x) + y)) / 0x1_0000_0000;
    var k2 := (ToInt32(x) - x) / 0x1_0000_0000;
    var k3 := (b - (x + y)) / 0x1_0000_0000;
    assert a - (ToInt32(x) + y) == k1 * 0x1_0000_0000;
    assert ToInt32(x) - x == k2 * 0x1_0000_0000;
    assert b - (x + y) == k3 * 0x1_0000_0000;
    assert a - b == (k1 + k2 - k3) * 0x1_0000_0000;
    CongruentInt32Equal(a, b);
  }

  /** One step of the loop exactly as the source writes it:
      `hash = ((hash << 5) - hash) + char; hash = hash & hash`.
      On a signed 32-bit `hash`, `hash << 5` is ToInt32(32 * hash), the
      subtraction and addition are exact, and `hash & hash` is ToInt32. */
  function JsStep(hash: Int32, c: CodeUnit): Int32 {
    ToInt32(ToInt32(hash * 32) - hash + c)
  }

  /** The JavaScript step is the Java hash step `h := int32(31 * h + c)`. */
  lemma JsStepIsHashStep(hash: Int32, c: CodeUnit)
    ensures JsStep(hash, c) == ToInt32(31 * hash + c)
  {
    ToInt32Shift(hash * 32, c - hash);
  }

  /** The reference definition: Java's `String.hashCode` over the code units, as a left fold. */
  function HashOf(s: seq<CodeUnit>): Int32
  {
    if |s| == 0 then 0 else ToInt32(31 * HashOf(s[..|s| - 1]) + s[|s| - 1])
  }

  function Abs(h: Int32): (r: nat)
    ensures r <= 0x8000_0000
    ensures r == h as int || r == 0 - h as int
  {
    if h < 0 then 0 - h as int else h
  }

  // ---------------------------------------------------------------------------
  // Hexadecimal rendering (`toString(16)` and `padStart(64, '0')`)

  predicate IsHexDigit(c: char) {
    '0' <= c <= '9' || 'a' <= c <= 'f'
  }

  predicate IsHexString(s: string) {
    forall i :: 0 <= i < |s| ==> IsHexDigit(s[i])
  }

  function DigitChar(d: nat): (c: char)
    requires d < 16
    ensures IsHexDigit(c)
  {
    if d < 10 then '0' + d as char else 'a' + (d - 10) as char
  }

  function DigitValue(c: char): (d: nat)
    requires IsHexDigit(c)
    ensures d < 16
  {
    if c <= '9' then (c - '0') as nat else (c - 'a') as nat + 10
  }

  lemma DigitRoundTrip(d: nat)
    requires d < 16
    ensures DigitValue(DigitChar(d)) == d
  {
  }

  /** Number#toString(16) on a non-negative integer: lower-case digits, no leading zeros. */
  function ToHex(n: nat): (s: string)
    ensures |s| >= 1 && IsHexString(s)
    ensures n > 0 ==> s[0] != '0'
  {
    if n < 16 then [DigitChar(n)] else ToHex(n / 16) + [DigitChar(n % 16)]
  }

  /** The value of a string of hexadecimal digits, most significant first. */
  function HexValue(s: string): nat
    requires IsHexString(s)
  {
    if |s| == 0 then 0 else HexValue(s[..|s| - 1]) * 16 + DigitValue(s[|s| - 1])
  }

  /** String#padStart: left-pads with `fill` up to `width`, never truncates. */
  function PadStart(s: string, width: nat, fill: char): (r: string)
    ensures |r| == if |s| >= width then |s| else width
    ensures r[|r| - |s|..] == s
    ensures forall i :: 0 <= i < |r| - |s| ==> r[i] == fill
  {
    if |s| >= width then s else seq(width - |s|, _ => fill) + s
  }

  /** Rendering a number in hexadecimal and reading it back gives the number. */
  lemma {:induction false} HexRoundTrip(n: nat)
    ensures HexValue(ToHex(n)) == n
  {
    if n < 16 {
      DigitRoundTrip(n);
    } else {
      var s := ToHex(n);
      assert s[..|s| - 1] == ToHex(n / 16);
      HexRoundTrip(n / 16);
      DigitRoundTrip(n % 16);
    }
  }

  /** Hexadecimal rendering needs at most k digits for a number below 16^k; 2^31 needs 8. */
  lemma {:induction false} HexLengthBound(n: nat, k: nat)
    requires k >= 1 && n < Pow16(k)
    ensures |ToHex(n)| <= k
  {
    if n >= 16 {
      HexLengthBound(n / 16, k - 1);
    }
  }

  function Pow16(k: nat): (p: nat)
    ensures p >= 1
  {
    if k == 0 then 1 else 16 * Pow16(k - 1)
  }

  /** Leading zeros do not change the value of a hexadecimal string. */
  lemma {:induction false} LeadingZerosValue(z: nat, s: string)
    requires IsHexString(s)
    ensures IsHexString(seq(z, _ => '0') + s)
    ensures HexValue(seq(z, _ => '0') + s) == HexValue(s)
  {
    var zs: string := seq(z, _ => '0');
    var t := zs + s;
    assert IsHexString(t) by {
      forall i | 0 <= i < |t| ensures IsHexDigit(t[i]) {
        if i < z { assert t[i] == '0'; } else { assert t[i] == s[i - z]; }
      }
    }
    if |s| == 0 {
      assert t == zs;
      ZerosValue(z);
    } else {
      assert t[..|t| - 1] == zs + s[..|s| - 1];
      LeadingZerosValue(z, s[..|s| - 1]);
    }
  }

  lemma {:induction false} ZerosValue(z: nat)
    ensures IsHexString(seq(z, _ => '0'))
    ensures HexValue(seq(z, _ => '0')) == 0
  {
    var zs: string := seq(z, _ => '0');
    if z > 0 {
      assert zs[..z - 1] == seq(z - 1, _ => '0');
      ZerosValue(z - 1);
    }
  }

  /** `'0x' + Math.abs(hash).toString(16).padStart(64, '0')`. */
  function RenderId(h: Int32): string {
    "0x" + PadStart(ToHex(Abs(h)), 64, '0')
  }

  /** The request id of a serialised parameter string. */
  function RequestIdOf(s: seq<CodeUnit>): string {
    RenderId(HashOf(s))
  }

  /** A rendered id is `0x` and exactly 64 lower-case hex digits whose value is |hash|. */
  lemma RenderIdShape(h: Int32)
    ensures |RenderId(h)| == 66 && RenderId(h)[..2] == "0x"
    ensures IsHexString(RenderId(h)[2..])
    ensures HexValue(RenderId(h)[2..]) == Abs(h)
  {
    var hex := ToHex(Abs(h));
    assert Pow16(8) == 0x1_0000_0000;
    HexLengthBound(Abs(h), 8);
    var body := PadStart(hex, 64, '0');
    assert body == seq(64 - |hex|, _ => '0') + hex;
    LeadingZerosValue(64 - |hex|, hex);
    HexRoundTrip(Abs(h));
    assert RenderId(h)[2..] == body;
  }

  /** Two parameter strings with the same hash magnitude get the same id; an id
      determines |hash| (the rendering loses only the sign). */
  lemma RenderIdDeterminesMagnitude(h1: Int32, h2: Int32)
    ensures RenderId(h1) == RenderId(h2) <==> Abs(h1) == Abs(h2)
  {
    RenderIdShape(h1);
    RenderIdShape(h2);
  }

  /** The hashing loop of `generateRequestId` (repeated verbatim in the VRF fallback):
      it computes the Java hash recurrence and keeps the running hash a signed
      32-bit integer after every step. */
  method ComputeHash(paramsString: seq<CodeUnit>) returns (hash: Int32)
    ensures hash == HashOf(paramsString)
  {
    hash := 0;
    var i := 0;
    while i < |paramsString|
      invariant 0 <= i <= |paramsString|
      invariant hash == HashOf(paramsString[..i])
    {
      var c := paramsString[i];
      JsStepIsHashStep(hash, c);
      assert paramsString[..i + 1][..i] == paramsString[..i];
      hash := ToInt32(ToInt32(hash * 32) - hash + c);
      i := i + 1;
    }
    assert paramsString[..i] == paramsString;
  }

  /** `generateRequestId` on the serialised parameters: a function of that string alone,
      `0x` and 64 lower-case hex digits whose value is the magnitude of the hash. */
  method GenerateRequestId(paramsString: seq<CodeUnit>) returns (id: string)
    ensures id == RequestIdOf(paramsString)
    ensures |id| == 66 && id[..2] == "0x" && IsHexString(id[2..])
    ensures HexValue(id[2..]) == Abs(HashOf(paramsString))
  {
    var hash := ComputeHash(paramsString);
    id := "0x" + PadStart(ToHex(Abs(hash)), 64, '0');
    RenderIdShape(hash);
  }
}
