/** Sign in with Apple: the nonce the app generates, the lowercase-hex
    rendering of its SHA-256 digest, and the helper object that remembers the
    raw nonce and the completion handler between the start of the flow and
    the authorization controller's delegate callbacks.

    The random bytes (`SecRandomCopyBytes`), the SHA-256 digest
    (`CryptoKit.SHA256`), the UTF-8 decoding of the identity token and the
    search for a top view controller are foreign code: they enter the model
    as parameters. */
module SignInApple {
  import opened Common

  // ---------------------------------------------------------------------
  // The nonce
  // ---------------------------------------------------------------------

  /** The 64 characters a nonce is drawn from, in the source's order, written
      as the runs that make it up: the upper-case letters skip 'W'. */
  const Digits: string := "0123456789"
  const UpperToV: string := "ABCDEFGHIJKLMNOPQRSTUV"
  const UpperFromX: string := "XYZ"
  const Lower: string := "abcdefghijklmnopqrstuvwxyz"
  const Punctuation: string := "-._"
  const Charset: string := Digits + UpperToV + UpperFromX + Lower + Punctuation

  /** The length `randomNonceString` uses when called without an argument. */
  const DefaultNonceLength: int := 32

  /** The position of `c` in `Charset`, or -1 when `c` is not in it. */
  function CharsetIndex(c: char): (k: int)
    ensures -1 <= k < 64
  {
    if '0' <= c <= '9' then c as int - '0' as int
    else if 'A' <= c <= 'V' then 10 + (c as int - 'A' as int)
    else if 'X' <= c <= 'Z' then 32 + (c as int - 'X' as int)
    else if 'a' <= c <= 'z' then 35 + (c as int - 'a' as int)
    else if c == '-' then 61
    else if c == '.' then 62
    else if c == '_' then 63
    else -1
  }

  /** The charset has 64 characters, `CharsetIndex` undoes indexing into it,
      so every position holds a different character, and 'W' is not among
      them. */
  lemma CharsetShape()
    ensures |Charset| == 64
    ensures forall i :: 0 <= i < |Charset| ==> CharsetIndex(Charset[i]) == i
    ensures forall i, j :: 0 <= i < j < |Charset| ==> Charset[i] != Charset[j]
    ensures 'W' !in Charset
  {
    assert forall i :: 0 <= i < |Digits| ==> CharsetIndex(Digits[i]) == i;
    assert forall i :: 0 <= i < |UpperToV| ==> CharsetIndex(UpperToV[i]) == 10 + i;
    assert forall i :: 0 <= i < |UpperFromX| ==> CharsetIndex(UpperFromX[i]) == 32 + i;
    assert forall i :: 0 <= i < |Lower| ==> CharsetIndex(Lower[i]) == 35 + i;
    assert forall i :: 0 <= i < |Punctuation| ==> CharsetIndex(Punctuation[i]) == 61 + i;
    assert CharsetIndex('W') == -1;
  }

  /** `randomNonceString(length:)` once `SecRandomCopyBytes` has filled
      `randomBytes` with `length` bytes: byte i picks character
      `byte % charset.count` of the charset. */
  function RandomNonceString(length: int, randomBytes: seq<UInt8>): (nonce: string)
    requires length > 0
    requires |randomBytes| == length
    ensures |nonce| == length
    ensures forall i :: 0 <= i < |nonce| ==> nonce[i] == Charset[randomBytes[i] as int % 64]
    ensures forall i :: 0 <= i < |nonce| ==> nonce[i] in Charset
    ensures forall i :: 0 <= i < |nonce| ==> CharsetIndex(nonce[i]) == randomBytes[i] as int % 64
    ensures 'W' !in nonce
  {
    CharsetShape();
    seq(length, i requires 0 <= i < length => Charset[randomBytes[i] as int % |Charset|])
  }

  /** The nonce depends on nothing but the bytes: each character determines
      its byte modulo 64, so equal nonces come from bytes that agree modulo 64. */
  lemma NonceDeterminesBytesModulo64(length: int, a: seq<UInt8>, b: seq<UInt8>)
    requires length > 0 && |a| == length && |b| == length
    ensures RandomNonceString(length, a) == RandomNonceString(length, b)
        <==> forall i :: 0 <= i < length ==> a[i] as int % 64 == b[i] as int % 64
  {
  }

  /** Because 256 is a multiple of 64, every character of the charset is the
      image of exactly four byte values, so each is equally likely. */
  lemma FourBytesPerCharacter(c: char)
    requires c in Charset
    ensures |set x: int | 0 <= x < 256 && Charset[x % 64] == c| == 4
  {
    CharsetShape();
    var k := CharsetIndex(c);
    assert 0 <= k < 64 && Charset[k] == c;
    var preimages := set x: int | 0 <= x < 256 && Charset[x % 64] == c;
    forall x | 0 <= x < 256
      ensures x in preimages <==> x in {k, k + 64, k + 128, k + 192}
    {
      assert CharsetIndex(Charset[x % 64]) == x % 64;
      ResidueCases(x, k);
    }
    assert preimages == {k, k + 64, k + 128, k + 192};
  }

  lemma ResidueCases(x: int, k: int)
    requires 0 <= x < 256 && 0 <= k < 64
    ensures x % 64 == k <==> x in {k, k + 64, k + 128, k + 192}
  {
  }

  // ---------------------------------------------------------------------
  // The digest rendering
  // ---------------------------------------------------------------------

  /** The digits `String(format: "%02x", _)` writes. */
  const HexDigits: string := "0123456789abcdef"

  /** A SHA-256 digest: 32 bytes. */
  type Sha256Digest = d: seq<UInt8> | |d| == 32 witness seq(32, i => 0 as UInt8)

  /** `%02x` of one byte: two lowercase hex digits, high nibble first, that
      read back as the byte. */
  function HexByte(b: UInt8): (r: string)
    ensures |r| == 2
    ensures HexValue(r[0]) == b as int / 16
    ensures HexValue(r[1]) == b as int % 16
    ensures 16 * HexValue(r[0]) + HexValue(r[1]) == b as int
  {
    HexDigitsInvert();
    [HexDigits[b as int / 16], HexDigits[b as int % 16]]
  }

  /** `compactMap { String(format: "%02x", $0) }.joined()` of a digest. */
  function HexString(digest: seq<UInt8>): (s: string)
    ensures |s| == 2 * |digest|
    ensures forall i :: 0 <= i < |s| ==> s[i] in HexDigits
  {
    if digest == [] then "" else HexByte(digest[0]) + HexString(digest[1..])
  }

  /** The value of a lowercase hex digit, or -1. */
  function HexValue(c: char): (v: int)
    ensures -1 <= v < 16
  {
    if '0' <= c <= '9' then c as int - '0' as int
    else if 'a' <= c <= 'f' then 10 + (c as int - 'a' as int)
    else -1
  }

  /** Reads back a string of lowercase hex digit pairs. */
  function HexDecode(s: string): (r: Option<seq<UInt8>>)
    ensures r.Some? ==> 2 * |r.value| == |s|
  {
    if |s| == 0 then Some([])
    else if |s| == 1 then None
    else
      var hi, lo := HexValue(s[0]), HexValue(s[1]);
      if hi < 0 || lo < 0 then None
      else match HexDecode(s[2..])
        case None => None
        case Some(rest) => Some([(16 * hi + lo) as UInt8] + rest)
  }

  /** `HexValue` undoes indexing into `HexDigits`. */
  lemma HexDigitsInvert()
    ensures |HexDigits| == 16
    ensures forall k :: 0 <= k < 16 ==> HexValue(HexDigits[k]) == k
  {
  }

  /** The hex rendering loses nothing: it reads back as the digest. */
  lemma {:induction false} HexRoundTrip(digest: seq<UInt8>)
    ensures HexDecode(HexString(digest)) == Some(digest)
  {
    if digest != [] {
      var b := digest[0];
      var s := HexString(digest);
      var head := HexByte(b);
      assert s == head + HexString(digest[1..]);
      assert s[0] == head[0] && s[1] == head[1];
      assert s[2..] == HexString(digest[1..]);
      var hi, lo := HexValue(s[0]), HexValue(s[1]);
      assert 0 <= hi && 0 <= lo && (16 * hi + lo) as UInt8 == b;
      HexRoundTrip(digest[1..]);
      assert HexDecode(s) == Some([b] + digest[1..]);
      assert [b] + digest[1..] == digest;
    }
  }

  /** Distinct digests render as distinct strings. */
  lemma HexStringInjective(a: seq<UInt8>, b: seq<UInt8>)
    requires HexString(a) == HexString(b)
    ensures a == b
  {
    HexRoundTrip(a);
    HexRoundTrip(b);
  }

  /** `sha256(_:)`: the lowercase hex rendering of the digest `hash` gives
      for the input, 64 characters long. */
  function Sha256(input: string, hash: string -> Sha256Digest): (hex: string)
    ensures |hex| == 64
    ensures forall i :: 0 <= i < |hex| ==> hex[i] in HexDigits
    ensures HexDecode(hex) == Some(hash(input))
  {
    HexRoundTrip(hash(input));
    HexString(hash(input))
  }

  // ---------------------------------------------------------------------
  // The helper object
  // ---------------------------------------------------------------------

  /** What the request asks Apple for: `.fullName` and `.email`. */
  datatype Scope = FullName | Email

  /** The `ASAuthorizationAppleIDRequest` the helper hands to the
      authorization controller. */
  datatype AuthorizationRequest = AuthorizationRequest(requestedScopes: seq<Scope>, nonce: string)

  /** The identity of a completion closure; the model only tracks which
      closure a result is handed to. */
  type Handler = nat

  /** `SignInWithAppleResult`. */
  datatype SignInWithAppleResult = SignInWithAppleResult(token: string, nonce: string, name: Option<string>, email: Option<string>)

  /** A call of a completion closure with a result. */
  datatype Delivery = Delivery(handler: Handler, result: Result<SignInWithAppleResult, URLError>)

  /** `PersonNameComponents`, of which the helper reads the given name. */
  datatype PersonName = PersonName(givenName: Option<string>)

  /** What the helper reads of an `ASAuthorizationAppleIDCredential`. */
  datatype AppleIDCredential = AppleIDCredential(identityToken: Option<seq<UInt8>>, fullName: Option<PersonName>, email: Option<string>)

  /** An `ASAuthorization`: its credential is an Apple ID credential or some
      other kind (`None`), for which the `as?` cast fails. */
  datatype Authorization = Authorization(appleIDCredential: Option<AppleIDCredential>)

  /** `SignInWithAppleHelper` with its two private fields. */
  class SignInWithAppleHelper {
    var currentNonce: Option<string>
    var completionHandler: Option<Handler>

    constructor ()
      ensures currentNonce == None && completionHandler == None
    {
      currentNonce := None;
      completionHandler := None;
    }

    /** `startSignInWithAppleFlow(completion:)`. Without a top view controller
        the passed closure is failed with `.badURL` at once and the helper is
        left as it was; otherwise the raw nonce and the closure are stored and
        the request carries the hash of the nonce. The request is what the
        helper passes to `performRequests()`. */
    method StartSignInWithAppleFlow(completion: Handler, topViewControllerFound: bool,
                                    randomBytes: seq<UInt8>, hash: string -> Sha256Digest)
      returns (request: Option<AuthorizationRequest>, delivery: Option<Delivery>)
      requires |randomBytes| == DefaultNonceLength
      modifies this
      ensures !topViewControllerFound ==>
        && request == None
        && delivery == Some(Delivery(completion, Failure(BadURL)))
        && currentNonce == old(currentNonce)
        && completionHandler == old(completionHandler)
      ensures topViewControllerFound ==>
        && delivery == None
        && currentNonce == Some(RandomNonceString(DefaultNonceLength, randomBytes))
        && completionHandler == Some(completion)
        && request == Some(AuthorizationRequest([FullName, Email], Sha256(currentNonce.value, hash)))
    {
      if !topViewControllerFound {
        return None, Some(Delivery(completion, Failure(BadURL)));
      }
      var nonce := RandomNonceString(DefaultNonceLength, randomBytes);
      currentNonce := Some(nonce);
      completionHandler := Some(completion);
      request := Some(AuthorizationRequest([FullName, Email], Sha256(nonce, hash)));
      delivery := None;
    }

    /** `authorizationController(controller:didCompleteWithAuthorization:)`.
        The stored closure, if any, gets a success carrying the RAW stored
        nonce when the credential is an Apple ID credential with an identity
        token that decodes as UTF-8 and a nonce is stored; otherwise it gets
        `.badServerResponse`. The helper's fields are not changed. */
    method DidCompleteWithAuthorization(authorization: Authorization, utf8: seq<UInt8> -> Option<string>)
      returns (delivery: Option<Delivery>)
      ensures delivery.Some? <==> completionHandler.Some?
      ensures delivery.Some? ==> delivery.value.handler == completionHandler.value
      ensures delivery.Some? ==>
        (delivery.value.result.Success? <==>
          && authorization.appleIDCredential.Some?
          && currentNonce.Some?
          && authorization.appleIDCredential.value.identityToken.Some?
          && utf8(authorization.appleIDCredential.value.identityToken.value).Some?)
      ensures delivery.Some? && delivery.value.result.Failure? ==>
        delivery.value.result.error == BadServerResponse
      ensures delivery.Some? && delivery.value.result.Success? ==>
        var credential, tokens := authorization.appleIDCredential.value, delivery.value.result.value;
        && tokens.nonce == currentNonce.value
        && Some(tokens.token) == utf8(credential.identityToken.value)
        && tokens.email == credential.email
        && tokens.name == (if credential.fullName.Some? then credential.fullName.value.givenName else None)
    {
      if authorization.appleIDCredential.None? || currentNonce.None?
         || authorization.appleIDCredential.value.identityToken.None?
         || utf8(authorization.appleIDCredential.value.identityToken.value).None?
      {
        delivery := if completionHandler.Some? then Some(Delivery(completionHandler.value, Failure(BadServerResponse))) else None;
        return;
      }
      var credential := authorization.appleIDCredential.value;
      var idTokenString := utf8(credential.identityToken.value).value;
      var name := if credential.fullName.Some? then credential.fullName.value.givenName else None;
      var tokens := SignInWithAppleResult(idTokenString, currentNonce.value, name, credential.email);
      delivery := if completionHandler.Some? then Some(Delivery(completionHandler.value, Success(tokens))) else None;
    }

    /** `authorizationController(controller:didCompleteWithError:)`: the
        stored closure, if any, always gets `.cannotFindHost`. */
    method DidCompleteWithError() returns (delivery: Option<Delivery>)
      ensures delivery.Some? <==> completionHandler.Some?
      ensures delivery.Some? ==> delivery.value.handler == completionHandler.value
      ensures delivery.Some? ==> delivery.value.result == Failure(CannotFindHost)
    {
      delivery := if completionHandler.Some? then Some(Delivery(completionHandler.value, Failure(CannotFindHost))) else None;
    }
  }

  /** One whole flow as `AuthenticationViewModel.signInWithApple()` runs it:
      a fresh helper, a successful start, then the delegate's completion.
      The closure always hears back; on success the nonce it receives is the
      raw 32-character nonce whose hash the request carried. */
  method SignInWithAppleFlow(completion: Handler, randomBytes: seq<UInt8>, hash: string -> Sha256Digest,
                             authorization: Authorization, utf8: seq<UInt8> -> Option<string>)
    returns (request: Option<AuthorizationRequest>, delivery: Option<Delivery>)
    requires |randomBytes| == DefaultNonceLength
    ensures request.Some? && delivery.Some? && delivery.value.handler == completion
    ensures delivery.value.result.Success? <==>
      && authorization.appleIDCredential.Some?
      && authorization.appleIDCredential.value.identityToken.Some?
      && utf8(authorization.appleIDCredential.value.identityToken.value).Some?
    ensures delivery.value.result.Success? ==>
      var nonce := delivery.value.result.value.nonce;
      && nonce == RandomNonceString(DefaultNonceLength, randomBytes)
      && request.value.nonce == Sha256(nonce, hash)
      && |nonce| == 32 && 'W' !in nonce
  {
    var helper := new SignInWithAppleHelper();
    var immediate;
    request, immediate := helper.StartSignInWithAppleFlow(completion, true, randomBytes, hash);
    delivery := helper.DidCompleteWithAuthorization(authorization, utf8);
  }
}
