# Firebase tutorial app: the local logic of sign-in and the user document

This project models, in Dafny, the three pieces of deterministic logic that an
iOS tutorial app (SwiftUI over Firebase Auth, Firestore, Google Sign-In and
Sign in with Apple) owns itself, and proves what each promises.

- **Authentication manager** (`authentication_manager.dfy`, module
  `Authentication`). The `AuthDataResultModel` snapshot of the signed-in user;
  the `AuthProviderOption` enum and its raw values `"password"`,
  `"google.com"`, `"apple.com"`; `getProviders()`, a loop that maps the current
  user's provider ids to options and skips ids it does not know; the
  credentials `signInWithGoogle`/`signInWithApple`/`linkGoogle`/`linkEmail`/
  `linkApple` build; and the no-user guards in `getAuthenticationUser`,
  `getProviders`, `updatePassword`, `updateEmail` and `linkCredntial`. The
  manager is a class whose `currentUser` field stands for
  `Auth.auth().currentUser`. A call the manager would make on that user is
  returned as a `BackendRequest` value, so "fails before any backend call"
  reads as "returns a failure and no request".
- **Sign in with Apple helper** (`sign_in_apple.dfy`, module `SignInApple`).
  `randomNonceString`, which maps each random byte to one of 64 characters by
  `byte % 64`. The lowercase `%02x` hex rendering of the SHA-256 digest. The
  helper object, whose `currentNonce` and `completionHandler` fields are set
  when the flow starts and read by the delegate callbacks.
- **User manager** (`user_manager.dfy`, module `UserStore`).
  `createNewUser(auth:)`, which builds a document with conditional fields and
  writes it with `merge: false`. `getUser(userID:)`, which decodes a document
  with type checks. The `users` collection is a
  `map<string, map<string, Value>>` field of the manager.

`common.dfy` (module `Common`) holds `Option`, `Result`, the `URLError` codes
the app throws and the `UInt8` byte type.

The main results:

- The provider mapping is a bijection on its three raw values, and every
  other string maps to nil.
- `GetProviders` equals the specification function `KnownProviders` on the
  user's ids. That function splits over concatenation, so it keeps order. It
  keeps every occurrence: no de-duplication. It drops unknown ids without
  failing.
- A nonce has exactly `length` characters, all from the charset, never a
  `'W'`. Each character fixes its byte modulo 64. Each character is the image
  of exactly four byte values.
- The hex rendering has length 2·n, uses only `[0-9a-f]` and reads back as
  the digest.
- A full Apple flow hands the completion closure the raw nonce whose hash the
  request carried.
- Decoding the document `createNewUser` writes gives back the user's id,
  anonymity, email and photo URL. The creation date comes back as whatever
  the Firestore SDK's `Timestamp`-to-`Date` bridging makes of the write
  time; that bridging is a parameter.

Points of the code that the model follows as written:

- `createNewUser(auth:)` writes the whole document with `merge: false` on
  every call, so a second call for the same user replaces `date_created`
  (`UserStore.CreateTwice`). Its callers are sign-in with Google, sign-in
  with Apple and anonymous sign-in in `AuthenticationViewModel`, and
  `ProfileViewModel.createUser()`, which runs each time a `ProfileViewModel`
  is created. Email sign-in does not call it; email sign-up calls a
  `createNewUser(user:)` that `UserManager.swift` does not define.
- `getProviders` returns an array that keeps duplicates.
- `linkEmail` calls `EmailAuthProvider.credential(withEmail:link:)` with the
  password in the `link` position. It is modelled as written
  (`EmailLinkCredential`).

## Model

| member | source | states |
|---|---|---|
| `Authentication.AuthDataResultOf` | FirebaseLearnNickSarnoTutorial/Authentication/AuthenticationManager.swift:29-34 | the snapshot has the user's uid, email and anonymity; its photo URL is present iff the user's is, and is then the URL's absolute string |
| `Authentication.ProviderOption` | FirebaseLearnNickSarnoTutorial/Authentication/AuthenticationManager.swift:44-48 | `"password"`, `"google.com"`, `"apple.com"` map to `.email`, `.google`, `.apple` (each iff), and every other string maps to nil |
| `Authentication.RawValue` | FirebaseLearnNickSarnoTutorial/Authentication/AuthenticationManager.swift:44-48 | each case's raw value maps back to that case |
| `Authentication.RawValueRoundTrip` | FirebaseLearnNickSarnoTutorial/Authentication/AuthenticationManager.swift:44-48 | `AuthProviderOption(rawValue: o.rawValue) == o` for every case, and a raw value maps to `o` only if it is `o`'s raw value |
| `Authentication.KnownProviders` | FirebaseLearnNickSarnoTutorial/Authentication/AuthenticationManager.swift:93-101 | the options collected from a list of ids are no more than the ids, and an option occurs iff its raw value occurs among the ids |
| `Authentication.KnownProvidersOfConcat` | FirebaseLearnNickSarnoTutorial/Authentication/AuthenticationManager.swift:94-100 | listing a concatenation is the concatenation of the listings: the output keeps the input's order |
| `Authentication.KnownProvidersOfOne` | FirebaseLearnNickSarnoTutorial/Authentication/AuthenticationManager.swift:95-99 | one id lists as its option when it is known and as nothing otherwise |
| `Authentication.KnownProvidersCounts` | FirebaseLearnNickSarnoTutorial/Authentication/AuthenticationManager.swift:94-96 | each option occurs in the output exactly as often as its raw value occurs in the input: no de-duplication |
| `Authentication.UnknownProvidersDropped` | FirebaseLearnNickSarnoTutorial/Authentication/AuthenticationManager.swift:97-99 | unknown ids list as nothing and, put before or after other ids, leave the listing unchanged |
| `Authentication.GoogleCredentialFor` | FirebaseLearnNickSarnoTutorial/Authentication/AuthenticationManager.swift:241-244 | the Google credential carries the tokens' id token and access token |
| `Authentication.AppleCredentialFor` | FirebaseLearnNickSarnoTutorial/Authentication/AuthenticationManager.swift:251-255 | the Apple credential is an OAuth credential under the id that maps to `.apple`, with the result's identity token and its raw nonce |
| `Authentication.EmailCredentialFor` | FirebaseLearnNickSarnoTutorial/Authentication/AuthenticationManager.swift:246-249 | the email-link credential carries the email, with the password in the link position |
| `Authentication.AuthenticationManager.GetAuthenticationUser` | FirebaseLearnNickSarnoTutorial/Authentication/AuthenticationManager.swift:69-75 | throws `.badServerResponse` exactly when there is no current user; otherwise returns the user's snapshot |
| `Authentication.AuthenticationManager.GetProviders` | FirebaseLearnNickSarnoTutorial/Authentication/AuthenticationManager.swift:89-102 | throws `.badServerResponse` with no current user; otherwise the loop returns exactly `KnownProviders` of the user's provider ids |
| `Authentication.AuthenticationManager.UpdatePassword` | FirebaseLearnNickSarnoTutorial/Authentication/AuthenticationManager.swift:171-175 | fails with `.badServerResponse` and issues no request exactly when there is no current user; otherwise asks the backend to set that user's password |
| `Authentication.AuthenticationManager.UpdateEmail` | FirebaseLearnNickSarnoTutorial/Authentication/AuthenticationManager.swift:184-188 | fails with `.badServerResponse` and issues no request exactly when there is no current user; otherwise asks for a verification mail to the new address |
| `Authentication.AuthenticationManager.LinkCredential` | FirebaseLearnNickSarnoTutorial/Authentication/AuthenticationManager.swift:257-264 | fails with `.badURL` and issues no request exactly when there is no current user; otherwise asks to link the credential to that user |
| `Authentication.AuthenticationManager.LinkGoogle` | FirebaseLearnNickSarnoTutorial/Authentication/AuthenticationManager.swift:241-244 | the no-user guard of the link path, and a link request for the current user carrying the Google tokens |
| `Authentication.AuthenticationManager.LinkEmail` | FirebaseLearnNickSarnoTutorial/Authentication/AuthenticationManager.swift:246-249 | the no-user guard of the link path, and a link request for the current user carrying the email-link credential |
| `Authentication.AuthenticationManager.LinkApple` | FirebaseLearnNickSarnoTutorial/Authentication/AuthenticationManager.swift:251-255 | the no-user guard of the link path, and a link request for the current user carrying the Apple token and raw nonce |
| `Authentication.ProvidersOfSession` | FirebaseLearnNickSarnoTutorial/Authentication/AuthenticationManager.swift:89-101 | for any session, `getProviders` throws iff signed out; signed in, its output is no longer than the ids and counts every option as often as its raw value occurs |
| `SignInApple.CharsetShape` | FirebaseLearnNickSarnoTutorial/Authentication/SignInAppleHelper.swift:55-56 | the charset has 64 characters, each position's character is found at no other position (`CharsetIndex` inverts indexing), and there is no `'W'` |
| `SignInApple.RandomNonceString` | FirebaseLearnNickSarnoTutorial/Authentication/SignInAppleHelper.swift:45-64 | requires `length > 0`; the nonce has exactly `length` characters, all from the charset, none `'W'`, and character i is the charset entry at `bytes[i] % 64` |
| `SignInApple.NonceDeterminesBytesModulo64` | FirebaseLearnNickSarnoTutorial/Authentication/SignInAppleHelper.swift:58-61 | two byte arrays give the same nonce iff they agree byte by byte modulo 64: the nonce depends on the bytes alone |
| `SignInApple.FourBytesPerCharacter` | FirebaseLearnNickSarnoTutorial/Authentication/SignInAppleHelper.swift:55-61 | every charset character is the image of exactly four of the 256 byte values |
| `SignInApple.HexByte` | FirebaseLearnNickSarnoTutorial/Authentication/SignInAppleHelper.swift:71 | `%02x` of a byte is two hex digits, the high nibble then the low nibble, that read back as the byte |
| `SignInApple.HexString` | FirebaseLearnNickSarnoTutorial/Authentication/SignInAppleHelper.swift:70-72 | the `%02x` rendering of n bytes has 2·n characters, all in `[0-9a-f]` |
| `SignInApple.HexRoundTrip` | FirebaseLearnNickSarnoTutorial/Authentication/SignInAppleHelper.swift:70-72 | the hex rendering reads back as the digest it came from |
| `SignInApple.HexStringInjective` | FirebaseLearnNickSarnoTutorial/Authentication/SignInAppleHelper.swift:70-72 | distinct digests render as distinct strings |
| `SignInApple.Sha256` | FirebaseLearnNickSarnoTutorial/Authentication/SignInAppleHelper.swift:67-75 | the hashed nonce is 64 lowercase hex characters that read back as the input's SHA-256 digest |
| `SignInApple.SignInWithAppleHelper.StartSignInWithAppleFlow` | FirebaseLearnNickSarnoTutorial/Authentication/SignInAppleHelper.swift:91-109 | with no top view controller: the passed closure gets `.badURL`, no request is made, and the nonce and handler stay as they were; otherwise the raw nonce and the closure are stored, and the request asks for full name and email with the hash of that nonce |
| `SignInApple.SignInWithAppleHelper.DidCompleteWithAuthorization` | FirebaseLearnNickSarnoTutorial/Authentication/SignInAppleHelper.swift:116-132 | the stored closure, if any, hears back; success iff the credential is an Apple ID credential, a nonce is stored and the token exists and decodes; the success carries the raw stored nonce, the decoded token, the email and the given name; a failure is `.badServerResponse` |
| `SignInApple.SignInWithAppleHelper.DidCompleteWithError` | FirebaseLearnNickSarnoTutorial/Authentication/SignInAppleHelper.swift:134-138 | the stored closure, if any, always gets `.cannotFindHost` |
| `SignInApple.SignInWithAppleFlow` | FirebaseLearnNickSarnoTutorial/Authentication/SignInAppleHelper.swift:77-132 | a fresh helper started and then completed always answers the closure; on success the nonce it hands back is the raw 32-character nonce, without `'W'`, whose hash the request carried |
| `UserStore.NewUserDocument` | FirebaseLearnNickSarnoTutorial/Firestore/UserManager.swift:25-37 | the document always holds `user_id`, `is_anonymous` and `date_created` with the user's values; `email` and `photo_url` are present iff the user has them; no other key |
| `UserStore.BoolField` | FirebaseLearnNickSarnoTutorial/Firestore/UserManager.swift:49 | `as? Bool` gives a value iff the field is present and holds a Bool |
| `UserStore.StringField` | FirebaseLearnNickSarnoTutorial/Firestore/UserManager.swift:50-51 | `as? String` gives a value iff the field is present and holds a string |
| `UserStore.DateField` | FirebaseLearnNickSarnoTutorial/Firestore/UserManager.swift:52 | `as? Date` gives nil when the field is missing or not a timestamp; on a stored timestamp it gives what the SDK's bridging (a parameter) makes of it |
| `UserStore.DecodeUser` | FirebaseLearnNickSarnoTutorial/Firestore/UserManager.swift:45-54 | fails with `.badServerResponse` iff `user_id` is missing or not a string; each optional field that is missing or of another type decodes to nil without failing |
| `UserStore.CreateThenDecode` | FirebaseLearnNickSarnoTutorial/Firestore/UserManager.swift:24-54 | decoding a freshly written document succeeds with the user's uid, `Some(isAnonymous)`, email and photo URL, and the bridging's reading of the write time as its date |
| `UserStore.UserManager.CreateNewUser` | FirebaseLearnNickSarnoTutorial/Firestore/UserManager.swift:24-40 | the document under `auth.uid` is replaced whole by the new document; documents under other ids are unchanged; `getUser(auth.uid)` then round-trips, whatever the timestamp bridging |
| `UserStore.UserManager.GetUser` | FirebaseLearnNickSarnoTutorial/Firestore/UserManager.swift:42-55 | fails with `.badServerResponse` iff there is no document for the id or its `user_id` is missing or not a string; otherwise it decodes that document |
| `UserStore.CreateTwice` | FirebaseLearnNickSarnoTutorial/Firestore/UserManager.swift:24-39 | after two writes for the same user the stored document is the second one, whose `date_created` is the second write time and not the first; `getUser` decodes its date from the second time |

## Left out

- `DateField`: Firestore hands back a stored `Timestamp` as a `Timestamp`
  object. Whether `as? Date` succeeds on it depends on the SDK's bridging,
  which the app does not show. The bridging is the parameter `asDate`, so no
  contract fixes the decoded `dateCreated`.
- `RandomNonceString`: takes the bytes `SecRandomCopyBytes` wrote as an
  input. The `fatalError` when that call fails is not modelled. The
  `precondition(length > 0)` is the function's `requires`.
- `Sha256`: the SHA-256 digest is a function parameter, and the UTF-8
  encoding of the input before hashing is part of it.
- `DidCompleteWithAuthorization`: UTF-8 decoding of the identity token is a
  function parameter.
- `StartSignInWithAppleFlow`: the search for a top view controller is a
  boolean parameter. `performRequests()` and the presentation anchor are UIKit.
  The request is returned, not performed.
- `StartSignInWithAppleFlow`: the async wrapper `startSignInWithAppleFlow()`
  (a checked continuation that turns the closure's result into a return or a
  throw) is concurrency bridging and is not modelled. `SignInWithAppleFlow`
  runs the same start-then-complete sequence in its place.
- `createUser`, `signIn(email:password:)`, `signIn(credential:)`,
  `signInWithGoogle`, `signInWithApple`, `signInAnonymous`, `resetPassword`
  and `signOut`: each is a single Firebase call whose effect lives in the
  backend, with no guard of its own. Only the credentials they build
  (`GoogleCredentialFor`, `AppleCredentialFor`) and the snapshot they return
  (`AuthDataResultOf`) are modelled.
- What Firebase does with an update, email-change or link request is not
  modelled, nor what the backend hands back after one. That includes how a
  link changes the provider list or the anonymous flag.
- `CreateNewUser`: the write always succeeds in the model. Network and SDK
  failures of `setData` and `getDocument` are outside it.
- The `print` in the error callback and the `assertionFailure` on an unknown
  provider id are debug output. Release builds do not trap, and the model
  follows release builds.
- The SwiftUI views, the view models, the Google Sign-In helper, the
  view-controller walk in `Utilities` and the products manager are not part
  of this model. They are UI, SDK configuration or SDK pass-through. The
  empty-field early return in the email view model is left out with them.
