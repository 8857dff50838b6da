/** The authentication manager: the snapshot the app takes of the signed-in
    Firebase user, the closed mapping from provider ids to the app's provider
    options, the provider listing, and the no-user guards in front of the
    calls the manager makes on the current user.

    Firebase Auth itself is outside the model. Its "current user" is a field
    of the manager object; the backend calls the manager would make on that
    user are returned as requests instead of being performed. */
module Authentication {
  import opened Common
  import SignInApple

  // ---------------------------------------------------------------------
  // The user and its snapshot
  // ---------------------------------------------------------------------

  /** A Foundation `URL`, of which the app reads `absoluteString`. */
  datatype URL = URL(absoluteString: string)

  /** What the app reads of a Firebase `User`; `providerIDs` are the
      `providerID`s of its `providerData`, in order. */
  datatype User = User(uid: string, email: Option<string>, photoURL: Option<URL>,
                       isAnonymous: bool, providerIDs: seq<string>)

  /** `AuthDataResultModel`: the app's copy of a user. */
  datatype AuthDataResultModel = AuthDataResultModel(uid: string, email: Option<string>,
                                                     photoURL: Option<string>, isAnonymous: bool)

  /** `AuthDataResultModel(user:)`: field by field, the photo URL as its
      absolute string. */
  function AuthDataResultOf(user: User): (m: AuthDataResultModel)
    ensures m.uid == user.uid && m.email == user.email && m.isAnonymous == user.isAnonymous
    ensures m.photoURL.Some? <==> user.photoURL.Some?
    ensures user.photoURL.Some? ==> m.photoURL.value == user.photoURL.value.absoluteString
  {
    AuthDataResultModel(user.uid, user.email,
                        if user.photoURL.Some? then Some(user.photoURL.value.absoluteString) else None,
                        user.isAnonymous)
  }

  // ---------------------------------------------------------------------
  // Provider options
  // ---------------------------------------------------------------------

  /** `AuthProviderOption`, a `String`-backed enum. */
  datatype AuthProviderOption = Email | Google | Apple

  /** The enum's raw values: each one maps back to its case. */
  function RawValue(option: AuthProviderOption): (r: string)
    ensures ProviderOption(r) == Some(option)
  {
    match option
    case Email => "password"
    case Google => "google.com"
    case Apple => "apple.com"
  }

  /** `AuthProviderOption(rawValue:)`: exactly the three raw values are
      recognised; every other string gives nil. */
  function ProviderOption(rawValue: string): (option: Option<AuthProviderOption>)
    ensures option == Some(Email) <==> rawValue == "password"
    ensures option == Some(Google) <==> rawValue == "google.com"
    ensures option == Some(Apple) <==> rawValue == "apple.com"
    ensures option.None? <==> rawValue !in {"password", "google.com", "apple.com"}
  {
    if rawValue == "password" then Some(Email)
    else if rawValue == "google.com" then Some(Google)
    else if rawValue == "apple.com" then Some(Apple)
    else None
  }

  /** The mapping is a bijection between the three cases and their raw values. */
  lemma RawValueRoundTrip(option: AuthProviderOption, rawValue: string)
    ensures ProviderOption(RawValue(option)) == Some(option)
    ensures ProviderOption(rawValue) == Some(option) <==> rawValue == RawValue(option)
  {
  }

  /** The options `getProviders()` collects from a list of provider ids:
      each recognised id gives its option, in order; the others are skipped. */
  function KnownProviders(ids: seq<string>): (options: seq<AuthProviderOption>)
    ensures |options| <= |ids|
    ensures forall o :: o in options <==> RawValue(o) in ids
  {
    if ids == [] then []
    else
      var last := ids[|ids| - 1];
      var front := KnownProviders(ids[..|ids| - 1]);
      assert ids == ids[..|ids| - 1] + [last];
      match ProviderOption(last)
      case Some(o) => front + [o]
      case None => front
  }

  /** The listing works id by id: listing a concatenation lists each part
      and keeps the order. */
  lemma {:induction false} KnownProvidersOfConcat(a: seq<string>, b: seq<string>)
    ensures KnownProviders(a + b) == KnownProviders(a) + KnownProviders(b)
    decreases |b|
  {
    if b == [] {
      assert a + b == a;
    } else {
      var front := b[..|b| - 1];
      assert (a + b)[..|a + b| - 1] == a + front;
      assert (a + b)[|a + b| - 1] == b[|b| - 1];
      KnownProvidersOfConcat(a, front);
    }
  }

  /** One id on its own lists as its option, or as nothing when it is unknown. */
  lemma KnownProvidersOfOne(id: string)
    ensures KnownProviders([id]) == if ProviderOption(id).Some? then [ProviderOption(id).value] else []
  {
  }

  /** No de-duplication: each option occurs as often as its raw value does. */
  lemma {:induction false} KnownProvidersCounts(ids: seq<string>, option: AuthProviderOption)
    ensures multiset(KnownProviders(ids))[option] == multiset(ids)[RawValue(option)]
    decreases |ids|
  {
    if ids != [] {
      var front, last := ids[..|ids| - 1], ids[|ids| - 1];
      assert ids == front + [last];
      KnownProvidersCounts(front, option);
      KnownProvidersOfConcat(front, [last]);
      KnownProvidersOfOne(last);
      RawValueRoundTrip(option, last);
    }
  }

  /** Unknown ids are dropped without aborting: a list of unknown ids lists
      as nothing, and unknown ids mixed in change nothing. */
  lemma {:induction false} UnknownProvidersDropped(ids: seq<string>, unknown: seq<string>)
    requires forall i :: 0 <= i < |unknown| ==> ProviderOption(unknown[i]).None?
    ensures KnownProviders(unknown) == []
    ensures KnownProviders(ids + unknown) == KnownProviders(ids)
    ensures KnownProviders(unknown + ids) == KnownProviders(ids)
    decreases |unknown|
  {
    if unknown != [] {
      var front, last := unknown[..|unknown| - 1], unknown[|unknown| - 1];
      assert unknown == front + [last];
      UnknownProvidersDropped(ids, front);
      KnownProvidersOfConcat(front, [last]);
      KnownProvidersOfOne(last);
      assert ProviderOption(unknown[|unknown| - 1]).None?;
      assert KnownProviders(unknown) == [];
    }
    KnownProvidersOfConcat(ids, unknown);
    KnownProvidersOfConcat(unknown, ids);
    assert KnownProviders(ids) + [] == KnownProviders(ids);
  }

  // ---------------------------------------------------------------------
  // Credentials and backend requests
  // ---------------------------------------------------------------------

  /** `GoogleSignInResultModel`: the tokens the Google SDK hands back. */
  datatype GoogleSignInResultModel = GoogleSignInResultModel(idToken: string, accessToken: string)

  /** The Firebase `AuthCredential`s the manager builds. */
  datatype Credential =
    | GoogleCredential(idToken: string, accessToken: string)
    | OAuthCredential(providerID: string, idToken: string, rawNonce: string)
    | EmailLinkCredential(email: string, link: string)

  /** `GoogleAuthProvider.credential(withIDToken:accessToken:)` of the tokens,
      used by `signInWithGoogle` and `linkGoogle`. */
  function GoogleCredentialFor(tokens: GoogleSignInResultModel): (c: Credential)
    ensures c.GoogleCredential? && c.idToken == tokens.idToken && c.accessToken == tokens.accessToken
  {
    GoogleCredential(tokens.idToken, tokens.accessToken)
  }

  /** `OAuthProvider.credential(providerID: .apple, idToken:rawNonce:)`, used by
      `signInWithApple` and `linkApple`: the identity token and the RAW nonce
      that the Apple helper handed back, under the id that lists as `.apple`. */
  function AppleCredentialFor(tokens: SignInApple.SignInWithAppleResult): (c: Credential)
    ensures c.OAuthCredential? && ProviderOption(c.providerID) == Some(Apple)
    ensures c.idToken == tokens.token && c.rawNonce == tokens.nonce
  {
    OAuthCredential(RawValue(Apple), tokens.token, tokens.nonce)
  }

  /** `EmailAuthProvider.credential(withEmail:link:)` as `linkEmail` calls it:
      the password is passed in the `link` position. */
  function EmailCredentialFor(email: string, password: string): (c: Credential)
    ensures c.EmailLinkCredential? && c.email == email && c.link == password
  {
    EmailLinkCredential(email, password)
  }

  /** A call the manager makes on the current user, addressed by its uid. */
  datatype BackendRequest =
    | UpdatePasswordRequest(uid: string, password: string)
    | EmailVerificationRequest(uid: string, newEmail: string)
    | LinkRequest(uid: string, credential: Credential)

  // ---------------------------------------------------------------------
  // The manager
  // ---------------------------------------------------------------------

  /** `AuthenticationManager`, with `Auth.auth().currentUser` as a field. */
  class AuthenticationManager {
    var currentUser: Option<User>

    constructor (currentUser: Option<User>)
      ensures this.currentUser == currentUser
    {
      this.currentUser := currentUser;
    }

    /** `getAuthenticationUser()`: throws `.badServerResponse` exactly when
        nobody is signed in, and otherwise returns the snapshot of the user. */
    method GetAuthenticationUser() returns (r: Result<AuthDataResultModel, URLError>)
      ensures r.Failure? <==> currentUser.None?
      ensures r.Failure? ==> r.error == BadServerResponse
      ensures r.Success? ==> r.value == AuthDataResultOf(currentUser.value)
    {
      if currentUser.None? {
        return Failure(BadServerResponse);
      }
      r := Success(AuthDataResultOf(currentUser.value));
    }

    /** `getProviders()`: throws `.badServerResponse` when nobody is signed
        in; otherwise walks the user's provider ids, appending the option of
        each recognised id and skipping the rest (the `assertionFailure` on
        an unknown id traps only in debug builds). */
    method GetProviders() returns (r: Result<seq<AuthProviderOption>, URLError>)
      ensures currentUser.None? ==> r == Failure(BadServerResponse)
      ensures currentUser.Some? ==> r == Success(KnownProviders(currentUser.value.providerIDs))
    {
      if currentUser.None? {
        return Failure(BadServerResponse);
      }
      var providerData := currentUser.value.providerIDs;
      var providers: seq<AuthProviderOption> := [];
      var i := 0;
      while i < |providerData|
        invariant 0 <= i <= |providerData|
        invariant providers == KnownProviders(providerData[..i])
      {
        assert providerData[..i + 1][..i] == providerData[..i];
        var option := ProviderOption(providerData[i]);
        if option.Some? {
          providers := providers + [option.value];
        }
        i := i + 1;
      }
      assert providerData[..i] == providerData;
      r := Success(providers);
    }

    /** `updatePassword(password:)`: without a current user it throws
        `.badServerResponse` and asks nothing of the backend. */
    method UpdatePassword(password: string) returns (r: Result<BackendRequest, URLError>)
      ensures r.Failure? <==> currentUser.None?
      ensures r.Failure? ==> r.error == BadServerResponse
      ensures r.Success? ==> r.value == UpdatePasswordRequest(currentUser.value.uid, password)
    {
      if currentUser.None? {
        return Failure(BadServerResponse);
      }
      r := Success(UpdatePasswordRequest(currentUser.value.uid, password));
    }

    /** `updateEmail(email:)`: without a current user it throws
        `.badServerResponse`; otherwise it asks for a verification mail to the
        new address before the change. */
    method UpdateEmail(email: string) returns (r: Result<BackendRequest, URLError>)
      ensures r.Failure? <==> currentUser.None?
      ensures r.Failure? ==> r.error == BadServerResponse
      ensures r.Success? ==> r.value == EmailVerificationRequest(currentUser.value.uid, email)
    {
      if currentUser.None? {
        return Failure(BadServerResponse);
      }
      r := Success(EmailVerificationRequest(currentUser.value.uid, email));
    }

    /** `linkCredntial(credential:)`: without a current user it throws
        `.badURL` (not `.badServerResponse`) and asks nothing of the backend. */
    method LinkCredential(credential: Credential) returns (r: Result<BackendRequest, URLError>)
      ensures r.Failure? <==> currentUser.None?
      ensures r.Failure? ==> r.error == BadURL
      ensures r.Success? ==> r.value == LinkRequest(currentUser.value.uid, credential)
    {
      if currentUser.None? {
        return Failure(BadURL);
      }
      r := Success(LinkRequest(currentUser.value.uid, credential));
    }

    /** `linkGoogle(tokens:)`. */
    method LinkGoogle(tokens: GoogleSignInResultModel) returns (r: Result<BackendRequest, URLError>)
      ensures r.Failure? <==> currentUser.None?
      ensures r.Failure? ==> r.error == BadURL
      ensures r.Success? ==> r.value.LinkRequest? && r.value.uid == currentUser.value.uid
      ensures r.Success? ==> r.value.credential == GoogleCredential(tokens.idToken, tokens.accessToken)
    {
      r := LinkCredential(GoogleCredentialFor(tokens));
    }

    /** `linkEmail(email:password:)`. */
    method LinkEmail(email: string, password: string) returns (r: Result<BackendRequest, URLError>)
      ensures r.Failure? <==> currentUser.None?
      ensures r.Failure? ==> r.error == BadURL
      ensures r.Success? ==> r.value.LinkRequest? && r.value.uid == currentUser.value.uid
      ensures r.Success? ==> r.value.credential == EmailLinkCredential(email, password)
    {
      r := LinkCredential(EmailCredentialFor(email, password));
    }

    /** `linkApple(tokens:)`: the credential carries the raw nonce. */
    method LinkApple(tokens: SignInApple.SignInWithAppleResult) returns (r: Result<BackendRequest, URLError>)
      ensures r.Failure? <==> currentUser.None?
      ensures r.Failure? ==> r.error == BadURL
      ensures r.Success? ==> r.value.LinkRequest? && r.value.uid == currentUser.value.uid
      ensures r.Success? ==> r.value.credential == OAuthCredential("apple.com", tokens.token, tokens.nonce)
    {
      r := LinkCredential(AppleCredentialFor(tokens));
    }
  }

  /** A freshly signed-in manager lists the providers of its user, and a
      signed-out one throws, whatever the provider ids. */
  method ProvidersOfSession(user: Option<User>) returns (r: Result<seq<AuthProviderOption>, URLError>)
    ensures r.Failure? <==> user.None?
    ensures r.Success? ==> |r.value| <= |user.value.providerIDs|
    ensures r.Success? ==> forall o :: multiset(r.value)[o] == multiset(user.value.providerIDs)[RawValue(o)]
  {
    var manager := new AuthenticationManager(user);
    r := manager.GetProviders();
    if r.Success? {
      forall o ensures multiset(r.value)[o] == multiset(user.value.providerIDs)[RawValue(o)] {
        KnownProvidersCounts(user.value.providerIDs, o);
      }
    }
  }
}
