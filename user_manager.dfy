/** The user manager: the Firestore document written for a user under the
    `users` collection, and the decoding of that document back into a
    `DBUser`.

    The collection is a map from document id to document, held by the
    manager object; a document is a map from field name to a value of one of
    the three kinds the app writes. The network, the SDK's own failures and
    the clock behind `Timestamp()` are outside the model: the time of a write
    is a parameter. So is the SDK's bridging of a stored `Timestamp` to a
    `Date`, which decides what `as? Date` makes of the written time. */
module UserStore {
  import opened Common
  import Authentication

  /** A Firestore field value of the kinds the app writes: a string, a Bool,
      or a `Timestamp`, here an opaque write time. */
  datatype Value = VStr(s: string) | VBool(b: bool) | VTime(t: int)

  type Document = map<string, Value>

  const UserIDKey: string := "user_id"
  const IsAnonymousKey: string := "is_anonymous"
  const DateCreatedKey: string := "date_created"
  const EmailKey: string := "email"
  const PhotoURLKey: string := "photo_url"

  /** `DBUser`; only `userID` is certain to be present. */
  datatype DBUser = DBUser(userID: string, isAnonymous: Option<bool>, email: Option<string>,
                           photoURL: Option<string>, dateCreated: Option<int>)

  /** The document `createNewUser(auth:)` writes at time `now`: the three
      fixed fields, `email` only when the user has one and `photo_url` only
      when the user has one, and nothing else. */
  function NewUserDocument(auth: Authentication.AuthDataResultModel, now: int): (d: Document)
    ensures d.Keys == {UserIDKey, IsAnonymousKey, DateCreatedKey}
                      + (if auth.email.Some? then {EmailKey} else {})
                      + (if auth.photoURL.Some? then {PhotoURLKey} else {})
    ensures d[UserIDKey] == VStr(auth.uid)
    ensures d[IsAnonymousKey] == VBool(auth.isAnonymous)
    ensures d[DateCreatedKey] == VTime(now)
    ensures EmailKey in d <==> auth.email.Some?
    ensures EmailKey in d ==> d[EmailKey] == VStr(auth.email.value)
    ensures PhotoURLKey in d <==> auth.photoURL.Some?
    ensures PhotoURLKey in d ==> d[PhotoURLKey] == VStr(auth.photoURL.value)
  {
    var fixed := map[UserIDKey := VStr(auth.uid), IsAnonymousKey := VBool(auth.isAnonymous),
                     DateCreatedKey := VTime(now)];
    var withEmail := if auth.email.Some? then fixed[EmailKey := VStr(auth.email.value)] else fixed;
    if auth.photoURL.Some? then withEmail[PhotoURLKey := VStr(auth.photoURL.value)] else withEmail
  }

  /** `data[key] as? String`. */
  function StringField(data: Document, key: string): (r: Option<string>)
    ensures r.Some? <==> key in data && data[key].VStr?
    ensures r.Some? ==> data[key] == VStr(r.value)
  {
    if key in data && data[key].VStr? then Some(data[key].s) else None
  }

  /** `data[key] as? Bool`. */
  function BoolField(data: Document, key: string): (r: Option<bool>)
    ensures r.Some? <==> key in data && data[key].VBool?
    ensures r.Some? ==> data[key] == VBool(r.value)
  {
    if key in data && data[key].VBool? then Some(data[key].b) else None
  }

  /** `data[key] as? Date`. A missing field, or a field of another kind,
      gives nil; a stored `Timestamp` gives whatever `asDate`, the SDK's
      bridging of a timestamp to a `Date`, makes of it (nil included). */
  function DateField(data: Document, key: string, asDate: int -> Option<int>): (r: Option<int>)
    ensures !(key in data && data[key].VTime?) ==> r == None
    ensures key in data && data[key].VTime? ==> r == asDate(data[key].t)
  {
    if key in data && data[key].VTime? then asDate(data[key].t) else None
  }

  /** The decoding in `getUser(userID:)` of an existing document: it throws
      `.badServerResponse` exactly when `user_id` is missing or not a string;
      every other field decodes as nil when it is missing or of another kind. */
  function DecodeUser(data: Document, asDate: int -> Option<int>): (r: Result<DBUser, URLError>)
    ensures r.Failure? <==> UserIDKey !in data || !data[UserIDKey].VStr?
    ensures r.Failure? ==> r.error == BadServerResponse
    ensures r.Success? ==> VStr(r.value.userID) == data[UserIDKey]
    ensures r.Success? ==> r.value.isAnonymous == BoolField(data, IsAnonymousKey)
    ensures r.Success? ==> r.value.email == StringField(data, EmailKey)
    ensures r.Success? ==> r.value.photoURL == StringField(data, PhotoURLKey)
    ensures r.Success? ==> r.value.dateCreated == DateField(data, DateCreatedKey, asDate)
  {
    match StringField(data, UserIDKey)
    case None => Failure(BadServerResponse)
    case Some(userID) =>
      Success(DBUser(userID, BoolField(data, IsAnonymousKey), StringField(data, EmailKey),
                     StringField(data, PhotoURLKey), DateField(data, DateCreatedKey, asDate)))
  }

  /** Decoding the document written for a user gives back the user's id,
      anonymity, email and photo URL, and as its creation date whatever the
      SDK's bridging makes of the write time. */
  lemma CreateThenDecode(auth: Authentication.AuthDataResultModel, now: int, asDate: int -> Option<int>)
    ensures DecodeUser(NewUserDocument(auth, now), asDate).Success?
    ensures DecodeUser(NewUserDocument(auth, now), asDate).value.userID == auth.uid
    ensures DecodeUser(NewUserDocument(auth, now), asDate).value.isAnonymous == Some(auth.isAnonymous)
    ensures DecodeUser(NewUserDocument(auth, now), asDate).value.email == auth.email
    ensures DecodeUser(NewUserDocument(auth, now), asDate).value.photoURL == auth.photoURL
    ensures DecodeUser(NewUserDocument(auth, now), asDate).value.dateCreated == asDate(now)
  {
  }

  /** The Firestore `users` collection as `UserManager` sees it. */
  class UserManager {
    var users: map<string, Document>

    constructor (users: map<string, Document>)
      ensures this.users == users
    {
      this.users := users;
    }

    /** `createNewUser(auth:)`: builds the document field by field and writes
        it under `auth.uid` with `merge: false`, replacing whatever was stored
        there (the old `date_created` included) and leaving every other
        document alone. */
    method CreateNewUser(auth: Authentication.AuthDataResultModel, now: int)
      modifies this
      ensures users == old(users)[auth.uid := NewUserDocument(auth, now)]
      ensures users.Keys == old(users.Keys) + {auth.uid}
      ensures forall id :: id in old(users) && id != auth.uid ==> users[id] == old(users[id])
      ensures forall asDate: int -> Option<int> ::
        && GetUser(auth.uid, asDate).Success?
        && GetUser(auth.uid, asDate).value.userID == auth.uid
        && GetUser(auth.uid, asDate).value.isAnonymous == Some(auth.isAnonymous)
        && GetUser(auth.uid, asDate).value.email == auth.email
        && GetUser(auth.uid, asDate).value.photoURL == auth.photoURL
        && GetUser(auth.uid, asDate).value.dateCreated == asDate(now)
    {
      var userData: Document := map[UserIDKey := VStr(auth.uid), IsAnonymousKey := VBool(auth.isAnonymous),
                                    DateCreatedKey := VTime(now)];
      if auth.email.Some? {
        userData := userData[EmailKey := VStr(auth.email.value)];
      }
      if auth.photoURL.Some? {
        userData := userData[PhotoURLKey := VStr(auth.photoURL.value)];
      }
      users := users[auth.uid := userData];
      forall asDate: int -> Option<int>
        ensures DecodeUser(users[auth.uid], asDate) == DecodeUser(NewUserDocument(auth, now), asDate)
      {
        CreateThenDecode(auth, now, asDate);
      }
    }

    /** `getUser(userID:)`: throws `.badServerResponse` when there is no
        document for the id, and otherwise decodes the document. */
    function GetUser(userID: string, asDate: int -> Option<int>): (r: Result<DBUser, URLError>)
      reads this
      ensures r.Failure? <==> userID !in users || UserIDKey !in users[userID] || !users[userID][UserIDKey].VStr?
      ensures r.Failure? ==> r.error == BadServerResponse
      ensures r.Success? ==> r == DecodeUser(users[userID], asDate)
    {
      if userID in users then DecodeUser(users[userID], asDate) else Failure(BadServerResponse)
    }
  }

  /** Two calls of `createNewUser(auth:)` for the same user, as when the
      user signs in with Google, with Apple or anonymously a second time, or
      a new profile view model is created: the document then stored is the second write's,
      so the first write's `date_created` is gone. */
  method CreateTwice(auth: Authentication.AuthDataResultModel, first: int, second: int,
                     asDate: int -> Option<int>)
    returns (stored: Document, decoded: Result<DBUser, URLError>)
    ensures stored == NewUserDocument(auth, second)
    ensures stored[DateCreatedKey] == VTime(second)
    ensures first != second ==> stored[DateCreatedKey] != VTime(first)
    ensures decoded.Success? && decoded.value.userID == auth.uid
    ensures decoded.value.dateCreated == asDate(second)
  {
    var manager := new UserManager(map[]);
    manager.CreateNewUser(auth, first);
    manager.CreateNewUser(auth, second);
    stored := manager.users[auth.uid];
    decoded := manager.GetUser(auth.uid, asDate);
  }
}
