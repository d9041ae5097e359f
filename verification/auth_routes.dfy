/**
 * The account routes of server/routes/auth.js: signup, login, profile
 * update, avatar upload (with the avatar upload's file filter and storage
 * name) and the recent-documents history.
 *
 * Each handler runs against the user collection; `fault` says which of its
 * database calls throws, if any (every such throw becomes a 500 carrying the
 * error's message). Token signing is the parameter `sign`, applied to the
 * user's id.
 */
module AuthRoutes {
  import opened JsValues
  import opened Strings
  import opened UserModel
  import Docs = UploadController

  datatype ProfileBody = ProfileBody(
    username: Option<string>, bio: Option<string>, phoneNumber: Option<string>,
    location: Option<string>, profilePicture: Option<string>)

  datatype AuthResponse =
    | SignedUp(id: nat, email: string, username: Option<string>, token: string)          // 201
    | LoggedIn(id: nat, email: string, username: Option<string>, bio: Option<string>,
               profilePicture: Option<string>, token: string)                            // 200
    | ProfileSaved(id: nat, email: string, username: Option<string>, bio: Option<string>,
                   profilePicture: Option<string>, phoneNumber: Option<string>,
                   location: Option<string>, token: string)                              // 200
    | AvatarSaved(url: string)                                                           // 200
    | Failed(status: nat, message: string)

  const UserAlreadyExists := "User already exists"
  const InvalidCredentials := "Invalid email or password"
  const UserNotFound := "User not found"
  const NoAvatarUploaded := "No file uploaded"
  const HistoryFailed := "Error fetching history"
  const UploadsBase := "http://localhost:5000/uploads/"
  const HistoryLimit := 10

  // ---------------------------------------------------------------------
  // POST /signup
  // ---------------------------------------------------------------------

  method Signup(store: UserCollection, email: string, password: Option<string>,
                hash: string -> string, sign: nat -> string, fault: DbFault)
    returns (response: AuthResponse)
    requires store.Valid()
    modifies store
    ensures store.Valid()
    ensures fault.FailsAt(0) ==>
      response == Failed(500, fault.message) && store.users == old(store.users)
    ensures !fault.FailsAt(0) && HasEmail(old(store.users), email) ==>
      response == Failed(400, UserAlreadyExists) && store.users == old(store.users)
    ensures !fault.FailsAt(0) && !HasEmail(old(store.users), email) && fault.FailsAt(1) ==>
      response == Failed(500, fault.message) && store.users == old(store.users)
    ensures !fault.FailsAt(0) && !HasEmail(old(store.users), email) && !fault.FailsAt(1) ==>
      var id := |old(store.users)|;
      && store.users == old(store.users) + [NewAccount(email, password, hash)]
      && response == SignedUp(id, email, None, sign(id))
  {
    if fault.FailsAt(0) {
      return Failed(500, fault.message);
    }
    var existing := store.FindOneByEmail(email);
    if existing.Some? {
      return Failed(400, UserAlreadyExists);
    }
    if fault.FailsAt(1) {
      return Failed(500, fault.message);
    }
    var user := NewAccount(email, password, hash);
    AppendKeepsKeysUnique(store.users, user);
    var id := store.Create(user);
    response := SignedUp(id, user.email, user.username, sign(id));
  }

  // ---------------------------------------------------------------------
  // POST /login
  // ---------------------------------------------------------------------

  method Login(store: UserCollection, email: string, password: string,
               compare: (string, string) -> bool, sign: nat -> string, fault: DbFault)
    returns (response: AuthResponse)
    requires store.Valid()
    ensures fault.FailsAt(0) ==> response == Failed(500, fault.message)
    ensures !fault.FailsAt(0) ==>
      (response.LoggedIn? <==>
        exists i :: 0 <= i < |store.users| && store.users[i].email == email && MatchPassword(store.users[i], password, compare))
    ensures !fault.FailsAt(0) && !response.LoggedIn? ==> response == Failed(401, InvalidCredentials)
    ensures response.LoggedIn? ==>
      && response.id < |store.users|
      && var u := store.users[response.id];
      && u.email == email
      && response == LoggedIn(response.id, u.email, u.username, u.bio, u.profilePicture, sign(response.id))
  {
    if fault.FailsAt(0) {
      return Failed(500, fault.message);
    }
    var found := store.FindOneByEmail(email);
    if found.Some? && MatchPassword(store.users[found.value], password, compare) {
      var id := found.value;
      var u := store.users[id];
      return LoggedIn(id, u.email, u.username, u.bio, u.profilePicture, sign(id));
    }
    // the first user with this email is the only one
    return Failed(401, InvalidCredentials);
  }

  // ---------------------------------------------------------------------
  // PUT /profile
  // ---------------------------------------------------------------------

  /**
   * The field merge of the profile update: a truthy body value replaces the
   * stored one, a falsy one leaves it. Email, password, Google id and name are
   * not touched.
   */
  function MergeProfile(user: User, body: ProfileBody): (merged: User)
    ensures merged.email == user.email && merged.password == user.password
    ensures merged.googleId == user.googleId && merged.name == user.name
    ensures merged.username == (if Truthy(body.username) then body.username else user.username)
    ensures merged.bio == (if Truthy(body.bio) then body.bio else user.bio)
    ensures merged.phoneNumber == (if Truthy(body.phoneNumber) then body.phoneNumber else user.phoneNumber)
    ensures merged.location == (if Truthy(body.location) then body.location else user.location)
    ensures merged.profilePicture == (if Truthy(body.profilePicture) then body.profilePicture else user.profilePicture)
  {
    user.(
      username := Or(body.username, user.username),
      bio := Or(body.bio, user.bio),
      phoneNumber := Or(body.phoneNumber, user.phoneNumber),
      location := Or(body.location, user.location),
      profilePicture := if Truthy(body.profilePicture) then body.profilePicture else user.profilePicture)
  }

  /** A merge never blanks a field that held a value. */
  lemma MergeNeverErases(user: User, body: ProfileBody)
    ensures var m := MergeProfile(user, body);
      && (Truthy(user.username) ==> Truthy(m.username))
      && (Truthy(user.bio) ==> Truthy(m.bio))
      && (Truthy(user.phoneNumber) ==> Truthy(m.phoneNumber))
      && (Truthy(user.location) ==> Truthy(m.location))
      && (Truthy(user.profilePicture) ==> Truthy(m.profilePicture))
  {
  }

  /** Sending the same body twice has the effect of sending it once. */
  lemma MergeIdempotent(user: User, body: ProfileBody)
    ensures MergeProfile(MergeProfile(user, body), body) == MergeProfile(user, body)
  {
  }

  /** A body with no truthy field changes nothing. */
  lemma EmptyBodyKeepsProfile(user: User, body: ProfileBody)
    requires !Truthy(body.username) && !Truthy(body.bio) && !Truthy(body.phoneNumber)
    requires !Truthy(body.location) && !Truthy(body.profilePicture)
    ensures MergeProfile(user, body) == user
  {
  }

  /**
   * Under the schema as declared, the profile update stores nothing it merged:
   * the kept record equals the one before, so a truthy username never arrives.
   */
  lemma ProfileUpdateLostAsWritten(user: User, body: ProfileBody)
    ensures SchemaStored(MergeProfile(user, body)) == SchemaStored(user)
    ensures Truthy(body.username) ==>
      SchemaStored(MergeProfile(user, body)).username != MergeProfile(user, body).username
  {
  }

  method UpdateProfile(store: UserCollection, id: nat, body: ProfileBody, sign: nat -> string, fault: DbFault)
    returns (response: AuthResponse)
    requires store.Valid()
    modifies store
    ensures store.Valid()
    ensures fault.FailsAt(0) ==> response == Failed(500, fault.message) && store.users == old(store.users)
    ensures !fault.FailsAt(0) && id >= |old(store.users)| ==>
      response == Failed(404, UserNotFound) && store.users == old(store.users)
    ensures !fault.FailsAt(0) && id < |old(store.users)| && fault.FailsAt(1) ==>
      response == Failed(500, fault.message) && store.users == old(store.users)
    ensures !fault.FailsAt(0) && id < |old(store.users)| && !fault.FailsAt(1) ==>
      var m := MergeProfile(old(store.users)[id], body);
      && store.users == old(store.users)[id := m]
      && response == ProfileSaved(id, m.email, m.username, m.bio, m.profilePicture, m.phoneNumber, m.location, sign(id))
  {
    if fault.FailsAt(0) {
      return Failed(500, fault.message);
    }
    if id >= |store.users| {
      return Failed(404, UserNotFound);
    }
    var user := store.users[id];
    user := user.(username := Or(body.username, user.username));
    user := user.(bio := Or(body.bio, user.bio));
    user := user.(phoneNumber := Or(body.phoneNumber, user.phoneNumber));
    user := user.(location := Or(body.location, user.location));
    if Truthy(body.profilePicture) {
      user := user.(profilePicture := body.profilePicture);
    }
    if fault.FailsAt(1) {
      return Failed(500, fault.message);
    }
    UpdateKeepsKeysUnique(store.users, id, user);
    store.Save(id, user);
    response := ProfileSaved(id, user.email, user.username, user.bio, user.profilePicture,
                             user.phoneNumber, user.location, sign(id));
  }

  // ---------------------------------------------------------------------
  // POST /avatar: the file filter, the stored name, and the handler
  // ---------------------------------------------------------------------

  /** The avatar upload's file filter: only media types under `image/` pass. */
  predicate AcceptsAvatar(mimetype: string) {
    "image/" <= mimetype
  }

  /** `mimetype.split('/')[1]`, which renders as "undefined" when there is no '/'. */
  function MimeSubtype(mimetype: string): (sub: string)
    ensures '/' !in sub
  {
    var parts := Split(mimetype, '/');
    if |parts| >= 2 then parts[1] else "undefined"
  }

  /** The stored name `avatar-${userId}-${now}.${subtype}`. */
  function AvatarFilename(userId: string, now: nat, mimetype: string): string {
    "avatar-" + userId + "-" + NatToString(now) + "." + MimeSubtype(mimetype)
  }

  /** A string without the separator splits into itself alone. */
  lemma {:induction false} SplitWithoutSeparator(s: string, sep: char)
    requires sep !in s
    ensures Split(s, sep) == [s]
    decreases |s|
  {
    if s != [] {
      assert sep !in s[1..];
      SplitWithoutSeparator(s[1..], sep);
      assert [s[0]] + s[1..] == s;
    }
  }

  /** For an accepted `image/<sub>` type, the stored extension is `<sub>` up to any further '/'. */
  lemma AvatarExtension(sub: string)
    ensures MimeSubtype("image/" + sub) == Split(sub, '/')[0]
    ensures '/' !in sub ==> MimeSubtype("image/" + sub) == sub
  {
    assert "image/" + sub == "image" + ['/'] + sub;
    SplitAfterHead("image", '/', sub);
    if '/' !in sub {
      SplitWithoutSeparator(sub, '/');
    }
  }

  /**
   * An image type that passes the filter and has no further '/' after `image/`
   * is stored under `avatar-<id>-<time>.<subtype>`, its subtype as extension.
   */
  lemma AcceptedAvatarName(userId: string, now: nat, mimetype: string)
    requires AcceptsAvatar(mimetype) && '/' !in mimetype[|"image/"|..]
    ensures AvatarFilename(userId, now, mimetype) ==
      "avatar-" + userId + "-" + NatToString(now) + "." + mimetype[|"image/"|..]
  {
    var sub := mimetype[|"image/"|..];
    assert mimetype == "image/" + sub;
    AvatarExtension(sub);
  }

  /** Two uploads by one user at different times get different stored names. */
  lemma AvatarFilenamesDistinctInTime(userId: string, t1: nat, t2: nat, mimetype: string)
    requires t1 != t2
    ensures AvatarFilename(userId, t1, mimetype) != AvatarFilename(userId, t2, mimetype)
  {
    var head := "avatar-" + userId + "-";
    var tail := "." + MimeSubtype(mimetype);
    var d1, d2 := NatToString(t1), NatToString(t2);
    if AvatarFilename(userId, t1, mimetype) == AvatarFilename(userId, t2, mimetype) {
      var name := AvatarFilename(userId, t1, mimetype);
      assert name == head + d1 + tail == head + d2 + tail;
      assert |d1| == |d2|;
      assert d1 == name[|head|..|head| + |d1|] == d2;
      NatToStringInjective(t1, t2);
    }
  }

  /** A key free of `mark`, followed by `mark`, can be read back from behind a fixed prefix. */
  lemma {:induction false} DelimitedKeyUnique(prefix: string, key1: string, rest1: string, key2: string, rest2: string, mark: char)
    requires mark !in key1 && mark !in key2
    requires rest1 != [] && rest1[0] == mark && rest2 != [] && rest2[0] == mark
    requires prefix + key1 + rest1 == prefix + key2 + rest2
    ensures key1 == key2
  {
    var name := prefix + key1 + rest1;
    var n := |prefix|;
    assert forall i :: 0 <= i < |key1| ==> name[n + i] == key1[i];
    assert forall i :: 0 <= i < |key2| ==> name[n + i] == key2[i];
    assert name[n + |key1|] == mark && name[n + |key2|] == mark;
  }

  /** Users whose ids contain no '-' (hex object ids) never share a stored name. */
  lemma AvatarFilenamesDistinctAcrossUsers(user1: string, user2: string, t1: nat, t2: nat, m1: string, m2: string)
    requires user1 != user2
    requires '-' !in user1 && '-' !in user2
    ensures AvatarFilename(user1, t1, m1) != AvatarFilename(user2, t2, m2)
  {
    var rest1 := "-" + NatToString(t1) + "." + MimeSubtype(m1);
    var rest2 := "-" + NatToString(t2) + "." + MimeSubtype(m2);
    assert AvatarFilename(user1, t1, m1) == "avatar-" + user1 + rest1;
    assert AvatarFilename(user2, t2, m2) == "avatar-" + user2 + rest2;
    if AvatarFilename(user1, t1, m1) == AvatarFilename(user2, t2, m2) {
      DelimitedKeyUnique("avatar-", user1, rest1, user2, rest2, '-');
    }
  }

  /** The file the avatar upload stored: its stored name, `AvatarFilename` of the uploader, the time and the type. */
  datatype AvatarFile = AvatarFile(filename: string)

  method UploadAvatar(store: UserCollection, id: nat, file: Option<AvatarFile>, fault: DbFault)
    returns (response: AuthResponse)
    requires store.Valid()
    modifies store
    ensures store.Valid()
    ensures fault.FailsAt(0) ==> response == Failed(500, fault.message) && store.users == old(store.users)
    ensures !fault.FailsAt(0) && (id >= |old(store.users)| || file.None?) ==>
      response == Failed(400, NoAvatarUploaded) && store.users == old(store.users)
    ensures !fault.FailsAt(0) && id < |old(store.users)| && file.Some? && fault.FailsAt(1) ==>
      response == Failed(500, fault.message) && store.users == old(store.users)
    ensures !fault.FailsAt(0) && id < |old(store.users)| && file.Some? && !fault.FailsAt(1) ==>
      var url := UploadsBase + file.value.filename;
      && store.users == old(store.users)[id := old(store.users)[id].(profilePicture := Some(url))]
      && response == AvatarSaved(url)
  {
    if fault.FailsAt(0) {
      return Failed(500, fault.message);
    }
    if id < |store.users| && file.Some? {
      var user := store.users[id];
      user := user.(profilePicture := Some(UploadsBase + file.value.filename));
      if fault.FailsAt(1) {
        return Failed(500, fault.message);
      }
      UpdateKeepsKeysUnique(store.users, id, user);
      store.Save(id, user);
      return AvatarSaved(user.profilePicture.value);
    }
    return Failed(400, NoAvatarUploaded);
  }

  /** Under the schema as declared, the avatar's URL is not kept either. */
  lemma AvatarLostAsWritten(user: User, url: string)
    ensures SchemaStored(user.(profilePicture := Some(url))) == SchemaStored(user)
    ensures SchemaStored(user.(profilePicture := Some(url))).profilePicture != Some(url)
  {
  }

  // ---------------------------------------------------------------------
  // GET /history
  // ---------------------------------------------------------------------

  /** `listed` is the head of some newest-first arrangement of all of `docs`. */
  ghost predicate NewestPrefixOf(listed: seq<Docs.StoredDocument>, docs: seq<Docs.StoredDocument>) {
    exists rest :: Docs.NewestFirstOrder(listed + rest) && multiset(listed + rest) == multiset(docs)
  }

  /** A document left out of a newest prefix is no newer than any listed one. */
  lemma NewestPrefixIsNewest(listed: seq<Docs.StoredDocument>, docs: seq<Docs.StoredDocument>, d: Docs.StoredDocument)
    requires NewestPrefixOf(listed, docs)
    requires multiset(listed)[d] < multiset(docs)[d]
    ensures forall i :: 0 <= i < |listed| ==> listed[i].createdAt >= d.createdAt
  {
    var rest :| Docs.NewestFirstOrder(listed + rest) && multiset(listed + rest) == multiset(docs);
    assert multiset(rest)[d] > 0;
    var k :| 0 <= k < |rest| && rest[k] == d;
    forall i | 0 <= i < |listed|
      ensures listed[i].createdAt >= d.createdAt
    {
      assert (listed + rest)[i] == listed[i];
      assert (listed + rest)[|listed| + k] == d;
    }
  }

  /** The first `k` entries of a newest-first arrangement of `docs` are a newest prefix of `docs`. */
  lemma HeadIsNewestPrefix(sorted: seq<Docs.StoredDocument>, docs: seq<Docs.StoredDocument>, k: nat)
    requires Docs.NewestFirstOrder(sorted) && multiset(sorted) == multiset(docs)
    requires k <= |sorted|
    ensures Docs.NewestFirstOrder(sorted[..k])
    ensures NewestPrefixOf(sorted[..k], docs)
  {
    assert sorted[..k] + sorted[k..] == sorted;
  }

  /** Every entry of an arrangement of the caller's documents belongs to the caller. */
  lemma ArrangementOfOwnedIsOwned(sorted: seq<Docs.StoredDocument>, docs: seq<Docs.StoredDocument>, userId: string)
    requires multiset(sorted) == multiset(Docs.OwnedBy(docs, userId))
    ensures forall d :: d in sorted ==> d.record.user == userId
  {
    forall d | d in sorted
      ensures d.record.user == userId
    {
      assert multiset(Docs.OwnedBy(docs, userId))[d] > 0;
    }
  }

  /** The caller's ten most recent documents, newest first. */
  method History(userId: string, collection: Outcome<seq<Docs.StoredDocument>>) returns (response: Docs.ListResponse)
    ensures collection.Err? ==> response == Docs.ListFailed(500, HistoryFailed, None)
    ensures collection.Ok? ==>
      var owned := Docs.OwnedBy(collection.value, userId);
      && response.Listed?
      && |response.documents| == (if |owned| < HistoryLimit then |owned| else HistoryLimit)
      && Docs.NewestFirstOrder(response.documents)
      && NewestPrefixOf(response.documents, owned)
      && (forall d :: d in response.documents ==> d.record.user == userId)
  {
    if collection.Err? {
      return Docs.ListFailed(500, HistoryFailed, None);
    }
    var owned := Docs.OwnedBy(collection.value, userId);
    var sorted := Docs.NewestFirst(owned);
    var k := if |sorted| < HistoryLimit then |sorted| else HistoryLimit;
    HeadIsNewestPrefix(sorted, owned, k);
    ArrangementOfOwnedIsOwned(sorted, collection.value, userId);
    response := Docs.Listed(sorted[..k]);
  }
}
