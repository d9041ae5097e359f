/**
 * The User collection (server/models/User.js) as the route handlers and the
 * Google strategy use it: look up by email or by Google id, read by id,
 * create, save. A user's id is its position in the collection.
 *
 * Passwords are stored as the pre-save hook leaves them: hashed when a
 * non-empty password was given, untouched otherwise. The hash and the
 * comparison are parameters standing for bcrypt.
 */
module UserModel {
  import opened JsValues

  datatype User = User(
    email: string,
    password: Option<string>,        // the stored (hashed) password, absent for Google-only accounts
    googleId: Option<string>,
    name: Option<string>,
    username: Option<string>,
    bio: Option<string>,
    phoneNumber: Option<string>,
    location: Option<string>,
    profilePicture: Option<string>)

  /**
   * Which database call, counted from 0 within one handler run, throws and
   * with what message; `NoFault` when every call succeeds.
   */
  datatype DbFault = NoFault | FailAt(step: nat, message: string)
  {
    predicate FailsAt(step: nat) {
      FailAt? && this.step == step
    }
  }

  /**
   * What a strict schema declaring only email, password and Google id keeps of
   * a record on save: those three fields, and nothing of the others.
   */
  function SchemaStored(u: User): (stored: User)
    ensures stored.email == u.email && stored.password == u.password && stored.googleId == u.googleId
    ensures stored.name.None? && stored.username.None? && stored.bio.None?
    ensures stored.phoneNumber.None? && stored.location.None? && stored.profilePicture.None?
  {
    User(u.email, u.password, u.googleId, None, None, None, None, None, None)
  }

  /** The pre-save hook: a truthy password is replaced by its hash, anything else is stored as given. */
  function StoredPassword(password: Option<string>, hash: string -> string): (stored: Option<string>)
    ensures Truthy(password) ==> stored == Some(hash(password.value))
    ensures !Truthy(password) ==> stored == password
  {
    if Truthy(password) then Some(hash(password.value)) else password
  }

  /** `matchPassword`: false without a stored password, otherwise the hash comparison. */
  predicate MatchPassword(user: User, entered: string, compare: (string, string) -> bool) {
    Truthy(user.password) && compare(entered, user.password.value)
  }

  /**
   * A password given at signup is accepted at login whenever the comparison
   * recognises a hash of the entered password; an empty one never is.
   */
  lemma PasswordRoundTrip(email: string, password: string, hash: string -> string, compare: (string, string) -> bool)
    requires password != ""
    requires compare(password, hash(password))
    requires hash(password) != ""
    ensures MatchPassword(NewAccount(email, Some(password), hash), password, compare)
    ensures !MatchPassword(NewAccount(email, Some(""), hash), password, compare)
    ensures !MatchPassword(NewAccount(email, None, hash), password, compare)
  {
  }

  /** The record `User.create({ email, password })` writes. */
  function NewAccount(email: string, password: Option<string>, hash: string -> string): (user: User)
    ensures user.email == email && user.googleId.None?
    ensures user.password == StoredPassword(password, hash)
  {
    User(email, StoredPassword(password, hash), None, None, None, None, None, None, None)
  }

  /** No two users share an email (the unique index), and no two share a Google id. */
  ghost predicate UniqueKeys(users: seq<User>) {
    && (forall i, j :: 0 <= i < j < |users| ==> users[i].email != users[j].email)
    && (forall i, j :: 0 <= i < j < |users| && users[i].googleId.Some? ==> users[i].googleId != users[j].googleId)
  }

  /** The user holding `email`, if any. */
  ghost predicate HasEmail(users: seq<User>, email: string) {
    exists i :: 0 <= i < |users| && users[i].email == email
  }

  class UserCollection {
    var users: seq<User>

    ghost predicate Valid()
      reads this
    {
      UniqueKeys(users)
    }

    constructor()
      ensures users == [] && Valid()
    {
      users := [];
    }

    /** `User.findOne({ email })`: the first user with that email. */
    method FindOneByEmail(email: string) returns (found: Option<nat>)
      ensures found.Some? ==> found.value < |users| && users[found.value].email == email
      ensures found.Some? ==> forall j :: 0 <= j < found.value ==> users[j].email != email
      ensures found.None? ==> forall i :: 0 <= i < |users| ==> users[i].email != email
    {
      var i := 0;
      while i < |users|
        invariant 0 <= i <= |users|
        invariant forall j :: 0 <= j < i ==> users[j].email != email
      {
        if users[i].email == email {
          return Some(i);
        }
        i := i + 1;
      }
      return None;
    }

    /** `User.findOne({ googleId })`: the first user linked to that Google id. */
    method FindOneByGoogleId(googleId: string) returns (found: Option<nat>)
      ensures found.Some? ==> found.value < |users| && users[found.value].googleId == Some(googleId)
      ensures found.Some? ==> forall j :: 0 <= j < found.value ==> users[j].googleId != Some(googleId)
      ensures found.None? ==> forall i :: 0 <= i < |users| ==> users[i].googleId != Some(googleId)
    {
      var i := 0;
      while i < |users|
        invariant 0 <= i <= |users|
        invariant forall j :: 0 <= j < i ==> users[j].googleId != Some(googleId)
      {
        if users[i].googleId == Some(googleId) {
          return Some(i);
        }
        i := i + 1;
      }
      return None;
    }

    /** `User.create(...)`: appends the record; its id is its position. */
    method Create(user: User) returns (id: nat)
      modifies this
      ensures id == |old(users)| && users == old(users) + [user]
    {
      id := |users|;
      users := users + [user];
    }

    /** `user.save()` on a record read from the collection: replaces the stored record. */
    method Save(id: nat, user: User)
      requires id < |users|
      modifies this
      ensures users == old(users)[id := user]
    {
      users := users[id := user];
    }
  }

  /** Adding a user whose email and Google id are both new keeps the keys unique. */
  lemma AppendKeepsKeysUnique(users: seq<User>, user: User)
    requires UniqueKeys(users)
    requires forall i :: 0 <= i < |users| ==> users[i].email != user.email
    requires user.googleId.Some? ==> forall i :: 0 <= i < |users| ==> users[i].googleId != user.googleId
    ensures UniqueKeys(users + [user])
  {
    var s := users + [user];
    forall i, j | 0 <= i < j < |s| && s[i].googleId.Some?
      ensures s[i].googleId != s[j].googleId
    {
      if j == |users| {
        assert s[i] == users[i];
      }
    }
  }

  /** Rewriting a record without touching its email, and giving it a Google id nobody else holds, keeps the keys unique. */
  lemma UpdateKeepsKeysUnique(users: seq<User>, id: nat, user: User)
    requires UniqueKeys(users) && id < |users|
    requires user.email == users[id].email
    requires user.googleId.Some? && user.googleId != users[id].googleId ==>
      forall i :: 0 <= i < |users| ==> users[i].googleId != user.googleId
    ensures UniqueKeys(users[id := user])
  {
    var s := users[id := user];
    forall i, j | 0 <= i < j < |s| && s[i].googleId.Some?
      ensures s[i].googleId != s[j].googleId
    {
      if i == id {
        assert s[j] == users[j];
      } else if j == id {
        assert s[i] == users[i];
      } else {
        assert s[i] == users[i] && s[j] == users[j];
      }
    }
  }
}
