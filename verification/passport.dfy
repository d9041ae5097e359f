/**
 * The verify callback of the Google sign-in strategy
 * (server/config/passport.js): find the account by Google id, else link
 * the account holding the profile's first email, else create an account.
 */
module Passport {
  import opened JsValues
  import opened UserModel

  /** The parts of the Google profile the callback reads. */
  datatype GoogleProfile = GoogleProfile(id: string, displayName: string, emails: seq<string>)

  /** What the callback hands to `done`: the user's id, or the error with no user. */
  datatype VerifyResult = Verified(userId: nat) | VerifyError(message: string)

  /** The TypeError raised when the profile carries no email (`profile.emails[0].value`). */
  const NoEmailError := "Cannot read properties of undefined (reading 'value')"

  /** The account created for a first-time Google user. */
  function GoogleAccount(profile: GoogleProfile): (user: User)
    requires |profile.emails| > 0
    ensures user.email == profile.emails[0] && user.googleId == Some(profile.id)
    ensures user.name == Some(profile.displayName) && user.password.None?
  {
    User(profile.emails[0], None, Some(profile.id), Some(profile.displayName), None, None, None, None, None)
  }

  /**
   * Database call 0 looks up by Google id, call 1 by email, call 2 saves the
   * linked account or creates the new one.
   */
  method GoogleVerify(store: UserCollection, profile: GoogleProfile, fault: DbFault)
    returns (result: VerifyResult)
    requires store.Valid()
    modifies store
    ensures store.Valid()
    // a signed-in user always carries the profile's Google id
    ensures result.Verified? ==>
      result.userId < |store.users| && store.users[result.userId].googleId == Some(profile.id)
    // an error hands back no user and leaves the collection as it was
    ensures result.VerifyError? ==> store.users == old(store.users)
    ensures fault.FailsAt(0) ==> result == VerifyError(fault.message)
    // known Google id: that account, nothing written
    ensures !fault.FailsAt(0) && (exists i :: 0 <= i < |old(store.users)| && old(store.users)[i].googleId == Some(profile.id)) ==>
      result.Verified? && store.users == old(store.users)
    ensures !fault.FailsAt(0) && (forall i :: 0 <= i < |old(store.users)| ==> old(store.users)[i].googleId != Some(profile.id)) ==>
      if profile.emails == [] then
        result == VerifyError(NoEmailError)
      else if fault.FailsAt(1) || fault.FailsAt(2) then
        result == VerifyError(fault.message)
      else if HasEmail(old(store.users), profile.emails[0]) then
        // link: the account holding the email gets the Google id, nothing else changes
        && result.Verified? && result.userId < |old(store.users)|
        && old(store.users)[result.userId].email == profile.emails[0]
        && store.users == old(store.users)[result.userId := old(store.users)[result.userId].(googleId := Some(profile.id))]
      else
        // create: exactly one new account
        && result == Verified(|old(store.users)|)
        && store.users == old(store.users) + [GoogleAccount(profile)]
  {
    if fault.FailsAt(0) {
      return VerifyError(fault.message);
    }
    var byGoogle := store.FindOneByGoogleId(profile.id);
    if byGoogle.Some? {
      return Verified(byGoogle.value);
    }

    if profile.emails == [] {
      return VerifyError(NoEmailError);
    }
    if fault.FailsAt(1) {
      return VerifyError(fault.message);
    }
    var email := profile.emails[0];
    var byEmail := store.FindOneByEmail(email);
    if byEmail.Some? {
      var id := byEmail.value;
      var linked := store.users[id].(googleId := Some(profile.id));
      if fault.FailsAt(2) {
        return VerifyError(fault.message);
      }
      UpdateKeepsKeysUnique(store.users, id, linked);
      store.Save(id, linked);
      return Verified(id);
    }

    if fault.FailsAt(2) {
      return VerifyError(fault.message);
    }
    var user := GoogleAccount(profile);
    AppendKeepsKeysUnique(store.users, user);
    var id := store.Create(user);
    result := Verified(id);
  }
}
