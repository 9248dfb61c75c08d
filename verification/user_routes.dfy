/**
 * The authenticated user routes: `auth` in front of the profile update and
 * the account deletion. Registration and login have no middleware besides
 * their rules, which `UserController.Register` and `UserController.Login`
 * apply themselves.
 */
module UserRoutes {
  import opened Wrappers
  import opened External
  import opened Http
  import opened UserValidation
  import opened UserController
  import opened UserModel
  import opened Auth

  /**
   * `PATCH /profile`: `auth`, the update rules, `updateProfile` for the
   * caller. Only the caller's own profile can change.
   */
  method PatchProfile(store: UserStore, authorization: Option<string>, body: map<string, BodyValue>, lib: Lib)
    returns (response: Response)
    requires store.Valid()
    modifies store.users.Values`firstName, store.users.Values`lastName, store.users.Values`phoneNumber,
             store.users.Values`address
    ensures store.Valid()
    ensures var a := old(Authenticate(store, authorization, lib));
      && (a.Refused? ==> response == a.response)
      && (a.Authenticated? ==>
            (response, ProfileOf(store, a.id)) == UpdateResult(old(ProfileOf(store, a.id)), body))
      && (forall j :: j in store.users && !(a.Authenticated? && a.id == j) ==>
            store.users[j].ProfileView() == old(store.users[j].ProfileView()))
  {
    var a := Authenticate(store, authorization, lib);
    if a.Refused? {
      return a.response;
    }
    response := UpdateProfile(store, a.id, body);
  }

  /**
   * `DELETE /account`: `auth`, then `deleteAccount` for the caller. The
   * caller always exists, so the deletion succeeds, and the same
   * credentials are refused afterwards.
   */
  method DeleteAccountRoute(store: UserStore, authorization: Option<string>, lib: Lib) returns (response: Response)
    requires store.Valid()
    modifies store`users
    ensures store.Valid()
    ensures var a := old(Authenticate(store, authorization, lib));
      && (a.Refused? ==> response == a.response && store.users == old(store.users))
      && (a.Authenticated? ==>
            && response == Ok("Account deleted successfully")
            && store.users == old(store.users) - {a.id}
            && Authenticate(store, authorization, lib) == Refused(PleaseAuthenticate))
  {
    var a := Authenticate(store, authorization, lib);
    if a.Refused? {
      return a.response;
    }
    response := DeleteAccount(store, a.id);
  }
}
