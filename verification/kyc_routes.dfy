/**
 * The KYC routes: the middleware in front of each handler, in the order the
 * router mounts it, then the handler.
 */
module KycRoutes {
  import opened Wrappers
  import opened External
  import opened Http
  import opened Validation
  import opened KycValidation
  import opened KycController
  import opened UserModel
  import opened Auth

  /** What the middleware in front of a handler decides. */
  datatype Gate = Pass(id: UserId) | Stop(response: Response)

  /** `auth, isAdmin`: an authenticated administrator passes; an authenticated member is refused with 403. */
  function AdminGate(store: UserStore, authorization: Option<string>, lib: Lib): (g: Gate)
    reads store, store.users.Values
    ensures var a := Authenticate(store, authorization, lib);
      && (g.Pass? <==> a.Authenticated? && store.users[a.id].role == Admin)
      && (g.Pass? ==> g.id == a.id)
      && (a.Refused? ==> g == Stop(a.response))
      && (a.Authenticated? && store.users[a.id].role != Admin ==> g.Stop? && g.response.status == 403)
  {
    match Authenticate(store, authorization, lib)
    case Refused(response) => Stop(response)
    case Authenticated(id, _) =>
      match AdminGuard(store.users[id].role)
      case Some(refusal) => Stop(refusal)
      case None => Pass(id)
  }

  /** `POST /submit`: `auth`, the submission rules, `submitKYC` for the caller. */
  method PostSubmit(store: UserStore, authorization: Option<string>, b: SubmitBody, now: int, lib: Lib)
    returns (response: Response)
    requires store.Valid()
    modifies store.users.Values`kyc
    ensures store.Valid()
    ensures var a := old(Authenticate(store, authorization, lib));
      && (a.Refused? ==> response == a.response)
      && (a.Authenticated? ==> Outcome(response, TargetOf(store, a.id)) == Submit(old(TargetOf(store, a.id)), b, now, lib))
      && (forall j :: j in store.users && !(a.Authenticated? && a.id == j) ==> store.users[j].kyc == old(store.users[j].kyc))
  {
    var a := Authenticate(store, authorization, lib);
    if a.Refused? {
      return a.response;
    }
    response := SubmitKyc(store, a.id, b, now, lib);
  }

  /** `GET /status`: `auth`, then `getKYCStatus` for the caller. */
  method GetStatusRoute(store: UserStore, authorization: Option<string>, lib: Lib) returns (reply: StatusReply)
    requires store.Valid()
    modifies store.users.Values`kyc
    ensures store.Valid()
    ensures var a := old(Authenticate(store, authorization, lib));
      && (a.Refused? ==> reply == StatusRefused(a.response))
      && (a.Authenticated? ==> (reply, TargetOf(store, a.id)) == GetStatus(old(TargetOf(store, a.id))))
      && (forall j :: j in store.users && !(a.Authenticated? && a.id == j) ==> store.users[j].kyc == old(store.users[j].kyc))
  {
    var a := Authenticate(store, authorization, lib);
    if a.Refused? {
      return StatusRefused(a.response);
    }
    reply := GetKycStatus(store, a.id);
  }

  /**
   * `POST /verify`: `auth`, `isAdmin`, the decision rules, `verifyKYC`. A
   * caller who is not an administrator is refused before the body is looked
   * at, and nothing changes.
   */
  method PostVerify(store: UserStore, authorization: Option<string>, b: VerifyBody, now: int, lib: Lib)
    returns (response: Response)
    requires store.Valid()
    modifies store.users.Values`kyc
    ensures store.Valid()
    ensures var g := old(AdminGate(store, authorization, lib));
      && (g.Stop? ==> response == g.response && forall j :: j in store.users ==> store.users[j].kyc == old(store.users[j].kyc))
      && (g.Pass? ==> Outcome(response, TargetOf(store, Str(b.userId))) == Verify(old(TargetOf(store, Str(b.userId))), b, now))
      && (forall j :: j in store.users && j != Str(b.userId) ==> store.users[j].kyc == old(store.users[j].kyc))
  {
    var g := AdminGate(store, authorization, lib);
    if g.Stop? {
      return g.response;
    }
    response := VerifyKyc(store, b, now);
  }
}
