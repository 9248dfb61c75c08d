/** The authentication middleware and the admin role guard. */
module Auth {
  import opened Wrappers
  import opened External
  import opened Http
  import opened Text
  import opened UserModel

  const BearerPrefix := "Bearer "

  /**
   * `req.header('Authorization')?.replace('Bearer ', '')`: the first
   * occurrence of `Bearer ` is removed wherever it stands; a missing header
   * stays missing.
   */
  function ExtractToken(header: Option<string>): Option<string> {
    match header
    case None => None
    case Some(h) => Some(ReplaceFirst(h, BearerPrefix, ""))
  }

  /** A header of the usual form yields exactly what follows the scheme. */
  lemma BearerHeaderYieldsToken(t: string)
    ensures ExtractToken(Some(BearerPrefix + t)) == Some(t)
  {
    var h := BearerPrefix + t;
    assert OccursAt(h, BearerPrefix, 0) by { assert h[0..|BearerPrefix|] == BearerPrefix; }
    assert IndexOf(h, BearerPrefix) == Some(0);
    assert h[..0] + "" + h[|BearerPrefix|..] == t;
  }

  /** "Bearer " has no second 'B', so no occurrence of it overlaps another. */
  lemma SchemeStartsOnce(m: nat)
    requires 0 < m < |BearerPrefix|
    ensures BearerPrefix[m] != 'B'
  {
  }

  /** Whether the scheme starts at `j` inside a text does not depend on what follows the text. */
  lemma OccursWithin(h1: string, rest: string, j: nat)
    requires j + |BearerPrefix| <= |h1|
    ensures OccursAt(h1 + rest, BearerPrefix, j) == OccursAt(h1, BearerPrefix, j)
  {
    assert (h1 + rest)[j..j + |BearerPrefix|] == h1[j..j + |BearerPrefix|];
  }

  /** An occurrence that starts inside a text and runs into the scheme after it would need a second 'B'. */
  lemma NoStraddlingScheme(h1: string, rest: string, j: nat)
    requires j < |h1| < j + |BearerPrefix|
    ensures !OccursAt(h1 + BearerPrefix + rest, BearerPrefix, j)
  {
    var h, m := h1 + BearerPrefix + rest, |h1| - j;
    SchemeStartsOnce(m);
    assert h[j..j + |BearerPrefix|][m] == h[|h1|] == 'B';
  }

  /** Before a text free of the scheme ends, the scheme cannot start, even running into what follows. */
  lemma NoSchemeBefore(h1: string, rest: string, j: nat)
    requires IndexOf(h1, BearerPrefix).None? && j < |h1|
    ensures !OccursAt(h1 + BearerPrefix + rest, BearerPrefix, j)
  {
    if j + |BearerPrefix| <= |h1| {
      OccursWithin(h1, BearerPrefix + rest, j);
    } else {
      NoStraddlingScheme(h1, rest, j);
    }
  }

  /**
   * The scheme is removed wherever it first occurs, not only as a prefix:
   * text before it stays in the token, and a header without it is the token.
   */
  lemma ExtractionIsNotPrefixStrip(h1: string, t: string)
    requires IndexOf(h1, BearerPrefix).None?
    ensures ExtractToken(Some(h1 + BearerPrefix + t)) == Some(h1 + t)
    ensures ExtractToken(Some(h1)) == Some(h1)
  {
    var h := h1 + BearerPrefix + t;
    assert OccursAt(h, BearerPrefix, |h1|) by { assert h[|h1|..|h1| + |BearerPrefix|] == BearerPrefix; }
    forall j: nat | j < |h1|
      ensures !OccursAt(h, BearerPrefix, j)
    {
      NoSchemeBefore(h1, t, j);
    }
    assert h[..|h1|] + "" + h[|h1| + |BearerPrefix|..] == h1 + t;
  }

  datatype AuthResult = Authenticated(id: UserId, token: string) | Refused(response: Response)

  const AuthenticationRequired := Unauthorized("Authentication required")
  const PleaseAuthenticate := Unauthorized("Please authenticate")

  /** The token names an existing, active user. */
  predicate ActiveUserFor(store: UserStore, lib: Lib, token: string)
    reads store, store.users.Values
  {
    && lib.verify(token).Some?
    && lib.verify(token).value in store.users
    && store.users[lib.verify(token).value].isActive
  }

  /**
   * `auth`: no token (a missing header, or nothing left once the scheme is
   * removed) is 401 `Authentication required`; a token that fails to verify,
   * or names no user, or an inactive one, is 401 `Please authenticate`.
   * Otherwise the request carries that user and the token.
   */
  function Authenticate(store: UserStore, header: Option<string>, lib: Lib): (r: AuthResult)
    reads store, store.users.Values
    ensures r.Authenticated? <==>
              (var t := ExtractToken(header); t.Some? && t.value != "" && ActiveUserFor(store, lib, t.value))
    ensures r.Authenticated? ==>
              && ExtractToken(header) == Some(r.token)
              && lib.verify(r.token) == Some(r.id)
              && r.id in store.users && store.users[r.id].isActive
    ensures r.Refused? ==>
              r.response == if ExtractToken(header) in {None, Some("")} then AuthenticationRequired
                            else PleaseAuthenticate
  {
    match ExtractToken(header)
    case None => Refused(AuthenticationRequired)
    case Some(token) =>
      if token == "" then Refused(AuthenticationRequired)
      else if ActiveUserFor(store, lib, token) then Authenticated(lib.verify(token).value, token)
      else Refused(PleaseAuthenticate)
  }

  /** A token the service signed for an active user authenticates that user. */
  lemma SignedTokenAuthenticates(store: UserStore, id: UserId, lib: Lib)
    requires Sound(lib)
    requires id in store.users && store.users[id].isActive
    requires lib.sign(id) != ""
    ensures Authenticate(store, Some(BearerPrefix + lib.sign(id)), lib) == Authenticated(id, lib.sign(id))
  {
    BearerHeaderYieldsToken(lib.sign(id));
    assert lib.verify(lib.sign(id)) == Some(id);
  }

  /** `isAdmin`: 403 exactly for a caller whose role is not `admin`; an admin passes untouched. */
  function AdminGuard(role: Role): (r: Option<Response>)
    ensures r.Some? <==> role != Admin
    ensures r.Some? ==> r.value.status == 403
  {
    if role != Admin then Some(Forbidden("Access denied. Admin privileges required.")) else None
  }
}
