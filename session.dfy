/**
 * The admin session: seeded once from browser storage, set after a login or signup
 * reply that carries a token, and cleared by logout. Browser storage is a map from
 * key to text; the network reply is an input.
 */
module Session {
  import opened Optional
  import opened Entities

  const AdminTokenKey := "adminToken"
  const IsAuthenticatedKey := "isAuthenticated"
  const UserRoleKey := "userRole"

  /** What came back from the login or signup endpoint: a reply body, or a thrown error with its server message. */
  datatype AuthReply = Answered(data: Option<string>) | Threw(message: Option<string>)

  /** What `signup` returns. The rejected case carries its text under the misspelled key `erroor`. */
  datatype SignupResult =
    | SignedUp(data: string)
    | SignupRejected(erroor: string)
    | SignupFailed(error: string)

  /** `localStorage.getItem('isAuthenticated') === 'true'`: a missing key reads as signed out. */
  function StoredAuthenticated(storage: map<string, string>): (b: bool)
    ensures b <==> IsAuthenticatedKey in storage && storage[IsAuthenticatedKey] == "true"
    ensures IsAuthenticatedKey !in storage ==> !b
  {
    IsAuthenticatedKey in storage && storage[IsAuthenticatedKey] == "true"
  }

  /** `storedToken || null`: a missing key and an empty stored token both seed no token. */
  function StoredToken(storage: map<string, string>): (t: Option<string>)
    ensures t.Some? ==> t.value != "" && AdminTokenKey in storage && storage[AdminTokenKey] == t.value
    ensures t.None? <==> AdminTokenKey !in storage || storage[AdminTokenKey] == ""
  {
    if AdminTokenKey in storage && storage[AdminTokenKey] != "" then Some(storage[AdminTokenKey]) else None
  }

  /** The in-memory session agrees with what storage would seed. */
  ghost predicate Mirrored(s: State, storage: map<string, string>) {
    s.isAuthenticated == StoredAuthenticated(storage) && s.adminToken == StoredToken(storage)
  }

  /** The store's initial snapshot: empty collections, null filter, closed panels, session from storage. */
  function Initial(storage: map<string, string>): (s: State)
    ensures Mirrored(s, storage)
    ensures s.products == [] && s.featuredProducts == [] && s.filteredProducts == []
    ensures s.cart == [] && s.chatMessages == []
    ensures !HasConstraint(s.productFilter)
    ensures !s.isCartOpen && !s.isMobileMenuOpen && !s.isAdminPanelOpen && !s.isChatOpen
  {
    State([], [], [], ProductFilter(None, None, ""), [], false, false,
          StoredAuthenticated(storage), false, StoredToken(storage), false, [])
  }

  /** The token a reply carries, when the reply body is truthy. */
  function ReplyToken(reply: AuthReply): (t: Option<string>)
    ensures t.Some? <==> reply.Answered? && Truthy(reply.data)
    ensures t.Some? ==> t.value != "" && reply.data == t
  {
    if reply.Answered? && Truthy(reply.data) then reply.data else None
  }

  /** The in-memory half of a successful login or signup. */
  function Authenticate(s: State, token: string): (r: State)
    ensures r.isAuthenticated && r.adminToken == Some(token)
    ensures r == s.(isAuthenticated := r.isAuthenticated, adminToken := r.adminToken)
  {
    s.(isAuthenticated := true, adminToken := Some(token))
  }

  /** The storage half of a successful login or signup: both keys written, nothing else touched. */
  function PersistLogin(storage: map<string, string>, token: string): (m: map<string, string>)
    ensures m.Keys == storage.Keys + {AdminTokenKey, IsAuthenticatedKey}
    ensures m[AdminTokenKey] == token && m[IsAuthenticatedKey] == "true"
    ensures forall k :: k in storage && k != AdminTokenKey && k != IsAuthenticatedKey ==> m[k] == storage[k]
  {
    storage[AdminTokenKey := token][IsAuthenticatedKey := "true"]
  }

  /** `adminLogout` in memory: signed out, token gone, admin panel closed. */
  function Logout(s: State): (r: State)
    ensures !r.isAuthenticated && r.adminToken == None && !r.isAdminPanelOpen
    ensures r == s.(isAuthenticated := r.isAuthenticated, adminToken := r.adminToken,
                    isAdminPanelOpen := r.isAdminPanelOpen)
  {
    s.(isAuthenticated := false, isAdminPanelOpen := false, adminToken := None)
  }

  /** `adminLogout` in storage: the three session keys removed, every other key kept. */
  function ForgetSession(storage: map<string, string>): (m: map<string, string>)
    ensures m.Keys == storage.Keys - {AdminTokenKey, IsAuthenticatedKey, UserRoleKey}
    ensures forall k :: k in m ==> m[k] == storage[k]
  {
    storage - {AdminTokenKey, IsAuthenticatedKey, UserRoleKey}
  }

  /** `login` answers true exactly when the reply carried a truthy token. */
  function LoginResult(reply: AuthReply): (ok: bool)
    ensures ok <==> reply.Answered? && Truthy(reply.data)
    ensures reply.Threw? ==> !ok
  {
    ReplyToken(reply).Some?
  }

  /**
   * What `signup` returns: the token on success, the fixed text "Signup failed" for a
   * falsy body, and for a thrown error the server's message when it is truthy, else a
   * generic text.
   */
  function SignupOutcome(reply: AuthReply): (o: SignupResult)
    ensures o.SignedUp? <==> ReplyToken(reply).Some?
    ensures o.SignedUp? ==> Some(o.data) == ReplyToken(reply)
    ensures reply.Answered? && !Truthy(reply.data) ==> o == SignupRejected("Signup failed")
    ensures reply.Threw? && Truthy(reply.message) ==> o == SignupFailed(reply.message.value)
    ensures reply.Threw? && !Truthy(reply.message) ==> o == SignupFailed("An error occurred during signup")
  {
    match reply
    case Answered(data) =>
      if Truthy(data) then SignedUp(data.value) else SignupRejected("Signup failed")
    case Threw(message) =>
      SignupFailed(if Truthy(message) then message.value else "An error occurred during signup")
  }

  /** After a login the storage would seed exactly the session now in memory. */
  lemma LoginMirrored(s: State, storage: map<string, string>, token: string)
    requires token != ""
    ensures Mirrored(Authenticate(s, token), PersistLogin(storage, token))
  {
    var m := PersistLogin(storage, token);
    assert m[AdminTokenKey] == token;
  }

  /** After a logout the storage would seed a signed-out session, as now in memory. */
  lemma LogoutMirrored(s: State, storage: map<string, string>)
    ensures Mirrored(Logout(s), ForgetSession(storage))
  {
  }

  /** Reloading after a login restores the signed-in session; after a logout, the signed-out one. */
  lemma ReloadRestoresSession(storage: map<string, string>, token: string)
    requires token != ""
    ensures Initial(PersistLogin(storage, token)).isAuthenticated
    ensures Initial(PersistLogin(storage, token)).adminToken == Some(token)
    ensures !Initial(ForgetSession(storage)).isAuthenticated
    ensures Initial(ForgetSession(storage)).adminToken == None
  {
    LoginMirrored(Initial(storage), storage, token);
    LogoutMirrored(Initial(storage), storage);
  }
}
