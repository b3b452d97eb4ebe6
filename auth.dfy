/** The session store: who is logged in, backed by the `token` and `user`
    entries of `localStorage` so that the session survives a reload. */
module Auth {
  import opened Wrappers
  import opened Text
  import Storage

  /** The authenticated user as the API returns it. */
  datatype User = User(id: int, nome: string, email: string)

  /** The body of a successful login or registration exchange. */
  datatype AuthResponse = AuthResponse(token: string, user: User)

  /** What `JSON.parse` does with a stored string: it throws, or yields a value. The JSON
      literal `null` parses without throwing and yields no user (`Parsed(None)`). */
  datatype ParseOutcome = Throws | Parsed(value: Option<User>)

  /** `JSON.parse` and `JSON.stringify` on users, left abstract. */
  datatype JsonCodec = JsonCodec(parse: string -> ParseOutcome, stringify: User -> string)

  /** The codec writes a user as a non-empty string that parses back to that user. */
  predicate RoundTrips(json: JsonCodec, u: User) {
    json.stringify(u) != "" && json.parse(json.stringify(u)) == Parsed(Some(u))
  }

  /** The provider's three state variables. */
  datatype Session = Session(user: Option<User>, token: Option<string>, isLoading: bool)

  /** The session together with the storage it is backed by. */
  datatype AuthWorld = AuthWorld(session: Session, items: map<string, string>)

  const InitialSession: Session := Session(None, None, true)

  const TokenKey: string := "token"
  const UserKey: string := "user"

  /** The two entries are both present and non-empty, so hydration tries to use them. */
  predicate HasStoredSession(items: map<string, string>) {
    Truthy(Storage.Lookup(items, TokenKey)) && Truthy(Storage.Lookup(items, UserKey))
  }

  /** The mount effect, as written: with both entries stored, the token is set first and the
      user entry is parsed after; when parsing throws, both entries are removed but the token
      already set stays. Loading ends whatever the branch. */
  function HydrateStep(w: AuthWorld, json: JsonCodec): AuthWorld {
    if HasStoredSession(w.items) then
      var token := Some(w.items[TokenKey]);
      match json.parse(w.items[UserKey])
      case Parsed(u) => AuthWorld(Session(u, token, false), w.items)
      case Throws => AuthWorld(Session(w.session.user, token, false), w.items - {TokenKey, UserKey})
    else
      AuthWorld(w.session.(isLoading := false), w.items)
  }

  /** `login`: sets both state variables and writes both entries. */
  function LoginStep(w: AuthWorld, data: AuthResponse, json: JsonCodec): AuthWorld {
    AuthWorld(w.session.(user := Some(data.user), token := Some(data.token)),
              w.items[TokenKey := data.token][UserKey := json.stringify(data.user)])
  }

  /** `logout`: clears both state variables and removes both entries. */
  function LogoutStep(w: AuthWorld): AuthWorld {
    AuthWorld(w.session.(user := None, token := None), w.items - {TokenKey, UserKey})
  }

  /** With an entry missing or empty, hydration touches neither the session nor storage. */
  lemma HydrateWithoutStoredSession(w: AuthWorld, json: JsonCodec)
    requires !HasStoredSession(w.items)
    ensures HydrateStep(w, json) == AuthWorld(w.session.(isLoading := false), w.items)
  {
  }

  /** With both entries stored and a parsable user, hydration takes both from storage. */
  lemma HydrateRestores(w: AuthWorld, json: JsonCodec, u: User)
    requires HasStoredSession(w.items)
    requires json.parse(w.items[UserKey]) == Parsed(Some(u))
    ensures HydrateStep(w, json) == AuthWorld(Session(Some(u), Some(w.items[TokenKey]), false), w.items)
  {
  }

  /** When the user entry does not parse, both entries are removed, the user stays as it was,
      and the token has already been taken from storage. */
  lemma HydrateCorruptUser(w: AuthWorld, json: JsonCodec)
    requires HasStoredSession(w.items)
    requires json.parse(w.items[UserKey]) == Throws
    ensures var r := HydrateStep(w, json);
      && r.items == w.items - {TokenKey, UserKey}
      && TokenKey !in r.items && UserKey !in r.items
      && r.session.user == w.session.user
      && r.session.token == Some(w.items[TokenKey])
  {
  }

  /** Hydration always ends loading, and never changes storage except by removing both entries. */
  lemma HydrateEndsLoading(w: AuthWorld, json: JsonCodec)
    ensures !HydrateStep(w, json).session.isLoading
    ensures var r := HydrateStep(w, json);
      r.items == w.items || r.items == w.items - {TokenKey, UserKey}
  {
  }

  /** `login` writes exactly the two entries and leaves every other key as it was. */
  lemma LoginWritesBothEntries(w: AuthWorld, data: AuthResponse, json: JsonCodec)
    ensures var r := LoginStep(w, data, json);
      && r.session.user == Some(data.user) && r.session.token == Some(data.token)
      && r.session.isLoading == w.session.isLoading
      && r.items[TokenKey] == data.token && r.items[UserKey] == json.stringify(data.user)
      && r.items.Keys == w.items.Keys + {TokenKey, UserKey}
      && forall k :: k in w.items && k != TokenKey && k != UserKey ==> r.items[k] == w.items[k]
  {
  }

  /** `logout` leaves neither entry behind, and a second `logout` changes nothing. */
  lemma LogoutIdempotent(w: AuthWorld)
    ensures TokenKey !in LogoutStep(w).items && UserKey !in LogoutStep(w).items
    ensures LogoutStep(w).session.user == None && LogoutStep(w).session.token == None
    ensures LogoutStep(LogoutStep(w)) == LogoutStep(w)
  {
  }

  /** From a logged-out state with no stored session, `login` then `logout` restores the
      session and storage exactly. */
  lemma LoginLogoutRoundTrip(w: AuthWorld, data: AuthResponse, json: JsonCodec)
    requires w.session.user == None && w.session.token == None
    requires TokenKey !in w.items && UserKey !in w.items
    ensures LogoutStep(LoginStep(w, data, json)) == w
  {
    var written := w.items[TokenKey := data.token][UserKey := json.stringify(data.user)];
    assert written - {TokenKey, UserKey} == w.items;
  }

  /** A session written by `login` survives a reload: a fresh provider hydrating from that
      storage ends up with the same user and token. */
  lemma LoginSurvivesReload(w: AuthWorld, data: AuthResponse, json: JsonCodec)
    requires data.token != ""
    requires RoundTrips(json, data.user)
    ensures var stored := LoginStep(w, data, json).items;
      && HydrateStep(AuthWorld(InitialSession, stored), json)
           == AuthWorld(Session(Some(data.user), Some(data.token), false), stored)
      && HydrateFailSafeStep(AuthWorld(InitialSession, stored), json)
           == HydrateStep(AuthWorld(InitialSession, stored), json)
  {
    var stored := LoginStep(w, data, json).items;
    assert stored[TokenKey] == data.token;
    assert stored[UserKey] == json.stringify(data.user);
  }

  /** The user and the token are set or cleared together. */
  predicate Paired(s: Session) {
    s.user.Some? <==> s.token.Some?
  }

  /** `login` and `logout` keep the user and the token paired. */
  lemma LoginLogoutPaired(w: AuthWorld, data: AuthResponse, json: JsonCodec)
    ensures Paired(LoginStep(w, data, json).session)
    ensures Paired(LogoutStep(w).session)
  {
  }

  /** Hydration as written can leave a token without a user: with a stored token and a user
      entry `"{"` that `JSON.parse` rejects, the fresh provider ends with a token and no user. */
  lemma HydrateUnpairsOnCorruptUser(json: JsonCodec)
    requires json.parse("{") == Throws
    ensures var r := HydrateStep(AuthWorld(InitialSession, map[TokenKey := "abc", UserKey := "{"]), json);
      && r.session.token == Some("abc") && r.session.user == None
      && !Paired(r.session)
  {
    var items := map[TokenKey := "abc", UserKey := "{"];
    assert Storage.Lookup(items, TokenKey) == Some("abc");
    assert Storage.Lookup(items, UserKey) == Some("{");
  }

  /** Hydration that falls back to logged-out, as the catch block intends: a user entry that
      does not parse to a user (it throws, or it is the JSON literal `null`) removes both
      entries and clears both state variables. */
  function HydrateFailSafeStep(w: AuthWorld, json: JsonCodec): AuthWorld {
    if HasStoredSession(w.items) then
      match json.parse(w.items[UserKey])
      case Parsed(Some(u)) => AuthWorld(Session(Some(u), Some(w.items[TokenKey]), false), w.items)
      case _ => AuthWorld(Session(None, None, false), w.items - {TokenKey, UserKey})
    else
      AuthWorld(w.session.(isLoading := false), w.items)
  }

  /** The fail-safe hydration keeps the user and the token paired, and agrees with the
      hydration as written whenever the stored user parses to a user. */
  lemma HydrateFailSafePaired(w: AuthWorld, json: JsonCodec)
    requires Paired(w.session)
    ensures Paired(HydrateFailSafeStep(w, json).session)
    ensures !HydrateFailSafeStep(w, json).session.isLoading
    ensures HasStoredSession(w.items) && json.parse(w.items[UserKey]).Parsed? && json.parse(w.items[UserKey]).value.Some?
      ==> HydrateFailSafeStep(w, json) == HydrateStep(w, json)
    ensures !HasStoredSession(w.items) ==> HydrateFailSafeStep(w, json) == HydrateStep(w, json)
  {
  }

  /** The provider of the authentication context. */
  class AuthProvider {
    var user: Option<User>
    var token: Option<string>
    var isLoading: bool
    const storage: Storage.LocalStorage
    const json: JsonCodec

    /** The provider's state and the storage behind it. */
    function World(): AuthWorld
      reads this, storage
    {
      AuthWorld(Session(user, token, isLoading), storage.items)
    }

    /** A freshly mounted provider: no user, no token, still loading. */
    constructor (storage: Storage.LocalStorage, json: JsonCodec)
      ensures Session(user, token, isLoading) == InitialSession
      ensures this.storage == storage && this.json == json
    {
      user, token, isLoading := None, None, true;
      this.storage := storage;
      this.json := json;
    }

    /** The mount effect that recovers the saved session. */
    method Hydrate()
      modifies this, storage
      ensures World() == HydrateStep(old(World()), json)
    {
      var savedToken := storage.GetItem(TokenKey);
      var savedUser := storage.GetItem(UserKey);
      if Truthy(savedToken) && Truthy(savedUser) {
        token := savedToken;
        match json.parse(savedUser.value)
        case Parsed(u) =>
          user := u;
        case Throws =>
          storage.RemoveItem(TokenKey);
          storage.RemoveItem(UserKey);
      }
      isLoading := false;
    }

    method Login(data: AuthResponse)
      modifies this, storage
      ensures World() == LoginStep(old(World()), data, json)
    {
      token := Some(data.token);
      user := Some(data.user);
      storage.SetItem(TokenKey, data.token);
      storage.SetItem(UserKey, json.stringify(data.user));
    }

    method Logout()
      modifies this, storage
      ensures World() == LogoutStep(old(World()))
    {
      token := None;
      user := None;
      storage.RemoveItem(TokenKey);
      storage.RemoveItem(UserKey);
    }
  }

  const OutsideProviderMessage: string := "useAuth deve ser usado dentro de AuthProvider"

  /** `useAuth`: the enclosing provider, or the error it throws when there is none. */
  function UseAuth(context: Option<AuthProvider>): (r: Result<AuthProvider, string>)
    ensures r.Success? <==> context.Some?
    ensures r.Success? ==> r.value == context.value
    ensures r.Failure? ==> r.error == OutsideProviderMessage
  {
    match context
    case Some(p) => Success(p)
    case None => Failure(OutsideProviderMessage)
  }
}
