/** The token lifecycle of backend/controllers/authController.js: signup,
    login, refresh, logout, Google sign-in, reset request and reset
    confirmation over three stores (users, sessions, reset tokens).

    Each store is a sequence in insertion order, so `findOne` is the first
    match. bcrypt, JWT signing and verification, random bytes, Google's
    token check and the mail transport are outside the model: their results are
    parameters (a hash function, token strings, a verifier function, a flag
    saying whether the mail went out). "Now" is a parameter in milliseconds. */
module AuthController {
  import opened Common
  import opened Collections

  type Id = nat

  datatype User = User(id: Id, name: string, email: string, passwordHash: string,
                       city: string, country: string, role: string)

  datatype Session = Session(userId: Id, jwtToken: string, refreshToken: string,
                             expiresAt: int, refreshExpiresAt: int)

  datatype ResetToken = ResetToken(id: Id, userId: Id, token: string, expiresAt: int)

  const AccessTtl: int := 15 * 60 * 1000
  const RefreshTtl: int := 48 * 60 * 60 * 1000
  const ResetTtl: int := 60 * 60 * 1000

  /** What a reply does to the `refresh_token` cookie. */
  datatype Cookie = KeepCookie | SetRefreshCookie(value: string, maxAge: int) | ClearRefreshCookie

  /** The `user` object of a reply, with exactly the fields its handler
      lists. The login replies also list `created_at`, but the schema's field
      is `createdAt`, so `user.created_at` is undefined and JSON drops it. */
  datatype UserView =
    | SignupView(name: string, email: string, city: string, country: string, role: string)
    | NewGoogleView(id: Id, name: string, email: string)
    | BriefView(id: Id, name: string, email: string, role: string)
    | FullView(id: Id, name: string, email: string, city: string, country: string, role: string)

  /** The fixed `metadata` object of the login replies. */
  datatype Metadata = Metadata(userAgent: string, clientIp: string)

  const ClientMetadata: Metadata := Metadata("RandomBrowser/1.0", "123.45.67.89")

  /** A reply's JSON body beyond `message`: nothing, a `user` (with
      `profileIncomplete: true` for a new Google user), or a `jwt_token` with
      its `user` and, from the login handlers, the `metadata`. */
  datatype Body =
    | NoBody
    | WithUser(user: UserView)
    | ProfileIncomplete(user: UserView)
    | WithToken(jwt: string, user: UserView)
    | WithSession(jwt: string, user: UserView, metadata: Metadata)

  datatype Reply = Reply(status: int, message: string, cookie: Cookie, body: Body)

  function Plain(status: int, message: string): Reply
  {
    Reply(status, message, KeepCookie, NoBody)
  }

  /** The reply of a successful login, by password or by Google. */
  function LoginReply(access: string, refresh: string, user: UserView): Reply
  {
    Reply(200, "Login successful", SetRefreshCookie(refresh, RefreshTtl), WithSession(access, user, ClientMetadata))
  }

  datatype Db = Db(users: seq<User>, sessions: seq<Session>, resetTokens: seq<ResetToken>, nextId: Id)

  datatype Outcome = Outcome(db: Db, reply: Reply)

  /** Ids are fresh below `nextId` and unique, and no user holds more than
      one reset token. */
  ghost predicate Valid(db: Db)
  {
    && (forall i :: 0 <= i < |db.users| ==> db.users[i].id < db.nextId)
    && (forall i, j :: 0 <= i < j < |db.users| ==> db.users[i].id != db.users[j].id)
    && (forall i :: 0 <= i < |db.resetTokens| ==> db.resetTokens[i].id < db.nextId)
    && (forall i, j :: 0 <= i < j < |db.resetTokens| ==> db.resetTokens[i].id != db.resetTokens[j].id)
    && AtMostOneTokenPerUser(db.resetTokens)
  }

  ghost predicate AtMostOneTokenPerUser(tokens: seq<ResetToken>)
  {
    forall i, j :: 0 <= i < j < |tokens| ==> tokens[i].userId != tokens[j].userId
  }

  function UserByEmail(db: Db, email: string): Option<nat>
  {
    FirstIndex(db.users, (u: User) => u.email == email)
  }

  function UserById(db: Db, id: Id): Option<nat>
  {
    FirstIndex(db.users, (u: User) => u.id == id)
  }

  function SessionByRefresh(db: Db, refreshToken: string): Option<nat>
  {
    FirstIndex(db.sessions, (s: Session) => s.refreshToken == refreshToken)
  }

  function TokenByValue(db: Db, token: string): Option<nat>
  {
    FirstIndex(db.resetTokens, (t: ResetToken) => t.token == token)
  }

  function TokensNotOf(tokens: seq<ResetToken>, userId: Id): (r: seq<ResetToken>)
    ensures forall i :: 0 <= i < |r| ==> r[i].userId != userId && r[i] in tokens
    ensures forall i :: 0 <= i < |tokens| && tokens[i].userId != userId ==> tokens[i] in r
  {
    Filter(tokens, (t: ResetToken) => t.userId != userId)
  }

  // ---------------------------------------------------------------------
  // The handlers as transitions of the stores.

  /** Mongoose's validation of a new document against the User schema:
      firstName, lastName, email, passwordHash and city are required (a
      required string may not be empty), and role, when given, is "user" or
      "admin". Keys the schema does not declare, such as `name`, are
      dropped before validation. */
  predicate UserSchemaAccepts(doc: map<string, string>)
  {
    && Present(doc, "firstName") && Present(doc, "lastName") && Present(doc, "email")
    && Present(doc, "passwordHash") && Present(doc, "city")
    && ("role" in doc ==> doc["role"] == "user" || doc["role"] == "admin")
  }

  predicate Present(doc: map<string, string>, key: string)
  {
    key in doc && doc[key] != ""
  }

  /** `User.create`: the document is stored as `u` when the schema accepts
      it; otherwise the call rejects and nothing is stored. */
  function CreateUser(db: Db, doc: map<string, string>, u: User): (r: Option<Db>)
    ensures r.Some? <==> UserSchemaAccepts(doc)
    ensures r.Some? ==>
      r.value.users == db.users + [u] && r.value.sessions == db.sessions
      && r.value.resetTokens == db.resetTokens && r.value.nextId == db.nextId + 1
  {
    if UserSchemaAccepts(doc) then Some(db.(users := db.users + [u], nextId := db.nextId + 1)) else None
  }

  /** The document signupUser hands to `User.create`. */
  function SignupDoc(name: string, email: string, passwordHash: string, city: string, country: string,
                     role: string): map<string, string>
  {
    map["name" := name, "email" := email, "passwordHash" := passwordHash, "city" := city,
        "country" := country, "role" := role]
  }

  /** The document googleAuth hands to `User.create` for an unknown email. */
  function GoogleDoc(name: string, email: string, passwordHash: string): map<string, string>
  {
    map["name" := name, "email" := email, "passwordHash" := passwordHash, "city" := "Not provided",
        "country" := "Not provided"]
  }

  /** Neither document carries firstName or lastName, so the schema refuses
      both, whatever the request holds. */
  lemma NewUserDocsRejected(name: string, email: string, passwordHash: string, city: string, country: string,
                            role: string)
    ensures !UserSchemaAccepts(SignupDoc(name, email, passwordHash, city, country, role))
    ensures !UserSchemaAccepts(GoogleDoc(name, email, passwordHash))
  {
    assert "firstName" !in SignupDoc(name, email, passwordHash, city, country, role);
    assert "firstName" !in GoogleDoc(name, email, passwordHash);
  }

  /** signupUser. After the required-field and duplicate checks the user
      goes to `User.create`, which the schema makes reject, so the catch
      block answers 500 and no user is stored. */
  function Signup(db: Db, name: string, email: string, password: string, city: string, country: string,
                  role: string, hash: string -> string): (r: Outcome)
    ensures r.reply.status == 400 <==> name == "" || email == "" || password == "" || city == "" || country == ""
    ensures r.reply.status == 409 <==>
      !(name == "" || email == "" || password == "" || city == "" || country == "") && UserByEmail(db, email).Some?
    ensures r.reply.status == 500 <==>
      !(name == "" || email == "" || password == "" || city == "" || country == "") && UserByEmail(db, email).None?
    ensures r.reply.status == 500 ==> r.reply == Plain(500, "Server error during signup")
    ensures r.db == db
  {
    if name == "" || email == "" || password == "" || city == "" || country == "" then
      Outcome(db, Plain(400, "All fields are required"))
    else if UserByEmail(db, email).Some? then
      Outcome(db, Plain(409, "Email already in use"))
    else
      var role' := if role == "" then "user" else role;
      var u := User(db.nextId, name, email, hash(password), city, country, role');
      NewUserDocsRejected(name, email, hash(password), city, country, role');
      match CreateUser(db, SignupDoc(name, email, hash(password), city, country, role'), u)
      case None => Outcome(db, Plain(500, "Server error during signup"))
      case Some(db') => Outcome(db', Reply(200, "User created successfully", KeepCookie, WithUser(SignupView(u.name, u.email, u.city, u.country, u.role))))
  }

  function NewSession(userId: Id, access: string, refresh: string, now: int): Session
  {
    Session(userId, access, refresh, now + AccessTtl, now + RefreshTtl)
  }

  /** loginUser; `matches(password, hash)` is bcrypt's compare. */
  function Login(db: Db, email: string, password: string, matches: (string, string) -> bool,
                 access: string, refresh: string, now: int): (r: Outcome)
    ensures r.reply.status == 401 <==>
      UserByEmail(db, email).None? || !matches(password, db.users[UserByEmail(db, email).value].passwordHash)
    ensures r.reply.status == 401 ==> r.db == db && r.reply.cookie == KeepCookie
    ensures r.reply.status != 401 ==>
      var u := db.users[UserByEmail(db, email).value];
      && r.db == db.(sessions := db.sessions + [NewSession(u.id, access, refresh, now)])
      && r.reply == LoginReply(access, refresh, BriefView(u.id, u.name, u.email, u.role))
  {
    match UserByEmail(db, email)
    case None => Outcome(db, Plain(401, "Invalid credentials"))
    case Some(k) =>
      var u := db.users[k];
      if !matches(password, u.passwordHash) then Outcome(db, Plain(401, "Invalid credentials"))
      else
        Outcome(db.(sessions := db.sessions + [NewSession(u.id, access, refresh, now)]),
                LoginReply(access, refresh, BriefView(u.id, u.name, u.email, u.role)))
  }

  /** The refresh cookie is present, verifies, names a stored session of
      the same user, and that session's refresh expiry has not passed. */
  predicate RefreshAccepted(db: Db, cookie: string, verify: string -> Option<Id>, now: int)
  {
    && cookie != "" && verify(cookie).Some? && SessionByRefresh(db, cookie).Some?
    && db.sessions[SessionByRefresh(db, cookie).value].userId == verify(cookie).value
    && now <= db.sessions[SessionByRefresh(db, cookie).value].refreshExpiresAt
  }

  /** refreshAccessToken. `verify` is the JWT check of the cookie: None when
      it throws, otherwise the payload's userId. When the user has vanished
      after the session was saved, reading `user.name` throws and the reply
      is the catch block's 401, with the session already updated. */
  function Refresh(db: Db, cookie: string, verify: string -> Option<Id>, access: string, now: int): (r: Outcome)
    ensures cookie == "" ==> r == Outcome(db, Plain(401, "No refresh token"))
    ensures cookie != "" && verify(cookie).None? ==> r == Outcome(db, Plain(401, "Invalid token"))
    ensures cookie != "" && verify(cookie).Some?
      && (SessionByRefresh(db, cookie).None?
          || db.sessions[SessionByRefresh(db, cookie).value].userId != verify(cookie).value)
      ==> r == Outcome(db, Plain(401, "Invalid session"))
    ensures !RefreshAccepted(db, cookie, verify, now) ==> r.db == db && r.reply.status == 401
    ensures RefreshAccepted(db, cookie, verify, now) ==>
      var k := SessionByRefresh(db, cookie).value;
      r.db == db.(sessions := db.sessions[k := db.sessions[k].(jwtToken := access, expiresAt := now + AccessTtl)])
    ensures r.reply.status == 200 <==>
      RefreshAccepted(db, cookie, verify, now) && UserById(db, verify(cookie).value).Some?
    ensures r.reply.status == 200 ==>
      var u := db.users[UserById(db, verify(cookie).value).value];
      r.reply == Reply(200, "", KeepCookie, WithToken(access, BriefView(u.id, u.name, u.email, u.role)))
    ensures r.reply.status != 200 ==> r.reply.status == 401 && r.reply.cookie == KeepCookie
  {
    if cookie == "" then Outcome(db, Plain(401, "No refresh token"))
    else
      match verify(cookie)
      case None => Outcome(db, Plain(401, "Invalid token"))
      case Some(userId) =>
        match SessionByRefresh(db, cookie)
        case None => Outcome(db, Plain(401, "Invalid session"))
        case Some(k) =>
          var session := db.sessions[k];
          if session.userId != userId then Outcome(db, Plain(401, "Invalid session"))
          else if now > session.refreshExpiresAt then Outcome(db, Plain(401, "Refresh token expired"))
          else
            var db' := db.(sessions := db.sessions[k := session.(jwtToken := access, expiresAt := now + AccessTtl)]);
            match UserById(db, userId)
            case None => Outcome(db', Plain(401, "Invalid token"))
            case Some(k) =>
              var u := db.users[k];
              Outcome(db', Reply(200, "", KeepCookie, WithToken(access, BriefView(u.id, u.name, u.email, u.role))))
  }

  /** logoutUser: `deleteOne` removes the first session holding the token. */
  function Logout(db: Db, cookie: string): (r: Outcome)
    ensures r.reply.status == 200
    ensures cookie == "" ==> r.db == db && r.reply.cookie == KeepCookie
    ensures cookie != "" ==> r.reply.cookie == ClearRefreshCookie
    ensures cookie != "" ==> match SessionByRefresh(db, cookie)
      case None => r.db == db
      case Some(k) => r.db == db.(sessions := RemoveAt(db.sessions, k))
  {
    if cookie == "" then Outcome(db, Plain(200, "Logged out"))
    else
      var db' := match SessionByRefresh(db, cookie)
        case None => db
        case Some(k) => db.(sessions := RemoveAt(db.sessions, k));
      Outcome(db', Reply(200, "Logged out successfully", ClearRefreshCookie, NoBody))
  }

  /** googleAuth. `verifyId` is Google's token check: None when it throws,
      otherwise the payload's (email, name). `passwordHash` is the hash of the
      random password given to a new user. A known email logs in; an unknown
      one goes to `User.create`, which the schema makes reject, so the catch
      block answers 500 and no user is stored. */
  function GoogleAuth(db: Db, idToken: string, verifyId: string -> Option<(string, string)>, passwordHash: string,
                      access: string, refresh: string, now: int): (r: Outcome)
    ensures verifyId(idToken).None? ==> r == Outcome(db, Plain(500, "Google authentication failed"))
    ensures verifyId(idToken).Some? && UserByEmail(db, verifyId(idToken).value.0).None? ==>
      r == Outcome(db, Plain(500, "Google authentication failed"))
    ensures r.reply.status == 200 <==> verifyId(idToken).Some? && UserByEmail(db, verifyId(idToken).value.0).Some?
    ensures r.reply.status == 200 ==>
      var u := db.users[UserByEmail(db, verifyId(idToken).value.0).value];
      && r.db == db.(sessions := db.sessions + [NewSession(u.id, access, refresh, now)])
      && r.reply == LoginReply(access, refresh, FullView(u.id, u.name, u.email, u.city, u.country, u.role))
    ensures r.reply.status != 200 ==> r.reply.status == 500 && r.db == db
  {
    match verifyId(idToken)
    case None => Outcome(db, Plain(500, "Google authentication failed"))
    case Some((email, name)) =>
      match UserByEmail(db, email)
      case None =>
        var u := User(db.nextId, name, email, passwordHash, "Not provided", "Not provided", "user");
        NewUserDocsRejected(name, email, passwordHash, "", "", "");
        (match CreateUser(db, GoogleDoc(name, email, passwordHash), u)
         case None => Outcome(db, Plain(500, "Google authentication failed"))
         case Some(db') => Outcome(db', Reply(201, "New Google user. Please complete profile.", KeepCookie, ProfileIncomplete(NewGoogleView(u.id, u.name, u.email)))))
      case Some(k) =>
        var u := db.users[k];
        Outcome(db.(sessions := db.sessions + [NewSession(u.id, access, refresh, now)]),
                LoginReply(access, refresh, FullView(u.id, u.name, u.email, u.city, u.country, u.role)))
  }

  const ResetSent: string := "If registered, reset email sent"

  /** sendResetPasswordEmail: the user's old tokens are deleted before the new
      one is stored; a failed mail answers 500 but the token stays. */
  function SendReset(db: Db, email: string, token: string, now: int, mailOk: bool): (r: Outcome)
    ensures email == "" ==> r == Outcome(db, Plain(400, "Email is required"))
    ensures email != "" && UserByEmail(db, email).None? ==> r == Outcome(db, Plain(200, ResetSent))
    ensures email != "" && UserByEmail(db, email).Some? ==>
      var u := db.users[UserByEmail(db, email).value];
      && r.db == db.(resetTokens := TokensNotOf(db.resetTokens, u.id) + [ResetToken(db.nextId, u.id, token, now + ResetTtl)],
                     nextId := db.nextId + 1)
      && r.reply == (if mailOk then Plain(200, ResetSent) else Plain(500, "Server error"))
  {
    if email == "" then Outcome(db, Plain(400, "Email is required"))
    else
      match UserByEmail(db, email)
      case None => Outcome(db, Plain(200, ResetSent))
      case Some(k) =>
        var u := db.users[k];
        var tokens := TokensNotOf(db.resetTokens, u.id) + [ResetToken(db.nextId, u.id, token, now + ResetTtl)];
        Outcome(db.(resetTokens := tokens, nextId := db.nextId + 1),
                if mailOk then Plain(200, ResetSent) else Plain(500, "Server error"))
  }

  /** resetPasswordConfirm. */
  function ResetConfirm(db: Db, token: string, newPassword: string, hash: string -> string, now: int): (r: Outcome)
    ensures token == "" || newPassword == "" ==> r == Outcome(db, Plain(400, "Token and new password are required"))
    ensures token != "" && newPassword != "" && TokenByValue(db, token).None? ==>
      r == Outcome(db, Plain(400, "Invalid or expired token"))
    ensures r.reply.status == 200 <==>
      token != "" && newPassword != "" && TokenByValue(db, token).Some?
      && now <= db.resetTokens[TokenByValue(db, token).value].expiresAt
      && UserById(db, db.resetTokens[TokenByValue(db, token).value].userId).Some?
    ensures r.reply.status == 200 ==>
      var t := TokenByValue(db, token).value;
      var k := UserById(db, db.resetTokens[t].userId).value;
      r.db == db.(users := db.users[k := db.users[k].(passwordHash := hash(newPassword))],
                  resetTokens := RemoveAt(db.resetTokens, t))
    ensures r.reply.status != 200 ==> r.reply.status == 400 && r.db.users == db.users
    ensures r.db.nextId == db.nextId
    ensures r.db.sessions == db.sessions
  {
    if token == "" || newPassword == "" then Outcome(db, Plain(400, "Token and new password are required"))
    else
      match TokenByValue(db, token)
      case None => Outcome(db, Plain(400, "Invalid or expired token"))
      case Some(t) =>
        var doc := db.resetTokens[t];
        if now > doc.expiresAt then
          Outcome(db.(resetTokens := RemoveAt(db.resetTokens, t)), Plain(400, "Token expired"))
        else
          match UserById(db, doc.userId)
          case None => Outcome(db, Plain(400, "User not found"))
          case Some(k) =>
            var users := db.users[k := db.users[k].(passwordHash := hash(newPassword))];
            Outcome(db.(users := users, resetTokens := RemoveAt(db.resetTokens, t)),
                    Plain(200, "Password reset successful"))
  }

  // ---------------------------------------------------------------------
  // Properties of the lifecycle.

  lemma RemoveAtKeepsDistinct(tokens: seq<ResetToken>, t: nat)
    requires t < |tokens|
    requires AtMostOneTokenPerUser(tokens)
    requires forall i, j :: 0 <= i < j < |tokens| ==> tokens[i].id != tokens[j].id
    ensures AtMostOneTokenPerUser(RemoveAt(tokens, t))
    ensures forall i, j :: 0 <= i < j < |RemoveAt(tokens, t)| ==> RemoveAt(tokens, t)[i].id != RemoveAt(tokens, t)[j].id
    ensures forall i :: 0 <= i < |RemoveAt(tokens, t)| ==> RemoveAt(tokens, t)[i] in tokens
  {
    var r := RemoveAt(tokens, t);
    forall i, j | 0 <= i < j < |r| ensures r[i].userId != r[j].userId && r[i].id != r[j].id {
      var i' := if i < t then i else i + 1;
      var j' := if j < t then j else j + 1;
      assert r[i] == tokens[i'] && r[j] == tokens[j'] && i' < j';
    }
  }

  /** Every reset request keeps the store valid: the user's old tokens are
      filtered out before the new one is appended, so each user holds at most
      one reset token. */
  lemma SendResetKeepsValid(db: Db, email: string, token: string, now: int, mailOk: bool)
    requires Valid(db)
    ensures Valid(SendReset(db, email, token, now, mailOk).db)
  {
    if email != "" && UserByEmail(db, email).Some? {
      var u := db.users[UserByEmail(db, email).value];
      var newToken := ResetToken(db.nextId, u.id, token, now + ResetTtl);
      var keep := (t: ResetToken) => t.userId != u.id;
      var kept := TokensNotOf(db.resetTokens, u.id);
      FilterSubsequence(db.resetTokens, keep);
      SubsequenceDistinct(kept, db.resetTokens, (t: ResetToken) => t.userId);
      SubsequenceDistinct(kept, db.resetTokens, (t: ResetToken) => t.id);
      var tokens := kept + [newToken];
      forall i, j | 0 <= i < j < |tokens|
        ensures tokens[i].userId != tokens[j].userId && tokens[i].id != tokens[j].id
      {
        if j < |kept| {
          assert tokens[i] == kept[i] && tokens[j] == kept[j];
        } else {
          assert tokens[i] in db.resetTokens;
        }
      }
    }
  }

  /** Every confirmation keeps the store valid. */
  lemma ResetConfirmKeepsValid(db: Db, token: string, newPassword: string, hash: string -> string, now: int)
    requires Valid(db)
    ensures Valid(ResetConfirm(db, token, newPassword, hash, now).db)
  {
    if token != "" && newPassword != "" && TokenByValue(db, token).Some? {
      RemoveAtKeepsDistinct(db.resetTokens, TokenByValue(db, token).value);
    }
  }

  /** Signup and Google sign-in never store a user, and login, refresh and
      logout touch only the sessions, which the store's invariant does not
      constrain: each handler keeps the stores valid. */
  lemma SignupKeepsValid(db: Db, name: string, email: string, password: string, city: string, country: string,
                         role: string, hash: string -> string)
    requires Valid(db)
    ensures Valid(Signup(db, name, email, password, city, country, role, hash).db)
  {
  }

  lemma LoginKeepsValid(db: Db, email: string, password: string, matches: (string, string) -> bool,
                        access: string, refresh: string, now: int)
    requires Valid(db)
    ensures Valid(Login(db, email, password, matches, access, refresh, now).db)
  {
  }

  lemma RefreshKeepsValid(db: Db, cookie: string, verify: string -> Option<Id>, access: string, now: int)
    requires Valid(db)
    ensures Valid(Refresh(db, cookie, verify, access, now).db)
  {
  }

  lemma LogoutKeepsValid(db: Db, cookie: string)
    requires Valid(db)
    ensures Valid(Logout(db, cookie).db)
  {
  }

  lemma GoogleAuthKeepsValid(db: Db, idToken: string, verifyId: string -> Option<(string, string)>,
                             passwordHash: string, access: string, refresh: string, now: int)
    requires Valid(db)
    ensures Valid(GoogleAuth(db, idToken, verifyId, passwordHash, access, refresh, now).db)
  {
  }

  /** No request to signupUser or googleAuth ever adds a user: the user
      store after either is the one before. */
  lemma NoNewUsers(db: Db, name: string, email: string, password: string, city: string, country: string,
                   role: string, hash: string -> string, idToken: string,
                   verifyId: string -> Option<(string, string)>, passwordHash: string,
                   access: string, refresh: string, now: int)
    ensures Signup(db, name, email, password, city, country, role, hash).db.users == db.users
    ensures GoogleAuth(db, idToken, verifyId, passwordHash, access, refresh, now).db.users == db.users
  {
  }

  /** The reset request answers the same for an unknown email as for a
      registered one whose mail went out: nothing reveals which is which. */
  lemma ResetRequestSameAnswer(db: Db, unknown: string, known: string, token: string, now: int)
    requires unknown != "" && UserByEmail(db, unknown).None?
    requires known != "" && UserByEmail(db, known).Some?
    ensures SendReset(db, unknown, token, now, true).reply == SendReset(db, known, token, now, true).reply
  {
  }

  /** A successful confirmation consumes the token document it used: no
      document with that id is left. */
  lemma ConsumedTokenGone(db: Db, token: string, newPassword: string, hash: string -> string, now: int)
    requires Valid(db)
    requires ResetConfirm(db, token, newPassword, hash, now).reply.status == 200
    ensures var used := db.resetTokens[TokenByValue(db, token).value];
      forall t :: t in ResetConfirm(db, token, newPassword, hash, now).db.resetTokens ==> t.id != used.id
  {
    var k := TokenByValue(db, token).value;
    var r := RemoveAt(db.resetTokens, k);
    forall m | 0 <= m < |r| ensures r[m].id != db.resetTokens[k].id {
      if m < k {
        assert r[m] == db.resetTokens[m];
      } else {
        assert r[m] == db.resetTokens[m + 1];
      }
    }
  }

  /** Reset tokens are single-use: when one document holds the token, a
      second confirmation with it finds nothing. */
  lemma ResetTokenSingleUse(db: Db, token: string, p1: string, p2: string, hash: string -> string, now1: int, now2: int)
    requires Valid(db)
    requires ResetConfirm(db, token, p1, hash, now1).reply.status == 200
    requires forall i, j :: 0 <= i < j < |db.resetTokens| ==> db.resetTokens[i].token != db.resetTokens[j].token
    requires p2 != ""
    ensures ResetConfirm(ResetConfirm(db, token, p1, hash, now1).db, token, p2, hash, now2).reply
         == Plain(400, "Invalid or expired token")
  {
    var k := TokenByValue(db, token).value;
    var db1 := ResetConfirm(db, token, p1, hash, now1).db;
    assert db1.resetTokens == RemoveAt(db.resetTokens, k);
    forall m | 0 <= m < |db1.resetTokens| ensures db1.resetTokens[m].token != token {
      if m < k {
        assert db1.resetTokens[m] == db.resetTokens[m];
      } else {
        assert db1.resetTokens[m] == db.resetTokens[m + 1];
      }
    }
  }

  /** An expired token is deleted and refused; the password is unchanged. */
  lemma ExpiredTokenDeleted(db: Db, token: string, newPassword: string, hash: string -> string, now: int)
    requires token != "" && newPassword != "" && TokenByValue(db, token).Some?
    requires now > db.resetTokens[TokenByValue(db, token).value].expiresAt
    ensures var r := ResetConfirm(db, token, newPassword, hash, now);
      r.reply == Plain(400, "Token expired") && r.db.users == db.users
      && r.db.resetTokens == RemoveAt(db.resetTokens, TokenByValue(db, token).value)
  {
  }

  /** Refresh changes at most one session, and in it only the access token
      and its expiry; every other session and every other store is as before. */
  lemma RefreshTouchesOneSession(db: Db, cookie: string, verify: string -> Option<Id>, access: string, now: int)
    ensures var r := Refresh(db, cookie, verify, access, now);
      && |r.db.sessions| == |db.sessions|
      && r.db.users == db.users && r.db.resetTokens == db.resetTokens
      && (forall j :: 0 <= j < |db.sessions| && r.db.sessions[j] != db.sessions[j] ==>
            SessionByRefresh(db, cookie) == Some(j)
            && r.db.sessions[j] == db.sessions[j].(jwtToken := access, expiresAt := now + AccessTtl))
  {
  }

  /** An expired refresh token is refused and changes nothing. */
  lemma RefreshExpired(db: Db, cookie: string, verify: string -> Option<Id>, access: string, now: int)
    requires cookie != "" && verify(cookie).Some? && SessionByRefresh(db, cookie).Some?
    requires db.sessions[SessionByRefresh(db, cookie).value].userId == verify(cookie).value
    requires now > db.sessions[SessionByRefresh(db, cookie).value].refreshExpiresAt
    ensures Refresh(db, cookie, verify, access, now) == Outcome(db, Plain(401, "Refresh token expired"))
  {
  }

  /** Logout removes exactly one session, the first holding the token, and
      keeps the others in order. */
  lemma LogoutRemovesOneSession(db: Db, cookie: string)
    requires cookie != "" && SessionByRefresh(db, cookie).Some?
    ensures var r := Logout(db, cookie); var k := SessionByRefresh(db, cookie).value;
      |r.db.sessions| == |db.sessions| - 1
      && r.db.sessions == db.sessions[..k] + db.sessions[k + 1..]
      && r.db.users == db.users && r.db.resetTokens == db.resetTokens
  {
  }

  // ---------------------------------------------------------------------
  // The stores as mutable state; each handler updates them step by step.

  class AuthStore {
    var users: seq<User>
    var sessions: seq<Session>
    var resetTokens: seq<ResetToken>
    var nextId: Id

    function State(): Db
      reads this
    {
      Db(users, sessions, resetTokens, nextId)
    }

    constructor ()
      ensures State() == Db([], [], [], 0)
      ensures Valid(State())
    {
      users, sessions, resetTokens, nextId := [], [], [], 0;
    }

    method SignupUser(name: string, email: string, password: string, city: string, country: string,
                      role: string, hash: string -> string) returns (reply: Reply)
      modifies this
      requires Valid(State())
      ensures Valid(State())
      ensures Outcome(State(), reply) == Signup(old(State()), name, email, password, city, country, role, hash)
    {
      if name == "" || email == "" || password == "" || city == "" || country == "" {
        return Plain(400, "All fields are required");
      }
      var existing := UserByEmail(State(), email);
      if existing.Some? {
        return Plain(409, "Email already in use");
      }
      var passwordHash := hash(password);
      var role' := if role == "" then "user" else role;
      var user := User(nextId, name, email, passwordHash, city, country, role');
      NewUserDocsRejected(name, email, passwordHash, city, country, role');
      match CreateUser(State(), SignupDoc(name, email, passwordHash, city, country, role'), user) {
        case None =>
          reply := Plain(500, "Server error during signup");
        case Some(_) =>
          assert false;
      }
    }

    method LoginUser(email: string, password: string, matches: (string, string) -> bool,
                     access: string, refresh: string, now: int) returns (reply: Reply)
      modifies this
      requires Valid(State())
      ensures Valid(State())
      ensures Outcome(State(), reply) == Login(old(State()), email, password, matches, access, refresh, now)
    {
      LoginKeepsValid(State(), email, password, matches, access, refresh, now);
      var found := UserByEmail(State(), email);
      if found.None? || !matches(password, users[found.value].passwordHash) {
        return Plain(401, "Invalid credentials");
      }
      var user := users[found.value];
      sessions := sessions + [NewSession(user.id, access, refresh, now)];
      reply := LoginReply(access, refresh, BriefView(user.id, user.name, user.email, user.role));
    }

    method RefreshAccessToken(cookie: string, verify: string -> Option<Id>, access: string, now: int)
      returns (reply: Reply)
      modifies this
      requires Valid(State())
      ensures Valid(State())
      ensures Outcome(State(), reply) == Refresh(old(State()), cookie, verify, access, now)
    {
      RefreshKeepsValid(State(), cookie, verify, access, now);
      if cookie == "" {
        return Plain(401, "No refresh token");
      }
      var payload := verify(cookie);
      if payload.None? {
        return Plain(401, "Invalid token");
      }
      var found := SessionByRefresh(State(), cookie);
      if found.None? || sessions[found.value].userId != payload.value {
        return Plain(401, "Invalid session");
      }
      var k := found.value;
      if now > sessions[k].refreshExpiresAt {
        return Plain(401, "Refresh token expired");
      }
      sessions := sessions[k := sessions[k].(jwtToken := access)];
      sessions := sessions[k := sessions[k].(expiresAt := now + AccessTtl)];
      var user := UserById(State(), payload.value);
      if user.None? {
        return Plain(401, "Invalid token");
      }
      var u := users[user.value];
      reply := Reply(200, "", KeepCookie, WithToken(access, BriefView(u.id, u.name, u.email, u.role)));
    }

    method LogoutUser(cookie: string) returns (reply: Reply)
      modifies this
      requires Valid(State())
      ensures Valid(State())
      ensures Outcome(State(), reply) == Logout(old(State()), cookie)
    {
      LogoutKeepsValid(State(), cookie);
      if cookie == "" {
        return Plain(200, "Logged out");
      }
      var found := SessionByRefresh(State(), cookie);
      if found.Some? {
        sessions := RemoveAt(sessions, found.value);
      }
      reply := Reply(200, "Logged out successfully", ClearRefreshCookie, NoBody);
    }

    method GoogleSignIn(idToken: string, verifyId: string -> Option<(string, string)>, passwordHash: string,
                        access: string, refresh: string, now: int) returns (reply: Reply)
      modifies this
      requires Valid(State())
      ensures Valid(State())
      ensures Outcome(State(), reply) == GoogleAuth(old(State()), idToken, verifyId, passwordHash, access, refresh, now)
    {
      var payload := verifyId(idToken);
      if payload.None? {
        return Plain(500, "Google authentication failed");
      }
      var (email, name) := payload.value;
      var found := UserByEmail(State(), email);
      if found.None? {
        var user := User(nextId, name, email, passwordHash, "Not provided", "Not provided", "user");
        NewUserDocsRejected(name, email, passwordHash, "", "", "");
        match CreateUser(State(), GoogleDoc(name, email, passwordHash), user) {
          case None =>
            reply := Plain(500, "Google authentication failed");
          case Some(_) =>
            assert false;
        }
        return;
      }
      var user := users[found.value];
      sessions := sessions + [NewSession(user.id, access, refresh, now)];
      reply := LoginReply(access, refresh, FullView(user.id, user.name, user.email, user.city, user.country, user.role));
    }

    method SendResetPasswordEmail(email: string, token: string, now: int, mailOk: bool) returns (reply: Reply)
      modifies this
      requires Valid(State())
      ensures Valid(State())
      ensures Outcome(State(), reply) == SendReset(old(State()), email, token, now, mailOk)
    {
      SendResetKeepsValid(State(), email, token, now, mailOk);
      if email == "" {
        return Plain(400, "Email is required");
      }
      var found := UserByEmail(State(), email);
      if found.None? {
        return Plain(200, ResetSent);
      }
      var user := users[found.value];
      resetTokens := TokensNotOf(resetTokens, user.id);
      resetTokens := resetTokens + [ResetToken(nextId, user.id, token, now + ResetTtl)];
      nextId := nextId + 1;
      reply := if mailOk then Plain(200, ResetSent) else Plain(500, "Server error");
    }

    method ResetPasswordConfirm(token: string, newPassword: string, hash: string -> string, now: int)
      returns (reply: Reply)
      modifies this
      requires Valid(State())
      ensures Valid(State())
      ensures Outcome(State(), reply) == ResetConfirm(old(State()), token, newPassword, hash, now)
    {
      ResetConfirmKeepsValid(State(), token, newPassword, hash, now);
      if token == "" || newPassword == "" {
        return Plain(400, "Token and new password are required");
      }
      var found := TokenByValue(State(), token);
      if found.None? {
        return Plain(400, "Invalid or expired token");
      }
      var t := found.value;
      var doc := resetTokens[t];
      if now > doc.expiresAt {
        resetTokens := RemoveAt(resetTokens, t);
        return Plain(400, "Token expired");
      }
      var owner := UserById(State(), doc.userId);
      if owner.None? {
        return Plain(400, "User not found");
      }
      var k := owner.value;
      users := users[k := users[k].(passwordHash := hash(newPassword))];
      resetTokens := RemoveAt(resetTokens, t);
      reply := Plain(200, "Password reset successful");
    }
  }
}
