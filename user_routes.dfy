/** The account and session handlers of the user router: signup, login,
    refresh ("/token"), logout and the profile lookup, over a credential store
    that maps each username to its user record. */
module UserRoutes {
  import opened Wrappers
  import opened TokenLists

  /** The claims signed into both kinds of token: the user's id and name. */
  datatype Claims = Claims(id: nat, username: string)

  /** A persisted user record. The handlers read and write the token list as
      `refreshTokens`, while the schema declares it as `tokens`; the model
      follows the handlers. The username is the store's key, which makes it
      unique as the schema's unique index does. */
  datatype User = User(id: nat, passwordHash: string, refreshTokens: seq<Token>)

  /** The JSON body a handler answers with. */
  datatype Body =
    | Message(text: string)
    | TokenPair(accessToken: Token, refreshToken: Token)
    | NewAccessToken(accessToken: Token)
    | UserProfile(username: string)

  datatype Response = Response(status: nat, body: Body)

  const CredentialsRequired := "Username and password are required."
  const UsernameTaken := "Username already exists."
  const Registered := "User registered successfully!"
  const InvalidCredentials := "Invalid username or password."
  const TokenRequired := "Refresh token is required."
  const InvalidRefreshToken := "Invalid refresh token."
  const RejectedRefreshToken := "Invalid or expired refresh token."
  const LoggedOut := "Logged out successfully."
  const UserNotFound := "User not found."

  /** A request-body field passes the handlers' `!field` test: it is there and
      is not the empty string. */
  predicate Present(field: Option<string>) {
    field.Some? && field.value != ""
  }

  /** Some user's list holds `t`: what `findOne({'refreshTokens.token': t})`
      finds. */
  predicate HeldBy(users: map<string, User>, t: Token) {
    exists u :: u in users && t in users[u].refreshTokens
  }

  class CredentialStore {
    /** The user collection, keyed by username. */
    var users: map<string, User>
    /** Stands for the fresh `_id` the database gives a new record. */
    var nextId: nat
    /** bcrypt: `compare(p, h)` holds exactly when `hash(p) == h`. */
    const hash: string -> string
    /** `jwt.verify` with the refresh-token secret: the decoded claims, or
        None when the signature does not check. */
    const verifyRefresh: Token -> Option<Claims>

    /** Ids are distinct and were all handed out before `nextId`. */
    ghost predicate Valid()
      reads this
    {
      && (forall u :: u in users ==> users[u].id < nextId)
      && (forall u, v :: u in users && v in users && u != v ==> users[u].id != users[v].id)
    }

    constructor (hash: string -> string, verifyRefresh: Token -> Option<Claims>)
      ensures Valid()
      ensures users == map[] && nextId == 0
      ensures this.hash == hash && this.verifyRefresh == verifyRefresh
    {
      users := map[];
      nextId := 0;
      this.hash := hash;
      this.verifyRefresh := verifyRefresh;
    }

    /** POST /signup */
    method Signup(username: Option<string>, password: Option<string>) returns (r: Response)
      requires Valid()
      modifies this
      ensures Valid()
      ensures !Present(username) || !Present(password) ==>
                r == Response(400, Message(CredentialsRequired)) && users == old(users) && nextId == old(nextId)
      ensures Present(username) && Present(password) && username.value in old(users) ==>
                r == Response(400, Message(UsernameTaken)) && users == old(users) && nextId == old(nextId)
      ensures Present(username) && Present(password) && username.value !in old(users) ==>
                && r == Response(201, Message(Registered))
                && users == old(users)[username.value := User(old(nextId), hash(password.value), [])]
                && nextId == old(nextId) + 1
    {
      if !Present(username) || !Present(password) {
        return Response(400, Message(CredentialsRequired));
      }
      var name := username.value;
      if name in users {
        return Response(400, Message(UsernameTaken));
      }
      var hashed := hash(password.value);
      users := users[name := User(nextId, hashed, [])];
      nextId := nextId + 1;
      r := Response(201, Message(Registered));
    }

    /** POST /login. The access and refresh tokens are what `jwt.sign` makes
        of the user's claims at the moment of the call, so the caller supplies
        the two signers. An unknown username and a wrong password get the same
        answer. */
    method Login(username: Option<string>, password: Option<string>,
                 signAccess: Claims -> Token, signRefresh: Claims -> Token) returns (r: Response)
      requires Valid()
      modifies this
      ensures Valid() && nextId == old(nextId)
      ensures !Present(username) || !Present(password) ==>
                r == Response(400, Message(CredentialsRequired)) && users == old(users)
      ensures Present(username) && Present(password) &&
              (username.value !in old(users) || hash(password.value) != old(users)[username.value].passwordHash) ==>
                r == Response(401, Message(InvalidCredentials)) && users == old(users)
      ensures Present(username) && Present(password) &&
              username.value in old(users) && hash(password.value) == old(users)[username.value].passwordHash ==>
                var user := old(users)[username.value];
                var claims := Claims(user.id, username.value);
                && r == Response(200, TokenPair(signAccess(claims), signRefresh(claims)))
                && users == old(users)[username.value := user.(refreshTokens := user.refreshTokens + [signRefresh(claims)])]
    {
      if !Present(username) || !Present(password) {
        return Response(400, Message(CredentialsRequired));
      }
      var name := username.value;
      if name !in users {
        return Response(401, Message(InvalidCredentials));
      }
      var user := users[name];
      if hash(password.value) != user.passwordHash {
        return Response(401, Message(InvalidCredentials));
      }
      var claims := Claims(user.id, name);
      var accessToken := signAccess(claims);
      var refreshToken := signRefresh(claims);
      users := users[name := user.(refreshTokens := user.refreshTokens + [refreshToken])];
      r := Response(200, TokenPair(accessToken, refreshToken));
    }

    /** POST /token. Reads the store and never changes it; the refresh token
        is not rotated. */
    method Refresh(refreshToken: Option<Token>, signAccess: Claims -> Token) returns (r: Response)
      ensures !Present(refreshToken) ==> r == Response(401, Message(TokenRequired))
      ensures Present(refreshToken) && !HeldBy(users, refreshToken.value) ==>
                r == Response(403, Message(InvalidRefreshToken))
      ensures Present(refreshToken) && HeldBy(users, refreshToken.value) && verifyRefresh(refreshToken.value).None? ==>
                r == Response(403, Message(RejectedRefreshToken))
      ensures Present(refreshToken) && HeldBy(users, refreshToken.value) && verifyRefresh(refreshToken.value).Some? ==>
                r == Response(200, NewAccessToken(signAccess(verifyRefresh(refreshToken.value).value)))
    {
      if !Present(refreshToken) {
        return Response(401, Message(TokenRequired));
      }
      var t := refreshToken.value;
      if !HeldBy(users, t) {
        return Response(403, Message(InvalidRefreshToken));
      }
      var decoded := verifyRefresh(t);
      if decoded.None? {
        return Response(403, Message(RejectedRefreshToken));
      }
      r := Response(200, NewAccessToken(signAccess(decoded.value)));
    }

    /** POST /logout. Of the users holding the token, the store lookup picks
        one; every entry equal to the token leaves that user's list. */
    method Logout(refreshToken: Option<Token>) returns (r: Response)
      requires Valid()
      modifies this
      ensures Valid() && nextId == old(nextId)
      ensures !Present(refreshToken) ==> r == Response(401, Message(TokenRequired)) && users == old(users)
      ensures Present(refreshToken) && !HeldBy(old(users), refreshToken.value) ==>
                r == Response(403, Message(InvalidRefreshToken)) && users == old(users)
      ensures Present(refreshToken) && HeldBy(old(users), refreshToken.value) ==>
                && r == Response(200, Message(LoggedOut))
                && exists u :: u in old(users) && refreshToken.value in old(users)[u].refreshTokens &&
                     users == old(users)[u := old(users)[u].(refreshTokens := RemoveAll(old(users)[u].refreshTokens, refreshToken.value))]
    {
      if !Present(refreshToken) {
        return Response(401, Message(TokenRequired));
      }
      var t := refreshToken.value;
      if !HeldBy(users, t) {
        return Response(403, Message(InvalidRefreshToken));
      }
      var owner :| owner in users && t in users[owner].refreshTokens;
      var user := users[owner];
      users := users[owner := user.(refreshTokens := RemoveAll(user.refreshTokens, t))];
      r := Response(200, Message(LoggedOut));
    }

    /** GET /profile, after the access-token middleware has attached the
        decoded claims: look the user up by id. */
    method Profile(identity: Claims) returns (r: Response)
      requires Valid()
      ensures (forall u :: u in users ==> users[u].id != identity.id) ==> r == Response(404, Message(UserNotFound))
      ensures forall u :: u in users && users[u].id == identity.id ==> r == Response(200, UserProfile(u))
    {
      if u :| u in users && users[u].id == identity.id {
        r := Response(200, UserProfile(u));
      } else {
        r := Response(404, Message(UserNotFound));
      }
    }
  }
}
