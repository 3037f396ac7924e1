/** Properties of the session life cycle that span several requests, proved
    as clients of the handlers' contracts. */
module Sessions {
  import opened Wrappers
  import opened TokenLists
  import opened UserRoutes

  /** No user other than `owner` holds `t`. */
  predicate OnlyHolder(users: map<string, User>, owner: string, t: Token) {
    forall v :: v in users && t in users[v].refreshTokens ==> v == owner
  }

  /** A fresh signup can log in at once: the first refresh token becomes the
      new user's whole list, and the tokens carry the id the signup gave. */
  method SignupThenLogin(store: CredentialStore, username: string, password: string,
                         signAccess: Claims -> Token, signRefresh: Claims -> Token)
    returns (signedUp: Response, loggedIn: Response)
    requires store.Valid() && username != "" && password != "" && username !in store.users
    modifies store
    ensures store.Valid()
    ensures signedUp.status == 201
    ensures var claims := Claims(old(store.nextId), username);
            && loggedIn == Response(200, TokenPair(signAccess(claims), signRefresh(claims)))
            && username in store.users && store.users[username].refreshTokens == [signRefresh(claims)]
  {
    signedUp := store.Signup(Some(username), Some(password));
    loggedIn := store.Login(Some(username), Some(password), signAccess, signRefresh);
  }

  /** Logging out with the token a login just issued, when nobody held that
      token before, puts the store back as it was before the login. */
  method LoginThenLogout(store: CredentialStore, username: string, password: string,
                         signAccess: Claims -> Token, signRefresh: Claims -> Token)
    returns (loggedIn: Response, loggedOut: Response)
    requires store.Valid() && username != "" && password != ""
    requires username in store.users && store.hash(password) == store.users[username].passwordHash
    requires var t := signRefresh(Claims(store.users[username].id, username));
             t != "" && !HeldBy(store.users, t)
    modifies store
    ensures store.Valid()
    ensures loggedIn.status == 200 && loggedOut == Response(200, Message(LoggedOut))
    ensures store.users == old(store.users) && store.nextId == old(store.nextId)
  {
    ghost var before := store.users;
    ghost var t := signRefresh(Claims(before[username].id, username));
    loggedIn := store.Login(Some(username), Some(password), signAccess, signRefresh);
    assert t in store.users[username].refreshTokens;
    loggedOut := store.Logout(Some(loggedIn.body.refreshToken));
    RemoveAllAfterAppend(before[username].refreshTokens, t);
    assert store.users == before;
  }

  /** Once the only holder of a token has logged out with it, the token is
      dead: a later refresh and a later logout with it both get 403. */
  method LogoutThenRefresh(store: CredentialStore, owner: string, t: Token, signAccess: Claims -> Token)
    returns (loggedOut: Response, refreshed: Response, again: Response)
    requires store.Valid() && t != ""
    requires owner in store.users && t in store.users[owner].refreshTokens
    requires OnlyHolder(store.users, owner, t)
    modifies store
    ensures store.Valid()
    ensures loggedOut == Response(200, Message(LoggedOut))
    ensures refreshed == Response(403, Message(InvalidRefreshToken))
    ensures again == Response(403, Message(InvalidRefreshToken))
  {
    loggedOut := store.Logout(Some(t));
    assert !HeldBy(store.users, t);
    refreshed := store.Refresh(Some(t), signAccess);
    again := store.Logout(Some(t));
  }

  /** Refresh does not rotate the refresh token: asking twice with the same
      held, verifiable token succeeds both times, and each answer is an access
      token signed, at the moment of its own request, from the same decoded
      claims. */
  method RefreshTwice(store: CredentialStore, t: Token,
                      signFirst: Claims -> Token, signSecond: Claims -> Token)
    returns (first: Response, second: Response)
    requires t != "" && HeldBy(store.users, t) && store.verifyRefresh(t).Some?
    ensures first == Response(200, NewAccessToken(signFirst(store.verifyRefresh(t).value)))
    ensures second == Response(200, NewAccessToken(signSecond(store.verifyRefresh(t).value)))
  {
    first := store.Refresh(Some(t), signFirst);
    second := store.Refresh(Some(t), signSecond);
  }

  /** A whole session on an empty store: sign up, log in, read the profile,
      refresh twice, log out, and find the refresh token rejected. Each
      request that signs an access token gets the signer of its own moment. */
  method AliceSession(hash: string -> string, verifyRefresh: Token -> Option<Claims>,
                      signAtLogin: Claims -> Token, signRefresh: Claims -> Token,
                      signAtRefresh: Claims -> Token, signAtRefreshAgain: Claims -> Token,
                      signAtRejected: Claims -> Token)
    returns (signedUp: Response, loggedIn: Response, profile: Response,
             refreshed: Response, refreshedAgain: Response,
             loggedOut: Response, rejected: Response)
    requires signRefresh(Claims(0, "alice")) != ""
    requires verifyRefresh(signRefresh(Claims(0, "alice"))) == Some(Claims(0, "alice"))
    ensures signedUp == Response(201, Message(Registered))
    ensures loggedIn == Response(200, TokenPair(signAtLogin(Claims(0, "alice")), signRefresh(Claims(0, "alice"))))
    ensures profile == Response(200, UserProfile("alice"))
    ensures refreshed == Response(200, NewAccessToken(signAtRefresh(Claims(0, "alice"))))
    ensures refreshedAgain == Response(200, NewAccessToken(signAtRefreshAgain(Claims(0, "alice"))))
    ensures loggedOut == Response(200, Message(LoggedOut))
    ensures rejected == Response(403, Message(InvalidRefreshToken))
  {
    var store := new CredentialStore(hash, verifyRefresh);
    signedUp := store.Signup(Some("alice"), Some("pw123"));
    loggedIn := store.Login(Some("alice"), Some("pw123"), signAtLogin, signRefresh);
    profile := store.Profile(Claims(0, "alice"));
    var t := loggedIn.body.refreshToken;
    assert HeldBy(store.users, t) by {
      assert t in store.users["alice"].refreshTokens;
    }
    refreshed := store.Refresh(Some(t), signAtRefresh);
    refreshedAgain := store.Refresh(Some(t), signAtRefreshAgain);
    loggedOut := store.Logout(Some(t));
    assert !HeldBy(store.users, t);
    rejected := store.Refresh(Some(t), signAtRejected);
  }
}
