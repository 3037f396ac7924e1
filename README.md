# User accounts and refresh-token sessions

This project models the account and session handlers of a small shop backend's
user router. The router has five requests:

- **signup** registers a username with a bcrypt hash of the password.
- **login** checks the password and issues an access token and a refresh token. The refresh token is added to the user's persisted list.
- **token** (refresh) exchanges a refresh token held by some user for a new access token.
- **logout** removes a refresh token from its owner's list.
- **profile** looks up the user named by the claims of a verified access token.

The handlers become methods of the class `UserRoutes.CredentialStore`. The
class holds the user collection as a map from username to a `User` record
(id, password hash, refresh-token list). Because the map is keyed by username,
usernames are unique, as the schema's unique index makes them. Each method
answers with a `Response` carrying the HTTP status and the JSON body. The
body's messages are the source's own strings.

The foreign pieces are abstracted:

- bcrypt is the class constant `hash`. `compare(p, h)` holds exactly when `hash(p) == h`.
- `jwt.sign` depends on the clock (issued-at, expiry). Each call therefore gets the signers from its caller, as functions from `Claims` (id and username) to token strings.
- `jwt.verify` with the refresh secret is the class constant `verifyRefresh`. It returns the decoded claims, or `None` when the signature does not check. Refresh tokens carry no expiry, so given the secret the answer depends only on the token.
- The database's fresh `_id` is a counter, `nextId`. `Valid()` keeps ids distinct.
- A request-body field is an `Option<string>`. The handlers' `!field` test fails for a missing field and for the empty string (`Present`).
- `findOne({'refreshTokens.token': t})` may match several users. The lookup is modelled as an arbitrary choice of one user whose list holds `t`.

Schema mismatch: models/User.js declares the token list as `tokens`, but every
handler reads and writes `refreshTokens`. The model follows the handlers. Under
mongoose's default strict schema, `user.refreshTokens` would be undefined on a
loaded document, so the `push` at login would throw and end in the generic
500 answer. Which way the token queries behave then depends on the mongoose
version's strict-query default. For that reason the model gives the handlers'
evident intent rather than a Findings row.

The logout filter is the pure function `TokenLists.RemoveAll`. Its lemmas show
that it distributes over concatenation (order is kept) and that it drops every
copy of the token while keeping every other entry as many times as it occurred.
The module `Sessions` proves multi-request properties as clients of the
handlers' contracts.

## Model

| member | source | states |
|---|---|---|
| `TokenLists.RemoveAll` | routes/userRoutes.js:118 | the filtered list no longer holds the token; it holds exactly the other tokens of the old list (as a set); it is no longer than the old list; a list without the token is returned unchanged |
| `TokenLists.RemoveAllAppend` | routes/userRoutes.js:118 | filtering a concatenation is the concatenation of the filtered parts, so surviving entries keep their original order |
| `TokenLists.RemoveAllCounts` | routes/userRoutes.js:118 | every other entry survives with its multiplicity and every copy of the removed token is gone |
| `TokenLists.RemoveAllAfterAppend` | routes/userRoutes.js:118 | removing the token that login appended (line 62) gives the same list as removing it from the list before that login |
| `UserRoutes.CredentialStore.constructor` | models/User.js:10 | an empty user collection with the given password hash and refresh verifier |
| `UserRoutes.Present` | routes/userRoutes.js:15 | a body field passes the handlers' `!field` test (also at lines 40, 76, 107) exactly when it is there and is not the empty string |
| `UserRoutes.HeldBy` | routes/userRoutes.js:81 | `findOne({'refreshTokens.token': t})` (also at line 112) finds a user exactly when some user's refresh-token list holds `t` |
| `UserRoutes.CredentialStore.Signup` | routes/userRoutes.js:11-28 | a missing or empty field gives 400 "Username and password are required."; an existing username gives 400 "Username already exists."; neither changes the store; otherwise 201, and exactly one new record under that username with a fresh id, `hash(password)` and an empty token list, every other user unchanged |
| `UserRoutes.CredentialStore.Login` | routes/userRoutes.js:36-65 | a missing field gives 400; an unknown username and a wrong password give the same 401 "Invalid username or password." and leave the store unchanged; on success 200 with the tokens signed from the user's id and name, and exactly that refresh token appended to the end of that user's list, every other user unchanged |
| `UserRoutes.CredentialStore.Refresh` | routes/userRoutes.js:73-96 | never changes the store; a missing token gives 401; a token no user holds gives 403 "Invalid refresh token."; a held token that fails verification gives 403 "Invalid or expired refresh token."; a held, verified token gives 200 with an access token signed from the decoded claims |
| `UserRoutes.CredentialStore.Logout` | routes/userRoutes.js:104-121 | a missing token gives 401 and a token no user holds gives 403, both leaving the store unchanged; otherwise 200, and for some user holding the token, every entry equal to it leaves that user's list, every other user unchanged |
| `UserRoutes.CredentialStore.Profile` | routes/userRoutes.js:129-135 | the user whose id the claims name gives 200 with that user's username; no such user gives 404 "User not found." |
| `Sessions.SignupThenLogin` | routes/userRoutes.js:24-65 | after a successful signup, login with the same credentials gives 200 with tokens for the new id, and the new user's list is exactly the issued refresh token |
| `Sessions.LoginThenLogout` | routes/userRoutes.js:59-119 | a logout with the refresh token a login just issued, when no user held that token before, restores the store to what it was before the login |
| `Sessions.LogoutThenRefresh` | routes/userRoutes.js:81-121 | after the only holder of a token logs out with it, both a refresh and a second logout with that token give 403 "Invalid refresh token." |
| `Sessions.RefreshTwice` | routes/userRoutes.js:81-95 | the refresh token is not rotated: two refreshes with the same held, verifiable token both give 200, each with an access token signed from the same decoded claims by the signer of its own moment |
| `Sessions.AliceSession` | routes/userRoutes.js:11-140 | on an empty store, signup, login, profile, refresh twice, logout and refresh give 201, 200, 200 with the username, 200, 200, 200 and then 403; each token-signing request uses the signer of its own moment, and both refreshes sign the claims of the login's user |

## Left out

- The generic 500 `catch` branches and their `console.error` logging (routes/userRoutes.js:29-32, 66-69, 97-100, 122-125, 136-139): database and library failures are not modelled.
- bcrypt's salting and cost factor: `hash` is one deterministic function, so a second signup of the same password would store the same hash, where bcrypt stores a different one.
- The internals of `jsonwebtoken`: signatures, secrets and the 15-minute expiry of access tokens. Signing is a caller-supplied function and refresh verification an oracle.
- The access-token middleware in front of `/profile` is not part of this model: `Profile` starts from the claims that middleware attaches.
- JavaScript truthiness of non-string body values (a numeric or boolean `username`, say): fields are strings or absent.
- Which user `findOne` returns when several hold the same refresh token: the model lets logout pick any of them.
- The asynchronous steps and the unserialised read-modify-write race between concurrent requests on one user's token list: each handler runs as one atomic step.
- routes/shoeRoutes.js, models/Shoe.js and server.js: product CRUD, file upload and process wiring, with no account or session rule in them.
