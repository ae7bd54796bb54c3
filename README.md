# omergpt core, modelled in Dafny

omergpt is a ChatGPT web client with user accounts. This project models its core and proves properties of that model:

- the API server's request handlers in `service/src/index.ts`:
  - the streaming `/chat-process` relay;
  - extraction of the bearer token;
  - the `/verify` secret check;
  - `/register` and `/login`;
  - the three chat-history endpoints, with their success and 401 envelopes.
- the authentication service over the `users` table (`service/src/services/auth.ts`).
- the chat-history service over the `chat_history` table (`service/src/services/chat.ts`).
- the browser side: the user-state persistence helpers (`src/store/modules/user/helper.ts`) and the user store (`src/store/modules/user/index.ts`).

Modules:

| file | module | models |
|---|---|---|
| `wrappers.dfy` | `Wrappers` | `Option`, `Result` and `Error` (an error carries its `message`) |
| `seqs.dfy` | `Seqs` | a SQL `WHERE` filter (`Select`), "the first row of an unordered result" (`AnyMatch`), reversal |
| `text.dfy` | `Text` | JavaScript truthiness of an optional string; `String.prototype.replace` with a string pattern, which replaces the first occurrence only |
| `crypto.dfy` | `Crypto` | stand-ins for bcrypt and jsonwebtoken, with the facts the rest of the model uses proved about them |
| `auth.dfy` | `Auth` | `authService`: `register` as a method on the `UserTable` class; `login` and `verifyToken` as functions of the table |
| `chat_store.dfy` | `ChatStore` | `chatService`: `saveChat` and the two deletes as methods on the `ChatTable` class; the two queries as functions of the rows |
| `server.dfy` | `Server` | the handlers; `/chat-process` is a method with the chunk loop, writing to a `Response` object that records `setHeader`, `write` and `end` |
| `user_helper.dfy` | `UserHelper` | the storage helpers; session storage is the `SessionStorage` class over a string-keyed map |
| `user_store.dfy` | `UserStore` | the store: the `Store` class with the fields `userInfo` and `isAuthenticated` and its three actions |

Things outside the program are inputs to the model:

- **Database.**
  - The tables are the rows held by `UserTable` and `ChatTable`.
  - The id sequences and the `created_at` clock are counters in those classes.
  - A failing user lookup in `verifyToken` is the flag `AuthContext.lookupFails`.
  - A failing `saveChat` insert is the parameter `saveFault` of `ChatProcess`.
- **Upstream model.** It is an `Upstream` value: the sequence of chunks it delivers, then whether it resolves or rejects.
- **Token expiry.** Whether the token's lifetime has passed is the flag `AuthContext.tokenExpired`.
- **bcrypt salt.** It is a parameter.
- **Environment.** `JWT_SECRET` and `AUTH_SECRET_KEY` are parameters, as `Option<string>` values read from the environment; every signing and verifying key is `Auth.JwtSecret` of the former.

### The error write after streamed chunks

The error is written as `JSON.stringify(error)` without the newline prefix that separates later chunks (`service/src/index.ts:61` against `service/src/index.ts:85`). So when at least one chunk was written, a client that cuts the body at newlines sees the error joined onto the last chunk's unit. `Server.RelayBodyUnits` states this. When no chunk was written, because the caller was refused or the upstream sent nothing, the error is the whole body and its only unit; `Server.RelayBodyWithoutChunks` states that case.

## Model

| member | source | states |
|---|---|---|
| Auth.JwtSecret | service/src/services/auth.ts:5 | the signing key is never empty, and it is `JWT_SECRET` whenever that is set and non-empty. Every key used to sign or verify a token in the model is this one, taken from the environment value |
| Auth.Existing | service/src/services/auth.ts:24-31 | the uniqueness query finds no row exactly when no user has the username and none has the email |
| Auth.InsertKeepsUnique | service/src/services/auth.ts:24-40 | an insert that passed the uniqueness check keeps usernames unique and emails unique |
| Auth.UserTable.Register | service/src/services/auth.ts:20-46 | on a clash: `Username or email already exists`, and the table is unchanged. Otherwise: exactly one row is appended (next id, hash of the password with cost 10), and the result is that user's id, username and email with a 24h token for the new id. Ids stay distinct |
| Auth.Login | service/src/services/auth.ts:48-76 | `User not found` exactly when no row has the username. `Invalid password` only for a row whose hash does not match. Success gives id, username and email (no hash) and a token for that id. No other error is possible. With unique usernames, success happens exactly when some row matches both. The table is not modified |
| Auth.FindByUsername | service/src/services/auth.ts:52-53 | the login lookup returns a row with that username, and nothing exactly when no row has it |
| Auth.FindById | service/src/services/auth.ts:81-82 | the lookup by id gives a row with that id without its hash; it gives nothing exactly when no row has the id |
| Auth.VerifyToken | service/src/services/auth.ts:78-86 | every failure is `Invalid token`. It fails exactly when the token is missing, does not decode, has expired, or the lookup fails. Otherwise the result is the lookup of the decoded id, which is `undefined` (not an error) when the row is missing |
| Auth.FindOwnId | service/src/services/auth.ts:81-82 | with distinct ids, looking up a row's own id finds that row |
| Auth.IssuedTokenVerifies | service/src/services/auth.ts:78-86 | a token issued for a user in the table verifies, while unexpired, to that user |
| Auth.LoginThenVerify | service/src/services/auth.ts:66-86 | the token a successful login returns verifies to the same user it returned |
| Auth.ExpiredTokenRejected | service/src/services/auth.ts:78-86 | a token past its lifetime always fails with `Invalid token` |
| Auth.RegisterThenLogin | service/src/services/auth.ts:20-76 | a freshly registered user can log in with the registered password and gets its id, username and email; any other password gives `Invalid password` |
| Crypto.Hash | service/src/services/auth.ts:34 | the stored hash keeps the cost factor and the salt it was made with |
| Crypto.CompareHash | service/src/services/auth.ts:60 | a password matches a hash exactly when the hash was made from that password |
| Crypto.VerifySign | service/src/services/auth.ts:66-80 | a signed token decodes, unexpired and under its own key, to exactly its claims; once expired it never decodes |
| Crypto.VerifiedIsSigned | service/src/services/auth.ts:80 | only signed tokens decode: a token that decodes is the signature of the claims it yields, and it has not expired |
| Crypto.ParseDecimal | service/src/services/auth.ts:80-81 | the user id inside a token: a string parses exactly when it is canonical decimal text, and it parses to the number whose text it is |
| Crypto.ParseDecimalRoundTrip | service/src/services/auth.ts:80-81 | printing a user id and parsing it back gives the id |
| ChatStore.ChatTable.SaveChat | service/src/services/chat.ts:17-38 | appends exactly one row carrying the options' fields, with a fresh id and timestamp, and returns it. Ids and timestamps stay strictly increasing |
| ChatStore.Insert | service/src/services/chat.ts:40-54 | inserting into an ordered sequence keeps it ordered and adds exactly that row |
| ChatStore.SortBy | service/src/services/chat.ts:40-54 | `ORDER BY created_at`: the result is ordered and is a permutation of the input |
| ChatStore.SortStrict | service/src/services/chat.ts:40-54 | with distinct timestamps the sorted order is strict |
| ChatStore.StrictlySortedUnique | service/src/services/chat.ts:40-54 | two strictly ordered sequences with the same rows are equal, so the query result is determined |
| ChatStore.GetChatHistory | service/src/services/chat.ts:40-46 | exactly the user's rows, each as often as stored, most recent first |
| ChatStore.GetChatByConversation | service/src/services/chat.ts:48-54 | exactly the user's rows of that conversation, each as often as stored, oldest first |
| ChatStore.ConversationIsReversedHistory | service/src/services/chat.ts:40-54 | with distinct timestamps, a conversation's replay is the user's history restricted to that conversation, reversed |
| ChatStore.SelectKeepsStrict | service/src/services/chat.ts:40-54 | filtering a strictly ordered sequence keeps it strictly ordered |
| ChatStore.SelectKeepsDistinct | service/src/services/chat.ts:40-54 | filtering keeps timestamps distinct |
| ChatStore.InsertStrict | service/src/services/chat.ts:40-54 | inserting a row with a new timestamp into a strictly ordered sequence keeps it strict |
| ChatStore.ConsStrict | service/src/services/chat.ts:40-54 | a row strictly before every row of a strictly ordered sequence can be put at its head |
| ChatStore.TailOfStrict | service/src/services/chat.ts:40-54 | in a strictly ordered sequence the rows after the head are exactly the other rows |
| ChatStore.ReverseFlipsOrder | service/src/services/chat.ts:40-54 | newest-first, reversed, is oldest-first |
| ChatStore.ReplayStrict | service/src/services/chat.ts:48-54 | with distinct timestamps the conversation replay is strictly oldest-first |
| ChatStore.TaggedHistoryStrict | service/src/services/chat.ts:40-46 | with distinct timestamps the history restricted to one conversation is strictly newest-first |
| ChatStore.WithoutChat | service/src/services/chat.ts:56-61 | the rows after the delete: exactly the rows that are not that id owned by that user |
| ChatStore.WithoutConversation | service/src/services/chat.ts:63-68 | the rows after the delete: exactly the rows that are not that user's rows of that conversation |
| ChatStore.ChatTable.DeleteChat | service/src/services/chat.ts:56-61 | the table becomes exactly those rows; the id and clock counters are unchanged |
| ChatStore.ChatTable.DeleteChatsByConversation | service/src/services/chat.ts:63-68 | the table becomes exactly those rows; the counters are unchanged |
| ChatStore.DeleteUnownedIsNoop | service/src/services/chat.ts:56-61 | deleting an id the user does not own, whether absent or another user's, changes nothing |
| ChatStore.SelectKeepsChronological | service/src/services/chat.ts:17-68 | a delete keeps ids and timestamps strictly increasing |
| ChatStore.DeleteChatAtMostOne | service/src/services/chat.ts:56-61 | with generated ids, a delete by id removes at most one row |
| ChatStore.ForeignDeleteKeepsHistory | service/src/services/chat.ts:40-61 | another user's delete never changes what the owner's history shows |
| ChatStore.DeleteConversationKeepsOthers | service/src/services/chat.ts:48-68 | deleting one conversation leaves every other user's and every other conversation's replay as it was |
| ChatStore.ChronologicalDistinct | service/src/services/chat.ts:17-38 | rows as the database creates them have distinct timestamps |
| Seqs.Select | service/src/services/chat.ts:40-54 | the `WHERE` filter keeps only matching rows, every matching row occurs in the result, and all rows are kept when all match |
| Seqs.SelectCounts | service/src/services/chat.ts:40-54 | every matching row is kept exactly as often as it is stored, and every other row is dropped |
| Seqs.AnyMatch | service/src/services/auth.ts:52-56 | `rows[0]`: some matching row, or none exactly when nothing matches |
| Seqs.SelectAbsorbs | service/src/services/chat.ts:40-61 | filtering by a weaker condition and then by a stronger one is the stronger filter alone |
| Server.ExtractToken | service/src/index.ts:51 | absent header gives no token. Otherwise the first occurrence of `Bearer `, wherever it stands, is cut out and everything before and after it is kept; a header that starts with it gives the rest, and a header without it is kept whole |
| Server.ExtractTokenFirstOccurrence | service/src/index.ts:51 | only the first `Bearer ` is removed, even when it is not at the start |
| Server.VerifyEndpoint | service/src/index.ts:113-127 | always 200 with no data. Missing or empty token: `Secret key is empty`. A token other than the configured secret: the bilingual `Secret key is invalid`. Success with `Verify successfully` exactly when the token is non-empty and equals the secret |
| Server.RegisterEndpoint | service/src/index.ts:24-33 | a clash is 400 with the service's message, and the table and id counter are unchanged; otherwise the user is inserted with the next id, the counter advances by one, and the reply is `Registration successful` with the new session (id, username, email and a token signed with `JWT_SECRET`) |
| Server.LoginEndpoint | service/src/index.ts:35-44 | 200 with `Login successful` and the session exactly when login succeeds; otherwise 401 with exactly the error `login` threw (for a body of strings, `User not found` or `Invalid password`) and no data |
| Server.CallerId | service/src/index.ts:131-133 | the id used by the history endpoints: a verified token whose user has a row gives that row's id; a verified token with no row gives the TypeError from reading `id` of `undefined`; a failed verification gives `Invalid token`. No header gives `Invalid token` |
| Server.ChatHistoryEndpoint | service/src/index.ts:129-139 | 200 with the caller's history exactly when the caller is identified; otherwise 401 with the thrown message and no data |
| Server.ConversationEndpoint | service/src/index.ts:141-151 | 200 with the caller's replay of that conversation exactly when the caller is identified; otherwise 401 with the thrown message and no data |
| Server.DeleteChatEndpoint | service/src/index.ts:153-163 | an unidentified caller gets 401 and nothing is deleted. Otherwise the caller's row with that id is deleted, and the reply is `Chat deleted successfully` whether or not anything was removed. The id and timestamp sequences never move |
| Server.HistoryEndpointsDenyUnidentified | service/src/index.ts:129-151 | both read endpoints answer 401 exactly when the caller is not identified; with no header the message is `Invalid token` |
| Server.ResolveUser | service/src/index.ts:51-52 | with no truthy token the user is `null` and no lookup happens; otherwise it is `verifyToken` of the token |
| Server.Response.SetHeader | service/src/index.ts:47 | `res.setHeader` appends exactly one header event |
| Server.Response.Write | service/src/index.ts:61 | `res.write` appends exactly one write event with the given text |
| Server.Response.End | service/src/index.ts:88 | `res.end` appends exactly one end event |
| Server.ChunkWrites | service/src/index.ts:60-64 | one write per chunk, in order; the first is bare and every later one has a newline prefix |
| Server.StreamChunks | service/src/index.ts:54-64 | the progress callback writes exactly those writes, in receipt order, and ends with the last chunk's text (`''` for none) |
| Server.ChatProcess | service/src/index.ts:46-90 | the response is exactly the `Relay` transcript. The table gains exactly the row for the saved turn, if there is one, and nothing else; the id and timestamp sequences advance by one exactly when a row is saved |
| Server.Relay | service/src/index.ts:46-90 | the specification of one `/chat-process` request: the response always opens with the content-type header and closes with `end()`, and a turn is saved only when the caller resolved, the upstream finished and the insert did not fail |
| Server.Thrown | service/src/index.ts:84-86 | when something was thrown, nothing is saved and the write just before `end()` is that error; when nothing was thrown, the caller resolved and the upstream finished |
| Server.TurnOf | service/src/index.ts:72-81 | the saved turn is the caller's, with the prompt, the system message, temperature and top-p of the request, the last chunk's text as response, and the conversation and parent ids of `options` (none when `options` is absent) |
| Server.LastTextOfAppend | service/src/index.ts:55-63 | `responseText` starts empty and each arriving chunk replaces it: after more chunks it is the latest chunk's text, and no chunks leave it as it was |
| Server.RelayTry | service/src/index.ts:49-83 | the `try` block throws exactly the error the relay says is thrown (a token failure, an upstream failure, or an insert failure for an identified caller). The chunk writes happen exactly when the caller resolved. The table gains exactly the saved turn's row, and the id and timestamp sequences advance by one exactly when it is saved |
| Server.RelayTranscript | service/src/index.ts:46-90 | the relay's response is the header, then the chunk writes if the caller resolved, then one error write if something threw, then `end()` |
| Server.BearerResolves | service/src/index.ts:51-52 | an `Authorization` header of "Bearer " followed by a freshly issued token resolves to the token's user |
| Server.IssuedTokenOpensHistory | service/src/index.ts:129-163 | a freshly issued token behind "Bearer " identifies its user, and both history reads answer 200 with that user's rows |
| Server.BodyAppend | service/src/index.ts:58-86 | the response body of two write sequences is the two bodies concatenated |
| Server.SplitAtNewline | service/src/index.ts:61 | cutting at a newline between two bodies cuts each body separately |
| Server.SplitAppendPart | service/src/index.ts:85 | a write without a newline extends the last unit |
| Server.SplitAppendNewline | service/src/index.ts:61 | a newline opens a new, empty unit |
| Server.SplitSingle | service/src/index.ts:61 | one serialized value is one unit |
| Server.StreamSplitsIntoChunks | service/src/index.ts:60-64 | for N ≥ 1 chunks, a client cutting the streamed body at newlines gets exactly N units, the i-th being chunk i |
| Server.RelayResponseShape | service/src/index.ts:46-90 | the response is, in order: the content-type header; the chunk writes (the first bare, the rest newline-prefixed) when the caller resolved; exactly one unprefixed error write when something threw; then exactly one `end()`, last. So it has that many events, and every event between the header and `end()` is a write |
| Server.RelayBodyUnits | service/src/index.ts:57-86 | for a resolved caller and at least one chunk, the units are the chunks; after a throw, the error is appended to the last unit |
| Server.RelaySavesCompletedTurn | service/src/index.ts:70-82 | a turn is saved exactly when the caller resolved to a user, the upstream finished and the insert did not fail. It is that user's turn, with the last chunk's text (not a concatenation) and the conversation and parent ids of `options` |
| Server.AnonymousRequestSavesNothing | service/src/index.ts:51-71 | whenever the header yields no truthy token (no header, an empty header, a bare `Bearer `) nothing is saved, and only an upstream failure can make the handler throw |
| Server.NoTokenHeaders | service/src/index.ts:51-52 | a missing header, an empty header and a bare `Bearer ` all yield no truthy token |
| Server.RelayBodyWithoutChunks | service/src/index.ts:57-86 | when the caller was refused or the upstream sent no chunk, the body is one unit: the error when something was thrown, and empty otherwise |
| Server.HelloExample | service/src/index.ts:46-90 | a signed-in request whose upstream streams "H", "He", "Hello" gives three units in order and saves one turn with "Hello" in conversation `c1`; in a table holding only that saved turn, the replay of `c1` is exactly that turn |
| Text.IndexOf | service/src/index.ts:51 | the first position where the pattern occurs, or none when it occurs nowhere |
| Text.ReplaceFirst | service/src/index.ts:51 | `replace` with a string pattern: when the pattern occurs at no position the string is unchanged; at the position where it occurs first (no earlier occurrence), that occurrence is replaced and everything before and after it is kept, so the length changes by the difference of pattern and replacement |
| Text.IndexFrom | service/src/index.ts:51 | the first position at or after `from` where the pattern occurs |
| UserHelper.Merge | src/store/modules/user/index.ts:9 | `{ ...base, ...patch }`: every member present in the patch wins, and every other member is kept |
| UserHelper.MergeLaws | src/store/modules/user/index.ts:9 | merging nothing changes nothing; merging twice is merging once; a complete patch replaces everything |
| UserHelper.GetToken | src/store/modules/user/helper.ts:19-21 | the string stored under `token`, or nothing |
| UserHelper.GetSetting | src/store/modules/user/helper.ts:32 | the state stored under `userStorage`, or nothing |
| UserHelper.DefaultSetting | src/store/modules/user/helper.ts:7-17 | the Guest profile with the default avatar and description: complete, with an empty token, and not authenticated |
| UserHelper.WithLocalState | src/store/modules/user/helper.ts:46-52 | after `setLocalState` the state is stored under `userStorage`, the token key holds the token exactly when it is truthy and is removed otherwise, and no other key changes |
| UserHelper.GetLocalState | src/store/modules/user/helper.ts:31-44 | `isAuthenticated` is true exactly when the stored token is truthy. The token is the stored one, or `''`. Every other member comes from the stored setting where present and from the defaults otherwise |
| UserHelper.EmptyStorageIsDefault | src/store/modules/user/helper.ts:7-44 | from empty storage, the default Guest state with token `''`, not authenticated |
| UserHelper.SetLocalStateStores | src/store/modules/user/helper.ts:46-52 | the state is stored under `userStorage`. The token key holds the state's token exactly when that token is truthy, and is removed otherwise. No other key changes |
| UserHelper.LoadAfterStore | src/store/modules/user/helper.ts:31-52 | loading after storing: the token is the stored state's token or `''`, `isAuthenticated` is its truthiness whatever the stored flag said, and the other members are the stored ones or the defaults |
| UserHelper.StoreLoadRoundTrip | src/store/modules/user/helper.ts:31-52 | a complete state whose flag agrees with its token survives a store and a load unchanged |
| UserHelper.LoadStoreLoad | src/store/modules/user/helper.ts:31-52 | storing what was loaded and loading again gives the same state |
| UserHelper.SessionStorage.SetToken | src/store/modules/user/helper.ts:23-25 | only the token key changes; afterwards the token read gives `token` |
| UserHelper.SessionStorage.ClearToken | src/store/modules/user/helper.ts:27-29 | only the token key is removed; afterwards the token read gives nothing |
| UserHelper.SessionStorage.SetLocalState | src/store/modules/user/helper.ts:46-52 | the storage becomes the `setLocalState` result |
| UserStore.Store.constructor | src/store/modules/user/index.ts:6 | the initial state is `getLocalState()` |
| UserStore.Store.RecordState | src/store/modules/user/index.ts:21-23 | the storage now holds the current state, and its token key mirrors the state's token; nothing else changes |
| UserStore.Store.UpdateUserInfo | src/store/modules/user/index.ts:8-12 | the patch's members overwrite and the others are kept. `isAuthenticated` becomes the truthiness of the patch's token, not the merged one. The result is recorded |
| UserStore.Store.ResetUserInfo | src/store/modules/user/index.ts:14-19 | the default profile, not authenticated, and no token key in storage; the result is recorded |
| UserStore.ResetThenReload | src/store/modules/user/index.ts:14-19 | reloading after a reset gives the defaults |
| UserStore.LoginUpdateAgreesWithReload | src/store/modules/user/index.ts:8-12 | an update that carries a token authenticates, and a reload agrees with the in-memory state |
| UserStore.TokenlessUpdateDisagreesWithReload | src/store/modules/user/index.ts:8-12 | a tokenless update while logged in sets `isAuthenticated` false in memory but keeps the token, so a reload says authenticated again |

## Left out

- **Express plumbing** (`service/src/index.ts:1-22,165-170`): CORS headers, static files, JSON parsing, mounting, `listen`. Request bodies are taken to be well-formed: every field the handlers destructure is present, with the type the service expects.
- **`/config` and `/session`** (`service/src/index.ts:92-111`): these report the upstream configuration. They are not part of the modelled core.
- **Middleware**: `auth` and `limiter` (`service/src/middleware/`) are not part of this model. Every request is taken to pass them.
- **`chatReplyProcess`** (`service/src/chatgpt`) is not part of this model. The upstream is the input `Upstream`, and only `id` and `text` of a chunk are modelled. The arguments passed to the upstream (prompt, options, system message, temperature, top-p) reach nothing modelled.
- **`JSON.stringify`** is opaque (`Server.Part.Stringified`). In particular, the model does not capture that a thrown `Error` instance serializes to `{}`.
- **`parseInt`**: `Server.DeleteChatEndpoint` takes the already-parsed id. A non-numeric id (NaN) is not modelled.
- **`temperature` and `top_p`** are opaque literals: no floating point.
- **Database faults** are modelled only for the `verifyToken` lookup and the `saveChat` insert. Faults in the two history queries, the deletes, the `register` queries and the `login` query are not modelled; in the code they surface as the handlers' 401 or 400 envelopes, or as a thrown login error.
- **Concurrency**: two registrations racing between the uniqueness check and the insert are not modelled. Neither are concurrent requests on the tables.
- **Database schema**: any constraints on `users` and `chat_history` are not part of this model. Distinct ids come from the table classes' id counters.
- **bcrypt and jsonwebtoken** are replaced by simple stand-ins with no cryptographic strength. A token is the decimal user id, the lifetime and the key joined by dots. It has no issued-at claim, so every token for one id and key is the same string; `Auth.RegisterThenLogin` therefore shows the login token equal to the registration token, which `jwt.sign` does not promise. The random salt is a parameter, and there is no clock: expiry is a flag.
- **Session storage** (`src/utils/storage`) is not part of this model. It is a map from keys to a string or a stored state, and a value of the other kind under `token` or `userStorage` reads as absent. Entry expiry and serialization are not modelled.
- **Pinia** reactivity, and store state beyond `userInfo` and `isAuthenticated`, are not modelled.
- Auth.Login: when several rows share a username, which one `rows[0]` picks is unspecified, so success is tied to "some row with that username" and not to a particular row. With unique usernames, success is stated exactly.
- ChatStore.GetChatHistory: rows with equal `created_at` come in no specified order. The contract states ordering and a permutation, and `ChatStore.StrictlySortedUnique` pins the result down only when timestamps are distinct.
- ChatStore.GetChatByConversation: the same holds for ties in the ascending order.
- Crypto.CompareHash: the stand-in matches only the exact password. bcrypt reads only the first 72 bytes of a password, so two passwords that agree on those bytes both match the same hash. Auth.RegisterThenLogin's "any other password gives `Invalid password`" inherits this and holds for bcrypt only for passwords of at most 72 bytes.
- UserHelper.Merge: a member is either absent (`None`) or present with a string. A patch member present with the value `undefined`, such as `updateUserInfo({ token: undefined })` (`src/store/modules/user/index.ts:9`), is not modelled. The spread copies that `undefined`, so `recordState` clears the token key; the model instead keeps the old token.
- Server.LoginEndpoint: the body's `username` and `password` are taken to be present strings (`service/src/index.ts:37`). A registered username sent without a password, or with a non-string one, makes `bcrypt.compare` (`service/src/services/auth.ts:60`) reject with its own argument error, which becomes the 401 message; the model's two messages do not cover that case.
- Server.RegisterEndpoint: the body's `username`, `password` and `email` are taken to be present strings (`service/src/index.ts:26`). A body without a string password makes `bcrypt.hash` reject with its own argument error (`service/src/services/auth.ts:33`), which becomes the 400 message; the model does not express that reply.
- Server.ChatProcess: `options: null` in the request body is not modelled (`service/src/index.ts:50`). It escapes the `= {}` default, so for an identified caller reading `options.conversationId` throws a TypeError after streaming: the error is written and nothing is saved. The model treats absent `options` like `{}`.
