/**
 * The request handlers of the API server: the streaming `/chat-process` relay, the shared-secret
 * `/verify` check, registration and login, and the three history endpoints with their
 * success / 401 envelopes. The upstream model, the database and the clock are inputs.
 */
module Server {
  import opened Wrappers
  import opened Text
  import opened Auth
  import opened ChatStore
  import Crypto

  const BearerPrefix := "Bearer "
  const ContentType := "Content-type"
  const OctetStream := "application/octet-stream"

  // ---------------------------------------------------------------- responses

  datatype Status = Success | Fail
  /** The `data` member of an envelope. */
  datatype Data = Null | SessionData(session: Session) | HistoryData(rows: seq<ChatRow>)
  /** `{ status, message, data }`, the body of every non-streaming reply. */
  datatype Envelope = Envelope(status: Status, message: string, data: Data)
  datatype Reply = Reply(code: nat, body: Envelope)

  function Failure(code: nat, e: Error): Reply {
    Reply(code, Envelope(Fail, e.message, Null))
  }

  // ---------------------------------------------------------------- the bearer token

  /** `req.header('Authorization')?.replace('Bearer ', '')`: the first "Bearer " is removed, wherever it stands. */
  function ExtractToken(header: Option<string>): (r: Option<string>)
    ensures r.None? <==> header.None?
    ensures header.Some? && OccursAt(header.value, BearerPrefix, 0) ==> r == Some(header.value[|BearerPrefix|..])
    ensures header.Some? && (forall j | 0 <= j <= |header.value| :: !OccursAt(header.value, BearerPrefix, j)) ==>
              r == header
    ensures header.Some? && IndexOf(header.value, BearerPrefix).Some? ==>
              var i := IndexOf(header.value, BearerPrefix).value;
              r == Some(header.value[..i] + header.value[i + |BearerPrefix|..]) &&
              |r.value| == |header.value| - |BearerPrefix|
  {
    match header
    case None => None
    case Some(h) =>
      var r := ReplaceFirst(h, BearerPrefix, "");
      assert OccursAt(h, BearerPrefix, 0) ==> IndexOf(h, BearerPrefix) == Some(0) && r == h[|BearerPrefix|..];
      assert IndexOf(h, BearerPrefix).Some? ==>
               var i := IndexOf(h, BearerPrefix).value; h[..i] + "" == h[..i];
      Some(r)
  }

  /** Only the first occurrence is removed, and it need not be at the start. */
  lemma ExtractTokenFirstOccurrence()
    ensures ExtractToken(Some("T" + BearerPrefix + BearerPrefix)) == Some("T" + BearerPrefix)
  {
    var h := "T" + BearerPrefix + BearerPrefix;
    assert h[0] == 'T' && h[0..7][0] == h[0];
    assert !OccursAt(h, BearerPrefix, 0);
    assert h[1..8] == BearerPrefix;
    assert OccursAt(h, BearerPrefix, 1);
    assert IndexOf(h, BearerPrefix) == Some(1);
    assert h[..1] == "T" && h[8..] == BearerPrefix;
    assert ReplaceFirst(h, BearerPrefix, "") == h[..1] + "" + h[8..];
    assert h[..1] + "" + h[8..] == "T" + BearerPrefix;
  }

  // ---------------------------------------------------------------- /verify

  const SecretEmpty := Error("Secret key is empty")
  const SecretInvalid := Error("密钥无效 | Secret key is invalid")

  /** `POST /verify` with body token `token` against `AUTH_SECRET_KEY` = `configured`. */
  function VerifyEndpoint(token: Option<string>, configured: Option<string>): (r: Reply)
    ensures r.code == 200 && r.body.data == Null
    ensures r.body.status == Success <==> Truthy(token) && configured == token
    ensures !Truthy(token) ==> r.body == Envelope(Fail, SecretEmpty.message, Null)
    ensures Truthy(token) && configured != token ==> r.body == Envelope(Fail, SecretInvalid.message, Null)
    ensures r.body.status == Success ==> r.body.message == "Verify successfully"
  {
    if !Truthy(token) then Reply(200, Envelope(Fail, SecretEmpty.message, Null))
    else if configured != token then Reply(200, Envelope(Fail, SecretInvalid.message, Null))
    else Reply(200, Envelope(Success, "Verify successfully", Null))
  }

  // ---------------------------------------------------------------- /register and /login

  /** `POST /register`: the new session, or 400 with the thrown message. */
  method RegisterEndpoint(users: UserTable, data: RegisterData, salt: string, env: Option<string>) returns (r: Reply)
    requires users.Valid()
    modifies users
    ensures users.Valid()
    ensures |Existing(old(users.rows), data.username, data.email)| > 0 ==>
              r == Failure(400, UserExists) && users.rows == old(users.rows) && users.nextId == old(users.nextId)
    ensures |Existing(old(users.rows), data.username, data.email)| == 0 ==>
              users.rows == old(users.rows) + [NewUser(old(users.nextId), data, salt)] &&
              users.nextId == old(users.nextId) + 1 &&
              r == Reply(200, Envelope(Success, "Registration successful",
                                       SessionData(Session(UserSummary(old(users.nextId), data.username, data.email),
                                                           IssueToken(old(users.nextId), JwtSecret(env))))))
  {
    var result := users.Register(data, salt, JwtSecret(env));
    match result {
      case Ok(session) => r := Reply(200, Envelope(Success, "Registration successful", SessionData(session)));
      case Err(e) => r := Failure(400, e);
    }
  }

  /** `POST /login`: the session, or 401 with the thrown message. */
  function LoginEndpoint(users: seq<UserRow>, data: LoginData, env: Option<string>): (r: Reply)
    ensures r.code in {200, 401}
    ensures r.code == 200 <==> Login(users, data, JwtSecret(env)).Ok?
    ensures r.code == 200 ==> r.body == Envelope(Success, "Login successful", SessionData(Login(users, data, JwtSecret(env)).value))
    ensures r.code == 401 ==> r == Failure(401, Login(users, data, JwtSecret(env)).error) &&
                              r.body.message in {UserNotFound.message, InvalidPassword.message}
  {
    match Login(users, data, JwtSecret(env))
    case Ok(session) => Reply(200, Envelope(Success, "Login successful", SessionData(session)))
    case Err(e) => Failure(401, e)
  }

  // ---------------------------------------------------------------- the history endpoints

  /** What `user.id` throws when `verifyToken` resolved to `undefined`. */
  const UndefinedUser := Error("Cannot read properties of undefined (reading 'id')")

  /** `const user = await verifyToken(token)` and then `user.id`: the caller's id, or what was thrown. */
  function CallerId(users: seq<UserRow>, header: Option<string>, ctx: AuthContext): (r: Result<nat>)
    ensures r.Err? ==> r.error in {InvalidToken, UndefinedUser}
    ensures header.None? ==> r == Err(InvalidToken)
    ensures r.Ok? ==> VerifyToken(users, ExtractToken(header), ctx) == Ok(FindById(users, r.value)) &&
                      FindById(users, r.value).Some? && FindById(users, r.value).value.id == r.value
    ensures VerifyToken(users, ExtractToken(header), ctx).Ok? && VerifyToken(users, ExtractToken(header), ctx).value.Some? ==>
              r == Ok(VerifyToken(users, ExtractToken(header), ctx).value.value.id)
    ensures VerifyToken(users, ExtractToken(header), ctx) == Ok(None) ==> r == Err(UndefinedUser)
    ensures VerifyToken(users, ExtractToken(header), ctx).Err? ==> r == Err(InvalidToken)
  {
    match VerifyToken(users, ExtractToken(header), ctx)
    case Err(e) => Err(e)
    case Ok(None) => Err(UndefinedUser)
    case Ok(Some(u)) => Ok(u.id)
  }

  /** `GET /chat-history`: the caller's turns, most recent first, or 401 with any error. */
  function ChatHistoryEndpoint(users: seq<UserRow>, rows: seq<ChatRow>, header: Option<string>, ctx: AuthContext): (r: Reply)
    ensures r.code in {200, 401}
    ensures r.code == 200 <==> CallerId(users, header, ctx).Ok?
    ensures r.code == 200 ==>
              r.body == Envelope(Success, "", HistoryData(GetChatHistory(rows, CallerId(users, header, ctx).value)))
    ensures r.code == 401 ==> r == Failure(401, CallerId(users, header, ctx).error)
  {
    match CallerId(users, header, ctx)
    case Err(e) => Failure(401, e)
    case Ok(id) => Reply(200, Envelope(Success, "", HistoryData(GetChatHistory(rows, id))))
  }

  /** `GET /chat-history/:conversationId`: the caller's turns of one conversation, oldest first, or 401. */
  function ConversationEndpoint(users: seq<UserRow>, rows: seq<ChatRow>, header: Option<string>, conversationId: string,
                                ctx: AuthContext): (r: Reply)
    ensures r.code in {200, 401}
    ensures r.code == 200 <==> CallerId(users, header, ctx).Ok?
    ensures r.code == 200 ==>
              r.body == Envelope(Success, "", HistoryData(GetChatByConversation(rows, CallerId(users, header, ctx).value, conversationId)))
    ensures r.code == 401 ==> r == Failure(401, CallerId(users, header, ctx).error)
  {
    match CallerId(users, header, ctx)
    case Err(e) => Failure(401, e)
    case Ok(id) => Reply(200, Envelope(Success, "", HistoryData(GetChatByConversation(rows, id, conversationId))))
  }

  /**
   * `DELETE /chat-history/:chatId` (with `chatId` already through `parseInt`): success whether or not a
   * row was removed; 401, with nothing removed, when the caller cannot be identified.
   */
  method DeleteChatEndpoint(users: seq<UserRow>, chats: ChatTable, header: Option<string>, chatId: int, ctx: AuthContext)
    returns (r: Reply)
    requires chats.Valid()
    modifies chats
    ensures chats.Valid()
    ensures CallerId(users, header, ctx).Err? ==>
              r == Failure(401, CallerId(users, header, ctx).error) && chats.rows == old(chats.rows)
    ensures CallerId(users, header, ctx).Ok? ==>
              r == Reply(200, Envelope(Success, "Chat deleted successfully", Null)) &&
              chats.rows == WithoutChat(old(chats.rows), CallerId(users, header, ctx).value, chatId)
    ensures chats.nextId == old(chats.nextId) && chats.clock == old(chats.clock)
  {
    var caller := CallerId(users, header, ctx);
    match caller {
      case Err(e) => r := Failure(401, e);
      case Ok(id) =>
        chats.DeleteChat(id, chatId);
        r := Reply(200, Envelope(Success, "Chat deleted successfully", Null));
    }
  }

  /** The history endpoints answer 401, with a Fail envelope and no data, exactly when the caller is not identified. */
  lemma HistoryEndpointsDenyUnidentified(users: seq<UserRow>, rows: seq<ChatRow>, header: Option<string>, c: string, ctx: AuthContext)
    ensures var expected := if CallerId(users, header, ctx).Ok? then 200 else 401;
            ChatHistoryEndpoint(users, rows, header, ctx).code == expected &&
            ConversationEndpoint(users, rows, header, c, ctx).code == expected
    ensures header.None? ==>
              ChatHistoryEndpoint(users, rows, header, ctx) == Failure(401, InvalidToken) &&
              ConversationEndpoint(users, rows, header, c, ctx) == Failure(401, InvalidToken)
  {
  }

  // ---------------------------------------------------------------- /chat-process

  /** `options`: which conversation the prompt continues and after which message. */
  datatype ChatOptions = ChatOptions(conversationId: Option<string>, parentMessageId: Option<string>)
  /** The request body of `/chat-process`, with its `Authorization` header. */
  datatype ChatRequest = ChatRequest(
    prompt: string, options: Option<ChatOptions>, systemMessage: Option<string>,
    temperature: Option<Float>, topP: Option<Float>, authorization: Option<string>)

  /** The destructuring default `options = {}`. */
  function OptionsOf(req: ChatRequest): ChatOptions {
    if req.options.Some? then req.options.value else ChatOptions(None, None)
  }

  /** One message state received from the upstream model; `text` is the full text so far. */
  datatype ChatMessage = ChatMessage(id: string, text: string)
  /** How the upstream completion ends: it resolves, or it rejects with an error. */
  datatype Ending = Done | Failed(error: Error)
  /** What the upstream model does: the chunks it delivers, in order, then how it ends. */
  datatype Upstream = Upstream(chunks: seq<ChatMessage>, ending: Ending)

  /** A value passed through `JSON.stringify`, which is not modelled further. */
  datatype Json = MessageJson(message: ChatMessage) | ErrorJson(error: Error)
  /** A piece of response text: a newline, or the serialization of a value. */
  datatype Part = Newline | Stringified(value: Json)
  /** What the handler does to the response, in order. */
  datatype ResEvent = Header(name: string, value: string) | Write(data: seq<Part>) | End

  /** The HTTP response of one request, as the sequence of calls made on it. */
  class Response {
    var events: seq<ResEvent>

    constructor ()
      ensures events == []
    {
      events := [];
    }

    method SetHeader(name: string, value: string)
      modifies this
      ensures events == old(events) + [Header(name, value)]
    {
      events := events + [Header(name, value)];
    }

    method Write(data: seq<Part>)
      modifies this
      ensures events == old(events) + [ResEvent.Write(data)]
    {
      events := events + [ResEvent.Write(data)];
    }

    method End()
      modifies this
      ensures events == old(events) + [ResEvent.End]
    {
      events := events + [ResEvent.End];
    }
  }

  /** The write for the chunk at position `k`: bare for the first, newline-prefixed for every later one. */
  function ChunkWrite(k: nat, chat: ChatMessage): ResEvent {
    Write((if k == 0 then [] else [Newline]) + [Stringified(MessageJson(chat))])
  }

  function ChunkWrites(chunks: seq<ChatMessage>): (r: seq<ResEvent>)
    ensures |r| == |chunks| && forall k | 0 <= k < |chunks| :: r[k] == ChunkWrite(k, chunks[k])
  {
    seq(|chunks|, k requires 0 <= k < |chunks| => ChunkWrite(k, chunks[k]))
  }

  function ErrorWrite(e: Error): ResEvent {
    Write([Stringified(ErrorJson(e))])
  }

  /** The text of the last chunk received, or "" when none was. */
  function LastText(chunks: seq<ChatMessage>): string {
    if chunks == [] then "" else chunks[|chunks| - 1].text
  }

  /** `responseText` starts as `''`, and each chunk that arrives replaces it, so only the latest counts. */
  lemma LastTextOfAppend(a: seq<ChatMessage>, b: seq<ChatMessage>)
    ensures LastText([]) == ""
    ensures b != [] ==> LastText(a + b) == LastText(b)
    ensures b == [] ==> LastText(a + b) == LastText(a)
  {
    if b == [] {
      assert a + b == a;
    } else {
      assert (a + b)[|a + b| - 1] == b[|b| - 1];
    }
  }

  /** `token ? await authService.verifyToken(token) : null`. */
  function ResolveUser(users: seq<UserRow>, header: Option<string>, ctx: AuthContext): (r: Result<Option<UserSummary>>)
    ensures !Truthy(ExtractToken(header)) ==> r == Ok(None)
    ensures Truthy(ExtractToken(header)) ==> r == VerifyToken(users, ExtractToken(header), ctx)
  {
    var token := ExtractToken(header);
    if Truthy(token) then VerifyToken(users, token, ctx) else Ok(None)
  }

  /** The `saveChat` call made for a completed, identified request. */
  function TurnOf(req: ChatRequest, user: UserSummary, chunks: seq<ChatMessage>): (o: SaveChatOptions)
    ensures o.userId == user.id && o.prompt == req.prompt && o.response == LastText(chunks)
    ensures o.conversationId == (if req.options.Some? then req.options.value.conversationId else None)
    ensures o.parentMessageId == (if req.options.Some? then req.options.value.parentMessageId else None)
    ensures o.systemMessage == req.systemMessage && o.temperature == req.temperature && o.topP == req.topP
  {
    SaveChatOptions(user.id, req.prompt, LastText(chunks), OptionsOf(req).conversationId,
                    OptionsOf(req).parentMessageId, req.systemMessage, req.temperature, req.topP)
  }

  /** What one `/chat-process` request does to its response, and the turn it saves, if any. */
  datatype Outcome = Outcome(events: seq<ResEvent>, saved: Option<SaveChatOptions>)

  /**
   * The relay: resolving the caller, streaming each chunk, saving, and the catch and finally blocks.
   * `saveFault` is the error the database raises on the insert, if it does.
   */
  function Relay(req: ChatRequest, users: seq<UserRow>, ctx: AuthContext, upstream: Upstream, saveFault: Option<Error>): (r: Outcome)
    ensures |r.events| >= 2 && r.events[0] == Header(ContentType, OctetStream) && r.events[|r.events| - 1] == End
    ensures r.saved.Some? ==> upstream.ending == Done && saveFault.None? && ResolveUser(users, req.authorization, ctx).Ok?
  {
    var start := [Header(ContentType, OctetStream)];
    match ResolveUser(users, req.authorization, ctx)
    case Err(e) => Outcome(start + [ErrorWrite(e), End], None)
    case Ok(user) =>
      var streamed := start + ChunkWrites(upstream.chunks);
      match upstream.ending
      case Failed(e) => Outcome(streamed + [ErrorWrite(e), End], None)
      case Done =>
        if user.None? then Outcome(streamed + [End], None)
        else if saveFault.Some? then Outcome(streamed + [ErrorWrite(saveFault.value), End], None)
        else Outcome(streamed + [End], Some(TurnOf(req, user.value, upstream.chunks)))
  }

  /** The rows the saved turn, if any, adds to the table. */
  function SavedRows(saved: Option<SaveChatOptions>, id: nat, createdAt: nat): seq<ChatRow> {
    if saved.Some? then [RowOf(saved.value, id, createdAt)] else []
  }

  /** The error the handler's catch block receives, if any. */
  function Thrown(req: ChatRequest, users: seq<UserRow>, ctx: AuthContext, upstream: Upstream, saveFault: Option<Error>): (r: Option<Error>)
    ensures var out := Relay(req, users, ctx, upstream, saveFault);
            r.Some? ==> out.saved.None? && |out.events| >= 3 && out.events[|out.events| - 2] == ErrorWrite(r.value)
    ensures r.None? ==> ResolveUser(users, req.authorization, ctx).Ok? && upstream.ending == Done
  {
    match ResolveUser(users, req.authorization, ctx)
    case Err(e) => Some(e)
    case Ok(user) =>
      match upstream.ending
      case Failed(e) => Some(e)
      case Done => if user.Some? && saveFault.Some? then saveFault else None
  }

  /**
   * The `onProgress` callback over the chunks the upstream delivers: each is written, the first
   * bare and every later one after a newline, and the latest text is kept as the response text.
   */
  method StreamChunks(chunks: seq<ChatMessage>, res: Response) returns (responseText: string)
    modifies res
    ensures res.events == old(res.events) + ChunkWrites(chunks)
    ensures responseText == LastText(chunks)
  {
    var firstChunk := true;
    responseText := "";
    var i := 0;
    while i < |chunks|
      invariant 0 <= i <= |chunks|
      invariant firstChunk <==> i == 0
      invariant responseText == LastText(chunks[..i])
      invariant res.events == old(res.events) + ChunkWrites(chunks[..i])
    {
      var chat := chunks[i];
      var data := if firstChunk then [Stringified(MessageJson(chat))] else [Newline, Stringified(MessageJson(chat))];
      assert ChunkWrite(i, chat) == ResEvent.Write(data);
      res.Write(data);
      firstChunk := false;
      responseText := chat.text;
      assert ChunkWrites(chunks[..i + 1]) == ChunkWrites(chunks[..i]) + [ChunkWrite(i, chat)];
      i := i + 1;
    }
    assert chunks[..i] == chunks;
  }

  /** The `/chat-process` handler: the header, then the `try` block, its `catch` and its `finally`. */
  method ChatProcess(req: ChatRequest, users: seq<UserRow>, ctx: AuthContext, upstream: Upstream,
                     saveFault: Option<Error>, chats: ChatTable, res: Response)
    requires chats.Valid()
    modifies chats, res
    ensures chats.Valid()
    ensures res.events == old(res.events) + Relay(req, users, ctx, upstream, saveFault).events
    ensures chats.rows == old(chats.rows) + SavedRows(Relay(req, users, ctx, upstream, saveFault).saved, old(chats.nextId), old(chats.clock))
    ensures var n := |SavedRows(Relay(req, users, ctx, upstream, saveFault).saved, old(chats.nextId), old(chats.clock))|;
            chats.nextId == old(chats.nextId) + n && chats.clock == old(chats.clock) + n
  {
    RelayTranscript(req, users, ctx, upstream, saveFault);
    ghost var before := res.events;
    ghost var streamed := if ResolveUser(users, req.authorization, ctx).Ok? then ChunkWrites(upstream.chunks) else [];
    res.SetHeader(ContentType, OctetStream);
    var failure := RelayTry(req, users, ctx, upstream, saveFault, chats, res);
    ghost var opening := [Header(ContentType, OctetStream)] + streamed;
    ghost var mid := res.events;
    EventsAssoc(before, [Header(ContentType, OctetStream)], streamed);
    ghost var caught := if failure.Some? then [ErrorWrite(failure.value)] else [];
    if failure.Some? {
      res.Write([Stringified(ErrorJson(failure.value))]);
    } else {
      assert mid + caught == mid;
    }
    assert res.events == mid + caught;
    ghost var written := opening + caught;
    EventsAssoc(before, opening, caught);
    res.End();
    EventsAssoc(before, written, [End]);
    assert Relay(req, users, ctx, upstream, saveFault).events == written + [End];
  }

  lemma EventsAssoc(a: seq<ResEvent>, b: seq<ResEvent>, c: seq<ResEvent>)
    ensures (a + b) + c == a + (b + c)
  {
  }

  /**
   * The `try` block of `/chat-process`: resolve the caller, stream the chunks, save the turn.
   * Returns what was thrown, if anything; nothing after the throw runs.
   */
  method RelayTry(req: ChatRequest, users: seq<UserRow>, ctx: AuthContext, upstream: Upstream,
                  saveFault: Option<Error>, chats: ChatTable, res: Response) returns (failure: Option<Error>)
    requires chats.Valid()
    modifies chats, res
    ensures chats.Valid()
    ensures failure == Thrown(req, users, ctx, upstream, saveFault)
    ensures res.events == old(res.events) +
              (if ResolveUser(users, req.authorization, ctx).Ok? then ChunkWrites(upstream.chunks) else [])
    ensures chats.rows == old(chats.rows) + SavedRows(Relay(req, users, ctx, upstream, saveFault).saved, old(chats.nextId), old(chats.clock))
    ensures var n := |SavedRows(Relay(req, users, ctx, upstream, saveFault).saved, old(chats.nextId), old(chats.clock))|;
            chats.nextId == old(chats.nextId) + n && chats.clock == old(chats.clock) + n
  {
    ghost var out := Relay(req, users, ctx, upstream, saveFault);
    failure := None;
    var options := OptionsOf(req);
    var resolved := ResolveUser(users, req.authorization, ctx);
    match resolved {
      case Err(e) =>
        failure := Some(e);
        assert out.saved.None?;
      case Ok(user) =>
        var responseText := StreamChunks(upstream.chunks, res);
        match upstream.ending {
          case Failed(e) =>
            failure := Some(e);
            assert out.saved.None?;
          case Done =>
            if user.Some? {
              if saveFault.Some? {
                failure := saveFault;
                assert out.saved.None?;
              } else {
                var turn := SaveChatOptions(user.value.id, req.prompt, responseText, options.conversationId,
                                            options.parentMessageId, req.systemMessage, req.temperature, req.topP);
                assert out.saved == Some(turn);
                var _ := chats.SaveChat(turn);
              }
            } else {
              assert out.saved.None?;
            }
        }
    }
  }

  /** The transcript of a request: header, the chunk writes when the caller resolved, the error write if any, `end()`. */
  lemma RelayTranscript(req: ChatRequest, users: seq<UserRow>, ctx: AuthContext, upstream: Upstream, saveFault: Option<Error>)
    ensures var thrown := Thrown(req, users, ctx, upstream, saveFault);
            Relay(req, users, ctx, upstream, saveFault).events ==
              [Header(ContentType, OctetStream)] +
              (if ResolveUser(users, req.authorization, ctx).Ok? then ChunkWrites(upstream.chunks) else []) +
              (if thrown.Some? then [ErrorWrite(thrown.value)] else []) + [End]
  {
  }

  // ---------------------------------------------------------------- what the relay promises

  /** The concatenated text of the writes: the response body. */
  function Body(events: seq<ResEvent>): seq<Part> {
    if events == [] then []
    else (if events[0].Write? then events[0].data else []) + Body(events[1..])
  }

  lemma {:induction false} BodyAppend(a: seq<ResEvent>, b: seq<ResEvent>)
    ensures Body(a + b) == Body(a) + Body(b)
  {
    if a != [] {
      var head := if a[0].Write? then a[0].data else [];
      assert (a + b)[0] == a[0];
      assert (a + b)[1..] == a[1..] + b;
      BodyAppend(a[1..], b);
      assert Body(a + b) == head + Body(a[1..] + b);
      assert Body(a) == head + Body(a[1..]);
    } else {
      assert a + b == b;
    }
  }

  /** How a client cuts the body into units: at every newline. */
  function Split(body: seq<Part>): (r: seq<seq<Part>>)
    ensures |r| > 0
  {
    if body == [] then [[]]
    else
      var units, last := Split(body[..|body| - 1]), body[|body| - 1];
      if last == Newline then units + [[]] else units[..|units| - 1] + [units[|units| - 1] + [last]]
  }

  /** A part other than a newline extends the last unit. */
  lemma SplitAppendPart(a: seq<Part>, p: Part)
    requires p != Newline
    ensures var s := Split(a); Split(a + [p]) == s[..|s| - 1] + [s[|s| - 1] + [p]]
  {
    assert (a + [p])[..|a|] == a;
  }

  /** A newline opens a new, empty unit. */
  lemma SplitAppendNewline(a: seq<Part>)
    ensures Split(a + [Newline]) == Split(a) + [[]]
  {
    assert (a + [Newline])[..|a|] == a;
  }

  lemma SplitSingle(p: Part)
    requires p != Newline
    ensures Split([p]) == [[p]]
  {
    SplitAppendPart([], p);
    assert [] + [p] == [p];
  }

  /** Extending the last unit of `x + y` extends the last unit of `y`. */
  lemma ExtendLastOfAppend(x: seq<seq<Part>>, y: seq<seq<Part>>, p: Part)
    requires |y| > 0
    ensures var xy := x + y;
            xy[..|xy| - 1] + [xy[|xy| - 1] + [p]] == x + (y[..|y| - 1] + [y[|y| - 1] + [p]])
  {
    var xy := x + y;
    assert xy[..|xy| - 1] == x + y[..|y| - 1];
  }

  /** A newline after the cut, when the cut already holds without it. */
  lemma {:induction false} SplitAtNewlineThenNewline(a: seq<Part>, init: seq<Part>)
    requires Split(a + [Newline] + init) == Split(a) + Split(init)
    ensures Split(a + [Newline] + init + [Newline]) == Split(a) + Split(init + [Newline])
  {
    SplitAppendNewline(a + [Newline] + init);
    SplitAppendNewline(init);
    assert Split(a) + Split(init) + [[]] == Split(a) + (Split(init) + [[]]);
  }

  /** Any other part after the cut, when the cut already holds without it. */
  lemma {:induction false} SplitAtNewlineThenPart(a: seq<Part>, init: seq<Part>, q: Part)
    requires q != Newline && Split(a + [Newline] + init) == Split(a) + Split(init)
    ensures Split(a + [Newline] + init + [q]) == Split(a) + Split(init + [q])
  {
    SplitAppendPart(a + [Newline] + init, q);
    SplitAppendPart(init, q);
    ExtendLastOfAppend(Split(a), Split(init), q);
  }

  /** Cutting at a newline between two bodies cuts each body separately. */
  lemma {:induction false} SplitAtNewline(a: seq<Part>, b: seq<Part>)
    ensures Split(a + [Newline] + b) == Split(a) + Split(b)
  {
    if b == [] {
      SplitAppendNewline(a);
      assert a + [Newline] + b == a + [Newline];
    } else {
      var init, q := b[..|b| - 1], b[|b| - 1];
      assert b == init + [q];
      assert a + [Newline] + b == a + [Newline] + init + [q];
      SplitAtNewline(a, init);
      if q == Newline {
        SplitAtNewlineThenNewline(a, init);
      } else {
        SplitAtNewlineThenPart(a, init, q);
      }
    }
  }

  /** Each chunk serialized alone: the units a client should see. */
  function Units(chunks: seq<ChatMessage>): seq<seq<Part>> {
    seq(|chunks|, k requires 0 <= k < |chunks| => [Stringified(MessageJson(chunks[k]))])
  }

  lemma ChunkWritesSnoc(init: seq<ChatMessage>, last: ChatMessage)
    requires init != []
    ensures ChunkWrites(init + [last]) == ChunkWrites(init) + [Write([Newline, Stringified(MessageJson(last))])]
  {
    var n := |init|;
    assert ChunkWrite(n, last) == Write([Newline, Stringified(MessageJson(last))]);
    assert (init + [last])[n] == last;
    forall k | 0 <= k < n ensures (init + [last])[k] == init[k] { }
  }

  lemma UnitsSnoc(init: seq<ChatMessage>, last: ChatMessage)
    ensures Units(init + [last]) == Units(init) + [[Stringified(MessageJson(last))]]
  {
    assert (init + [last])[|init|] == last;
    forall k | 0 <= k < |init| ensures (init + [last])[k] == init[k] { }
  }

  /** The body of the chunk writes, cut at newlines, gives back each chunk as its own unit. */
  lemma {:induction false} StreamSplitsIntoChunks(chunks: seq<ChatMessage>)
    requires chunks != []
    ensures Split(Body(ChunkWrites(chunks))) == Units(chunks)
  {
    var n := |chunks|;
    if n == 1 {
      var unit := [Stringified(MessageJson(chunks[0]))];
      assert ChunkWrites(chunks) == [Write([] + unit)];
      assert Body(ChunkWrites(chunks)) == unit + Body([]);
      SplitSingle(Stringified(MessageJson(chunks[0])));
    } else {
      var init, last := chunks[..n - 1], chunks[n - 1];
      var unit := [Stringified(MessageJson(last))];
      assert chunks == init + [last];
      ChunkWritesSnoc(init, last);
      BodyAppend(ChunkWrites(init), [Write([Newline] + unit)]);
      assert Body([Write([Newline] + unit)]) == [Newline] + unit + Body([]);
      assert Body(ChunkWrites(chunks)) == Body(ChunkWrites(init)) + [Newline] + unit;
      StreamSplitsIntoChunks(init);
      SplitAtNewline(Body(ChunkWrites(init)), unit);
      SplitSingle(Stringified(MessageJson(last)));
      UnitsSnoc(init, last);
    }
  }

  /**
   * The response opens with the content-type header and closes with exactly one `end()`; everything
   * between is a write: one per chunk when the caller resolved, plus one when something threw.
   */
  lemma RelayResponseShape(req: ChatRequest, users: seq<UserRow>, ctx: AuthContext, upstream: Upstream, saveFault: Option<Error>)
    ensures var t := Relay(req, users, ctx, upstream, saveFault).events;
            |t| == 2 + (if ResolveUser(users, req.authorization, ctx).Ok? then |upstream.chunks| else 0) +
                   (if Thrown(req, users, ctx, upstream, saveFault).Some? then 1 else 0) &&
            t[0] == Header(ContentType, OctetStream) && t[|t| - 1] == End &&
            (forall k | 0 < k < |t| - 1 :: t[k].Write?) &&
            t == [Header(ContentType, OctetStream)] +
                 (if ResolveUser(users, req.authorization, ctx).Ok? then ChunkWrites(upstream.chunks) else []) +
                 (match Thrown(req, users, ctx, upstream, saveFault)
                  case Some(e) => [Write([Stringified(ErrorJson(e))])]
                  case None => []) + [End]
  {
    RelayTranscript(req, users, ctx, upstream, saveFault);
  }

  /**
   * A client cutting a successful response at newlines gets every chunk back as its own unit; when
   * the upstream fails after some chunks, the unprefixed error is glued to the last chunk's unit.
   */
  lemma RelayBodyUnits(req: ChatRequest, users: seq<UserRow>, ctx: AuthContext, upstream: Upstream, saveFault: Option<Error>)
    requires ResolveUser(users, req.authorization, ctx).Ok? && upstream.chunks != []
    ensures var body := Body(Relay(req, users, ctx, upstream, saveFault).events);
            var units := Units(upstream.chunks);
            var thrown := Thrown(req, users, ctx, upstream, saveFault);
            Split(body) == if thrown.None? then units
                           else units[..|units| - 1] + [units[|units| - 1] + [Stringified(ErrorJson(thrown.value))]]
  {
    var writes := ChunkWrites(upstream.chunks);
    var thrown := Thrown(req, users, ctx, upstream, saveFault);
    RelayTranscript(req, users, ctx, upstream, saveFault);
    TranscriptBody(writes, thrown);
    StreamSplitsIntoChunks(upstream.chunks);
    var body := Body(Relay(req, users, ctx, upstream, saveFault).events);
    if thrown.Some? {
      assert body == Body(writes) + [Stringified(ErrorJson(thrown.value))];
      SplitAppendPart(Body(writes), Stringified(ErrorJson(thrown.value)));
    } else {
      assert body == Body(writes) + [];
      assert Body(writes) + [] == Body(writes);
    }
  }

  /** The body of a transcript is the body of its writes, then the error's serialization if there is one. */
  lemma TranscriptBody(writes: seq<ResEvent>, thrown: Option<Error>)
    ensures Body([Header(ContentType, OctetStream)] + writes + (if thrown.Some? then [ErrorWrite(thrown.value)] else []) + [End]) ==
            Body(writes) + (if thrown.Some? then [Stringified(ErrorJson(thrown.value))] else [])
  {
    var start := [Header(ContentType, OctetStream)];
    var err := if thrown.Some? then [ErrorWrite(thrown.value)] else [];
    BodyAppend(start, writes);
    BodyAppend(start + writes, err);
    BodyAppend(start + writes + err, [End]);
    assert Body(start) == [] + Body([]);
    assert Body([End]) == [] + Body([]);
    if thrown.Some? {
      assert Body(err) == [Stringified(ErrorJson(thrown.value))] + Body([]);
    }
  }

  /**
   * A turn is saved only when the caller resolved to a user, the upstream finished and the insert
   * did not fail; the saved turn is that user's, holds the LAST chunk's text (not a concatenation)
   * and the conversation and parent ids of `options`.
   */
  lemma RelaySavesCompletedTurn(req: ChatRequest, users: seq<UserRow>, ctx: AuthContext, upstream: Upstream, saveFault: Option<Error>)
    ensures var saved := Relay(req, users, ctx, upstream, saveFault).saved;
            (saved.Some? <==> (exists u :: ResolveUser(users, req.authorization, ctx) == Ok(Some(u))) &&
                              upstream.ending == Done && saveFault.None?) &&
            (saved.Some? ==> saved.value == TurnOf(req, ResolveUser(users, req.authorization, ctx).value.value, upstream.chunks) &&
                             saved.value.response == LastText(upstream.chunks) &&
                             saved.value.conversationId == (if req.options.Some? then req.options.value.conversationId else None) &&
                             saved.value.parentMessageId == (if req.options.Some? then req.options.value.parentMessageId else None))
  {
  }

  /** Without a usable bearer token nothing is ever saved, and the stream is never refused. */
  lemma AnonymousRequestSavesNothing(req: ChatRequest, users: seq<UserRow>, ctx: AuthContext, upstream: Upstream, saveFault: Option<Error>)
    requires !Truthy(ExtractToken(req.authorization))
    ensures Relay(req, users, ctx, upstream, saveFault).saved.None?
    ensures Thrown(req, users, ctx, upstream, saveFault) == (if upstream.ending.Failed? then Some(upstream.ending.error) else None)
  {
  }

  /** A missing header, an empty one and a bare "Bearer " all carry no token. */
  lemma NoTokenHeaders()
    ensures !Truthy(ExtractToken(None))
    ensures !Truthy(ExtractToken(Some("")))
    ensures !Truthy(ExtractToken(Some(BearerPrefix)))
  {
    assert OccursAt(BearerPrefix, BearerPrefix, 0);
  }

  /**
   * When no chunk was written (the caller was refused, or the upstream sent nothing), the body is
   * a single unit: the error, when something was thrown, and empty otherwise.
   */
  lemma RelayBodyWithoutChunks(req: ChatRequest, users: seq<UserRow>, ctx: AuthContext, upstream: Upstream, saveFault: Option<Error>)
    requires ResolveUser(users, req.authorization, ctx).Err? || upstream.chunks == []
    ensures var thrown := Thrown(req, users, ctx, upstream, saveFault);
            Split(Body(Relay(req, users, ctx, upstream, saveFault).events)) ==
              if thrown.Some? then [[Stringified(ErrorJson(thrown.value))]] else [[]]
  {
    var thrown := Thrown(req, users, ctx, upstream, saveFault);
    var writes := if ResolveUser(users, req.authorization, ctx).Ok? then ChunkWrites(upstream.chunks) else [];
    assert writes == [];
    RelayTranscript(req, users, ctx, upstream, saveFault);
    TranscriptBody(writes, thrown);
    assert Body(writes) == [];
    if thrown.Some? {
      SplitSingle(Stringified(ErrorJson(thrown.value)));
      assert Body(writes) + [Stringified(ErrorJson(thrown.value))] == [Stringified(ErrorJson(thrown.value))];
    } else {
      assert Body(writes) + [] == [];
    }
  }

  /** A freshly issued token behind the "Bearer " prefix resolves to its user. */
  lemma BearerResolves(users: seq<UserRow>, env: Option<string>, u: UserRow)
    requires DistinctIds(users) && u in users
    ensures ResolveUser(users, Some(BearerPrefix + IssueToken(u.id, JwtSecret(env))), AuthContext(env, false, false)) == Ok(Some(Summary(u)))
  {
    var header := Some(BearerPrefix + IssueToken(u.id, JwtSecret(env)));
    var token := IssueToken(u.id, JwtSecret(env));
    assert OccursAt(header.value, BearerPrefix, 0);
    assert header.value[|BearerPrefix|..] == token;
    Crypto.VerifySign(Crypto.Claims(u.id, TokenLifetime), JwtSecret(env));
    assert token != "";
    IssuedTokenVerifies(users, u, env);
  }

  /**
   * A freshly issued token behind "Bearer " identifies its user to the history endpoints, which
   * then answer 200 with that user's rows.
   */
  lemma IssuedTokenOpensHistory(users: seq<UserRow>, rows: seq<ChatRow>, env: Option<string>, u: UserRow, c: string)
    requires DistinctIds(users) && u in users
    ensures var header := Some(BearerPrefix + IssueToken(u.id, JwtSecret(env)));
            var ctx := AuthContext(env, false, false);
            CallerId(users, header, ctx) == Ok(u.id) &&
            ChatHistoryEndpoint(users, rows, header, ctx) == Reply(200, Envelope(Success, "", HistoryData(GetChatHistory(rows, u.id)))) &&
            ConversationEndpoint(users, rows, header, c, ctx) ==
              Reply(200, Envelope(Success, "", HistoryData(GetChatByConversation(rows, u.id, c))))
  {
    BearerResolves(users, env, u);
  }

  /** A single row of a conversation is that conversation's whole replay. */
  lemma SingleRowReplay(row: ChatRow, u: nat, c: string)
    requires row.userId == u && row.conversationId == Some(c)
    ensures GetChatByConversation([row], u, c) == [row]
  {
    var replay := GetChatByConversation([row], u, c);
    assert row in replay;
    assert multiset(replay) == multiset([row]);
    assert |replay| == 1;
  }

  /**
   * Cumulative chunks "H", "He", "Hello" for a signed-in user: three units in order, one turn saved
   * with "Hello", and that turn is all the conversation query returns afterwards.
   */
  lemma HelloExample(users: seq<UserRow>, env: Option<string>, u: UserRow, id: nat, createdAt: nat)
    requires DistinctIds(users) && u in users
    ensures var header := Some(BearerPrefix + IssueToken(u.id, JwtSecret(env)));
            var req := ChatRequest("hi", Some(ChatOptions(Some("c1"), None)), None, None, None, header);
            var chunks := [ChatMessage("m", "H"), ChatMessage("m", "He"), ChatMessage("m", "Hello")];
            var out := Relay(req, users, AuthContext(env, false, false), Upstream(chunks, Done), None);
            var saved := SavedRows(out.saved, id, createdAt);
            Split(Body(out.events)) == Units(chunks) &&
            out.saved == Some(SaveChatOptions(u.id, "hi", "Hello", Some("c1"), None, None, None, None)) &&
            |saved| == 1 && GetChatByConversation(saved, u.id, "c1") == saved &&
            saved[0].response == "Hello" && saved[0].conversationId == Some("c1")
  {
    var header := Some(BearerPrefix + IssueToken(u.id, JwtSecret(env)));
    var ctx := AuthContext(env, false, false);
    BearerResolves(users, env, u);
    var req := ChatRequest("hi", Some(ChatOptions(Some("c1"), None)), None, None, None, header);
    var chunks := [ChatMessage("m", "H"), ChatMessage("m", "He"), ChatMessage("m", "Hello")];
    var upstream := Upstream(chunks, Done);
    RelayBodyUnits(req, users, ctx, upstream, None);
    var turn := SaveChatOptions(u.id, "hi", "Hello", Some("c1"), None, None, None, None);
    assert LastText(chunks) == "Hello";
    assert TurnOf(req, Summary(u), chunks) == turn;
    assert Relay(req, users, ctx, upstream, None).saved == Some(turn);
    SingleRowReplay(RowOf(turn, id, createdAt), u.id, "c1");
  }
}
