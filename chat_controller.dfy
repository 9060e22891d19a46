/**
 * The tutor chat endpoints (api/v1/chat_controller.rb): `message` (one
 * answer), `message_stream` (an event stream relaying the model's text) and
 * `start` (opening a session, which costs one chat coupon).
 *
 * The before-action authentication is modelled in Authenticatable; the
 * actions themselves read the user from the `user_id` parameter. The tutor
 * system prompts (`SystemPrompts.tutor_messages`) are a parameter, and the
 * Gemini server is the oracle of GeminiClient.
 */
module ChatController {
  import opened Wrappers
  import opened Text
  import opened Json
  import opened ApplicationController
  import opened MembershipModel
  import opened UserModel
  import opened Store
  import opened GeminiClient

  const EMPTY_MESSAGES := "메시지가 비어있습니다."
  const NEED_CHAT_MEMBERSHIP := "대화 기능을 사용할 수 있는 멤버십이 필요합니다."
  const NO_COUPONS := "남은 채팅 쿠폰이 없습니다. 멤버십을 구매해주세요."
  const AI_FAILED := "AI 응답 생성 중 오류가 발생했습니다."
  const OVERLOADED := "Gemini API가 일시적으로 과부하 상태입니다. 잠시 후 다시 시도해주세요."
  const SESSION_STARTED := "채팅 세션이 시작되었습니다."
  const SESSION_ALREADY := "채팅 세션이 이미 시작되었습니다."
  const USER_MISSING := "사용자를 찾을 수 없습니다."

  /** `message` sends only the most recent turns of the conversation. */
  const RECENT_TURNS := 4

  /** The fallback answer is relayed in slices of this many characters. */
  const SLICE := 30

  /** An idempotency key is remembered for five minutes (seconds). */
  const KEY_TTL := 300

  /** `message` calls `chat` with no options. */
  const NO_OPTIONS: Json := Obj(map[])

  /** The streaming call's options: at most 400 output tokens, temperature 0.5. */
  const STREAM_OPTIONS: Json :=
    Obj(map["generationConfig" := Obj(map["maxOutputTokens" := Int(400), "temperature" := Decimal("0.5")])])

  /** The fallback call's options: at most 350 output tokens, temperature 0.5. */
  const FALLBACK_OPTIONS: Json :=
    Obj(map["generationConfig" := Obj(map["maxOutputTokens" := Int(350), "temperature" := Decimal("0.5")])])

  /** The message of the `ActiveRecord::RecordNotFound` that `User.find` raises. */
  function NotFoundText(userId: int): string {
    "Couldn't find User with 'id'=" + IntToString(userId)
  }

  /** The 500 answer of `message` when the client cannot be built or the call fails. */
  function AiFailure(details: string): Rendered {
    Rendered(INTERNAL_SERVER_ERROR, Obj(map["error" := Str(AI_FAILED), "details" := Str(details)]))
  }

  // ---------------------------------------------------------------------
  // Eligibility, shared by `message` and `message_stream`
  // ---------------------------------------------------------------------

  /**
   * The checks both chat actions make, in order: an empty message list is
   * 400, then a user without the chat feature is 403, then a user with no
   * coupon left is 403. `None` lets the request through.
   */
  function Refusal(u: User, memberships: map<int, Membership>, messages: seq<ChatMessage>, now: int): (r: Option<Rendered>)
    ensures r.None? <==> (messages != [] && UserHasFeature(MembershipOf(u, memberships), CHAT, now)
      && u.chatCoupons.Some? && u.chatCoupons.value > 0)
    ensures messages == [] ==> r == Some(RenderError(EMPTY_MESSAGES, Null, BAD_REQUEST))
    ensures messages != [] && !UserHasFeature(MembershipOf(u, memberships), CHAT, now)
      ==> r == Some(RenderError(NEED_CHAT_MEMBERSHIP, Null, FORBIDDEN))
    ensures messages != [] && UserHasFeature(MembershipOf(u, memberships), CHAT, now) && u.chatCoupons.GetOr(0) <= 0
      ==> r == Some(RenderError(NO_COUPONS, Null, FORBIDDEN))
  {
    if messages == [] then Some(RenderError(EMPTY_MESSAGES, Null, BAD_REQUEST))
    else if !UserHasFeature(MembershipOf(u, memberships), CHAT, now) then Some(RenderError(NEED_CHAT_MEMBERSHIP, Null, FORBIDDEN))
    else if u.chatCoupons.None? || u.chatCoupons.value <= 0 then Some(RenderError(NO_COUPONS, Null, FORBIDDEN))
    else None
  }

  /** A refusal is never a success, and the coupon check is what a chat member with no coupon meets. */
  lemma RefusalIsNotSuccess(u: User, memberships: map<int, Membership>, messages: seq<ChatMessage>, now: int)
    ensures Refusal(u, memberships, messages, now).Some? ==> Refusal(u, memberships, messages, now).value.status in {BAD_REQUEST, FORBIDDEN}
  {
  }

  // ---------------------------------------------------------------------
  // `message`
  // ---------------------------------------------------------------------

  /** `messages.last(4)`: the final turns, at most four of them, in order. */
  function Recent(messages: seq<ChatMessage>): (r: seq<ChatMessage>)
    ensures |r| == if |messages| < RECENT_TURNS then |messages| else RECENT_TURNS
    ensures messages == messages[..|messages| - |r|] + r
  {
    if |messages| <= RECENT_TURNS then messages else messages[|messages| - RECENT_TURNS..]
  }

  /** The retry run of `message`'s one `chat` call: prompts, then the recent turns, with default settings. */
  function MessageRun(env: ClientEnv, prompts: seq<ChatMessage>, messages: seq<ChatMessage>,
                      replies: (Payload, string, nat) -> Reply, jitter: nat -> int): RetryRun
  {
    RetryFrom(InitialModel(env), 0, 0, ChatRun(BuildPayload(prompts + Recent(messages), NO_OPTIONS), replies), jitter)
  }

  /**
   * `message`: 404 for an unknown user; the shared refusals; 500 with the
   * error as details when the client cannot be built or the call fails;
   * otherwise 200 with the answer and the balance, which `message` leaves
   * as it was.
   */
  function MessageReply(users: map<int, User>, memberships: map<int, Membership>, userId: int,
                        messages: Option<seq<ChatMessage>>, now: int, env: ClientEnv, prompts: seq<ChatMessage>,
                        replies: (Payload, string, nat) -> Reply, jitter: nat -> int): (r: Rendered)
    ensures userId !in users ==> r == RenderNotFound(NotFoundText(userId))
    ensures userId in users && Refusal(users[userId], memberships, messages.GetOr([]), now).Some?
      ==> r == Refusal(users[userId], memberships, messages.GetOr([]), now).value
    ensures userId in users && Refusal(users[userId], memberships, messages.GetOr([]), now).None? && KeyMissing(env)
      ==> r == AiFailure(MISSING_KEY)
    ensures r.status == OK <==> (userId in users && Refusal(users[userId], memberships, messages.GetOr([]), now).None?
      && !KeyMissing(env) && MessageRun(env, prompts, messages.GetOr([]), replies, jitter).outcome.Succeeded?)
    ensures r.status == OK ==> r.body == Obj(map[
      "response" := Str(MessageRun(env, prompts, messages.GetOr([]), replies, jitter).outcome.value),
      "remaining_chat_coupons" := Int(users[userId].chatCoupons.value)])
    ensures userId in users && Refusal(users[userId], memberships, messages.GetOr([]), now).None? && !KeyMissing(env)
      && MessageRun(env, prompts, messages.GetOr([]), replies, jitter).outcome.Failed?
      ==> r == AiFailure(CHAT_FAILURE_PREFIX + MessageRun(env, prompts, messages.GetOr([]), replies, jitter).outcome.message)
  {
    if userId !in users then RenderNotFound(NotFoundText(userId))
    else
      var u := users[userId];
      var ms := messages.GetOr([]);
      match Refusal(u, memberships, ms, now)
      case Some(refused) => refused
      case None =>
        if KeyMissing(env) then AiFailure(MISSING_KEY)
        else match Finish(MessageRun(env, prompts, ms, replies, jitter), CHAT_FAILURE_PREFIX)
          case Returned(text) =>
            Rendered(OK, Obj(map["response" := Str(text), "remaining_chat_coupons" := Int(u.chatCoupons.value)]))
          case Threw(message) => AiFailure(message)
  }

  /**
   * The request `message` sends: the prompts, then at most the last four
   * turns (the latest turn last), with the default generation settings.
   */
  lemma MessageSendsRecentTurns(prompts: seq<ChatMessage>, messages: seq<ChatMessage>)
    requires messages != []
    ensures var p := BuildPayload(prompts + Recent(messages), NO_OPTIONS);
      |p.contents| == |prompts| + (if |messages| < RECENT_TURNS then |messages| else RECENT_TURNS)
      && (forall k :: 0 <= k < |prompts| ==> p.contents[k].parts == [Part(prompts[k].content)])
      && p.contents[|p.contents| - 1].parts == [Part(messages[|messages| - 1].content)]
      && p.generationConfig == DEFAULT_CONFIG
  {
    var r := Recent(messages);
    var full := prompts + r;
    var p := BuildPayload(full, NO_OPTIONS);
    assert full[|full| - 1] == r[|r| - 1];
    assert r[|r| - 1] == messages[|messages| - 1] by {
      assert messages == messages[..|messages| - |r|] + r;
    }
    assert p.contents[|full| - 1].parts == [Part(full[|full| - 1].content)];
    forall k | 0 <= k < |prompts|
      ensures p.contents[k].parts == [Part(prompts[k].content)]
    {
      assert full[k] == prompts[k];
    }
    NonHashOptionsIgnored(full, NO_OPTIONS);
  }

  /** `message` on the tables: it reads them and changes nothing. */
  method Message(db: Db, userId: int, messages: Option<seq<ChatMessage>>, now: int, env: ClientEnv,
                 prompts: seq<ChatMessage>, replies: (Payload, string, nat) -> Reply, jitter: nat -> int)
    returns (r: Rendered)
    ensures r == MessageReply(db.users, db.memberships, userId, messages, now, env, prompts, replies, jitter)
  {
    if userId !in db.users {
      return RenderNotFound(NotFoundText(userId));
    }
    var user := db.users[userId];
    var ms := messages.GetOr([]);
    var refusal := Refusal(user, db.memberships, ms, now);
    if refusal.Some? {
      return refusal.value;
    }
    var client := NewClient(env);
    if client.None? {
      return AiFailure(MISSING_KEY);
    }
    var result, run := client.value.Chat(prompts + Recent(ms), NO_OPTIONS, replies, jitter);
    match result
    case Returned(text) =>
      r := Rendered(OK, Obj(map["response" := Str(text), "remaining_chat_coupons" := Int(user.chatCoupons.value)]));
    case Threw(message) =>
      r := AiFailure(message);
  }

  // ---------------------------------------------------------------------
  // `message_stream`
  // ---------------------------------------------------------------------

  /** The server-sent events the stream writes, each as one `data:` frame. */
  datatype Event =
    | Start
    | Chunk(content: string)
    | Done(remaining: int)
    | Failure(error: string, details: string)

  /** The JSON object an event's frame carries: its `type` and, by type, its content, balance or error. */
  function EventData(e: Event): Json {
    match e
    case Start => Obj(map["type" := Str("start")])
    case Chunk(c) => Obj(map["type" := Str("chunk"), "content" := Str(c)])
    case Done(n) => Obj(map["type" := Str("done"), "remaining_chat_coupons" := Int(n)])
    case Failure(error, details) => Obj(map["type" := Str("error"), "error" := Str(error), "details" := Str(details)])
  }

  /** The frame written for an event: "data: ", the JSON text (`encode` stands for `to_json`), a blank line. */
  function Frame(e: Event, encode: Json -> string): string {
    "data: " + encode(EventData(e)) + "\n\n"
  }

  /** The frames of an event log, in order: the body of the response. */
  function Frames(events: seq<Event>, encode: Json -> string): string {
    if events == [] then [] else Frame(events[0], encode) + Frames(events[1..], encode)
  }

  function Chunks(parts: seq<string>): (events: seq<Event>)
    ensures |events| == |parts| && forall k :: 0 <= k < |parts| ==> events[k] == Chunk(parts[k])
  {
    seq(|parts|, k requires 0 <= k < |parts| => Chunk(parts[k]))
  }

  /** The text a client reassembles from the chunk events, in order. */
  function ChunkText(events: seq<Event>): string {
    if events == [] then [] else (if events[0].Chunk? then events[0].content else []) + ChunkText(events[1..])
  }

  lemma {:induction false} ChunkTextAppend(a: seq<Event>, b: seq<Event>)
    ensures ChunkText(a + b) == ChunkText(a) + ChunkText(b)
  {
    if a == [] {
      assert a + b == b;
    } else {
      ChunkTextAppend(a[1..], b);
      assert (a + b)[1..] == a[1..] + b;
    }
  }

  /** Relaying parts as chunk events hands the client their concatenation. */
  lemma {:induction false} ChunkTextOfChunks(parts: seq<string>)
    ensures ChunkText(Chunks(parts)) == Concat(parts)
  {
    if parts != [] {
      ChunkTextOfChunks(parts[1..]);
      assert Chunks(parts)[1..] == Chunks(parts[1..]);
    }
  }

  /** `chars.each_slice(size)` with each slice joined back into a string. */
  function Slices(text: string, size: nat): (parts: seq<string>)
    requires size > 0
    decreases |text|
  {
    if text == [] then []
    else if |text| <= size then [text]
    else [text[..size]] + Slices(text[size..], size)
  }

  /** The slices put back together are the text. */
  lemma {:induction false} SlicesRebuild(text: string, size: nat)
    requires size > 0
    ensures Concat(Slices(text, size)) == text
    decreases |text|
  {
    if text == [] {
    } else if |text| <= size {
      assert Concat([text]) == text + Concat([]);
    } else {
      SlicesRebuild(text[size..], size);
      var parts := Slices(text, size);
      assert parts[1..] == Slices(text[size..], size);
      assert text == text[..size] + text[size..];
    }
  }

  /** Every slice is non-empty and at most `size` long, and all but the last are exactly `size` long. */
  lemma {:induction false} SlicesSized(text: string, size: nat)
    requires size > 0
    ensures (Slices(text, size) == []) <==> (text == [])
    ensures forall k :: 0 <= k < |Slices(text, size)| ==>
      0 < |Slices(text, size)[k]| <= size && (k + 1 < |Slices(text, size)| ==> |Slices(text, size)[k]| == size)
    decreases |text|
  {
    if |text| > size {
      SlicesSized(text[size..], size);
      var parts := Slices(text, size);
      assert parts[1..] == Slices(text[size..], size);
      forall k | 1 <= k < |parts|
        ensures 0 < |parts[k]| <= size && (k + 1 < |parts| ==> |parts[k]| == size)
      {
        assert parts[k] == parts[1..][k - 1];
      }
    }
  }

  /** The retry run of the streaming call: prompts and every turn, with the streaming options. */
  function StreamRunOf(env: ClientEnv, full: seq<ChatMessage>, responses: (Payload, string, nat) -> StreamResponse,
                       parse: string -> Option<Json>, jitter: nat -> int): RetryRun
  {
    RetryFrom(InitialModel(env), 0, 0, StreamRun(BuildPayload(full, STREAM_OPTIONS), responses, parse), jitter)
  }

  /** The retry run of the fallback call, made by the same client and so on the model the stream left it on. */
  function FallbackRunOf(model: string, full: seq<ChatMessage>, replies: (Payload, string, nat) -> Reply, jitter: nat -> int): RetryRun {
    RetryFrom(model, 0, 0, ChatRun(BuildPayload(full, FALLBACK_OPTIONS), replies), jitter)
  }

  /**
   * The events of an admitted request whose client was built, given the
   * streaming run `s` and the fallback run `f` (consulted only when `s`
   * failed): "start"; a chunk for every text the streaming call delivered;
   * then "done" with the balance if the stream succeeded; if it failed, the
   * fallback answer in 30-character chunks and "done", or, when the
   * fallback fails too, the overload error and then the general error,
   * both carrying the fallback's failure, and no "done".
   */
  function RelayEvents(s: RetryRun, f: RetryRun, balance: int): (events: seq<Event>)
    ensures |events| >= 2 && events[0] == Start
  {
    var head := [Start] + Chunks(s.emitted);
    if s.outcome.Succeeded? then head + [Done(balance)]
    else if f.outcome.Succeeded? then head + Chunks(Slices(f.outcome.value, SLICE)) + [Done(balance)]
    else head + [Failure(OVERLOADED, CHAT_FAILURE_PREFIX + f.outcome.message), Failure(AI_FAILED, CHAT_FAILURE_PREFIX + f.outcome.message)]
  }

  /**
   * The events of an admitted `message_stream` request. Without an API key
   * the client cannot be built and the only event is the general error;
   * otherwise the relay of the streaming run and of the fallback run on
   * the model the streaming run ended on.
   */
  function StreamEvents(env: ClientEnv, full: seq<ChatMessage>, balance: int,
                        responses: (Payload, string, nat) -> StreamResponse, parse: string -> Option<Json>,
                        replies: (Payload, string, nat) -> Reply, jitter: nat -> int): (events: seq<Event>)
    ensures KeyMissing(env) ==> events == [Failure(AI_FAILED, MISSING_KEY)]
    ensures !KeyMissing(env) ==> events == RelayEvents(StreamRunOf(env, full, responses, parse, jitter),
      FallbackRunOf(StreamRunOf(env, full, responses, parse, jitter).model, full, replies, jitter), balance)
  {
    if KeyMissing(env) then [Failure(AI_FAILED, MISSING_KEY)]
    else
      var s := StreamRunOf(env, full, responses, parse, jitter);
      RelayEvents(s, FallbackRunOf(s.model, full, replies, jitter), balance)
  }

  /** A stream that succeeds relays every delta it delivered, then "done", with no error event. */
  lemma RelaySucceeds(s: RetryRun, f: RetryRun, balance: int)
    requires s.outcome.Succeeded?
    ensures var events := RelayEvents(s, f, balance);
      events[|events| - 1] == Done(balance)
      && ChunkText(events) == Concat(s.emitted)
      && forall k :: 0 <= k < |events| ==> !events[k].Failure?
  {
    var head := [Start] + Chunks(s.emitted);
    assert RelayEvents(s, f, balance) == head + [Done(balance)];
    ChunkTextAppend(head, [Done(balance)]);
    ChunkTextAppend([Start], Chunks(s.emitted));
    ChunkTextOfChunks(s.emitted);
  }

  /**
   * When the stream fails and the fallback answers, the client receives the
   * deltas already relayed followed by the whole fallback answer, sliced
   * into non-empty chunks of at most 30 characters, then "done".
   */
  lemma RelayFallsBack(s: RetryRun, f: RetryRun, balance: int)
    requires s.outcome.Failed? && f.outcome.Succeeded?
    ensures var events := RelayEvents(s, f, balance);
      events[|events| - 1] == Done(balance)
      && ChunkText(events) == Concat(s.emitted) + f.outcome.value
      && (forall k :: 0 <= k < |events| ==> !events[k].Failure?)
      && (forall k :: 1 + |s.emitted| <= k < |events| - 1 ==> events[k].Chunk? && 0 < |events[k].content| <= SLICE)
  {
    var events := RelayEvents(s, f, balance);
    var head := [Start] + Chunks(s.emitted);
    var parts := Slices(f.outcome.value, SLICE);
    var tail := Chunks(parts);
    assert events == head + tail + [Done(balance)];
    ChunkTextAppend(head + tail, [Done(balance)]);
    ChunkTextAppend(head, tail);
    ChunkTextAppend([Start], Chunks(s.emitted));
    ChunkTextOfChunks(s.emitted);
    ChunkTextOfChunks(parts);
    SlicesRebuild(f.outcome.value, SLICE);
    SlicesSized(f.outcome.value, SLICE);
    forall k | 1 + |s.emitted| <= k < |events| - 1
      ensures events[k].Chunk? && 0 < |events[k].content| <= SLICE
    {
      assert events[k] == tail[k - |head|] == Chunk(parts[k - |head|]);
    }
  }

  /**
   * When the fallback fails as well, the stream ends with the overload
   * error and then the general error, both carrying the fallback's
   * failure, and no "done" is sent.
   */
  lemma RelayFailsTwice(s: RetryRun, f: RetryRun, balance: int)
    requires s.outcome.Failed? && f.outcome.Failed?
    ensures var details := CHAT_FAILURE_PREFIX + f.outcome.message;
      var events := RelayEvents(s, f, balance);
      events[|events| - 2..] == [Failure(OVERLOADED, details), Failure(AI_FAILED, details)]
      && ChunkText(events) == Concat(s.emitted)
      && forall k :: 0 <= k < |events| ==> !events[k].Done?
  {
    var details := CHAT_FAILURE_PREFIX + f.outcome.message;
    var events := RelayEvents(s, f, balance);
    var head := [Start] + Chunks(s.emitted);
    var tail := [Failure(OVERLOADED, details), Failure(AI_FAILED, details)];
    assert events == head + tail;
    ChunkTextAppend(head, tail);
    ChunkTextAppend([Start], Chunks(s.emitted));
    ChunkTextOfChunks(s.emitted);
    assert ChunkText(tail) == [] by {
      assert tail[1..] == [Failure(AI_FAILED, details)];
      assert tail[1..][1..] == [];
    }
  }

  /**
   * With the default model, which is already the lite model, neither call
   * can fall back, so a streamed request costs at most three streaming
   * attempts and three fallback attempts.
   */
  lemma DefaultModelBoundsAttempts(env: ClientEnv, full: seq<ChatMessage>,
                                   responses: (Payload, string, nat) -> StreamResponse, parse: string -> Option<Json>,
                                   replies: (Payload, string, nat) -> Reply, jitter: nat -> int)
    requires env.model.None?
    ensures StreamRunOf(env, full, responses, parse, jitter).calls <= MAX_ATTEMPTS
    ensures FallbackRunOf(StreamRunOf(env, full, responses, parse, jitter).model, full, replies, jitter).calls <= MAX_ATTEMPTS
  {
    var payload := BuildPayload(full, STREAM_OPTIONS);
    DefaultModelNeverFallsBack(StreamRun(payload, responses, parse), jitter);
    DefaultModelNeverFallsBack(ChatRun(BuildPayload(full, FALLBACK_OPTIONS), replies), jitter);
  }

  /** The request of the streaming call: the prompts and every turn, with at most 400 output tokens. */
  lemma StreamSendsAllTurns(prompts: seq<ChatMessage>, messages: seq<ChatMessage>)
    ensures var p := BuildPayload(prompts + messages, STREAM_OPTIONS);
      |p.contents| == |prompts| + |messages|
      && (forall k :: 0 <= k < |messages| ==> p.contents[|prompts| + k].parts == [Part(messages[k].content)])
      && p.generationConfig["maxOutputTokens"] == Int(400)
  {
    var full := prompts + messages;
    forall k | 0 <= k < |messages|
      ensures BuildPayload(full, STREAM_OPTIONS).contents[|prompts| + k].parts == [Part(messages[k].content)]
    {
      assert full[|prompts| + k] == messages[k];
    }
    StreamOptionsMerge(full);
  }

  /** The response stream: the events written so far, and whether it was closed. */
  class EventStream {
    var events: seq<Event>
    var closed: bool

    constructor()
      ensures events == [] && !closed
    {
      events := [];
      closed := false;
    }

    /** One `data:` frame. */
    method Write(e: Event)
      requires !closed
      modifies this
      ensures events == old(events) + [e] && !closed
    {
      events := events + [e];
    }

    /** One chunk frame per part, in order. */
    method WriteChunks(parts: seq<string>)
      requires !closed
      modifies this
      ensures events == old(events) + Chunks(parts) && !closed
    {
      var k := 0;
      while k < |parts|
        invariant 0 <= k <= |parts|
        invariant events == old(events) + Chunks(parts[..k]) && !closed
      {
        Write(Chunk(parts[k]));
        assert Chunks(parts[..k + 1]) == Chunks(parts[..k]) + [Chunk(parts[k])];
        k := k + 1;
      }
      assert parts[..|parts|] == parts;
    }

    method Close()
      modifies this
      ensures closed && events == old(events)
    {
      closed := true;
    }
  }

  /** What `message_stream` answers: a plain refusal, or an event stream. */
  datatype StreamReply = Refused(response: Rendered) | Streamed(events: seq<Event>)

  /**
   * `message_stream`: 404 for an unknown user and the shared refusals are
   * plain responses; an admitted request streams the events of
   * `StreamEvents` over the prompts and all the turns, with the balance as
   * it was.
   */
  function MessageStreamReply(users: map<int, User>, memberships: map<int, Membership>, userId: int,
                              messages: Option<seq<ChatMessage>>, now: int, env: ClientEnv, prompts: seq<ChatMessage>,
                              responses: (Payload, string, nat) -> StreamResponse, parse: string -> Option<Json>,
                              replies: (Payload, string, nat) -> Reply, jitter: nat -> int): (r: StreamReply)
    ensures userId !in users ==> r == Refused(RenderNotFound(NotFoundText(userId)))
    ensures userId in users ==> (r.Refused? <==> Refusal(users[userId], memberships, messages.GetOr([]), now).Some?)
    ensures userId in users && r.Refused? ==> r.response == Refusal(users[userId], memberships, messages.GetOr([]), now).value
    ensures r.Streamed? ==> (messages.Some? && userId in users && users[userId].chatCoupons.Some?
      && r.events == StreamEvents(env, prompts + messages.value, users[userId].chatCoupons.value, responses, parse, replies, jitter))
  {
    if userId !in users then Refused(RenderNotFound(NotFoundText(userId)))
    else
      var u := users[userId];
      match Refusal(u, memberships, messages.GetOr([]), now)
      case Some(refused) => Refused(refused)
      case None => Streamed(StreamEvents(env, prompts + messages.value, u.chatCoupons.value, responses, parse, replies, jitter))
  }

  /**
   * `message_stream` on the tables and a fresh response stream: a refusal
   * leaves the stream untouched, an admitted request writes its events and
   * closes the stream whatever happened. The tables are only read.
   */
  method MessageStream(db: Db, out: EventStream, userId: int, messages: Option<seq<ChatMessage>>, now: int,
                       env: ClientEnv, prompts: seq<ChatMessage>,
                       responses: (Payload, string, nat) -> StreamResponse, parse: string -> Option<Json>,
                       replies: (Payload, string, nat) -> Reply, jitter: nat -> int)
    returns (r: Option<Rendered>)
    requires out.events == [] && !out.closed
    modifies out
    ensures r.Some? ==> out.events == [] && !out.closed
    ensures MessageStreamReply(db.users, db.memberships, userId, messages, now, env, prompts, responses, parse, replies, jitter)
      == (if r.Some? then Refused(r.value) else Streamed(out.events))
    ensures r.None? ==> out.closed
  {
    if userId !in db.users {
      return Some(RenderNotFound(NotFoundText(userId)));
    }
    var user := db.users[userId];
    var ms := messages.GetOr([]);
    var refusal := Refusal(user, db.memberships, ms, now);
    if refusal.Some? {
      return refusal;
    }
    r := None;
    var client := NewClient(env);
    if client.None? {
      out.Write(Failure(AI_FAILED, MISSING_KEY));
      out.Close();
      return;
    }
    var full := prompts + ms;
    ghost var s, f := Relay(client.value, out, full, user.chatCoupons.value, responses, parse, replies, jitter);
    assert s == StreamRunOf(env, full, responses, parse, jitter);
  }

  /**
   * The body of `message_stream` once the client exists: "start", the
   * streaming call relaying each delta, the fallback call if the stream
   * failed, then "done" or the two errors, and the stream closed.
   */
  method Relay(gemini: Client, out: EventStream, full: seq<ChatMessage>, balance: int,
               responses: (Payload, string, nat) -> StreamResponse, parse: string -> Option<Json>,
               replies: (Payload, string, nat) -> Reply, jitter: nat -> int)
    returns (ghost s: RetryRun, ghost f: RetryRun)
    requires !out.closed
    modifies gemini, out
    ensures s == RetryFrom(old(gemini.model), 0, 0, StreamRun(BuildPayload(full, STREAM_OPTIONS), responses, parse), jitter)
    ensures f == FallbackRunOf(s.model, full, replies, jitter)
    ensures out.events == old(out.events) + RelayEvents(s, f, balance) && out.closed
  {
    ghost var before := out.events;
    out.Write(Start);
    var delivered, streamed, run := gemini.ChatStream(full, STREAM_OPTIONS, responses, parse, jitter);
    s := run;
    f := FallbackRunOf(s.model, full, replies, jitter);
    out.WriteChunks(delivered);
    ghost var head := [Start] + Chunks(s.emitted);
    SeqAssoc(before, [Start], Chunks(s.emitted));
    if streamed.Returned? {
      out.Write(Done(balance));
      out.Close();
      RelayUnfold(s, f, balance);
      SeqAssoc(before, head, [Done(balance)]);
      return;
    }
    var fallback, fallbackRun := gemini.Chat(full, FALLBACK_OPTIONS, replies, jitter);
    assert fallbackRun == f;
    RelayUnfold(s, f, balance);
    if fallback.Threw? {
      out.Write(Failure(OVERLOADED, fallback.message));
      out.Write(Failure(AI_FAILED, fallback.message));
      out.Close();
      SeqAssoc(before, head, [Failure(OVERLOADED, fallback.message), Failure(AI_FAILED, fallback.message)]);
      return;
    }
    ghost var sliced := Chunks(Slices(fallback.value, SLICE));
    out.WriteChunks(Slices(fallback.value, SLICE));
    out.Write(Done(balance));
    out.Close();
    SeqAssoc(before, head, sliced);
    SeqAssoc(before, head + sliced, [Done(balance)]);
  }

  /** `RelayEvents` case by case. */
  lemma RelayUnfold(s: RetryRun, f: RetryRun, balance: int)
    ensures s.outcome.Succeeded? ==> RelayEvents(s, f, balance) == [Start] + Chunks(s.emitted) + [Done(balance)]
    ensures s.outcome.Failed? && f.outcome.Succeeded?
      ==> RelayEvents(s, f, balance) == [Start] + Chunks(s.emitted) + Chunks(Slices(f.outcome.value, SLICE)) + [Done(balance)]
    ensures s.outcome.Failed? && f.outcome.Failed?
      ==> RelayEvents(s, f, balance) == [Start] + Chunks(s.emitted) + [Failure(OVERLOADED, CHAT_FAILURE_PREFIX + f.outcome.message),
                                                                      Failure(AI_FAILED, CHAT_FAILURE_PREFIX + f.outcome.message)]
  {
  }

  // ---------------------------------------------------------------------
  // `start`
  // ---------------------------------------------------------------------

  /**
   * `Rails.cache` as `start` uses it: each entry's expiry time. A store
   * that does not retain entries (a null store) accepts writes and forgets
   * them.
   */
  class Cache {
    var entries: map<string, int>
    const retains: bool

    constructor(retains0: bool)
      ensures entries == map[] && retains == retains0
    {
      entries := map[];
      retains := retains0;
    }

    /** `read`: a hit while the entry's five minutes have not run out. */
    method Read(key: string, now: int) returns (hit: bool)
      ensures hit <==> Hit(entries, key, now)
    {
      hit := key in entries && now < entries[key];
    }

    /** `write(key, true, expires_in: ttl)`. */
    method Write(key: string, now: int, ttl: int)
      modifies this
      ensures entries == Written(old(entries), retains, key, now + ttl)
    {
      if retains {
        entries := entries[key := now + ttl];
      }
    }
  }

  predicate Hit(entries: map<string, int>, key: string, now: int) {
    key in entries && now < entries[key]
  }

  function Written(entries: map<string, int>, retains: bool, key: string, expiry: int): map<string, int> {
    if retains then entries[key := expiry] else entries
  }

  /** `params[:idempotency_key].presence`: a blank key counts as none. */
  function Presence(key: Option<string>): (k: Option<string>)
    ensures k.Some? <==> key.Some? && !IsBlank(key.value)
    ensures k.Some? ==> k == key
  {
    if key.Some? && !IsBlank(key.value) then key else None
  }

  /** The cache key of a session start: "chat_start:<user id>:<key>". */
  function CacheKey(userId: int, key: string): string {
    "chat_start:" + IntToString(userId) + ":" + key
  }

  /** `decrement!(:chat_coupons)`, which saves without validations. */
  function Charged(u: User): (v: User)
    requires u.chatCoupons.Some?
    ensures v.chatCoupons == Some(u.chatCoupons.value - 1)
    ensures v.(chatCoupons := u.chatCoupons) == u
  {
    u.(chatCoupons := Some(u.chatCoupons.value - 1))
  }

  function Started(message: string, u: User): Rendered
    requires u.chatCoupons.Some?
  {
    Rendered(OK, Obj(map["message" := Str(message), "remaining_chat_coupons" := Int(u.chatCoupons.value)]))
  }

  datatype StartResult = StartResult(response: Rendered, users: map<int, User>, entries: map<string, int>)

  /**
   * The admitted part of `start`, for a user with a coupon: with a key the
   * cache still remembers, "already started" and nothing changes;
   * otherwise one coupon is charged and, with a key, the key is remembered
   * for five minutes.
   */
  function Admit(users: map<int, User>, userId: int, entries: map<string, int>, retains: bool, key: Option<string>, now: int): (r: StartResult)
    requires userId in users && users[userId].chatCoupons.Some?
    ensures Presence(key).Some? && Hit(entries, CacheKey(users[userId].id, key.value), now)
      ==> r == StartResult(Started(SESSION_ALREADY, users[userId]), users, entries)
    ensures !(Presence(key).Some? && Hit(entries, CacheKey(users[userId].id, key.value), now))
      ==> (r.users == users[userId := Charged(users[userId])]
        && r.response == Started(SESSION_STARTED, Charged(users[userId]))
        && r.entries == (if Presence(key).Some? then Written(entries, retains, CacheKey(users[userId].id, key.value), now + KEY_TTL) else entries))
  {
    var u := users[userId];
    match Presence(key)
    case Some(k) =>
      var ck := CacheKey(u.id, k);
      if Hit(entries, ck, now) then StartResult(Started(SESSION_ALREADY, u), users, entries)
      else StartResult(Started(SESSION_STARTED, Charged(u)), users[userId := Charged(u)], Written(entries, retains, ck, now + KEY_TTL))
    case None => StartResult(Started(SESSION_STARTED, Charged(u)), users[userId := Charged(u)], entries)
  }

  /**
   * `start`: 404 for an unknown user; 403 without the chat feature; 403
   * with no coupon left, before any idempotency lookup; otherwise `Admit`.
   */
  function StartOf(users: map<int, User>, memberships: map<int, Membership>, entries: map<string, int>, retains: bool,
                   userId: int, key: Option<string>, now: int): (r: StartResult)
    ensures userId !in users ==> r == StartResult(RenderError(USER_MISSING, Null, NOT_FOUND), users, entries)
    ensures userId in users && !UserHasFeature(MembershipOf(users[userId], memberships), CHAT, now)
      ==> r == StartResult(RenderError(NEED_CHAT_MEMBERSHIP, Null, FORBIDDEN), users, entries)
    ensures userId in users && UserHasFeature(MembershipOf(users[userId], memberships), CHAT, now) && users[userId].chatCoupons.GetOr(0) <= 0
      ==> r == StartResult(RenderError(NO_COUPONS, Null, FORBIDDEN), users, entries)
    ensures Eligible(users, memberships, userId, now) ==> r == Admit(users, userId, entries, retains, key, now)
  {
    if userId !in users then StartResult(RenderError(USER_MISSING, Null, NOT_FOUND), users, entries)
    else if !UserHasFeature(MembershipOf(users[userId], memberships), CHAT, now) then
      StartResult(RenderError(NEED_CHAT_MEMBERSHIP, Null, FORBIDDEN), users, entries)
    else if users[userId].chatCoupons.None? || users[userId].chatCoupons.value <= 0 then
      StartResult(RenderError(NO_COUPONS, Null, FORBIDDEN), users, entries)
    else Admit(users, userId, entries, retains, key, now)
  }

  /** The user exists, has the chat feature and has a coupon left. */
  predicate Eligible(users: map<int, User>, memberships: map<int, Membership>, userId: int, now: int) {
    userId in users && UserHasFeature(MembershipOf(users[userId], memberships), CHAT, now)
      && users[userId].chatCoupons.Some? && users[userId].chatCoupons.value > 0
  }

  /** `start` succeeds exactly for an eligible user. */
  lemma StartSucceedsIffEligible(users: map<int, User>, memberships: map<int, Membership>, entries: map<string, int>, retains: bool,
                                 userId: int, key: Option<string>, now: int)
    ensures StartOf(users, memberships, entries, retains, userId, key, now).response.status == OK
      <==> Eligible(users, memberships, userId, now)
  {
    if Eligible(users, memberships, userId, now) {
      var u := users[userId];
      if Presence(key).Some? && Hit(entries, CacheKey(u.id, key.value), now) {
        assert Admit(users, userId, entries, retains, key, now).response == Started(SESSION_ALREADY, u);
      } else {
        assert Admit(users, userId, entries, retains, key, now).response == Started(SESSION_STARTED, Charged(u));
      }
    }
  }

  /**
   * `start` changes at most the caller's balance, by exactly one coupon
   * taken from a positive balance, so no balance is driven below zero.
   */
  lemma StartChargesAtMostOne(users: map<int, User>, memberships: map<int, Membership>, entries: map<string, int>, retains: bool,
                              userId: int, key: Option<string>, now: int)
    ensures var r := StartOf(users, memberships, entries, retains, userId, key, now);
      r.users.Keys == users.Keys
      && (forall uid :: uid in users ==> (r.users[uid] == users[uid]
            || (uid == userId && users[uid].chatCoupons.Some? && users[uid].chatCoupons.value > 0 && r.users[uid] == Charged(users[uid]))))
      && (forall uid :: uid in users && users[uid].chatCoupons.GetOr(0) >= 0 ==> r.users[uid].chatCoupons.GetOr(0) >= 0)
  {
    var r := StartOf(users, memberships, entries, retains, userId, key, now);
    if Eligible(users, memberships, userId, now) {
      var u := users[userId];
      if Presence(key).Some? && Hit(entries, CacheKey(u.id, key.value), now) {
        assert r.users == users;
      } else {
        assert r.users == users[userId := Charged(u)];
      }
    } else {
      assert r.users == users;
    }
  }

  /** `start` keeps the table invariants: only a balance changes. */
  lemma StartKeepsConsistent(users: map<int, User>, memberships: map<int, Membership>, entries: map<string, int>, retains: bool,
                             userId: int, key: Option<string>, now: int)
    requires Consistent(users, memberships)
    ensures Consistent(StartOf(users, memberships, entries, retains, userId, key, now).users, memberships)
  {
    StartChargesAtMostOne(users, memberships, entries, retains, userId, key, now);
    if userId in users && users[userId].chatCoupons.Some? {
      UpdateKeepsConsistent(users, memberships, Charged(users[userId]));
    }
  }

  /**
   * With a cache that keeps entries, repeating a keyed start within five
   * minutes charges nothing more: it answers "already started" while a
   * coupon is left, and 403 once the first start used the last one.
   */
  lemma RepeatedKeyChargesOnce(users: map<int, User>, memberships: map<int, Membership>, entries: map<string, int>,
                               userId: int, key: Option<string>, t1: int, t2: int)
    requires Presence(key).Some? && Eligible(users, memberships, userId, t1)
    requires !Hit(entries, CacheKey(users[userId].id, key.value), t1)
    requires t1 <= t2 < t1 + KEY_TTL
    requires UserHasFeature(MembershipOf(users[userId], memberships), CHAT, t2)
    ensures var first := StartOf(users, memberships, entries, true, userId, key, t1);
      var second := StartOf(first.users, memberships, first.entries, true, userId, key, t2);
      first.users[userId] == Charged(users[userId])
      && second.users == first.users && second.entries == first.entries
      && (users[userId].chatCoupons.value > 1 ==> second.response == Started(SESSION_ALREADY, first.users[userId]))
      && (users[userId].chatCoupons.value == 1 ==> second.response == RenderError(NO_COUPONS, Null, FORBIDDEN))
  {
    var u := users[userId];
    var ck := CacheKey(u.id, key.value);
    var first := StartOf(users, memberships, entries, true, userId, key, t1);
    assert first == Admit(users, userId, entries, true, key, t1);
    assert first.users == users[userId := Charged(u)];
    assert first.entries == entries[ck := t1 + KEY_TTL];
    var v := first.users[userId];
    assert v.id == u.id && MembershipOf(v, memberships) == MembershipOf(u, memberships);
    assert Hit(first.entries, ck, t2);
    if u.chatCoupons.value > 1 {
      assert Eligible(first.users, memberships, userId, t2);
    }
  }

  /** Once the five minutes have passed, the same key charges again. */
  lemma ExpiredKeyChargesAgain(users: map<int, User>, memberships: map<int, Membership>, entries: map<string, int>,
                               userId: int, key: Option<string>, t1: int, t2: int)
    requires Presence(key).Some? && Eligible(users, memberships, userId, t1)
    requires !Hit(entries, CacheKey(users[userId].id, key.value), t1)
    requires t2 >= t1 + KEY_TTL
    requires UserHasFeature(MembershipOf(users[userId], memberships), CHAT, t2)
    requires users[userId].chatCoupons.value > 1
    ensures var first := StartOf(users, memberships, entries, true, userId, key, t1);
      var second := StartOf(first.users, memberships, first.entries, true, userId, key, t2);
      second.users[userId].chatCoupons == Some(users[userId].chatCoupons.value - 2)
      && second.response == Started(SESSION_STARTED, second.users[userId])
  {
    var u := users[userId];
    var ck := CacheKey(u.id, key.value);
    var first := StartOf(users, memberships, entries, true, userId, key, t1);
    assert first == Admit(users, userId, entries, true, key, t1);
    assert first.users == users[userId := Charged(u)];
    assert first.entries == entries[ck := t1 + KEY_TTL];
    var v := first.users[userId];
    assert v.id == u.id && MembershipOf(v, memberships) == MembershipOf(u, memberships);
    assert !Hit(first.entries, ck, t2);
    assert Eligible(first.users, memberships, userId, t2);
    var second := StartOf(first.users, memberships, first.entries, true, userId, key, t2);
    assert second == Admit(first.users, userId, first.entries, true, key, t2);
    assert second.users == first.users[userId := Charged(v)];
  }

  /**
   * With a cache that keeps nothing, the key protects nothing: a user with
   * two coupons who starts twice with the same key is charged twice, and
   * both answers say the session started, with 1 and then 0 remaining.
   */
  lemma NullCacheChargesTwice(users: map<int, User>, memberships: map<int, Membership>, entries: map<string, int>,
                              userId: int, key: Option<string>, t1: int, t2: int)
    requires Presence(key).Some? && userId in users && users[userId].chatCoupons == Some(2)
    requires !Hit(entries, CacheKey(users[userId].id, key.value), t1) && !Hit(entries, CacheKey(users[userId].id, key.value), t2)
    requires UserHasFeature(MembershipOf(users[userId], memberships), CHAT, t1)
    requires UserHasFeature(MembershipOf(users[userId], memberships), CHAT, t2)
    ensures var first := StartOf(users, memberships, entries, false, userId, key, t1);
      var second := StartOf(first.users, memberships, first.entries, false, userId, key, t2);
      first.response == Rendered(OK, Obj(map["message" := Str(SESSION_STARTED), "remaining_chat_coupons" := Int(1)]))
      && second.response == Rendered(OK, Obj(map["message" := Str(SESSION_STARTED), "remaining_chat_coupons" := Int(0)]))
      && second.users[userId].chatCoupons == Some(0)
  {
    var u := users[userId];
    var ck := CacheKey(u.id, key.value);
    assert Eligible(users, memberships, userId, t1);
    var first := StartOf(users, memberships, entries, false, userId, key, t1);
    assert first == Admit(users, userId, entries, false, key, t1);
    assert first.users == users[userId := Charged(u)] && first.entries == entries;
    var v := first.users[userId];
    assert v.id == u.id && MembershipOf(v, memberships) == MembershipOf(u, memberships);
    assert Eligible(first.users, memberships, userId, t2);
    var second := StartOf(first.users, memberships, first.entries, false, userId, key, t2);
    assert second == Admit(first.users, userId, first.entries, false, key, t2);
  }

  /** `start` on the tables and the cache. */
  method StartSession(db: Db, cache: Cache, userId: int, key: Option<string>, now: int) returns (r: Rendered)
    requires db.Valid()
    modifies db, cache
    ensures db.Valid() && db.memberships == old(db.memberships)
    ensures StartResult(r, db.users, cache.entries) == StartOf(old(db.users), db.memberships, old(cache.entries), cache.retains, userId, key, now)
  {
    if userId !in db.users {
      return RenderError(USER_MISSING, Null, NOT_FOUND);
    }
    var user := db.users[userId];
    if !UserHasFeature(MembershipOf(user, db.memberships), CHAT, now) {
      return RenderError(NEED_CHAT_MEMBERSHIP, Null, FORBIDDEN);
    }
    if user.chatCoupons.None? || user.chatCoupons.value <= 0 {
      return RenderError(NO_COUPONS, Null, FORBIDDEN);
    }
    var idempotencyKey := Presence(key);
    if idempotencyKey.Some? {
      var cacheKey := CacheKey(user.id, idempotencyKey.value);
      var processed := cache.Read(cacheKey, now);
      if processed {
        return Started(SESSION_ALREADY, user);
      }
      UpdateKeepsConsistent(db.users, db.memberships, Charged(user));
      db.users := db.users[userId := Charged(user)];
      cache.Write(cacheKey, now, KEY_TTL);
    } else {
      UpdateKeepsConsistent(db.users, db.memberships, Charged(user));
      db.users := db.users[userId := Charged(user)];
    }
    r := Started(SESSION_STARTED, db.users[userId]);
  }
}
