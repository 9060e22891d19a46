/**
 * The chat page (pages/ChatPage.tsx): the abuse guards in front of every
 * send, the list of messages the stream callbacks update, and the start
 * of a chat session when the page is entered.
 *
 * The clock, the random suffix of a key and the outcome of the server
 * calls are parameters. Recording, speech recognition, timers and
 * navigation are not modelled beyond the state they leave behind.
 */
module ChatPage {
  import opened Wrappers
  import opened Text

  const COOLDOWN_MS := 3000
  const WINDOW_MS := 60000
  const MAX_REQUESTS := 10
  const MIN_RECORDING_MS := 500
  const MAX_LENGTH := 1000

  const TOO_MANY := "요청이 너무 많습니다. 1분 후에 다시 시도해주세요."
  const TOO_SHORT := "너무 짧은 녹음입니다. 최소 0.5초 이상 녹음해주세요."
  const BLANK_TYPED := "메시지를 입력해주세요."
  const BLANK_VOICE := "음성이 인식되지 않았습니다. 다시 시도해주세요."
  const TOO_LONG := "메시지가 너무 깁니다. 간결하게 말씀해주세요."
  const NO_USER := "사용자 정보를 찾을 수 없습니다."
  const REPLY_FAILED := "죄송합니다. 응답 생성 중 오류가 발생했습니다. 다시 시도해주세요."
  const LOAD_FAILED := "사용자 정보를 불러올 수 없습니다."
  const START_FAILED := "채팅 세션을 시작할 수 없습니다."

  datatype Role = User | Assistant

  /** A message on the page. */
  datatype Message = Message(id: string, role: Role, content: string)

  /** A message as sent to the server, without its id. */
  datatype ApiMessage = ApiMessage(role: Role, content: string)

  // ---------------------------------------------------------------------
  // The guards of `handleFinalizeAnswer`
  // ---------------------------------------------------------------------

  /** `Math.ceil(ms / 1000)` for a positive number of milliseconds. */
  function CeilSeconds(ms: int): (s: int)
    requires ms > 0
    ensures s >= 1 && (s - 1) * 1000 < ms <= s * 1000
  {
    (ms + 999) / 1000
  }

  /** `!forcedContent`: no text was passed, or the empty text. */
  predicate Voice(forced: Option<string>) {
    forced.None? || forced.value == []
  }

  /** The text to send: the passed text when there is one (even empty), else the transcript. */
  function RawContent(forced: Option<string>, transcript: string): string {
    if forced.Some? then forced.value else transcript
  }

  /** Why a send was refused, or the trimmed text it sends. */
  datatype Verdict =
    | TooSoon(seconds: int)
    | TooMany
    | TooShort
    | Blank(typed: bool)
    | TooLong
    | NoUser
    | Accepted(content: string)

  predicate WithinWindow(now: int, last: int) {
    last > now - WINDOW_MS
  }

  predicate ShortRecording(now: int, forced: Option<string>, recordingStart: int) {
    Voice(forced) && recordingStart > 0 && now - recordingStart < MIN_RECORDING_MS
  }

  /**
   * The guards in order: the 3-second cooldown, at most 10 sends a
   * minute, voice recordings of at least half a second, a non-blank
   * trimmed text of at most 1000 characters, and a stored user.
   */
  function Screen(now: int, last: int, count: int, forced: Option<string>, recordingStart: int, transcript: string, userKnown: bool): (v: Verdict)
    ensures v.TooSoon? <==> now - last < COOLDOWN_MS
    ensures v.TooSoon? ==> v.seconds >= 1 && (v.seconds - 1) * 1000 < COOLDOWN_MS - (now - last) <= v.seconds * 1000
    ensures v == TooMany <==> (now - last >= COOLDOWN_MS && WithinWindow(now, last) && count + 1 > MAX_REQUESTS)
    ensures v == TooShort ==> Voice(forced)
    ensures v.Blank? ==> Trim(RawContent(forced, transcript)) == [] && v.typed == !Voice(forced)
    ensures v.Accepted? <==>
      (now - last >= COOLDOWN_MS && !(WithinWindow(now, last) && count + 1 > MAX_REQUESTS)
       && !ShortRecording(now, forced, recordingStart)
       && 0 < |Trim(RawContent(forced, transcript))| <= MAX_LENGTH && userKnown)
    ensures v.Accepted? ==> v.content == Trim(RawContent(forced, transcript))
  {
    if now - last < COOLDOWN_MS then TooSoon(CeilSeconds(COOLDOWN_MS - (now - last)))
    else if WithinWindow(now, last) && count + 1 > MAX_REQUESTS then TooMany
    else if ShortRecording(now, forced, recordingStart) then TooShort
    else
      var content := Trim(RawContent(forced, transcript));
      if content == [] then Blank(!Voice(forced))
      else if |content| > MAX_LENGTH then TooLong
      else if !userKnown then NoUser
      else Accepted(content)
  }

  /** The error a refused send shows. */
  function Refusal(v: Verdict): string
    requires !v.Accepted?
  {
    match v
    case TooSoon(s) => "너무 빠른 요청입니다. " + IntToString(s) + "초 후에 다시 시도해주세요."
    case TooMany => TOO_MANY
    case TooShort => TOO_SHORT
    case Blank(typed) => if typed then BLANK_TYPED else BLANK_VOICE
    case TooLong => TOO_LONG
    case NoUser => NO_USER
  }

  /** With a clock that does not run backwards, the wait reported is one to three seconds. */
  lemma CooldownWaitBounded(now: int, last: int, count: int, forced: Option<string>, recordingStart: int, transcript: string, userKnown: bool)
    requires last <= now < last + COOLDOWN_MS
    ensures Screen(now, last, count, forced, recordingStart, transcript, userKnown).TooSoon?
    ensures 1 <= Screen(now, last, count, forced, recordingStart, transcript, userKnown).seconds <= 3
  {
    var s := Screen(now, last, count, forced, recordingStart, transcript, userKnown).seconds;
    assert (s - 1) * 1000 < 3000;
  }

  /** Typed text is never refused as a short recording, whenever recording started. */
  lemma TypedTextNotTimed(now: int, last: int, count: int, text: string, recordingStart: int, transcript: string, userKnown: bool)
    requires text != []
    ensures Screen(now, last, count, Some(text), recordingStart, transcript, userKnown) != TooShort
  {
  }

  /** The request counter after the cooldown passed: one more within a minute of the last send, else 1. */
  function NextCount(now: int, last: int, count: int): int {
    if WithinWindow(now, last) then count + 1 else 1
  }

  /** The counter after a send: unchanged only when the cooldown refused it. */
  function CountAfter(v: Verdict, now: int, last: int, count: int): int {
    if v.TooSoon? then count else NextCount(now, last, count)
  }

  /** The guards before the recording is stopped all passed. */
  predicate PastRecordingGuard(v: Verdict) {
    !(v.TooSoon? || v == TooMany || v == TooShort)
  }

  // ---------------------------------------------------------------------
  // The message list and the stream callbacks
  // ---------------------------------------------------------------------

  /** The messages without their ids, as sent to the server. */
  function ToApi(messages: seq<Message>): (r: seq<ApiMessage>)
    ensures |r| == |messages|
    ensures forall i :: 0 <= i < |r| ==> r[i] == ApiMessage(messages[i].role, messages[i].content)
  {
    seq(|messages|, i requires 0 <= i < |messages| => ApiMessage(messages[i].role, messages[i].content))
  }

  /** `onChunk`'s update: the chunk appended to every message with the id, nothing else changed. */
  function AppendTo(messages: seq<Message>, id: string, chunk: string): (r: seq<Message>)
    ensures |r| == |messages|
    ensures forall i :: 0 <= i < |r| ==>
      r[i] == (if messages[i].id == id then messages[i].(content := messages[i].content + chunk) else messages[i])
  {
    seq(|messages|, i requires 0 <= i < |messages| =>
      if messages[i].id == id then messages[i].(content := messages[i].content + chunk) else messages[i])
  }

  /** `onError`'s update: a message with the id that is still empty gets the apology; nothing else changes. */
  function ApologizeIn(messages: seq<Message>, id: string): (r: seq<Message>)
    ensures |r| == |messages|
    ensures forall i :: 0 <= i < |r| ==>
      r[i] == (if messages[i].id == id && messages[i].content == [] then messages[i].(content := REPLY_FAILED) else messages[i])
  {
    seq(|messages|, i requires 0 <= i < |messages| =>
      if messages[i].id == id && messages[i].content == [] then messages[i].(content := REPLY_FAILED) else messages[i])
  }

  /** The list after the chunks arrived one by one. */
  function AfterChunks(messages: seq<Message>, id: string, chunks: seq<string>): (r: seq<Message>)
    ensures |r| == |messages|
    decreases |chunks|
  {
    if chunks == [] then messages else AfterChunks(AppendTo(messages, id, chunks[0]), id, chunks[1..])
  }

  /**
   * The reply message ends up holding the chunks in the order they came,
   * after what it held; every other message is untouched.
   */
  lemma {:induction false} ChunksAccumulate(messages: seq<Message>, id: string, chunks: seq<string>)
    ensures forall i :: 0 <= i < |messages| ==>
      (AfterChunks(messages, id, chunks)[i] ==
        (if messages[i].id == id then messages[i].(content := messages[i].content + Concat(chunks)) else messages[i]))
    decreases |chunks|
  {
    if chunks == [] {
      forall i | 0 <= i < |messages|
        ensures messages[i] == messages[i].(content := messages[i].content + Concat(chunks))
      {
        assert messages[i].content + [] == messages[i].content;
      }
    } else {
      var next := AppendTo(messages, id, chunks[0]);
      ChunksAccumulate(next, id, chunks[1..]);
      forall i | 0 <= i < |messages| && messages[i].id == id
        ensures AfterChunks(messages, id, chunks)[i] == messages[i].(content := messages[i].content + Concat(chunks))
      {
        assert next[i].content == messages[i].content + chunks[0];
        assert (messages[i].content + chunks[0]) + Concat(chunks[1..]) == messages[i].content + (chunks[0] + Concat(chunks[1..]));
      }
    }
  }

  /**
   * An error after some text arrived leaves the partial reply in place;
   * an error before any text replaces the empty reply with the apology.
   */
  lemma ErrorKeepsPartialReply(messages: seq<Message>, id: string, chunks: seq<string>, i: nat)
    requires i < |messages| && messages[i].id == id && messages[i].content == []
    ensures Concat(chunks) != [] ==> ApologizeIn(AfterChunks(messages, id, chunks), id)[i].content == Concat(chunks)
    ensures Concat(chunks) == [] ==> ApologizeIn(AfterChunks(messages, id, chunks), id)[i].content == REPLY_FAILED
  {
    ChunksAccumulate(messages, id, chunks);
    assert AfterChunks(messages, id, chunks)[i].content == [] + Concat(chunks);
  }

  // ---------------------------------------------------------------------
  // `init`: starting the chat session once per tab
  // ---------------------------------------------------------------------

  function IdemKeyName(userId: int): string {
    "chatIdemKey:" + IntToString(userId)
  }

  function FlagName(userId: int): string {
    "chatSessionStarted:" + IntToString(userId)
  }

  /** `sessionStorage.getItem(name)` is truthy: stored and not empty. */
  predicate Stored(storage: map<string, string>, name: string) {
    name in storage && storage[name] != []
  }

  /** The key kept in the tab's storage, created from the id, a random suffix and the clock when missing. */
  function KeyFor(storage: map<string, string>, userId: int, random: string, nowMs: int): (key: string)
    ensures key != []
    ensures Stored(storage, IdemKeyName(userId)) ==> key == storage[IdemKeyName(userId)]
  {
    if Stored(storage, IdemKeyName(userId)) then storage[IdemKeyName(userId)]
    else IntToString(userId) + "-" + random + "-" + IntToString(nowMs)
  }

  /** The two storage names differ, so setting or removing the flag never touches the key. */
  lemma NamesDiffer(userId: int)
    ensures IdemKeyName(userId) != FlagName(userId)
  {
    assert IdemKeyName(userId)[4] == "chatIdemKey:"[4] == 'I';
    assert FlagName(userId)[4] == "chatSessionStarted:"[4] == 'S';
  }

  /**
   * What entering leaves in the tab's storage and whether the start was
   * requested: the key always stored; with the flag already set, no
   * request; otherwise a request with the key, after which the flag stays
   * set on success and is gone on failure.
   */
  ghost predicate Entered(storage: map<string, string>, id: int, key: string, start: StartCall, entry: Entry, sent: Option<string>, after: map<string, string>) {
    IdemKeyName(id) in after && after[IdemKeyName(id)] == key
    && (Stored(storage, FlagName(id)) ==> sent.None? && entry == Ready && after == storage[IdemKeyName(id) := key])
    && (!Stored(storage, FlagName(id)) ==> sent == Some(key))
    && (!Stored(storage, FlagName(id)) && start.StartOk? ==>
          entry == Ready && after == storage[IdemKeyName(id) := key][FlagName(id) := "1"])
    && (!Stored(storage, FlagName(id)) && start.StartFailed? ==>
          entry == StartRefused && after == storage[IdemKeyName(id) := key] - {FlagName(id)})
  }

  /** How the server answered `startChatSession`: the remaining coupons, or the message thrown. */
  datatype StartCall = StartOk(remaining: int) | StartFailed(message: string)

  /** Where `init` left the page. */
  datatype Entry = AlreadyEntered | ToLogin | LoadFailed | LoadThrew | StartRefused | Ready

  /**
   * How the lookup of the latest user record ended: the id the server
   * returned, an answer that was not ok, or an exception (the request
   * failed, or the body was not JSON) with its message, empty when it has none.
   */
  datatype UserLookup = UserFound(id: int) | UserNotOk | LookupThrew(message: string)

  const GREETING_ID := "greeting-1"

  /**
   * The state of one mounted page: React state and refs, and the tab's
   * `sessionStorage`.
   */
  class Page {
    var messages: seq<Message>
    var error: string
    var loading: bool
    var remainingCoupons: Option<int>
    var lastMessageTime: int
    var requestCount: int
    var recordingStartTime: int
    var isRecording: bool
    var transcript: string
    var isAiThinking: bool
    var sessionStarted: bool
    var storage: map<string, string>

    /** A page mounted in a tab whose storage holds `storage`. */
    constructor(storage0: map<string, string>)
      ensures messages == [] && error == [] && loading && remainingCoupons.None?
      ensures lastMessageTime == 0 && requestCount == 0 && recordingStartTime == 0 && !isRecording
      ensures transcript == [] && !isAiThinking && !sessionStarted && storage == storage0
    {
      messages := [];
      error := [];
      loading := true;
      remainingCoupons := None;
      lastMessageTime := 0;
      requestCount := 0;
      recordingStartTime := 0;
      isRecording := false;
      transcript := [];
      isAiThinking := false;
      sessionStarted := false;
      storage := storage0;
    }

    /**
     * `init`. `storedUser` is the id of the user kept by the login (none,
     * or 0, sends the page to the login); `latestUser` how looking it up
     * ended: an answer that is not ok shows an error and leaves the page
     * loading, an exception shows its message (or the default one) and
     * stops loading. `sent` is the key the start was requested with, if it
     * was requested.
     */
    method Init(storedUser: Option<int>, latestUser: UserLookup, random: string, nowMs: int, start: StartCall)
      returns (entry: Entry, sent: Option<string>)
      modifies this
      ensures old(sessionStarted) ==> entry == AlreadyEntered && sent.None? && storage == old(storage)
      ensures !old(sessionStarted) && (storedUser.None? || storedUser.value == 0) ==>
        (entry == ToLogin && sent.None? && storage == old(storage))
      ensures !old(sessionStarted) && storedUser.Some? && storedUser.value != 0 && latestUser.UserNotOk? ==>
        (entry == LoadFailed && error == LOAD_FAILED && sent.None? && storage == old(storage) && loading == old(loading))
      ensures !old(sessionStarted) && storedUser.Some? && storedUser.value != 0 && latestUser.LookupThrew? ==>
        (entry == LoadThrew && error == (if latestUser.message == [] then START_FAILED else latestUser.message)
         && !loading && sent.None? && storage == old(storage))
      ensures !old(sessionStarted) && storedUser.Some? && storedUser.value != 0 && latestUser.UserFound? ==>
        Entered(old(storage), latestUser.id, KeyFor(old(storage), latestUser.id, random, nowMs), start, entry, sent, storage)
      ensures entry == Ready ==> sessionStarted && !loading && messages == [Message(GREETING_ID, Assistant, GREETING)]
      ensures entry == Ready ==> start.StartOk? ==> sent.Some? ==> remainingCoupons == Some(start.remaining)
      ensures entry == StartRefused ==> !loading && error == (if start.message == [] then START_FAILED else start.message)
      ensures entry != Ready ==> sessionStarted == old(sessionStarted)
    {
      sent := None;
      if sessionStarted {
        entry := AlreadyEntered;
        return;
      }
      if storedUser.None? || storedUser.value == 0 {
        entry := ToLogin;
        return;
      }
      match latestUser
      case UserNotOk =>
        error := LOAD_FAILED;
        entry := LoadFailed;
      case LookupThrew(message) =>
        error := if message == [] then START_FAILED else message;
        loading := false;
        entry := LoadThrew;
      case UserFound(id) =>
        entry, sent := Enter(id, random, nowMs, start);
    }

    /**
     * `init` once the user is known: the idempotency key is taken from the
     * tab's storage or created and stored first; the start is requested
     * only when the tab's flag is not set, the flag being set before the
     * request and removed again if it fails.
     */
    method Enter(id: int, random: string, nowMs: int, start: StartCall) returns (entry: Entry, sent: Option<string>)
      modifies this
      ensures Entered(old(storage), id, KeyFor(old(storage), id, random, nowMs), start, entry, sent, storage)
      ensures entry == Ready ==> sessionStarted && !loading && messages == [Message(GREETING_ID, Assistant, GREETING)]
      ensures entry == Ready && sent.Some? ==> start.StartOk? && remainingCoupons == Some(start.remaining)
      ensures entry == StartRefused ==> !loading && error == (if start.message == [] then START_FAILED else start.message)
      ensures entry != Ready ==> sessionStarted == old(sessionStarted)
    {
      var key := KeyFor(storage, id, random, nowMs);
      storage := storage[IdemKeyName(id) := key];
      NamesDiffer(id);
      sent := None;
      if !Stored(storage, FlagName(id)) {
        storage := storage[FlagName(id) := "1"];
        sent := Some(key);
        match start
        case StartOk(remaining) =>
          remainingCoupons := Some(remaining);
        case StartFailed(message) =>
          storage := storage - {FlagName(id)};
          error := if message == [] then START_FAILED else message;
          loading := false;
          entry := StartRefused;
          return;
      }
      sessionStarted := true;
      messages := [Message(GREETING_ID, Assistant, GREETING)];
      loading := false;
      entry := Ready;
    }

    /**
     * `handleFinalizeAnswer`. The counter moves once the cooldown passed,
     * even when a later guard refuses; a recording is stopped once the
     * length guard passed. An accepted send records the time, clears the
     * transcript, appends the user message and an empty reply, and returns
     * the request: the earlier messages and the new one, without ids.
     */
    method FinalizeAnswer(now: int, forced: Option<string>, userKnown: bool, userStamp: int, aiStamp: int)
      returns (request: Option<seq<ApiMessage>>)
      modifies this
      ensures var v := Screen(now, old(lastMessageTime), old(requestCount), forced, old(recordingStartTime), old(transcript), userKnown);
        requestCount == CountAfter(v, now, old(lastMessageTime), old(requestCount))
        && (PastRecordingGuard(v) && old(isRecording) ==> !isRecording && recordingStartTime == 0)
        && (!(PastRecordingGuard(v) && old(isRecording)) ==>
              isRecording == old(isRecording) && recordingStartTime == old(recordingStartTime))
        && (v.Accepted? ==>
              var user := Message("u-" + IntToString(userStamp), User, v.content);
              messages == old(messages) + [user, Message("a-" + IntToString(aiStamp), Assistant, [])]
              && request == Some(ToApi(old(messages) + [user]))
              && lastMessageTime == now && transcript == [] && isAiThinking && error == old(error))
        && (!v.Accepted? ==>
              messages == old(messages) && request.None? && lastMessageTime == old(lastMessageTime)
              && transcript == old(transcript) && isAiThinking == old(isAiThinking) && error == Refusal(v))
      ensures loading == old(loading) && remainingCoupons == old(remainingCoupons)
      ensures sessionStarted == old(sessionStarted) && storage == old(storage)
    {
      var v := Screen(now, lastMessageTime, requestCount, forced, recordingStartTime, transcript, userKnown);
      Guard(v, now);
      if v.Accepted? {
        request := Send(v.content, now, userStamp, aiStamp);
      } else {
        error := Refusal(v);
        request := None;
      }
    }

    /** The state the guards leave: the counter, and the recording stopped past the length guard. */
    method Guard(v: Verdict, now: int)
      modifies this
      ensures requestCount == CountAfter(v, now, old(lastMessageTime), old(requestCount))
      ensures PastRecordingGuard(v) && old(isRecording) ==> !isRecording && recordingStartTime == 0
      ensures !(PastRecordingGuard(v) && old(isRecording)) ==>
        (isRecording == old(isRecording) && recordingStartTime == old(recordingStartTime))
      ensures messages == old(messages) && error == old(error) && lastMessageTime == old(lastMessageTime)
      ensures transcript == old(transcript) && isAiThinking == old(isAiThinking) && loading == old(loading)
      ensures remainingCoupons == old(remainingCoupons) && sessionStarted == old(sessionStarted) && storage == old(storage)
    {
      if !v.TooSoon? {
        requestCount := NextCount(now, lastMessageTime, requestCount);
      }
      if PastRecordingGuard(v) && isRecording {
        isRecording := false;
        recordingStartTime := 0;
      }
    }

    /** An accepted send: the user message and an empty reply appended, the request built before the reply. */
    method Send(content: string, now: int, userStamp: int, aiStamp: int) returns (request: Option<seq<ApiMessage>>)
      modifies this
      ensures var user := Message("u-" + IntToString(userStamp), User, content);
        messages == old(messages) + [user, Message("a-" + IntToString(aiStamp), Assistant, [])]
        && request == Some(ToApi(old(messages) + [user]))
      ensures lastMessageTime == now && transcript == [] && isAiThinking
      ensures error == old(error) && requestCount == old(requestCount) && isRecording == old(isRecording)
      ensures recordingStartTime == old(recordingStartTime) && loading == old(loading)
      ensures remainingCoupons == old(remainingCoupons) && sessionStarted == old(sessionStarted) && storage == old(storage)
    {
      var user := Message("u-" + IntToString(userStamp), User, content);
      var before := messages;
      messages := messages + [user];
      transcript := [];
      lastMessageTime := now;
      request := Some(ToApi(before + [user]));
      isAiThinking := true;
      messages := messages + [Message("a-" + IntToString(aiStamp), Assistant, [])];
    }

    /** `onChunk`: the wait ends and the chunk is appended to the reply with the id. */
    method OnChunk(aiId: string, chunk: string)
      modifies this
      ensures messages == AppendTo(old(messages), aiId, chunk) && !isAiThinking
      ensures error == old(error) && remainingCoupons == old(remainingCoupons)
    {
      isAiThinking := false;
      messages := AppendTo(messages, aiId, chunk);
    }

    /** `onDone`: the wait ends and the remaining coupons are shown. */
    method OnDone(remaining: int)
      modifies this
      ensures remainingCoupons == Some(remaining) && !isAiThinking
      ensures messages == old(messages) && error == old(error)
    {
      isAiThinking := false;
      remainingCoupons := Some(remaining);
    }

    /** `onError`: the wait ends, the error is shown, and a still-empty reply gets the apology. */
    method OnError(aiId: string, message: string)
      modifies this
      ensures messages == ApologizeIn(old(messages), aiId) && error == message && !isAiThinking
      ensures remainingCoupons == old(remainingCoupons)
    {
      isAiThinking := false;
      error := message;
      messages := ApologizeIn(messages, aiId);
    }
  }

  const GREETING := "안녕하세요! 저는 AI 영어 회화 튜터입니다. 😊\n\n오늘은 어떤 주제로 영어 회화를 연습하고 싶으세요?\n\n📚 추천 주제:\n• 여행 영어 (공항, 호텔, 식당)\n• 비즈니스 영어 (회의, 이메일, 전화)\n• 일상 생활 영어 (쇼핑, 은행, 병원)\n• 면접 영어 (자기소개, 경력 설명)\n• 프리토킹 (자유 주제)\n\n관심 있는 주제를 말씀해주시면, 그 주제로 집중해서 학습을 도와드릴게요!"

  /** A key kept in the tab is reused whatever suffix and clock a later entry would use. */
  lemma KeyCreatedOnce(storage: map<string, string>, userId: int, random1: string, now1: int, random2: string, now2: int)
    ensures var key := KeyFor(storage, userId, random1, now1);
      KeyFor(storage[IdemKeyName(userId) := key], userId, random2, now2) == key
  {
  }
}
