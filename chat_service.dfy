/**
 * The browser's chat client (services/chatService.ts): reading the event
 * stream of `message_stream` and dispatching its frames to callbacks, and
 * choosing the idempotency key of a session start.
 *
 * The network is a parameter: `StreamFetch` says how the request ended
 * and, for a readable body, which decoded pieces of text the reader
 * delivered. `parse` stands for `JSON.parse`, returning `None` where it
 * throws.
 */
module ChatService {
  import opened Wrappers
  import opened Text
  import opened Json
  import ChatController

  /** Every frame of interest starts with this field name. */
  const DATA_FIELD := "data: "
  const NO_ANSWER := "AI 응답을 받을 수 없습니다."
  const NO_STREAM := "스트림을 읽을 수 없습니다."

  // ---------------------------------------------------------------------
  // The frame delimiter /\r?\n\r?\n/
  // ---------------------------------------------------------------------

  /** `\r?\n` at `i`: where it ends, the carriage return taken when there is one. */
  function LineBreak(s: string, i: nat): (e: Option<nat>)
    ensures e.Some? ==> i < e.value <= |s| && e.value <= i + 2
  {
    if i + 1 < |s| && s[i] == '\r' && s[i + 1] == '\n' then Some(i + 2)
    else if i < |s| && s[i] == '\n' then Some(i + 1)
    else None
  }

  /**
   * `/\r?\n\r?\n/` tried at `i`: where the match ends. Backtracking cannot
   * help, since a `\r` that is not followed by `\n` is not a `\n` either.
   */
  function DelimiterAt(s: string, i: nat): (e: Option<nat>)
    ensures e.Some? ==> i + 2 <= e.value <= |s| && e.value <= i + 4
  {
    match LineBreak(s, i)
    case None => None
    case Some(a) => LineBreak(s, a)
  }

  /** The text a delimiter match covers is one of the four line-break pairs. */
  lemma DelimiterText(s: string, i: nat)
    requires DelimiterAt(s, i).Some?
    ensures s[i..DelimiterAt(s, i).value] in {"\n\n", "\r\n\n", "\n\r\n", "\r\n\r\n"}
  {
    var a := LineBreak(s, i).value;
    var e := DelimiterAt(s, i).value;
    var d := s[i..e];
    if a == i + 2 && e == a + 2 {
      assert d == [s[i], s[i + 1], s[i + 2], s[i + 3]];
      assert d == "\r\n\r\n";
    } else if a == i + 2 {
      assert d == [s[i], s[i + 1], s[i + 2]];
      assert d == "\r\n\n";
    } else if e == a + 2 {
      assert d == [s[i], s[i + 1], s[i + 2]];
      assert d == "\n\r\n";
    } else {
      assert d == [s[i], s[i + 1]];
      assert d == "\n\n";
    }
  }

  datatype Match = Match(start: nat, end: nat)

  /** The leftmost match at or after `from`. */
  function FirstDelimiterFrom(s: string, from: nat): (m: Option<Match>)
    ensures m.Some? ==> from <= m.value.start && DelimiterAt(s, m.value.start) == Some(m.value.end)
    decreases |s| - from
  {
    if from >= |s| then None
    else match DelimiterAt(s, from)
      case Some(e) => Some(Match(from, e))
      case None => FirstDelimiterFrom(s, from + 1)
  }

  ghost predicate NoDelimiter(s: string) {
    forall i: nat :: DelimiterAt(s, i).None?
  }

  lemma {:induction false} FirstDelimiterFromFirst(s: string, from: nat)
    ensures FirstDelimiterFrom(s, from).Some? ==> forall j: nat :: from <= j < FirstDelimiterFrom(s, from).value.start ==> DelimiterAt(s, j).None?
    ensures FirstDelimiterFrom(s, from).None? ==> forall j: nat :: from <= j ==> DelimiterAt(s, j).None?
    decreases |s| - from
  {
    if from < |s| && DelimiterAt(s, from).None? {
      FirstDelimiterFromFirst(s, from + 1);
    }
  }

  // ---------------------------------------------------------------------
  // Splitting the buffer
  // ---------------------------------------------------------------------

  /**
   * `buffer.split(/\r?\n\r?\n/)` followed by `pop()`: the complete pieces
   * in order, the delimiter text after each, and the last piece, which
   * becomes the new buffer.
   */
  datatype Split = Split(pieces: seq<string>, delimiters: seq<string>, rest: string)

  function SplitEvents(s: string): (r: Split)
    ensures |r.pieces| == |r.delimiters|
    decreases |s|
  {
    match FirstDelimiterFrom(s, 0)
    case None => Split([], [], s)
    case Some(m) =>
      var t := SplitEvents(s[m.end..]);
      Split([s[..m.start]] + t.pieces, [s[m.start..m.end]] + t.delimiters, t.rest)
  }

  lemma SplitEventsUnfold(s: string, m: Match)
    requires FirstDelimiterFrom(s, 0) == Some(m)
    ensures SplitEvents(s) == Split([s[..m.start]] + SplitEvents(s[m.end..]).pieces,
                                    [s[m.start..m.end]] + SplitEvents(s[m.end..]).delimiters, SplitEvents(s[m.end..]).rest)
  {
  }

  /** Each piece followed by its delimiter. */
  function Interleave(pieces: seq<string>, delimiters: seq<string>): string
    requires |pieces| == |delimiters|
  {
    if pieces == [] then [] else pieces[0] + delimiters[0] + Interleave(pieces[1..], delimiters[1..])
  }

  /** The pieces with their delimiters, then the remainder, give back the buffer. */
  lemma {:induction false} SplitRebuild(s: string)
    ensures Interleave(SplitEvents(s).pieces, SplitEvents(s).delimiters) + SplitEvents(s).rest == s
    decreases |s|
  {
    match FirstDelimiterFrom(s, 0)
    case None =>
    case Some(m) =>
      var t := SplitEvents(s[m.end..]);
      SplitRebuild(s[m.end..]);
      SplitEventsUnfold(s, m);
      InterleaveCons(s[..m.start], s[m.start..m.end], t.pieces, t.delimiters);
      Rejoin(s, m.start, m.end, Interleave(t.pieces, t.delimiters), t.rest);
  }

  lemma InterleaveCons(p: string, d: string, ps: seq<string>, ds: seq<string>)
    requires |ps| == |ds|
    ensures Interleave([p] + ps, [d] + ds) == p + d + Interleave(ps, ds)
  {
    assert ([p] + ps)[1..] == ps && ([d] + ds)[1..] == ds;
  }

  lemma Rejoin(s: string, a: nat, b: nat, x: string, r: string)
    requires a <= b <= |s| && x + r == s[b..]
    ensures s[..a] + s[a..b] + x + r == s
  {
    SeqAssoc(s[..a] + s[a..b], x, r);
    assert s == s[..a] + s[a..b] + s[b..];
  }

  /** Every delimiter is a line-break pair, and the remainder holds no complete delimiter. */
  lemma {:induction false} SplitParts(s: string)
    ensures forall k :: 0 <= k < |SplitEvents(s).delimiters| ==> SplitEvents(s).delimiters[k] in {"\n\n", "\r\n\n", "\n\r\n", "\r\n\r\n"}
    ensures NoDelimiter(SplitEvents(s).rest)
    decreases |s|
  {
    FirstDelimiterFromFirst(s, 0);
    match FirstDelimiterFrom(s, 0)
    case None =>
    case Some(m) =>
      SplitParts(s[m.end..]);
      SplitEventsUnfold(s, m);
      DelimiterText(s, m.start);
      assert SplitEvents(s).delimiters[1..] == SplitEvents(s[m.end..]).delimiters;
  }

  // Appending text does not move a delimiter that is already complete.

  lemma LineBreakAppend(x: string, c: string, i: nat)
    requires LineBreak(x, i).Some?
    ensures LineBreak(x + c, i) == LineBreak(x, i)
  {
    assert (x + c)[i] == x[i];
    if i + 1 < |x| {
      assert (x + c)[i + 1] == x[i + 1];
    }
  }

  lemma LineBreakFits(x: string, c: string, i: nat, a: nat)
    requires LineBreak(x + c, i) == Some(a) && a <= |x|
    ensures LineBreak(x, i) == Some(a)
  {
    assert (x + c)[i] == x[i];
    if a == i + 2 {
      assert (x + c)[i + 1] == x[i + 1];
    }
  }

  lemma DelimiterAtAppend(x: string, c: string, i: nat)
    requires DelimiterAt(x, i).Some?
    ensures DelimiterAt(x + c, i) == DelimiterAt(x, i)
  {
    LineBreakAppend(x, c, i);
    LineBreakAppend(x, c, LineBreak(x, i).value);
  }

  lemma DelimiterFits(x: string, c: string, i: nat, e: nat)
    requires DelimiterAt(x + c, i) == Some(e) && e <= |x|
    ensures DelimiterAt(x, i) == Some(e)
  {
    var a := LineBreak(x + c, i).value;
    LineBreakFits(x, c, i, a);
    LineBreakFits(x, c, a, e);
  }

  /**
   * A delimiter that only appended text completes cannot start before a
   * delimiter already complete in `x`.
   */
  lemma NoStraddle(x: string, c: string, j: nat, i: nat)
    requires j < i && DelimiterAt(x, j).None? && DelimiterAt(x, i).Some?
    ensures DelimiterAt(x + c, j).None?
  {
    var s := x + c;
    forall k | 0 <= k < |x|
      ensures s[k] == x[k]
    {
    }
    if DelimiterAt(s, j).Some? {
      var e := DelimiterAt(s, j).value;
      if e <= |x| {
        DelimiterFits(x, c, j, e);
      } else {
        assert false;
      }
    }
  }

  lemma {:induction false} FirstDelimiterFromAppend(x: string, c: string, from: nat)
    requires FirstDelimiterFrom(x, from).Some?
    ensures FirstDelimiterFrom(x + c, from) == FirstDelimiterFrom(x, from)
    decreases |x| - from
  {
    var m := FirstDelimiterFrom(x, from).value;
    if DelimiterAt(x, from).Some? {
      DelimiterAtAppend(x, c, from);
    } else {
      NoStraddle(x, c, from, m.start);
      FirstDelimiterFromAppend(x, c, from + 1);
    }
  }

  lemma SplitEventsAppendSome(x: string, c: string, m: Match)
    requires FirstDelimiterFrom(x, 0) == Some(m)
    ensures SplitEvents(x + c) == Split([x[..m.start]] + SplitEvents(x[m.end..] + c).pieces,
                                        [x[m.start..m.end]] + SplitEvents(x[m.end..] + c).delimiters, SplitEvents(x[m.end..] + c).rest)
  {
    FirstDelimiterFromAppend(x, c, 0);
    assert (x + c)[m.end..] == x[m.end..] + c;
    assert (x + c)[..m.start] == x[..m.start];
    assert (x + c)[m.start..m.end] == x[m.start..m.end];
    SplitEventsUnfold(x + c, m);
  }

  /**
   * Splitting the buffer after each read gives the pieces of splitting the
   * whole text at once: those of the first part, then those of its
   * remainder joined to what came next.
   */
  lemma {:induction false} SplitEventsAppend(x: string, c: string)
    ensures SplitEvents(x + c).pieces == SplitEvents(x).pieces + SplitEvents(SplitEvents(x).rest + c).pieces
    ensures SplitEvents(x + c).rest == SplitEvents(SplitEvents(x).rest + c).rest
    decreases |x|
  {
    match FirstDelimiterFrom(x, 0)
    case None =>
      assert SplitEvents(x) == Split([], [], x);
    case Some(m) =>
      var tail := x[m.end..];
      SplitEventsAppend(tail, c);
      SplitEventsAppendSome(x, c, m);
      SplitEventsUnfold(x, m);
      SeqAssoc([x[..m.start]], SplitEvents(tail).pieces, SplitEvents(SplitEvents(tail).rest + c).pieces);
  }

  // ---------------------------------------------------------------------
  // Dispatching frames
  // ---------------------------------------------------------------------

  /** The callbacks the caller supplies, with the value each receives (`undefined` is `Null`). */
  datatype Callback = OnChunk(content: Json) | OnDone(remaining: Json) | OnError(error: Json)

  /**
   * One piece: every carriage return removed; ignored unless it starts with
   * "data: "; the rest parsed, a parse failure skipped; then by `type`:
   * "chunk", "done" and "error" call their callback, anything else
   * (including "start") calls nothing.
   */
  function Dispatch(raw: string, parse: string -> Option<Json>): (calls: seq<Callback>)
    ensures |calls| <= 1
    ensures calls != [] ==> StartsWith(RemoveAll(raw, '\r'), DATA_FIELD) && parse(RemoveAll(raw, '\r')[|DATA_FIELD|..]).Some?
  {
    var line := RemoveAll(raw, '\r');
    if !StartsWith(line, DATA_FIELD) then []
    else match parse(line[|DATA_FIELD|..])
      case None => []
      case Some(data) =>
        var kind := Field(data, "type");
        if kind == Str("chunk") then [OnChunk(Field(data, "content"))]
        else if kind == Str("done") then [OnDone(Field(data, "remaining_chat_coupons"))]
        else if kind == Str("error") then [OnError(Field(data, "error"))]
        else []
  }

  /** The pieces dispatched in order. */
  function DispatchAll(pieces: seq<string>, parse: string -> Option<Json>): seq<Callback> {
    if pieces == [] then [] else Dispatch(pieces[0], parse) + DispatchAll(pieces[1..], parse)
  }

  lemma {:induction false} DispatchAllAppend(a: seq<string>, b: seq<string>, parse: string -> Option<Json>)
    ensures DispatchAll(a + b, parse) == DispatchAll(a, parse) + DispatchAll(b, parse)
  {
    if a == [] {
      assert a + b == b;
    } else {
      DispatchAllAppend(a[1..], b, parse);
      assert (a + b)[1..] == a[1..] + b;
      SeqAssoc(Dispatch(a[0], parse), DispatchAll(a[1..], parse), DispatchAll(b, parse));
    }
  }

  /** How the request ended, as the page sees it. */
  datatype StreamFetch =
    | Unreachable(message: string)
      /** `fetch` itself threw, with this message. */
    | Rejected(body: Option<Json>)
      /** A non-2xx status, with the parsed body if it was JSON. */
    | Unreadable
      /** No body reader. */
    | Delivered(chunks: seq<string>, failure: Option<string>)
      /** The decoded text of each read until the reader finished, or until a read threw `failure`. */

  /** `error.message || 'AI 응답을 받을 수 없습니다.'`. */
  function OrNoAnswer(message: string): string {
    if message == [] then NO_ANSWER else message
  }

  /**
   * `error.response?.data?.error || fallback`: the answer body's `error`
   * string when it is present and not empty, otherwise the fallback.
   */
  function ErrorOr(body: Option<Json>, fallback: string): (m: string)
    ensures fallback != [] ==> m != []
    ensures m == fallback || (body.Some? && Field(body.value, "error") == Str(m))
    ensures body.None? || !Field(body.value, "error").Str? ==> m == fallback
  {
    if body.Some? && Field(body.value, "error").Str? && Field(body.value, "error").s != [] then Field(body.value, "error").s
    else fallback
  }

  /** The message thrown for a non-2xx answer to a streamed message. */
  function RejectionMessage(body: Option<Json>): (m: string)
    ensures m != []
  {
    ErrorOr(body, NO_ANSWER)
  }

  /**
   * The callbacks `sendMessageStream` makes: one error for a request that
   * fails before the body; otherwise the dispatch of every complete frame
   * of the whole delivered text, then the error of a failed read. The text
   * after the last delimiter is never dispatched.
   */
  function Received(fetch: StreamFetch, parse: string -> Option<Json>): (calls: seq<Callback>)
    ensures fetch.Unreachable? ==> calls == [OnError(Str(OrNoAnswer(fetch.message)))]
    ensures fetch.Rejected? ==> calls == [OnError(Str(RejectionMessage(fetch.body)))]
    ensures fetch.Unreadable? ==> calls == [OnError(Str(NO_STREAM))]
  {
    match fetch
    case Unreachable(message) => [OnError(Str(OrNoAnswer(message)))]
    case Rejected(body) => [OnError(Str(RejectionMessage(body)))]
    case Unreadable => [OnError(Str(NO_STREAM))]
    case Delivered(chunks, failure) =>
      DispatchAll(SplitEvents(Concat(chunks)).pieces, parse)
        + (if failure.Some? then [OnError(Str(OrNoAnswer(failure.value)))] else [])
  }

  /**
   * The read loop of `sendMessageStream`: each read is appended to the
   * buffer, the buffer is split, every piece but the last is dispatched in
   * order and the last is kept. `buffer` is what is left when the reader
   * finishes.
   */
  method SendMessageStream(fetch: StreamFetch, parse: string -> Option<Json>) returns (calls: seq<Callback>, buffer: string)
    ensures calls == Received(fetch, parse)
    ensures fetch.Delivered? ==> buffer == SplitEvents(Concat(fetch.chunks)).rest
  {
    buffer := "";
    match fetch
    case Unreachable(message) =>
      calls := [OnError(Str(OrNoAnswer(message)))];
    case Rejected(body) =>
      calls := [OnError(Str(RejectionMessage(body)))];
    case Unreadable =>
      calls := [OnError(Str(NO_STREAM))];
    case Delivered(chunks, failure) =>
      calls := [];
      var k := 0;
      while k < |chunks|
        invariant 0 <= k <= |chunks|
        invariant calls == DispatchAll(SplitEvents(Concat(chunks[..k])).pieces, parse)
        invariant buffer == SplitEvents(Concat(chunks[..k])).rest
      {
        ghost var before := Concat(chunks[..k]);
        var parts := SplitEvents(buffer + chunks[k]);
        calls := DispatchEach(calls, parts.pieces, parse);
        buffer := parts.rest;
        ReadStep(chunks, k, parse);
        k := k + 1;
      }
      assert chunks[..k] == chunks;
      if failure.Some? {
        calls := calls + [OnError(Str(OrNoAnswer(failure.value)))];
      }
  }

  /** The inner loop: each complete piece dispatched in turn, after the calls already made. */
  method DispatchEach(calls0: seq<Callback>, pieces: seq<string>, parse: string -> Option<Json>) returns (calls: seq<Callback>)
    ensures calls == calls0 + DispatchAll(pieces, parse)
  {
    calls := calls0;
    var j := 0;
    while j < |pieces|
      invariant 0 <= j <= |pieces|
      invariant calls == calls0 + DispatchAll(pieces[..j], parse)
    {
      calls := calls + Dispatch(pieces[j], parse);
      DispatchAllSnoc(pieces, j, parse);
      j := j + 1;
    }
    assert pieces[..j] == pieces;
  }

  lemma DispatchAllSnoc(pieces: seq<string>, j: nat, parse: string -> Option<Json>)
    requires j < |pieces|
    ensures DispatchAll(pieces[..j + 1], parse) == DispatchAll(pieces[..j], parse) + Dispatch(pieces[j], parse)
  {
    assert pieces[..j + 1] == pieces[..j] + [pieces[j]];
    DispatchAllAppend(pieces[..j], [pieces[j]], parse);
    assert DispatchAll([pieces[j]], parse) == Dispatch(pieces[j], parse) + DispatchAll([], parse);
  }

  /** One read: splitting the buffer joined to it continues the split of everything read so far. */
  lemma ReadStep(chunks: seq<string>, k: nat, parse: string -> Option<Json>)
    requires k < |chunks|
    ensures DispatchAll(SplitEvents(Concat(chunks[..k + 1])).pieces, parse)
      == DispatchAll(SplitEvents(Concat(chunks[..k])).pieces, parse)
         + DispatchAll(SplitEvents(SplitEvents(Concat(chunks[..k])).rest + chunks[k]).pieces, parse)
    ensures SplitEvents(Concat(chunks[..k + 1])).rest == SplitEvents(SplitEvents(Concat(chunks[..k])).rest + chunks[k]).rest
  {
    var before := Concat(chunks[..k]);
    ConcatSnoc(chunks, k);
    SplitEventsAppend(before, chunks[k]);
    DispatchAllAppend(SplitEvents(before).pieces, SplitEvents(SplitEvents(before).rest + chunks[k]).pieces, parse);
  }

  /** However the text was cut into reads, the same callbacks are made. */
  lemma {:induction false} ReadsDoNotMatter(chunks: seq<string>, failure: Option<string>, parse: string -> Option<Json>)
    ensures Received(Delivered(chunks, failure), parse) == Received(Delivered([Concat(chunks)], failure), parse)
  {
    var one := [Concat(chunks)];
    assert one[1..] == [];
    assert Concat(one) == Concat(chunks) + Concat([]);
    assert Concat(one) == Concat(chunks);
  }

  // ---------------------------------------------------------------------
  // The server's frames reach the page
  // ---------------------------------------------------------------------

  /** The callback an event of `message_stream` should cause: none for "start". */
  function Expected(events: seq<ChatController.Event>): seq<Callback> {
    if events == [] then []
    else
      (match events[0]
       case Start => []
       case Chunk(c) => [OnChunk(Str(c))]
       case Done(n) => [OnDone(Int(n))]
       case Failure(error, _) => [OnError(Str(error))])
      + Expected(events[1..])
  }

  /** The JSON text of every event has no raw line break (`to_json` escapes them) and parses back. */
  ghost predicate FaithfulCodec(events: seq<ChatController.Event>, encode: Json -> string, parse: string -> Option<Json>) {
    forall k :: 0 <= k < |events| ==>
      parse(encode(ChatController.EventData(events[k]))) == Some(ChatController.EventData(events[k]))
      && forall i :: 0 <= i < |encode(ChatController.EventData(events[k]))| ==>
        encode(ChatController.EventData(events[k]))[i] != '\n' && encode(ChatController.EventData(events[k]))[i] != '\r'
  }

  lemma {:induction false} RemoveAllAbsent(s: string, c: char)
    requires forall i :: 0 <= i < |s| ==> s[i] != c
    ensures RemoveAll(s, c) == s
  {
    if s != [] {
      RemoveAllAbsent(s[1..], c);
    }
  }

  lemma {:induction false} FirstDelimiterFromClear(s: string, from: nat, p: nat)
    requires from <= p && DelimiterAt(s, p).Some?
    requires forall q :: from <= q < p ==> s[q] != '\r' && s[q] != '\n'
    ensures FirstDelimiterFrom(s, from) == Some(Match(p, DelimiterAt(s, p).value))
    decreases p - from
  {
    if from < p {
      FirstDelimiterFromClear(s, from + 1, p);
    }
  }

  /** A frame followed by more text is split off as one piece. */
  lemma SplitFrame(body: string, rest: string)
    requires forall i :: 0 <= i < |body| ==> body[i] != '\n' && body[i] != '\r'
    ensures SplitEvents(body + "\n\n" + rest).pieces == [body] + SplitEvents(rest).pieces
    ensures SplitEvents(body + "\n\n" + rest).rest == SplitEvents(rest).rest
  {
    var s := body + "\n\n" + rest;
    var p := |body|;
    assert s[p] == '\n' && s[p + 1] == '\n';
    assert LineBreak(s, p) == Some(p + 1);
    assert LineBreak(s, p + 1) == Some(p + 2);
    FirstDelimiterFromClear(s, 0, p);
    SplitEventsUnfold(s, Match(p, p + 2));
    assert s[..p] == body && s[p + 2..] == rest;
  }

  /** Prefixing the field name adds no line break. */
  lemma FrameLineClear(json: string)
    requires forall i :: 0 <= i < |json| ==> json[i] != '\n' && json[i] != '\r'
    ensures forall i :: 0 <= i < |DATA_FIELD + json| ==> (DATA_FIELD + json)[i] != '\n' && (DATA_FIELD + json)[i] != '\r'
  {
    var line := DATA_FIELD + json;
    forall i | 0 <= i < |line|
      ensures line[i] != '\n' && line[i] != '\r'
    {
      if i >= |DATA_FIELD| {
        assert line[i] == json[i - |DATA_FIELD|];
      } else {
        assert line[i] == DATA_FIELD[i];
      }
    }
  }

  /** Dispatching the piece of one event's frame makes that event's callback. */
  lemma DispatchFrame(e: ChatController.Event, encode: Json -> string, parse: string -> Option<Json>)
    requires FaithfulCodec([e], encode, parse)
    ensures Dispatch(DATA_FIELD + encode(ChatController.EventData(e)), parse) == Expected([e])
  {
    var json := encode(ChatController.EventData(e));
    var line := DATA_FIELD + json;
    assert [e][0] == e;
    FrameLineClear(json);
    RemoveAllAbsent(line, '\r');
    assert line[..|DATA_FIELD|] == DATA_FIELD && line[|DATA_FIELD|..] == json;
    assert Expected([e]) == Expected([e][0..1]) + Expected([]);
  }

  lemma FaithfulCodecSplit(events: seq<ChatController.Event>, encode: Json -> string, parse: string -> Option<Json>)
    requires events != [] && FaithfulCodec(events, encode, parse)
    ensures FaithfulCodec([events[0]], encode, parse) && FaithfulCodec(events[1..], encode, parse)
  {
    assert [events[0]][0] == events[0];
    forall k | 0 <= k < |events[1..]|
      ensures events[1..][k] == events[k + 1]
    {
    }
  }

  /** The first frame of a non-empty log, and the piece the page dispatches for it. */
  lemma FramesStep(events: seq<ChatController.Event>, encode: Json -> string, parse: string -> Option<Json>)
    requires events != [] && FaithfulCodec([events[0]], encode, parse)
    ensures SplitEvents(ChatController.Frames(events, encode)).pieces
      == [DATA_FIELD + encode(ChatController.EventData(events[0]))] + SplitEvents(ChatController.Frames(events[1..], encode)).pieces
    ensures SplitEvents(ChatController.Frames(events, encode)).rest == SplitEvents(ChatController.Frames(events[1..], encode)).rest
  {
    var e := events[0];
    var json := encode(ChatController.EventData(e));
    assert [e][0] == e;
    FrameLineClear(json);
    assert ChatController.Frames(events, encode) == (DATA_FIELD + json) + "\n\n" + ChatController.Frames(events[1..], encode);
    SplitFrame(DATA_FIELD + json, ChatController.Frames(events[1..], encode));
  }

  lemma DispatchAllCons(p: string, ps: seq<string>, parse: string -> Option<Json>)
    ensures DispatchAll([p] + ps, parse) == Dispatch(p, parse) + DispatchAll(ps, parse)
  {
    assert ([p] + ps)[1..] == ps;
  }

  lemma ExpectedCons(events: seq<ChatController.Event>)
    requires events != []
    ensures Expected(events) == Expected([events[0]]) + Expected(events[1..])
  {
    assert [events[0]][1..] == [];
  }

  /**
   * The event log `message_stream` writes, read by `sendMessageStream`,
   * makes exactly the callbacks of its chunk, done and error events, in
   * order, and leaves nothing in the buffer.
   */
  lemma {:induction false} StreamReachesPage(events: seq<ChatController.Event>, encode: Json -> string, parse: string -> Option<Json>)
    requires FaithfulCodec(events, encode, parse)
    ensures DispatchAll(SplitEvents(ChatController.Frames(events, encode)).pieces, parse) == Expected(events)
    ensures SplitEvents(ChatController.Frames(events, encode)).rest == []
  {
    if events == [] {
      assert ChatController.Frames(events, encode) == [];
      assert FirstDelimiterFrom([], 0) == None;
    } else {
      FaithfulCodecSplit(events, encode, parse);
      StreamReachesPage(events[1..], encode, parse);
      FramesStep(events, encode, parse);
      DispatchFrame(events[0], encode, parse);
      DispatchAllCons(DATA_FIELD + encode(ChatController.EventData(events[0])),
                      SplitEvents(ChatController.Frames(events[1..], encode)).pieces, parse);
      ExpectedCons(events);
    }
  }

  // ---------------------------------------------------------------------
  // `startChatSession`
  // ---------------------------------------------------------------------

  const START_FAILED := "채팅 세션을 시작할 수 없습니다."

  /** The message thrown when `/chat/start` fails: the server's `error`, or the default. */
  function StartFailure(body: Option<Json>): (m: string)
    ensures m != []
  {
    ErrorOr(body, START_FAILED)
  }

  /** The key generated when none is supplied: the user id, the clock in milliseconds and a random suffix. */
  function GeneratedKey(userId: int, nowMs: int, random: string): string {
    IntToString(userId) + "-" + IntToString(nowMs) + "-" + random
  }

  /** `idempotencyKey || generated`: a supplied non-empty key unchanged, otherwise a generated one. */
  function KeyToSend(supplied: Option<string>, userId: int, nowMs: int, random: string): (key: string)
    ensures supplied.Some? && supplied.value != [] ==> key == supplied.value
    ensures supplied.None? || supplied.value == [] ==> key == GeneratedKey(userId, nowMs, random)
  {
    if supplied.Some? && supplied.value != [] then supplied.value else GeneratedKey(userId, nowMs, random)
  }

  /**
   * A generated key is never blank, so the server always applies its
   * idempotency check to it; a supplied key of spaces is sent as is and
   * the server treats it as no key.
   */
  lemma GeneratedKeyIsPresent(userId: int, nowMs: int, random: string)
    ensures ChatController.Presence(Some(GeneratedKey(userId, nowMs, random))) == Some(GeneratedKey(userId, nowMs, random))
  {
    var k := GeneratedKey(userId, nowMs, random);
    var i := |IntToString(userId)|;
    assert k[i] == '-';
    assert !IsSpace(k[i]);
  }
}
