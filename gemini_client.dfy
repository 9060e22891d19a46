/**
 * The relay to Google's Gemini API (lib/gemini_client.rb): request payload
 * construction, reading the answer text, the incremental parser for the
 * streamed answer (a subset of server-sent events, HTML Living Standard
 * section 9.2), and the retry loop with its one-time switch to the lite
 * model.
 *
 * The network is not modelled. One request is an oracle answer indexed by
 * the payload, the model in use and the running attempt number; JSON
 * parsing of a stream frame is the oracle `parse`; the random jitter of a
 * back-off is the oracle `jitter` (milliseconds, by attempt number).
 */
module GeminiClient {
  import opened Wrappers
  import opened Text
  import opened Json

  const DEFAULT_MODEL := "gemini-2.5-flash-lite"
  const LITE_MODEL := "gemini-2.5-flash-lite"

  const NO_RESPONSE := "응답을 생성할 수 없습니다."
  const API_FAILURE_PREFIX := "API 요청 실패: "
  const EMPTY_RESPONSE := "Gemini에서 빈 응답을 받았습니다. 재시도가 필요합니다."
  const MISSING_KEY := "GEMINI_API_KEY is not set"
  const CHAT_FAILURE_PREFIX := "AI 응답 생성 중 오류가 발생했습니다: "
  const STREAM_FAILURE_PREFIX := "AI 스트리밍 응답 생성 중 오류가 발생했습니다: "

  /** Attempts per model before giving up on it. */
  const MAX_ATTEMPTS := 3
  /** The first back-off, 0.8 s, in milliseconds; it doubles with each attempt. */
  const BASE_SLEEP_MS := 800

  /** One chat message as handed to the client; `None` is a nil field. */
  datatype ChatMessage = ChatMessage(role: Option<string>, content: Option<string>)

  /** `convert_role`: "assistant" becomes "model"; every other role, nil included, becomes "user". */
  function ConvertRole(role: Option<string>): (r: string)
    ensures r == "model" <==> role == Some("assistant")
    ensures r != "model" ==> r == "user"
  {
    var s := role.GetOr("");
    if s == "assistant" then "model"
    else if s == "user" then "user"
    else "user"
  }

  datatype Part = Part(text: Option<string>)
  datatype Content = Content(role: string, parts: seq<Part>)
  datatype SafetySetting = SafetySetting(category: string, threshold: string)

  /** The request body: `contents`, `generationConfig`, `safetySettings`. */
  datatype Payload = Payload(contents: seq<Content>, generationConfig: map<string, Json>, safetySettings: seq<SafetySetting>)

  /** The default generation settings; the two fractions are kept as their literal text. */
  const DEFAULT_CONFIG: map<string, Json> := map[
    "temperature" := Decimal("0.5"),
    "topK" := Int(30),
    "topP" := Decimal("0.9"),
    "maxOutputTokens" := Int(500)]

  const BLOCK_MEDIUM := "BLOCK_MEDIUM_AND_ABOVE"

  const SAFETY_SETTINGS := [
    SafetySetting("HARM_CATEGORY_HARASSMENT", BLOCK_MEDIUM),
    SafetySetting("HARM_CATEGORY_HATE_SPEECH", BLOCK_MEDIUM),
    SafetySetting("HARM_CATEGORY_SEXUALLY_EXPLICIT", BLOCK_MEDIUM),
    SafetySetting("HARM_CATEGORY_DANGEROUS_CONTENT", BLOCK_MEDIUM)]

  /**
   * The per-request overrides: the `generationConfig` hash of the options,
   * used only when the options and it are both hashes.
   */
  function ConfigOverride(genOptions: Json): map<string, Json> {
    if genOptions.Obj? && "generationConfig" in genOptions.fields && genOptions.fields["generationConfig"].Obj?
    then genOptions.fields["generationConfig"].fields
    else map[]
  }

  /**
   * `build_payload`: one content per message, in order, with the converted
   * role and the message text as its single part; the overrides merged
   * over the default settings; the fixed safety list.
   */
  function BuildPayload(messages: seq<ChatMessage>, genOptions: Json): (p: Payload)
    ensures |p.contents| == |messages|
    ensures forall k :: 0 <= k < |messages| ==>
      p.contents[k].role == ConvertRole(messages[k].role) && p.contents[k].parts == [Part(messages[k].content)]
    ensures p.generationConfig.Keys == DEFAULT_CONFIG.Keys + ConfigOverride(genOptions).Keys
    ensures forall key :: key in ConfigOverride(genOptions) ==> p.generationConfig[key] == ConfigOverride(genOptions)[key]
    ensures forall key :: key in DEFAULT_CONFIG && key !in ConfigOverride(genOptions) ==> p.generationConfig[key] == DEFAULT_CONFIG[key]
    ensures p.safetySettings == SAFETY_SETTINGS
  {
    var contents := seq(|messages|, k requires 0 <= k < |messages| => Content(ConvertRole(messages[k].role), [Part(messages[k].content)]));
    Payload(contents, DEFAULT_CONFIG + ConfigOverride(genOptions), SAFETY_SETTINGS)
  }

  /** Options that are not a hash, or whose `generationConfig` is not one, leave the defaults alone. */
  lemma NonHashOptionsIgnored(messages: seq<ChatMessage>, genOptions: Json)
    requires !genOptions.Obj? || "generationConfig" !in genOptions.fields || !genOptions.fields["generationConfig"].Obj?
    ensures BuildPayload(messages, genOptions).generationConfig == DEFAULT_CONFIG
  {
    assert DEFAULT_CONFIG + map[] == DEFAULT_CONFIG;
  }

  /**
   * The streaming relay's options (`maxOutputTokens` 400, temperature 0.5)
   * replace the output cap and keep the other defaults.
   */
  lemma StreamOptionsMerge(messages: seq<ChatMessage>)
    ensures BuildPayload(messages, Obj(map["generationConfig" := Obj(map["maxOutputTokens" := Int(400), "temperature" := Decimal("0.5")])])).generationConfig
      == map["temperature" := Decimal("0.5"), "topK" := Int(30), "topP" := Decimal("0.9"), "maxOutputTokens" := Int(400)]
  {
  }

  // ----- Ruby's `[]`, `dig` and `empty?` on parsed JSON -----

  /** The class Ruby gives a parsed JSON value. */
  function ClassName(j: Json): string {
    match j
    case Null => "NilClass"
    case Bool(b) => if b then "TrueClass" else "FalseClass"
    case Int(_) => "Integer"
    case Decimal(_) => "Float"
    case Str(_) => "String"
    case Arr(_) => "Array"
    case Obj(_) => "Hash"
  }

  /** How a `NoMethodError` names its receiver: nil, true and false by value, anything else by class. */
  function Receiver(j: Json): string {
    match j
    case Null => "nil"
    case Bool(b) => if b then "true" else "false"
    case _ => "an instance of " + ClassName(j)
  }

  /** The message of the `NoMethodError` raised by calling `name` on `j`. */
  function NoMethod(name: string, j: Json): string {
    "undefined method '" + name + "' for " + Receiver(j)
  }

  /** The `TypeError` of indexing an array or an integer with a string. */
  const NO_STRING_INDEX := "no implicit conversion of String into Integer"

  /** The `TypeError` of `dig` meeting a value that has no `dig` of its own. */
  function NotDiggable(j: Json): string {
    ClassName(j) + " does not have #dig method"
  }

  /** A value, or the message of the exception raised while computing it. */
  datatype Eval = Value(value: Json) | Raise(message: string)

  /** Ruby truthiness: everything but nil and false. */
  predicate Truthy(j: Json) {
    !(j.Null? || j == Bool(false))
  }

  /**
   * `j[key]` with a string key: a hash looks the key up, a string yields
   * the key when it occurs in it, an array or an integer raises
   * `TypeError`, and nil, a float, true and false have no `[]`.
   */
  function Subscript(j: Json, key: string): Eval {
    match j
    case Obj(fields) => Value(if key in fields then fields[key] else Null)
    case Str(s) => Value(if Contains(s, key) then Str(key) else Null)
    case Arr(_) => Raise(NO_STRING_INDEX)
    case Int(_) => Raise(NO_STRING_INDEX)
    case _ => Raise(NoMethod("[]", j))
  }

  /** `j.empty?`: strings, arrays and hashes answer; other values have no `empty?`. */
  function IsEmpty(j: Json): Eval {
    match j
    case Str(s) => Value(Bool(s == []))
    case Arr(items) => Value(Bool(items == []))
    case Obj(fields) => Value(Bool(fields == map[]))
    case _ => Raise(NoMethod("empty?", j))
  }

  /** `j[0]` on a non-empty string, array or hash: the first character, the first item, nil (JSON keys are strings). */
  function First(j: Json): Json {
    match j
    case Str(s) => if s != [] then Str([s[0]]) else Null
    case Arr(items) => if items != [] then items[0] else Null
    case _ => Null
  }

  /** One step of a `dig` path: a hash key or an array index. */
  datatype Step = Key(name: string) | Index(i: nat)

  /**
   * One lookup inside `dig`: nil for a missing key or index, nil for an
   * integer index into a hash, `TypeError` for a string index into an array.
   */
  function Lookup(j: Json, step: Step): Eval
    requires j.Obj? || j.Arr?
  {
    if j.Obj? then Value(if step.Key? && step.name in j.fields then j.fields[step.name] else Null)
    else if step.Key? then Raise(NO_STRING_INDEX)
    else Value(if step.i < |j.items| then j.items[step.i] else Null)
  }

  /**
   * `dig` on a hash or an array: nil ends the walk with nil, the last
   * step's value is the result whatever it is, and a value in between that
   * is neither a hash nor an array raises `TypeError`.
   */
  function DigIn(j: Json, path: seq<Step>): Eval
    requires (j.Obj? || j.Arr?) && path != []
    decreases |path|
  {
    match Lookup(j, path[0])
    case Raise(m) => Raise(m)
    case Value(item) =>
      if item.Null? || |path| == 1 then Value(item)
      else if item.Obj? || item.Arr? then DigIn(item, path[1..])
      else Raise(NotDiggable(item))
  }

  /** `j.dig(*path)`: a value that is neither a hash nor an array has no `dig`. */
  function Dig(j: Json, path: seq<Step>): Eval
    requires path != []
  {
    if j.Obj? || j.Arr? then DigIn(j, path) else Raise(NoMethod("dig", j))
  }

  /**
   * Following a path of present keys and indexes through hashes and arrays
   * reaches the value at its end.
   */
  lemma {:induction false} DigFollows(j: Json, path: seq<Step>, v: Json)
    requires path != [] && (j.Obj? || j.Arr?)
    requires Reaches(j, path, v)
    ensures Dig(j, path) == Value(v)
    decreases |path|
  {
    if |path| > 1 {
      var item := Lookup(j, path[0]).value;
      DigFollows(item, path[1..], v);
    }
  }

  /** `v` sits at the end of `path` in `j`, every step present and every value before the last a hash or an array. */
  ghost predicate Reaches(j: Json, path: seq<Step>, v: Json)
    decreases |path|
  {
    if path == [] then j == v
    else
      (j.Obj? && path[0].Key? && path[0].name in j.fields && (|path| == 1 || j.fields[path[0].name].Obj? || j.fields[path[0].name].Arr?)
         && Reaches(j.fields[path[0].name], path[1..], v))
      || (j.Arr? && path[0].Index? && path[0].i < |j.items| && (|path| == 1 || j.items[path[0].i].Obj? || j.items[path[0].i].Arr?)
         && Reaches(j.items[path[0].i], path[1..], v))
  }

  const TEXT_PATH := [Key("content"), Key("parts"), Index(0), Key("text")]

  /** The text `extract_text_from_response` returns, or the message of the exception it raised. */
  datatype Extraction = Extracted(text: string) | ExtractFailed(message: string)

  /**
   * `extract_text_from_response`: the placeholder when there are no
   * candidates; otherwise the text of the first candidate's first part, or
   * the placeholder when that text is nil or false. A response of another
   * shape can make Ruby raise on the way: `[]` on an array, `empty?` on a
   * number, `dig` on a first candidate that is nil or a string.
   */
  function ExtractText(response: Json): (r: Extraction)
    ensures response.Obj? && Field(response, "candidates") in {Null, Arr([]), Obj(map[]), Str("")} ==> r == Extracted(NO_RESPONSE)
    ensures r.Extracted? && r.text != NO_RESPONSE ==>
      response.Obj? && Field(response, "candidates").Arr? && Field(response, "candidates").items != []
      && Dig(Field(response, "candidates").items[0], TEXT_PATH) == Value(Str(r.text))
    ensures response.Obj? && Field(response, "candidates").Obj? && Field(response, "candidates").fields != map[] ==>
      r == ExtractFailed(NoMethod("dig", Null))
    ensures response.Arr? ==> r == ExtractFailed(NO_STRING_INDEX)
    ensures response.Obj? && Field(response, "candidates").Arr? && Field(response, "candidates").items != [] ==>
      (var found := Dig(Field(response, "candidates").items[0], TEXT_PATH);
       (found.Value? && found.value.Str? ==> r == Extracted(found.value.s))
       && (found == Value(Null) ==> r == Extracted(NO_RESPONSE))
       && (found.Raise? ==> r == ExtractFailed(found.message)))
  {
    match Subscript(response, "candidates")
    case Raise(m) => ExtractFailed(m)
    case Value(candidates) =>
      if candidates.Null? then Extracted(NO_RESPONSE)
      else match IsEmpty(candidates)
        case Raise(m) => ExtractFailed(m)
        case Value(empty) =>
          if empty == Bool(true) then Extracted(NO_RESPONSE)
          else match Dig(First(candidates), TEXT_PATH)
            case Raise(m) => ExtractFailed(m)
            case Value(content) =>
              if content.Str? then Extracted(content.s) else Extracted(NO_RESPONSE)
  }

  /** A response of the documented shape yields its text. */
  lemma ExtractWellFormed(t: string)
    ensures ExtractText(Obj(map["candidates" := Arr([Obj(map["content" := Obj(map["parts" := Arr([Obj(map["text" := Str(t)])])])])])])) == Extracted(t)
  {
    var part := Obj(map["text" := Str(t)]);
    var candidate := Obj(map["content" := Obj(map["parts" := Arr([part])])]);
    assert Reaches(part, [Key("text")], Str(t));
    assert Reaches(Arr([part]), [Index(0), Key("text")], Str(t));
    assert Reaches(Obj(map["parts" := Arr([part])]), TEXT_PATH[1..], Str(t));
    assert Reaches(candidate, TEXT_PATH, Str(t));
    DigFollows(candidate, TEXT_PATH, Str(t));
  }

  /**
   * A first candidate without the text path (here without `content`)
   * yields the placeholder, whatever the other candidates hold.
   */
  lemma MissingPathPlaceholder(rest: seq<Json>)
    ensures ExtractText(Obj(map["candidates" := Arr([Obj(map[])] + rest)])) == Extracted(NO_RESPONSE)
  {
    var candidates := Arr([Obj(map[])] + rest);
    assert Subscript(Obj(map["candidates" := candidates]), "candidates") == Value(candidates);
    assert DigIn(Obj(map[]), TEXT_PATH) == Value(Null);
  }

  /**
   * Candidates given as a hash rather than a list: `candidates[0]` is nil
   * and `dig` on it raises, an error the retry loop does not retry.
   */
  lemma CandidatesHashRaises()
    ensures ExtractText(Obj(map["candidates" := Obj(map["x" := Int(1)])])) == ExtractFailed(NoMethod("dig", Null))
  {
    var candidates := Obj(map["x" := Int(1)]);
    assert "x" in candidates.fields;
    assert Subscript(Obj(map["candidates" := candidates]), "candidates") == Value(candidates);
    assert IsEmpty(candidates) == Value(Bool(false));
    assert First(candidates) == Null;
  }

  /** Letters other than 'v', spaces and the punctuation of Ruby's messages: no digit, no overload, no empty answer. */
  predicate QuietChar(c: char) {
    ('A' <= c <= 'Z') || ('a' <= c <= 'z' && c != 'v') || c == ' ' || c == '\'' || c == '?' || c == '[' || c == ']'
  }

  predicate Quiet(s: string) {
    forall i :: 0 <= i < |s| ==> QuietChar(s[i])
  }

  /** A message made of quiet characters is not retried. */
  lemma QuietNotRetried(m: string)
    requires Quiet(m)
    ensures !IsRetryable(m)
  {
    forall c | c in m
      ensures QuietChar(c)
    {
      var i :| 0 <= i < |m| && m[i] == c;
    }
    NotRetryableWithout(m);
  }

  /** How a `NoMethodError` names its receiver uses quiet characters only. */
  lemma ReceiverQuiet(j: Json)
    ensures Quiet(Receiver(j))
  {
    match j
    case Null => assert Quiet("nil");
    case Bool(b) => assert Quiet("true") && Quiet("false");
    case _ =>
      assert Quiet("an instance of ");
      ClassNameQuiet(j);
      QuietAppend("an instance of ", ClassName(j));
  }

  lemma ClassNameQuiet(j: Json)
    ensures Quiet(ClassName(j))
  {
    match j
    case Null => assert Quiet("NilClass");
    case Bool(b) => assert Quiet("TrueClass") && Quiet("FalseClass");
    case Int(_) => assert Quiet("Integer");
    case Decimal(_) => assert Quiet("Float");
    case Str(_) => assert Quiet("String");
    case Arr(_) => assert Quiet("Array");
    case Obj(_) => assert Quiet("Hash");
  }

  /**
   * A `NoMethodError` raised on a parsed value (`dig` on nil, `empty?` on
   * a number) is never retried: its message names no status code and no
   * overload.
   */
  lemma NoMethodNotRetried(name: string, j: Json)
    requires Quiet(name)
    ensures !IsRetryable(NoMethod(name, j))
  {
    ReceiverQuiet(j);
    var head := "undefined method '";
    var mid := "' for ";
    assert Quiet(head) && Quiet(mid);
    var m := NoMethod(name, j);
    assert m == head + name + mid + Receiver(j);
    assert Quiet(m) by {
      QuietAppend(head, name);
      QuietAppend(head + name, mid);
      QuietAppend(head + name + mid, Receiver(j));
    }
    QuietNotRetried(m);
  }

  lemma QuietAppend(a: string, b: string)
    requires Quiet(a) && Quiet(b)
    ensures Quiet(a + b)
  {
    forall i | 0 <= i < |a + b|
      ensures QuietChar((a + b)[i])
    {
      if i >= |a| {
        assert (a + b)[i] == b[i - |a|];
      }
    }
  }

  // ----- The streamed answer -----

  /** A frame terminator "\n\n" starts at `i`. */
  predicate SepAt(s: string, i: int) {
    0 <= i && i + 1 < |s| && s[i] == '\n' && s[i + 1] == '\n'
  }

  ghost predicate NoSep(s: string) {
    forall j :: !SepAt(s, j)
  }

  /** `index("\n\n", from)`: the first terminator at or after `from`, if any. */
  function FindSepFrom(s: string, from: nat): (r: Option<nat>)
    ensures r.Some? ==> SepAt(s, r.value) && from <= r.value
    decreases |s| - from
  {
    if from + 1 >= |s| then None
    else if s[from] == '\n' && s[from + 1] == '\n' then Some(from)
    else FindSepFrom(s, from + 1)
  }

  /** `index("\n\n")`: the first terminator, if any. */
  function FindSep(s: string): (r: Option<nat>)
    ensures r.Some? ==> SepAt(s, r.value)
  {
    FindSepFrom(s, 0)
  }

  lemma {:induction false} FindSepFromFirst(s: string, from: nat)
    ensures FindSepFrom(s, from).Some? ==> forall j :: from <= j < FindSepFrom(s, from).value ==> !SepAt(s, j)
    ensures FindSepFrom(s, from).None? ==> forall j :: from <= j ==> !SepAt(s, j)
    decreases |s| - from
  {
    if from + 1 < |s| && !(s[from] == '\n' && s[from + 1] == '\n') {
      FindSepFromFirst(s, from + 1);
    }
  }

  /** `FindSep` finds the first terminator, and finds none only when there is none. */
  lemma FindSepFirst(s: string)
    ensures FindSep(s).Some? ==> forall j :: 0 <= j < FindSep(s).value ==> !SepAt(s, j)
    ensures FindSep(s).None? ==> NoSep(s)
  {
    FindSepFromFirst(s, 0);
  }

  /** The frames cut off a text at each terminator, and what remains after the last one. */
  datatype Cut = Cut(frames: seq<string>, rest: string)

  /**
   * Cutting at the first terminator, repeatedly: every frame and the
   * remainder hold no terminator.
   */
  function CutFrames(s: string): Cut
    decreases |s|
  {
    match FindSep(s)
    case None => Cut([], s)
    case Some(i) =>
      var c := CutFrames(s[i + 2..]);
      Cut([s[..i]] + c.frames, c.rest)
  }

  /** Neither a frame nor the remainder holds a terminator. */
  lemma {:induction false} CutFramesNoSep(s: string)
    ensures NoSep(CutFrames(s).rest)
    ensures forall k :: 0 <= k < |CutFrames(s).frames| ==> NoSep(CutFrames(s).frames[k])
    decreases |s|
  {
    FindSepFirst(s);
    match FindSep(s)
    case None =>
    case Some(i) =>
      CutFramesNoSep(s[i + 2..]);
      assert forall j :: SepAt(s[..i], j) ==> SepAt(s, j) && j < i;
  }

  /** Each frame followed by its terminator. */
  function Terminated(frames: seq<string>): string {
    if frames == [] then [] else frames[0] + "\n\n" + Terminated(frames[1..])
  }

  /** The frames with their terminators, then the remainder, give back the text. */
  lemma {:induction false} CutFramesRebuild(s: string)
    ensures Terminated(CutFrames(s).frames) + CutFrames(s).rest == s
    decreases |s|
  {
    match FindSep(s)
    case None =>
    case Some(i) =>
      var tail := s[i + 2..];
      CutFramesRebuild(tail);
      var c := CutFrames(tail);
      assert CutFrames(s) == Cut([s[..i]] + c.frames, c.rest);
      TerminatedCons(s[..i], c.frames, c.rest);
      SplitAtSep(s, i);
  }

  lemma TerminatedCons(f: string, fs: seq<string>, rest: string)
    ensures Terminated([f] + fs) + rest == (f + "\n\n") + (Terminated(fs) + rest)
  {
    assert ([f] + fs)[1..] == fs;
  }

  lemma SplitAtSep(s: string, i: nat)
    requires SepAt(s, i)
    ensures s == (s[..i] + "\n\n") + s[i + 2..]
  {
    assert s[i..i + 2] == "\n\n";
    assert s == s[..i] + s[i..i + 2] + s[i + 2..];
  }

  lemma {:induction false} FindSepFromAppend(x: string, c: string, from: nat)
    requires FindSepFrom(x, from).Some?
    ensures FindSepFrom(x + c, from) == FindSepFrom(x, from)
    decreases |x| - from
  {
    assert (x + c)[from] == x[from] && (x + c)[from + 1] == x[from + 1];
    if !(x[from] == '\n' && x[from + 1] == '\n') {
      FindSepFromAppend(x, c, from + 1);
    }
  }

  /** The first terminator of a text stays the first terminator when more text is appended. */
  lemma FindSepAppend(x: string, c: string)
    requires FindSep(x).Some?
    ensures FindSep(x + c) == FindSep(x)
  {
    FindSepFromAppend(x, c, 0);
  }

  /**
   * Reading in two pieces cuts the same frames as reading at once: the
   * frames of the first piece, then those of its remainder joined to the
   * second piece.
   */
  lemma {:induction false} CutFramesAppend(x: string, c: string)
    ensures CutFrames(x + c).frames == CutFrames(x).frames + CutFrames(CutFrames(x).rest + c).frames
    ensures CutFrames(x + c).rest == CutFrames(CutFrames(x).rest + c).rest
    decreases |x|
  {
    match FindSep(x)
    case None =>
      assert CutFrames(x) == Cut([], x);
    case Some(i) =>
      var tail := x[i + 2..];
      CutFramesAppend(tail, c);
      CutFramesAppendSome(x, c, i);
      CutFramesUnfold(x, i);
      SeqAssoc([x[..i]], CutFrames(tail).frames, CutFrames(CutFrames(tail).rest + c).frames);
  }

  lemma CutFramesUnfold(x: string, i: nat)
    requires FindSep(x) == Some(i)
    ensures CutFrames(x) == Cut([x[..i]] + CutFrames(x[i + 2..]).frames, CutFrames(x[i + 2..]).rest)
  {
  }

  /** Unfolding `CutFrames` on a text extended past its first terminator. */
  lemma CutFramesAppendSome(x: string, c: string, i: nat)
    requires FindSep(x) == Some(i)
    ensures CutFrames(x + c) == Cut([x[..i]] + CutFrames(x[i + 2..] + c).frames, CutFrames(x[i + 2..] + c).rest)
  {
    FindSepAppend(x, c);
    assert (x + c)[i + 2..] == x[i + 2..] + c;
    assert (x + c)[..i] == x[..i];
  }

  const DATA_PREFIX := "data: "
  const STREAM_TEXT_PATH := [Key("candidates"), Index(0), Key("content"), Key("parts"), Index(0), Key("text")]

  /** What one frame does: nothing, hand a text to the caller's block, or raise. */
  datatype FrameEffect = Skip | Deliver(text: string) | Abort(message: string)

  /**
   * One frame of the stream: after stripping, a frame that is empty, does
   * not start with "data: ", has a blank payload or fails to parse is
   * skipped. Otherwise `dig` looks for the text: nil, false or an empty
   * text is skipped, a non-empty text is delivered, and `dig` or `empty?`
   * raising (a payload that is not a hash, a number as text) aborts the
   * read, since only parse errors are rescued.
   */
  function FrameDelta(frame: string, parse: string -> Option<Json>): (e: FrameEffect)
    ensures !e.Skip? ==> StartsWith(Trim(frame), DATA_PREFIX) && parse(Trim(frame)[|DATA_PREFIX|..]).Some?
    ensures e.Deliver? ==> e.text != [] && Dig(parse(Trim(frame)[|DATA_PREFIX|..]).value, STREAM_TEXT_PATH) == Value(Str(e.text))
    ensures e.Abort? ==>
      (var found := Dig(parse(Trim(frame)[|DATA_PREFIX|..]).value, STREAM_TEXT_PATH);
       found.Raise? || IsEmpty(found.value).Raise?)
    ensures StartsWith(Trim(frame), DATA_PREFIX) && Trim(Trim(frame)[|DATA_PREFIX|..]) == [] ==> e == Skip
    ensures StartsWith(Trim(frame), DATA_PREFIX) && parse(Trim(frame)[|DATA_PREFIX|..]).None? ==> e == Skip
    ensures (StartsWith(Trim(frame), DATA_PREFIX) && Trim(Trim(frame)[|DATA_PREFIX|..]) != []
             && parse(Trim(frame)[|DATA_PREFIX|..]).Some?) ==>
      (var found := Dig(parse(Trim(frame)[|DATA_PREFIX|..]).value, STREAM_TEXT_PATH);
       (found.Value? && found.value.Str? && found.value.s != [] ==> e == Deliver(found.value.s))
       && (found.Value? && (found.value == Null || found.value == Str([])) ==> e == Skip)
       && (found.Raise? ==> e == Abort(found.message)))
  {
    var line := Trim(frame);
    if line == [] || !StartsWith(line, DATA_PREFIX) then Skip
    else
      var payload := line[|DATA_PREFIX|..];
      if Trim(payload) == [] then Skip
      else match parse(payload)
        case None => Skip
        case Some(data) =>
          match Dig(data, STREAM_TEXT_PATH)
          case Raise(m) => Abort(m)
          case Value(text) =>
            if !Truthy(text) then Skip
            else match IsEmpty(text)
              case Raise(m) => Abort(m)
              case Value(empty) => if empty != Bool(true) && text.Str? then Deliver(text.s) else Skip
  }

  /** The texts a run of frames delivers, in order, and the message of the exception that stopped it, if any. */
  datatype Scan = Scan(deltas: seq<string>, abort: Option<string>)

  /** A frame's effect followed by the scan of the frames after it: an abort discards what follows. */
  function Then(e: FrameEffect, rest: Scan): Scan {
    match e
    case Skip => rest
    case Deliver(t) => Scan([t] + rest.deltas, rest.abort)
    case Abort(m) => Scan([], Some(m))
  }

  /** Frames handled one by one by `effect` until one raises. */
  function ScanWith(frames: seq<string>, effect: string -> FrameEffect): Scan
    decreases |frames|
  {
    if frames == [] then Scan([], None) else Then(effect(frames[0]), ScanWith(frames[1..], effect))
  }

  /** The frames of a stream handled one by one until one raises. */
  function ScanFrames(frames: seq<string>, parse: string -> Option<Json>): Scan {
    ScanWith(frames, frame => FrameDelta(frame, parse))
  }

  /** Two scans one after the other: the second counts only when the first raised nothing. */
  function Join(a: Scan, b: Scan): Scan {
    if a.abort.Some? then a else Scan(a.deltas + b.deltas, b.abort)
  }

  /** A frame's effect commutes with joining a later scan. */
  lemma ThenJoin(e: FrameEffect, x: Scan, y: Scan)
    ensures Join(Then(e, x), y) == Then(e, Join(x, y))
  {
    if e.Deliver? && x.abort.None? {
      SeqAssoc([e.text], x.deltas, y.deltas);
    }
  }

  lemma {:induction false} ScanWithAppend(a: seq<string>, b: seq<string>, effect: string -> FrameEffect)
    ensures ScanWith(a + b, effect) == Join(ScanWith(a, effect), ScanWith(b, effect))
    decreases |a|
  {
    if a == [] {
      assert a + b == b;
      assert [] + ScanWith(b, effect).deltas == ScanWith(b, effect).deltas;
    } else {
      ScanWithAppend(a[1..], b, effect);
      assert (a + b)[1..] == a[1..] + b;
      assert (a + b)[0] == a[0];
      ThenJoin(effect(a[0]), ScanWith(a[1..], effect), ScanWith(b, effect));
    }
  }

  /** Handling two runs of frames: the second counts only when the first raised nothing. */
  lemma ScanAppend(a: seq<string>, b: seq<string>, parse: string -> Option<Json>)
    ensures ScanFrames(a + b, parse) == Join(ScanFrames(a, parse), ScanFrames(b, parse))
  {
    ScanWithAppend(a, b, frame => FrameDelta(frame, parse));
  }

  /** At most one text per frame, and never an empty one. */
  lemma {:induction false} ScanNonEmpty(frames: seq<string>, parse: string -> Option<Json>)
    ensures |ScanFrames(frames, parse).deltas| <= |frames|
    ensures forall k :: 0 <= k < |ScanFrames(frames, parse).deltas| ==> ScanFrames(frames, parse).deltas[k] != []
    decreases |frames|
  {
    if frames != [] {
      ScanNonEmpty(frames[1..], parse);
    }
  }

  /**
   * Text after the last terminator is never handled: appending a tail
   * that completes no frame changes nothing.
   */
  lemma UnterminatedTailIgnored(body: string, tail: string, parse: string -> Option<Json>)
    requires NoSep(CutFrames(body).rest + tail)
    ensures ScanFrames(CutFrames(body + tail).frames, parse) == ScanFrames(CutFrames(body).frames, parse)
  {
    CutFramesAppend(body, tail);
    var r := CutFrames(body).rest + tail;
    assert FindSep(r).None?;
    assert CutFrames(r).frames == [];
    assert CutFrames(body).frames + [] == CutFrames(body).frames;
  }

  /** Cutting off the first frame of a buffer. */
  lemma CutFirstFrame(buffer: string, lineEnd: nat, parse: string -> Option<Json>)
    requires FindSep(buffer) == Some(lineEnd)
    ensures ScanFrames(CutFrames(buffer).frames, parse) == Then(FrameDelta(buffer[..lineEnd], parse), ScanFrames(CutFrames(buffer[lineEnd + 2..]).frames, parse))
    ensures CutFrames(buffer).rest == CutFrames(buffer[lineEnd + 2..]).rest
  {
    var next := CutFrames(buffer[lineEnd + 2..]);
    CutFramesUnfold(buffer, lineEnd);
    var fs := [buffer[..lineEnd]] + next.frames;
    assert fs[1..] == next.frames;
    assert fs[0] == buffer[..lineEnd];
  }

  /** A buffer without a terminator is all remainder. */
  lemma CutNoFrame(buffer: string)
    requires FindSep(buffer).None?
    ensures CutFrames(buffer) == Cut([], buffer)
  {
  }

  /** Once the frames of a text raised, text appended after it changes nothing. */
  lemma AbortStops(x: string, c: string, parse: string -> Option<Json>)
    requires ScanFrames(CutFrames(x).frames, parse).abort.Some?
    ensures ScanFrames(CutFrames(x + c).frames, parse) == ScanFrames(CutFrames(x).frames, parse)
  {
    CutFramesAppend(x, c);
    ScanAppend(CutFrames(x).frames, CutFrames(CutFrames(x).rest + c).frames, parse);
  }

  /** Once the frames of the first `k + 1` pieces raised, the pieces after them change nothing. */
  lemma AbortIsFinal(chunks: seq<string>, k: nat, parse: string -> Option<Json>)
    requires k < |chunks|
    requires ScanFrames(CutFrames(Concat(chunks[..k + 1])).frames, parse).abort.Some?
    ensures ScanFrames(CutFrames(Concat(chunks)).frames, parse) == ScanFrames(CutFrames(Concat(chunks[..k + 1])).frames, parse)
  {
    ConcatSplit(chunks, k + 1);
    AbortStops(Concat(chunks[..k + 1]), Concat(chunks[k + 1..]), parse);
  }

  /** The handling of one frame cut off the buffer, as the `read_body` loop does it. */
  method HandleFrame(frame: string, parse: string -> Option<Json>) returns (e: FrameEffect)
    ensures e == FrameDelta(frame, parse)
  {
    e := Skip;
    var line := Trim(frame);
    if line == [] || !StartsWith(line, DATA_PREFIX) {
      return;
    }
    var jsonStr := line[|DATA_PREFIX|..];
    if Trim(jsonStr) == [] {
      return;
    }
    match parse(jsonStr)
    case None =>
    case Some(data) =>
      match Dig(data, STREAM_TEXT_PATH)
      case Raise(m) =>
        e := Abort(m);
      case Value(text) =>
        if Truthy(text) {
          match IsEmpty(text)
          case Raise(m) =>
            e := Abort(m);
          case Value(empty) =>
            if empty != Bool(true) && text.Str? {
              e := Deliver(text.s);
            }
        }
  }

  /**
   * The `read_body` loop: each chunk is appended to the buffer, and while
   * the buffer holds a terminator the frame before it is cut off and
   * handled, until a frame raises. The texts delivered, the exception and
   * the buffer left over are those of the whole body, however it was
   * chunked.
   */
  method ReadBody(chunks: seq<string>, parse: string -> Option<Json>) returns (deltas: seq<string>, chunkCount: nat, buffer: string, abort: Option<string>)
    ensures Scan(deltas, abort) == ScanFrames(CutFrames(Concat(chunks)).frames, parse)
    ensures abort.None? ==> buffer == CutFrames(Concat(chunks)).rest
    ensures chunkCount == |deltas|
  {
    deltas := [];
    chunkCount := 0;
    buffer := "";
    abort := None;
    var k := 0;
    while k < |chunks| && abort.None?
      invariant 0 <= k <= |chunks|
      invariant abort.None? ==> Scan(deltas, None) == ScanFrames(CutFrames(Concat(chunks[..k])).frames, parse)
      invariant abort.None? ==> buffer == CutFrames(Concat(chunks[..k])).rest
      invariant abort.Some? ==> Scan(deltas, abort) == ScanFrames(CutFrames(Concat(chunks)).frames, parse)
      invariant chunkCount == |deltas|
    {
      ghost var whole := Concat(chunks[..k + 1]);
      ConcatSnoc(chunks, k);
      CutFramesAppend(Concat(chunks[..k]), chunks[k]);
      ScanAppend(CutFrames(Concat(chunks[..k])).frames, CutFrames(buffer + chunks[k]).frames, parse);
      buffer := buffer + chunks[k];
      while FindSep(buffer).Some? && abort.None?
        invariant abort.None? ==> Join(Scan(deltas, None), ScanFrames(CutFrames(buffer).frames, parse)) == ScanFrames(CutFrames(whole).frames, parse)
        invariant abort.None? ==> CutFrames(buffer).rest == CutFrames(whole).rest
        invariant abort.Some? ==> Scan(deltas, abort) == ScanFrames(CutFrames(whole).frames, parse)
        invariant chunkCount == |deltas|
        decreases |buffer|
      {
        var lineEnd := FindSep(buffer).value;
        CutFirstFrame(buffer, lineEnd, parse);
        var effect := HandleFrame(buffer[..lineEnd], parse);
        ghost var before := deltas;
        buffer := buffer[lineEnd + 2..];
        ghost var next := ScanFrames(CutFrames(buffer).frames, parse);
        match effect
        case Skip =>
        case Deliver(x) =>
          chunkCount := chunkCount + 1;
          deltas := deltas + [x];
          SeqAssoc(before, [x], next.deltas);
        case Abort(m) =>
          abort := Some(m);
          assert before + [] == before;
      }
      if abort.Some? {
        AbortIsFinal(chunks, k, parse);
      } else {
        CutNoFrame(buffer);
        assert ScanFrames(CutFrames(buffer).frames, parse) == Scan([], None);
        assert deltas + [] == deltas;
      }
      k := k + 1;
    }
    if abort.None? {
      assert chunks[..k] == chunks;
    }
  }

  const ERROR_MESSAGE_PATH := [Key("error"), Key("message")]

  /**
   * What a request with a failure status raises. The body is parsed (one
   * that is not JSON reads as `{}`, `errorBody` none) and
   * `dig('error', 'message')` looked up; a message is put after "API 요청
   * 실패: ", nil or false giving way to the status text. When `dig` itself
   * raises (a body that is a list or a string, an `error` that is a
   * string), that exception is what the attempt raises.
   */
  function FailureMessage(errorBody: Option<Json>, statusText: string): (m: string)
    ensures errorBody.None? ==> m == API_FAILURE_PREFIX + statusText
    ensures errorBody.Some? ==>
      (var found := Dig(errorBody.value, ERROR_MESSAGE_PATH);
       (found.Raise? ==> m == found.message)
       && (found.Value? && found.value.Str? ==> m == API_FAILURE_PREFIX + found.value.s)
       && (found.Value? && !Truthy(found.value) ==> m == API_FAILURE_PREFIX + statusText))
  {
    match errorBody
    case None => API_FAILURE_PREFIX + statusText
    case Some(body) =>
      match Dig(body, ERROR_MESSAGE_PATH)
      case Raise(e) => e
      case Value(found) =>
        if !Truthy(found) then API_FAILURE_PREFIX + statusText
        else match found
          case Str(s) => API_FAILURE_PREFIX + s
          case Int(n) => API_FAILURE_PREFIX + IntToString(n)
          case Bool(_) => API_FAILURE_PREFIX + "true"
          case _ => API_FAILURE_PREFIX + statusText
  }

  /** Gemini's documented error body puts its message after the prefix. */
  lemma GeminiErrorMessage(message: string, statusText: string)
    ensures FailureMessage(Some(Obj(map["error" := Obj(map["message" := Str(message)])])), statusText)
      == API_FAILURE_PREFIX + message
  {
    var inner := Obj(map["message" := Str(message)]);
    assert Reaches(Obj(map["error" := inner]), ERROR_MESSAGE_PATH, Str(message));
    DigFollows(Obj(map["error" := inner]), ERROR_MESSAGE_PATH, Str(message));
  }

  /**
   * A body whose `error` is a string, or a body that is a list, makes `dig`
   * raise `TypeError`: the attempt fails with Ruby's message and without
   * the prefix.
   */
  lemma ErrorBodyDigRaises(text: string, items: seq<Json>, statusText: string)
    ensures FailureMessage(Some(Obj(map["error" := Str(text)])), statusText) == NotDiggable(Str(text))
    ensures FailureMessage(Some(Arr(items)), statusText) == NO_STRING_INDEX
  {
    assert Lookup(Obj(map["error" := Str(text)]), Key("error")) == Value(Str(text));
  }

  /** What the server sends for one streamed request. */
  datatype StreamResponse = StreamResponse(
    /** The status was 2xx. */
    success: bool,
    /** For a failure: the body parsed as JSON, none when it is not JSON. */
    errorBody: Option<Json>,
    /** For a failure: the status text (`response.message`). */
    statusText: string,
    /** The body as it arrives, piece by piece. */
    chunks: seq<string>,
    /** An exception raised while reading, after those pieces (a timeout, a reset connection). */
    interruption: Option<string>)

  /**
   * One attempt of a request: the texts handed to the caller's block during
   * it, and either its value or the message of the error it raised.
   */
  datatype Attempt = Succeeded(emitted: seq<string>, value: string) | Failed(emitted: seq<string>, message: string)

  /** The frames of a streamed body, handled until one raises. */
  function BodyScan(resp: StreamResponse, parse: string -> Option<Json>): Scan {
    ScanFrames(CutFrames(Concat(resp.chunks)).frames, parse)
  }

  /**
   * `make_stream_request` on one response: a failure status raises "API
   * 요청 실패: …" before any text; otherwise the frames' texts are delivered
   * until a frame raises, which ends the attempt with that exception; an
   * interruption raises after the whole body, and a complete body that
   * delivered no text raises the empty-answer error.
   */
  function StreamAttempt(resp: StreamResponse, parse: string -> Option<Json>): (a: Attempt)
    ensures !resp.success ==> a == Failed([], FailureMessage(resp.errorBody, resp.statusText))
    ensures resp.success ==> a.emitted == BodyScan(resp, parse).deltas
    ensures resp.success && BodyScan(resp, parse).abort.Some? ==> a == Failed(a.emitted, BodyScan(resp, parse).abort.value)
    ensures a.Succeeded? <==> resp.success && resp.interruption.None? && BodyScan(resp, parse).abort.None? && a.emitted != []
  {
    if !resp.success then Failed([], FailureMessage(resp.errorBody, resp.statusText))
    else
      var s := BodyScan(resp, parse);
      if s.abort.Some? then Failed(s.deltas, s.abort.value)
      else if resp.interruption.Some? then Failed(s.deltas, resp.interruption.value)
      else if s.deltas == [] then Failed([], EMPTY_RESPONSE)
      else Succeeded(s.deltas, "")
  }

  /** `make_stream_request`, with the body read by `ReadBody`. */
  method MakeStreamRequest(resp: StreamResponse, parse: string -> Option<Json>) returns (a: Attempt)
    ensures a == StreamAttempt(resp, parse)
  {
    if !resp.success {
      return Failed([], FailureMessage(resp.errorBody, resp.statusText));
    }
    var deltas, chunkCount, _, abort := ReadBody(resp.chunks, parse);
    if abort.Some? {
      return Failed(deltas, abort.value);
    }
    if resp.interruption.Some? {
      return Failed(deltas, resp.interruption.value);
    }
    if chunkCount == 0 {
      return Failed([], EMPTY_RESPONSE);
    }
    return Succeeded(deltas, "");
  }

  /**
   * A frame whose payload is a list: `dig` with a string key on an array
   * raises `TypeError`, and the attempt fails with it after the texts of
   * the frames before.
   */
  lemma ListFrameAborts(parse: string -> Option<Json>)
    requires parse("[1]") == Some(Arr([Int(1)]))
    ensures FrameDelta("data: [1]", parse) == Abort(NO_STRING_INDEX)
  {
    assert Trim("data: [1]") == "data: [1]";
    assert "data: [1]"[|DATA_PREFIX|..] == "[1]";
  }

  /** A streamed frame's payload of the documented shape, carrying `t` as its text. */
  function StreamPayload(t: Json): Json {
    Obj(map["candidates" := Arr([Obj(map["content" := Obj(map["parts" := Arr([Obj(map["text" := t])])])])])])
  }

  /** `dig` finds the text of a payload of the documented shape. */
  lemma StreamPayloadDig(t: Json)
    ensures Dig(StreamPayload(t), STREAM_TEXT_PATH) == Value(t)
  {
    var part := Obj(map["text" := t]);
    var parts := Arr([part]);
    var content := Obj(map["parts" := parts]);
    var candidate := Obj(map["content" := content]);
    assert DigIn(part, STREAM_TEXT_PATH[5..]) == Value(t);
    assert DigIn(parts, STREAM_TEXT_PATH[4..]) == Value(t);
    assert DigIn(content, STREAM_TEXT_PATH[3..]) == Value(t);
    assert DigIn(candidate, STREAM_TEXT_PATH[2..]) == Value(t);
    assert DigIn(Arr([candidate]), STREAM_TEXT_PATH[1..]) == Value(t);
  }

  /**
   * A data frame whose payload parses to the documented shape with a
   * non-empty text hands exactly that text to the caller's block.
   */
  lemma DataFrameDelivers(x: string, t: string, parse: string -> Option<Json>)
    requires x != [] && Trimmed(x) && t != [] && parse(x) == Some(StreamPayload(Str(t)))
    ensures FrameDelta(DATA_PREFIX + x, parse) == Deliver(t)
  {
    var frame := DATA_PREFIX + x;
    assert frame[0] == 'd' && frame[|frame| - 1] == x[|x| - 1];
    TrimIdentity(frame);
    TrimIdentity(x);
    assert frame[|DATA_PREFIX|..] == x;
    assert StartsWith(frame, DATA_PREFIX);
    StreamPayloadDig(Str(t));
  }

  /** A frame whose text is a number: `empty?` on an integer raises `NoMethodError`. */
  lemma NumberTextAborts(parse: string -> Option<Json>)
    requires parse("5") == Some(StreamPayload(Int(5)))
    ensures FrameDelta("data: 5", parse) == Abort(NoMethod("empty?", Int(5)))
  {
    assert Trim("data: 5") == "data: 5";
    assert "data: 5"[|DATA_PREFIX|..] == "5";
    StreamPayloadDig(Int(5));
  }

  /** What a plain (non-streamed) request yields. */
  datatype Reply =
    | Answered(body: Json)
    /** A failure status, with the body parsed as JSON (none when it is not JSON) and the status text. */
    | HttpError(errorBody: Option<Json>, statusText: string)
    /** Any other exception (a timeout, a body that is not JSON), with its message. */
    | Raised(message: string)

  /** One attempt of `make_request` plus `extract_text_from_response`. */
  function ChatAttempt(reply: Reply): (a: Attempt)
    ensures a.emitted == []
    ensures a.Succeeded? <==> reply.Answered? && ExtractText(reply.body).Extracted?
    ensures a.Succeeded? ==> a.value == ExtractText(reply.body).text
    ensures reply.Answered? && ExtractText(reply.body).ExtractFailed? ==> a.message == ExtractText(reply.body).message
    ensures reply.HttpError? ==> a == Failed([], FailureMessage(reply.errorBody, reply.statusText))
  {
    match reply
    case Answered(body) =>
      (match ExtractText(body)
       case Extracted(text) => Succeeded([], text)
       case ExtractFailed(message) => Failed([], message))
    case HttpError(errorBody, statusText) => Failed([], FailureMessage(errorBody, statusText))
    case Raised(message) => Failed([], message)
  }

  // ----- Retries -----

  /** A `5\d\d` match somewhere in the text. */
  predicate Has5xx(s: string) {
    exists i :: 0 <= i && i + 2 < |s| && s[i] == '5' && IsDigit(s[i + 1]) && IsDigit(s[i + 2])
  }

  /** The transient failures: overload, 429 (RFC 6585 section 4), a 5xx code, or an empty answer. */
  predicate IsRetryable(message: string) {
    Contains(message, "overloaded") || Contains(message, "429") || Has5xx(message) || Contains(message, "빈 응답")
  }

  /** The back-off before the retry that follows attempt `attempt` (1 or 2): 0.8 s doubled per attempt. */
  function BackoffMs(attempt: nat): (ms: nat)
    ensures attempt == 1 ==> ms == 800
    ensures attempt == 2 ==> ms == 1600
  {
    if attempt <= 1 then BASE_SLEEP_MS else 2 * BackoffMs(attempt - 1)
  }

  /**
   * The record of a `with_retries` run: the last attempt, the texts every
   * attempt handed to the block, the number of attempts (as the index of
   * the next one), the sleeps in milliseconds, and `@model` at the end.
   */
  datatype RetryRun = RetryRun(outcome: Attempt, emitted: seq<string>, calls: nat, delays: seq<int>, model: string)

  /**
   * `with_retries` from the state "`attempt` attempts already made on
   * `model`, the next one being number `calls` overall": a success ends the
   * run; a retryable failure is retried on the same model while fewer than
   * three attempts were made, then once more from zero on the lite model
   * unless that is already in use; any other failure ends the run.
   */
  function RetryFrom(model: string, attempt: nat, calls: nat, run: (string, nat) -> Attempt, jitter: nat -> int): RetryRun
    requires attempt < MAX_ATTEMPTS
    decreases (if model == LITE_MODEL then 0 else 1), MAX_ATTEMPTS - attempt
  {
    var o := run(model, calls);
    var tried := attempt + 1;
    if o.Succeeded? then RetryRun(o, o.emitted, calls + 1, [], model)
    else if IsRetryable(o.message) && tried < MAX_ATTEMPTS then
      After(o.emitted, [BackoffMs(tried) + jitter(calls)], RetryFrom(model, tried, calls + 1, run, jitter))
    else if IsRetryable(o.message) && model != LITE_MODEL then
      After(o.emitted, [], RetryFrom(LITE_MODEL, 0, calls + 1, run, jitter))
    else RetryRun(o, o.emitted, calls + 1, [], model)
  }

  /** A run preceded by attempts that delivered `emitted` and slept `delays`. */
  function After(emitted: seq<string>, delays: seq<int>, r: RetryRun): RetryRun {
    r.(emitted := emitted + r.emitted, delays := delays + r.delays)
  }

  lemma AfterAfter(e1: seq<string>, d1: seq<int>, e2: seq<string>, d2: seq<int>, r: RetryRun)
    ensures After(e1, d1, After(e2, d2, r)) == After(e1 + e2, d1 + d2, r)
  {
    SeqAssoc(e1, e2, r.emitted);
    SeqAssoc(d1, d2, r.delays);
  }

  lemma AfterNothing(r: RetryRun)
    ensures After([], [], r) == r
  {
    assert [] + r.emitted == r.emitted && [] + r.delays == r.delays;
  }

  /** One step of `RetryFrom` after a success. */
  lemma RetryStepSucceeded(model: string, attempt: nat, calls: nat, run: (string, nat) -> Attempt, jitter: nat -> int)
    requires attempt < MAX_ATTEMPTS && run(model, calls).Succeeded?
    ensures RetryFrom(model, attempt, calls, run, jitter) == RetryRun(run(model, calls), run(model, calls).emitted, calls + 1, [], model)
  {
  }

  /** One step of `RetryFrom` after a retryable failure with attempts left on the model. */
  lemma RetryStepSameModel(model: string, attempt: nat, calls: nat, run: (string, nat) -> Attempt, jitter: nat -> int)
    requires attempt + 1 < MAX_ATTEMPTS && run(model, calls).Failed? && IsRetryable(run(model, calls).message)
    ensures RetryFrom(model, attempt, calls, run, jitter)
      == After(run(model, calls).emitted, [BackoffMs(attempt + 1) + jitter(calls)], RetryFrom(model, attempt + 1, calls + 1, run, jitter))
  {
  }

  /** One step of `RetryFrom` after the last retryable failure on a model other than the lite one. */
  lemma RetryStepFallback(model: string, attempt: nat, calls: nat, run: (string, nat) -> Attempt, jitter: nat -> int)
    requires attempt + 1 == MAX_ATTEMPTS && model != LITE_MODEL
    requires run(model, calls).Failed? && IsRetryable(run(model, calls).message)
    ensures RetryFrom(model, attempt, calls, run, jitter) == After(run(model, calls).emitted, [], RetryFrom(LITE_MODEL, 0, calls + 1, run, jitter))
  {
  }

  /** One step of `RetryFrom` after a failure that ends the run. */
  lemma RetryStepStop(model: string, attempt: nat, calls: nat, run: (string, nat) -> Attempt, jitter: nat -> int)
    requires attempt < MAX_ATTEMPTS && run(model, calls).Failed?
    requires !IsRetryable(run(model, calls).message) || (attempt + 1 == MAX_ATTEMPTS && model == LITE_MODEL)
    ensures RetryFrom(model, attempt, calls, run, jitter) == RetryRun(run(model, calls), run(model, calls).emitted, calls + 1, [], model)
  {
  }

  /**
   * A run makes at most the attempts left on its model, plus three on the
   * lite model if it started elsewhere; it ends on its own model or on the
   * lite one, and the last attempt is a success or a failure that was not
   * retried.
   */
  lemma {:induction false} RetryBound(model: string, attempt: nat, calls: nat, run: (string, nat) -> Attempt, jitter: nat -> int)
    requires attempt < MAX_ATTEMPTS
    ensures var r := RetryFrom(model, attempt, calls, run, jitter);
      calls < r.calls <= calls + (MAX_ATTEMPTS - attempt) + (if model == LITE_MODEL then 0 else MAX_ATTEMPTS)
      && (r.model == model || r.model == LITE_MODEL)
      && r.outcome == run(r.model, r.calls - 1)
    decreases (if model == LITE_MODEL then 0 else 1), MAX_ATTEMPTS - attempt
  {
    var o := run(model, calls);
    if o.Succeeded? {
    } else if IsRetryable(o.message) && attempt + 1 < MAX_ATTEMPTS {
      RetryBound(model, attempt + 1, calls + 1, run, jitter);
    } else if IsRetryable(o.message) && model != LITE_MODEL {
      RetryBound(LITE_MODEL, 0, calls + 1, run, jitter);
    }
  }

  /** With the default model, which is the lite model, there is no fallback: at most three attempts. */
  lemma DefaultModelNeverFallsBack(run: (string, nat) -> Attempt, jitter: nat -> int)
    ensures RetryFrom(DEFAULT_MODEL, 0, 0, run, jitter).calls <= MAX_ATTEMPTS
    ensures RetryFrom(DEFAULT_MODEL, 0, 0, run, jitter).model == DEFAULT_MODEL
  {
    RetryBound(DEFAULT_MODEL, 0, 0, run, jitter);
  }

  /** A failure that is not retryable is raised after the attempt that met it. */
  lemma NonRetryableRaisedAtOnce(model: string, run: (string, nat) -> Attempt, jitter: nat -> int)
    requires run(model, 0).Failed? && !IsRetryable(run(model, 0).message)
    ensures RetryFrom(model, 0, 0, run, jitter) == RetryRun(run(model, 0), run(model, 0).emitted, 1, [], model)
  {
  }

  /**
   * When every attempt fails retryably: three attempts on the lite model, or
   * six (three on the configured model, then three on the lite one) with
   * sleeps of 0.8 s and 1.6 s plus jitter before each retry within a model,
   * and `@model` left on the lite model.
   */
  lemma AllRetryableFailures(model: string, run: (string, nat) -> Attempt, jitter: nat -> int)
    requires forall m, i :: run(m, i).Failed? && IsRetryable(run(m, i).message)
    ensures var r := RetryFrom(model, 0, 0, run, jitter);
      r.model == LITE_MODEL
      && (model == LITE_MODEL ==> r.calls == 3 && r.delays == [800 + jitter(0), 1600 + jitter(1)])
      && (model != LITE_MODEL ==> r.calls == 6 && r.delays == [800 + jitter(0), 1600 + jitter(1), 800 + jitter(3), 1600 + jitter(4)])
  {
    var lite := RetryFrom(LITE_MODEL, 0, 3, run, jitter);
    assert RetryFrom(LITE_MODEL, 2, 5, run, jitter).calls == 6;
    assert RetryFrom(LITE_MODEL, 1, 4, run, jitter).delays == [1600 + jitter(4)];
    assert lite.calls == 6 && lite.delays == [800 + jitter(3), 1600 + jitter(4)];
    assert RetryFrom(LITE_MODEL, 2, 2, run, jitter).calls == 3;
    assert RetryFrom(LITE_MODEL, 1, 1, run, jitter).delays == [1600 + jitter(1)];
    if model != LITE_MODEL {
      assert RetryFrom(model, 2, 2, run, jitter) == lite.(emitted := run(model, 2).emitted + lite.emitted);
      assert RetryFrom(model, 1, 1, run, jitter).delays == [1600 + jitter(1)] + lite.delays;
    }
  }

  /** A text without any of the letters 'v', '4', '5' or '빈' cannot be a retryable message. */
  lemma NotRetryableWithout(message: string)
    requires 'v' !in message && '4' !in message && '5' !in message && '빈' !in message
    ensures !IsRetryable(message)
  {
    MissingCharNotContained(message, "overloaded", 1);
    MissingCharNotContained(message, "429", 0);
    MissingCharNotContained(message, "빈 응답", 0);
    forall i | 0 <= i < |message|
      ensures message[i] != '5'
    {
      assert message[i] in message;
    }
  }

  lemma MissingCharNotContained(s: string, p: string, k: int)
    requires 0 <= k < |p| && p[k] !in s
    ensures !Contains(s, p)
  {
    forall i | 0 <= i <= |s| - |p|
      ensures !OccursAt(s, p, i)
    {
      assert s[i + k] in s;
      assert s[i..i + |p|][k] == s[i + k];
    }
  }

  /**
   * Retrying is decided by the message alone, whatever the status: a failed
   * request whose server message quotes no code and mentions neither
   * overload nor an empty answer is raised at once, even for HTTP 500.
   */
  lemma FailedRequestWithoutCodeNotRetried(message: string)
    requires 'v' !in message && '4' !in message && '5' !in message && '빈' !in message
    ensures !IsRetryable(API_FAILURE_PREFIX + message)
  {
    assert 'v' !in API_FAILURE_PREFIX && '4' !in API_FAILURE_PREFIX && '5' !in API_FAILURE_PREFIX && '빈' !in API_FAILURE_PREFIX;
    NotRetryableWithout(API_FAILURE_PREFIX + message);
  }

  /** Gemini's message for an internal error ("Internal error encountered.") is such a message. */
  lemma InternalErrorNotRetried()
    ensures !IsRetryable(API_FAILURE_PREFIX + "Internal error encountered.")
  {
    FailedRequestWithoutCodeNotRetried("Internal error encountered.");
  }

  /** The empty-answer error is retried. */
  lemma EmptyAnswerRetried()
    ensures IsRetryable(EMPTY_RESPONSE)
  {
    assert EMPTY_RESPONSE == "Gemini에서 " + "빈 응답" + "을 받았습니다. 재시도가 필요합니다.";
    assert OccursAt(EMPTY_RESPONSE, "빈 응답", 9);
  }

  /** What `chat` / `chat_stream` return to their caller: a value or a raised message. */
  datatype Call = Returned(value: string) | Threw(message: string)

  /** The outcome of a finished run, with the failure wrapped in the caller's message. */
  function Finish(r: RetryRun, prefix: string): (c: Call)
    ensures r.outcome.Succeeded? <==> c.Returned?
    ensures c.Returned? ==> c.value == r.outcome.value
    ensures c.Threw? ==> c.message == prefix + r.outcome.message
  {
    match r.outcome
    case Succeeded(_, value) => Returned(value)
    case Failed(_, message) => Threw(prefix + message)
  }

  /** The client configuration read from the environment: `GEMINI_API_KEY` and `GEMINI_MODEL`. */
  datatype ClientEnv = ClientEnv(apiKey: Option<string>, model: Option<string>)

  /** `initialize` without arguments fails when the key is nil or empty. */
  predicate KeyMissing(env: ClientEnv) {
    env.apiKey.None? || env.apiKey.value == []
  }

  /** The model `initialize` settles on: the configured one or the default, stripped. */
  function InitialModel(env: ClientEnv): (m: string)
    ensures env.model.None? ==> m == DEFAULT_MODEL
  {
    Trim(env.model.GetOr(DEFAULT_MODEL))
  }

  /** The attempts of `chat` for one payload: each is the server's reply to that payload on a model. */
  function ChatRun(payload: Payload, replies: (Payload, string, nat) -> Reply): (string, nat) -> Attempt {
    (m: string, i: nat) => ChatAttempt(replies(payload, m, i))
  }

  /** The attempts of `chat_stream` for one payload: each reads the streamed body the server sends. */
  function StreamRun(payload: Payload, responses: (Payload, string, nat) -> StreamResponse, parse: string -> Option<Json>): (string, nat) -> Attempt {
    (m: string, i: nat) => StreamAttempt(responses(payload, m, i), parse)
  }

  /**
   * What `with_retries` does after attempt number `calls`, the `attempt + 1`-th
   * on `model`: stop after a success or a failure not to be retried;
   * otherwise retry on the same model after the back-off, or switch to the
   * lite model and start counting again.
   */
  method Decide(model: string, attempt: nat, calls: nat, run: (string, nat) -> Attempt, jitter: nat -> int)
    returns (retry: bool, nextModel: string, nextAttempt: nat, delay: seq<int>)
    requires attempt < MAX_ATTEMPTS
    ensures retry ==> nextAttempt < MAX_ATTEMPTS
    ensures retry ==> (nextModel == model && nextAttempt == attempt + 1) || (nextModel == LITE_MODEL != model && nextAttempt == 0)
    ensures retry ==>
      RetryFrom(model, attempt, calls, run, jitter) == After(run(model, calls).emitted, delay, RetryFrom(nextModel, nextAttempt, calls + 1, run, jitter))
    ensures !retry ==>
      RetryFrom(model, attempt, calls, run, jitter) == RetryRun(run(model, calls), run(model, calls).emitted, calls + 1, [], model)
  {
    var o := run(model, calls);
    nextModel, nextAttempt, delay := model, attempt, [];
    if o.Succeeded? {
      RetryStepSucceeded(model, attempt, calls, run, jitter);
      return false, nextModel, nextAttempt, delay;
    }
    var retryable := IsRetryable(o.message);
    if retryable && attempt + 1 < MAX_ATTEMPTS {
      RetryStepSameModel(model, attempt, calls, run, jitter);
      return true, model, attempt + 1, [BackoffMs(attempt + 1) + jitter(calls)];
    }
    if retryable && model != LITE_MODEL {
      RetryStepFallback(model, attempt, calls, run, jitter);
      return true, LITE_MODEL, 0, [];
    }
    RetryStepStop(model, attempt, calls, run, jitter);
    return false, nextModel, nextAttempt, delay;
  }

  /** A client instance; `model` is `@model`, which the retry loop may switch to the lite model for good. */
  class Client {
    var model: string

    constructor(env: ClientEnv)
      requires !KeyMissing(env)
      ensures model == InitialModel(env)
    {
      model := InitialModel(env);
    }

    /** `with_retries` around the attempts `run` (by model and attempt number). */
    method WithRetries(run: (string, nat) -> Attempt, jitter: nat -> int) returns (r: RetryRun)
      modifies this
      ensures r == RetryFrom(old(model), 0, 0, run, jitter)
      ensures model == r.model
    {
      var attempt: nat := 0;
      var calls: nat := 0;
      var emitted := [];
      var delays := [];
      ghost var start := model;
      AfterNothing(RetryFrom(model, 0, 0, run, jitter));
      while true
        invariant attempt < MAX_ATTEMPTS
        invariant RetryFrom(start, 0, 0, run, jitter) == After(emitted, delays, RetryFrom(model, attempt, calls, run, jitter))
        decreases (if model == LITE_MODEL then 0 else 1), MAX_ATTEMPTS - attempt
      {
        var o := run(model, calls);
        var retry, nextModel, nextAttempt, delay := Decide(model, attempt, calls, run, jitter);
        if !retry {
          r := RetryRun(o, emitted + o.emitted, calls + 1, delays, model);
          assert delays + [] == delays;
          return;
        }
        AfterAfter(emitted, delays, o.emitted, delay, RetryFrom(nextModel, nextAttempt, calls + 1, run, jitter));
        emitted, delays, calls := emitted + o.emitted, delays + delay, calls + 1;
        model, attempt := nextModel, nextAttempt;
      }
    }

    /**
     * `chat`: the payload is built, requested with retries, and the first
     * candidate's text returned; a final failure is raised wrapped in
     * "AI 응답 생성 중 오류가 발생했습니다: ".
     */
    method Chat(messages: seq<ChatMessage>, genOptions: Json, replies: (Payload, string, nat) -> Reply, jitter: nat -> int)
      returns (result: Call, r: RetryRun)
      modifies this
      ensures r == RetryFrom(old(model), 0, 0, ChatRun(BuildPayload(messages, genOptions), replies), jitter)
      ensures model == r.model && result == Finish(r, CHAT_FAILURE_PREFIX)
    {
      var payload := BuildPayload(messages, genOptions);
      r := WithRetries(ChatRun(payload, replies), jitter);
      result := Finish(r, CHAT_FAILURE_PREFIX);
    }

    /**
     * `chat_stream`: the payload is built and streamed with retries; every
     * text any attempt delivers reaches the block, in order; a final
     * failure is raised wrapped in "AI 스트리밍 응답 생성 중 오류가 발생했습니다: ".
     */
    method ChatStream(messages: seq<ChatMessage>, genOptions: Json, responses: (Payload, string, nat) -> StreamResponse,
                      parse: string -> Option<Json>, jitter: nat -> int)
      returns (delivered: seq<string>, result: Call, r: RetryRun)
      modifies this
      ensures r == RetryFrom(old(model), 0, 0, StreamRun(BuildPayload(messages, genOptions), responses, parse), jitter)
      ensures model == r.model && delivered == r.emitted && result == Finish(r, STREAM_FAILURE_PREFIX)
    {
      var payload := BuildPayload(messages, genOptions);
      r := WithRetries(StreamRun(payload, responses, parse), jitter);
      delivered := r.emitted;
      result := Finish(r, STREAM_FAILURE_PREFIX);
    }
  }

  /** `GeminiClient.new` as the controllers call it: no client when the key is missing. */
  method NewClient(env: ClientEnv) returns (c: Option<Client>)
    ensures c.None? <==> KeyMissing(env)
    ensures c.Some? ==> fresh(c.value) && c.value.model == InitialModel(env)
  {
    if KeyMissing(env) {
      return None;
    }
    var client := new Client(env);
    return Some(client);
  }
}
