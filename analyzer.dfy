/** The server's analysis orchestrator, `analyzeContent`: decides between a
    first analysis and a follow-up, assembles the message list for the text
    generation service, repairs the structured result and wraps failures.
    The generation call, JSON parsing and serialisation, the API-key lookup
    and `Math.random` are supplied by the caller in an `Env`. */
module Analyzer {
  import opened Wrappers
  import opened Json

  const USER := "user"
  const ASSISTANT := "assistant"
  const SYSTEM := "system"

  /** The two values of `responseType`. */
  const TEXT := "text"
  const ANALYSIS := "analysis"

  const UPLOAD_DEFERRED := "Document upload analysis is part of our next iteration. For accurate results, please paste the text."
  const NO_CONTENT := "No content to analyze."
  const FAILURE_PREFIX := "AI Service Failed: "
  const MISSING_KEY := "Missing GROQ_API_KEY. Cannot perform analysis."
  /** The TypeError raised by reading a property of a parsed `null`. */
  const NULL_RESULT := "Cannot read properties of null (reading 'confidenceScore')"
  const CONFIDENCE := "confidenceScore"
  const MODEL := "llama-3.3-70b-versatile"

  /** The two instruction texts. Only their identity matters to the code, so
      each is represented by its opening sentence. */
  const ANALYSIS_PROMPT := "You are RealityCheck AI, a senior risk intelligence expert and contract reviewer."
  const CHAT_PROMPT := "You are RealityCheck AI, a decision intelligence assistant."

  /** A conversation turn as received in `history`, and an entry of the
      outgoing message list: a role and a content. */
  datatype ChatMessage = ChatMessage(role: string, content: Value)

  /** `response_format`: `null` (free text) or `{type: "json_object"}`. */
  datatype ResponseFormat = TextFormat | JsonObject

  /** The arguments of `chat.completions.create`. */
  datatype Request = Request(model: string, messages: seq<ChatMessage>, responseFormat: ResponseFormat)

  /** The object `analyzeContent` resolves with. */
  datatype Reply = Reply(responseType: string, content: Value)

  /** Everything outside the function's own code: whether GROQ_API_KEY is set,
      `JSON.stringify`, the Groq completion (the generated text or the
      message of the error it throws), `JSON.parse` (the value or the
      message of its SyntaxError; it never yields `Undefined`, which has no
      JSON text, so that case of `Value` is not given a behaviour of its own) and the draw of `Math.random()`. */
  datatype Env = Env(
    apiKeyPresent: bool,
    stringify: Value -> string,
    complete: Request -> Result<string, string>,
    parse: string -> Result<Value, string>,
    random: real)

  /** `!s.trim()`: the string is empty or made only of whitespace. */
  predicate IsSpace(c: char)
  {
    || c == ' ' || c == '\t' || c == '\n' || c == '\r' || c == '\U{B}' || c == '\U{C}'
    || c == '\U{A0}' || c == '\U{1680}' || '\U{2000}' <= c <= '\U{200A}'
    || c == '\U{2028}' || c == '\U{2029}' || c == '\U{202F}' || c == '\U{205F}'
    || c == '\U{3000}' || c == '\U{FEFF}'
  }

  predicate Blank(s: string)
  {
    forall i :: 0 <= i < |s| ==> IsSpace(s[i])
  }

  /** `history.some(msg => msg.role === 'assistant')`. */
  function IsFollowUp(history: seq<ChatMessage>): (r: bool)
    ensures r <==> exists i :: 0 <= i < |history| && history[i].role == ASSISTANT
    decreases |history|
  {
    if history == [] then false
    else history[0].role == ASSISTANT || IsFollowUp(history[1..])
  }

  /** The set of roles that occur in a history. */
  function Roles(history: seq<ChatMessage>): set<string>
  {
    set i | 0 <= i < |history| :: history[i].role
  }

  /** The mode depends only on which roles occur: neither the order of the
      turns nor how many user turns there are changes it. */
  lemma ModeDependsOnlyOnRoles(h1: seq<ChatMessage>, h2: seq<ChatMessage>)
    requires Roles(h1) == Roles(h2)
    ensures IsFollowUp(h1) == IsFollowUp(h2)
  {
    if IsFollowUp(h1) {
      var i :| 0 <= i < |h1| && h1[i].role == ASSISTANT;
      assert ASSISTANT in Roles(h2);
    }
    if IsFollowUp(h2) {
      var i :| 0 <= i < |h2| && h2[i].role == ASSISTANT;
      assert ASSISTANT in Roles(h1);
    }
  }

  /** Appending more history can only turn a first analysis into a follow-up,
      never the other way round. */
  lemma {:induction false} FollowUpOfConcat(h1: seq<ChatMessage>, h2: seq<ChatMessage>)
    ensures IsFollowUp(h1 + h2) == (IsFollowUp(h1) || IsFollowUp(h2))
  {
    if IsFollowUp(h1 + h2) {
      var i :| 0 <= i < |h1 + h2| && (h1 + h2)[i].role == ASSISTANT;
      if i < |h1| { assert h1[i].role == ASSISTANT; }
      else { assert h2[i - |h1|].role == ASSISTANT; }
    }
    if IsFollowUp(h1) {
      var i :| 0 <= i < |h1| && h1[i].role == ASSISTANT;
      assert (h1 + h2)[i].role == ASSISTANT;
    }
    if IsFollowUp(h2) {
      var i :| 0 <= i < |h2| && h2[i].role == ASSISTANT;
      assert (h1 + h2)[|h1| + i].role == ASSISTANT;
    }
  }

  /** The content of one outgoing message: an object-typed content is
      serialised, anything else is sent as it is. */
  function NormaliseContent(content: Value, stringify: Value -> string): Value
  {
    if IsObjectType(content) then Str(stringify(content)) else content
  }

  /** `history.map(...)`: same roles in the same order, serialised contents. */
  function NormaliseHistory(history: seq<ChatMessage>, stringify: Value -> string): (r: seq<ChatMessage>)
    ensures |r| == |history|
    ensures forall i :: 0 <= i < |history| ==>
      r[i].role == history[i].role && r[i].content == NormaliseContent(history[i].content, stringify)
    ensures forall i :: 0 <= i < |r| ==> !IsObjectType(r[i].content)
    decreases |history|
  {
    if history == [] then []
    else [ChatMessage(history[0].role, NormaliseContent(history[0].content, stringify))]
         + NormaliseHistory(history[1..], stringify)
  }

  /** Normalising a normalised history changes nothing, and a history whose
      contents are all strings is sent verbatim. */
  lemma {:induction false} NormaliseIdempotent(history: seq<ChatMessage>, stringify: Value -> string)
    ensures NormaliseHistory(NormaliseHistory(history, stringify), stringify) == NormaliseHistory(history, stringify)
    decreases |history|
  {
    if history != [] {
      NormaliseIdempotent(history[1..], stringify);
    }
  }

  lemma {:induction false} NormaliseKeepsText(history: seq<ChatMessage>, stringify: Value -> string)
    requires forall i :: 0 <= i < |history| ==> history[i].content.Str?
    ensures NormaliseHistory(history, stringify) == history
    decreases |history|
  {
    if history != [] {
      NormaliseKeepsText(history[1..], stringify);
    }
  }

  /** `Math.floor(Math.random() * (99 - 85 + 1)) + 85`. */
  function FallbackConfidence(random: real): (c: int)
    requires 0.0 <= random < 1.0
    ensures 85 <= c <= 99
  {
    (random * 15.0).Floor + 85
  }

  /** The shape of the message list and format sent to the generation service. */
  ghost predicate ShapedRequest(req: Request, text: string, history: seq<ChatMessage>, stringify: Value -> string)
  {
    var n := |history|;
    && req.model == MODEL
    && |req.messages| == 1 + n + (if text != "" then 1 else 0)
    && req.messages[0] == ChatMessage(SYSTEM, Str(if IsFollowUp(history) then CHAT_PROMPT else ANALYSIS_PROMPT))
    && (forall i :: 0 <= i < n ==>
          req.messages[i + 1].role == history[i].role
          && req.messages[i + 1].content == NormaliseContent(history[i].content, stringify))
    && (text != "" ==> req.messages[n + 1] == ChatMessage(USER, Str(text)))
    && (req.responseFormat == JsonObject <==> !IsFollowUp(history))
  }

  /** What first-analysis mode makes of the generated text, given the result
      of parsing it: a parse error is wrapped; a parsed `null` fails on the
      property read; an object keeps a numeric `confidenceScore` and
      otherwise gains one in [85, 99], every other property unchanged; any
      other value is returned as it is. */
  ghost predicate AnalysisOutcome(outcome: Result<Reply, string>, parsed: Result<Value, string>)
  {
    match parsed
    case Failure(e) => outcome == Failure(FAILURE_PREFIX + e)
    case Success(data) =>
      if data.Null? then outcome == Failure(FAILURE_PREFIX + NULL_RESULT)
      else if data.Obj? && !Get(data, CONFIDENCE).Num? then
        && outcome.Success?
        && outcome.value.responseType == ANALYSIS
        && outcome.value.content.Obj?
        && var fields := outcome.value.content.fields;
        && fields.Keys == data.fields.Keys + {CONFIDENCE}
        && (forall k :: k in data.fields && k != CONFIDENCE ==> fields[k] == data.fields[k])
        && fields[CONFIDENCE].Num?
        && fields[CONFIDENCE].n == fields[CONFIDENCE].n.Floor as real
        && 85.0 <= fields[CONFIDENCE].n <= 99.0
      else outcome == Success(Reply(ANALYSIS, data))
  }

  /** `analyzeContent(text, file, history)`. `sent` lists the requests made
      to the generation service: none or one. */
  method AnalyzeContent(text: string, fileSubmitted: bool, history: seq<ChatMessage>, env: Env)
    returns (outcome: Result<Reply, string>, sent: seq<Request>)
    requires 0.0 <= env.random < 1.0
    ensures fileSubmitted ==> outcome == Success(Reply(TEXT, Str(UPLOAD_DEFERRED))) && sent == []
    ensures !fileSubmitted && Blank(text) && history == [] ==> outcome == Failure(NO_CONTENT) && sent == []
    ensures !fileSubmitted && !(Blank(text) && history == []) && !env.apiKeyPresent ==>
      outcome == Failure(FAILURE_PREFIX + MISSING_KEY) && sent == []
    ensures |sent| <= 1
    ensures |sent| == 1 <==> !fileSubmitted && !(Blank(text) && history == []) && env.apiKeyPresent
    ensures |sent| == 1 ==> ShapedRequest(sent[0], text, history, env.stringify)
    ensures |sent| == 1 && env.complete(sent[0]).Failure? ==>
      outcome == Failure(FAILURE_PREFIX + env.complete(sent[0]).error)
    ensures |sent| == 1 && env.complete(sent[0]).Success? && IsFollowUp(history) ==>
      outcome == Success(Reply(TEXT, Str(env.complete(sent[0]).value)))
    ensures |sent| == 1 && env.complete(sent[0]).Success? && !IsFollowUp(history) ==>
      AnalysisOutcome(outcome, env.parse(env.complete(sent[0]).value))
    ensures outcome.Failure? ==> outcome.error == NO_CONTENT || FAILURE_PREFIX <= outcome.error
  {
    sent := [];
    var newContent := text;

    // A submitted file gets the fixed deferral before anything else.
    if fileSubmitted {
      outcome := Success(Reply(TEXT, Str(UPLOAD_DEFERRED)));
      return;
    }

    if Blank(newContent) && |history| == 0 {
      outcome := Failure(NO_CONTENT);
      return;
    }

    var isFollowUp := IsFollowUp(history);

    var llmMessages := NormaliseHistory(history, env.stringify);
    if newContent != "" {
      llmMessages := llmMessages + [ChatMessage(USER, Str(newContent))];
    }

    var systemPrompt := "";
    var responseFormat := TextFormat;
    if !isFollowUp {
      responseFormat := JsonObject;
      systemPrompt := ANALYSIS_PROMPT;
    } else {
      systemPrompt := CHAT_PROMPT;
    }

    llmMessages := [ChatMessage(SYSTEM, Str(systemPrompt))] + llmMessages;

    // From here on every error is rethrown with FAILURE_PREFIX.
    if !env.apiKeyPresent {
      outcome := Failure(FAILURE_PREFIX + MISSING_KEY);
      return;
    }

    var request := Request(MODEL, llmMessages, responseFormat);
    sent := [request];
    var completion := env.complete(request);
    if completion.Failure? {
      outcome := Failure(FAILURE_PREFIX + completion.error);
      return;
    }
    var resultRaw := completion.value;

    if !isFollowUp {
      var parsed := env.parse(resultRaw);
      if parsed.Failure? {
        outcome := Failure(FAILURE_PREFIX + parsed.error);
        return;
      }
      var data := parsed.value;
      if data.Null? {
        outcome := Failure(FAILURE_PREFIX + NULL_RESULT);
        return;
      }
      if data.Obj? && !Get(data, CONFIDENCE).Num? {
        data := Obj(data.fields[CONFIDENCE := Num(FallbackConfidence(env.random) as real)]);
      }
      outcome := Success(Reply(ANALYSIS, data));
    } else {
      outcome := Success(Reply(TEXT, Str(resultRaw)));
    }
  }
}
