/**
 * `HttpClientUtil`: builds the chat-completion request, sends it, and reads
 * the streamed reply line by line, reporting each reasoning or answer
 * fragment to the caller's `StreamingCallback` while accumulating both texts.
 *
 * The network is a function parameter `server` from the request the client
 * would send to what it gets back: no connection at all (an `IOException` or a
 * malformed URL before a status is read), or a status code with the response
 * (or error) body as a line stream. The callbacks are returned as a trace.
 */
module HttpClientUtil {
  import opened Wrappers
  import opened JavaString
  import opened LineInput
  import opened StreamEvents
  import ApiConfigUtil
  import opened LlmResponses

  const HttpOk: int := 200
  const MaxTokens: int := 2048

  const SystemPrompt: string :=
    "你是一个数字电路设计专家。用户会提供 logisim-evolution 的 circ 格式电路数据和问题。请分析电路并提供改进建议。"
  const QuestionLabel: string := "用户问题: "
  const CircuitLabel: string := "电路数据 (circ格式):\n"

  datatype Role = System | User

  datatype Message = Message(role: Role, content: string)

  /** The JSON payload, as the values it carries. */
  datatype CompletionRequest = CompletionRequest(
    model: string,
    maxTokens: int,
    stream: bool,
    thinkingType: string,
    messages: seq<Message>)

  /** What is sent: the endpoint, the `api-key` header and the payload. */
  datatype HttpCall = HttpCall(url: string, apiKey: string, request: CompletionRequest)

  /** What comes back. */
  datatype Reply = Unreachable(message: string) | Responded(code: int, body: LineStream)

  /** The user message: the question, then the circuit only when it is
      non-null and non-empty. */
  function UserContent(prompt: string, circuitXml: Option<string>): string {
    QuestionLabel + prompt + "\n\n" + (if IsPresent(circuitXml) then CircuitLabel + circuitXml.value else "")
  }

  function BuildRequest(model: string, prompt: string, circuitXml: Option<string>): CompletionRequest {
    CompletionRequest(model, MaxTokens, true, "enabled",
                      [Message(System, SystemPrompt), Message(User, UserContent(prompt, circuitXml))])
  }

  function Endpoint(baseUrl: string): string {
    baseUrl + "/chat/completions"
  }

  /** The `onError` text for a transport failure. */
  function TransportErrorMessage(message: string): string {
    "Error calling LLM API: " + message
  }

  /** The `onError` text for a status other than 200, with the error body's
      lines joined without separators. */
  function StatusErrorMessage(code: int, errorBody: string): string {
    "API call failed with response code: " + IntToString(code) + ", error: " + errorBody
  }

  /** The question always comes first; the circuit is appended only when
      present, and a null circuit is treated like an empty one. */
  lemma UserContentLayout(prompt: string, circuitXml: Option<string>)
    ensures QuestionLabel + prompt + "\n\n" <= UserContent(prompt, circuitXml)
    ensures IsPresent(circuitXml) ==>
              UserContent(prompt, circuitXml) == "用户问题: " + prompt + "\n\n电路数据 (circ格式):\n" + circuitXml.value
    ensures !IsPresent(circuitXml) ==> UserContent(prompt, circuitXml) == "用户问题: " + prompt + "\n\n"
    ensures UserContent(prompt, None) == UserContent(prompt, Some(""))
  {
    var head := QuestionLabel + prompt + "\n\n";
    assert UserContent(prompt, circuitXml)[..|head|] == head;
  }

  /** Different status codes give different messages, whatever the bodies: the
      message identifies the code. */
  lemma StatusErrorNamesCode(c1: int, b1: string, c2: int, b2: string)
    requires StatusErrorMessage(c1, b1) == StatusErrorMessage(c2, b2)
    ensures c1 == c2 && b1 == b2
  {
    var prefix := "API call failed with response code: ";
    var s1, s2 := IntToString(c1), IntToString(c2);
    var q1, q2 := ", error: " + b1, ", error: " + b2;
    var m := StatusErrorMessage(c1, b1);
    assert m == prefix + (s1 + q1) && m == prefix + (s2 + q2);
    assert s1 + q1 == m[|prefix|..] == s2 + q2;
    // The code's text ends at the first ',' after the prefix.
    IntToStringHasNoComma(c1);
    IntToStringHasNoComma(c2);
    CutAtFirst(s1, q1, s2, q2, ',');
    IntToStringInjective(c1, c2);
    assert b1 == q1[9..] == q2[9..] == b2;
  }

  /** The class-level fields of `HttpClientUtil`: its own copy of the three
      settings, taken from `ApiConfigUtil` when the class is loaded. */
  class HttpClient {
    var apiKey: string
    var baseUrl: string
    var model: string
    const config: ApiConfigUtil.ApiConfig

    /** The copy agrees with the shared settings. */
    ghost predicate Synced()
      reads this, config
    {
      config.Valid() && apiKey == config.apiKey && baseUrl == config.baseUrl && model == config.model
    }

    constructor (config: ApiConfigUtil.ApiConfig)
      requires config.Valid()
      ensures this.config == config && Synced()
    {
      this.config := config;
      apiKey := config.apiKey;
      baseUrl := config.baseUrl;
      model := config.model;
    }

    /** The request `streamLlmApi` sends for a prompt and a circuit. */
    function Outgoing(prompt: string, circuitXml: Option<string>): HttpCall
      reads this
    {
      HttpCall(Endpoint(baseUrl), apiKey, BuildRequest(model, prompt, circuitXml))
    }

    /** `streamLlmApi`. */
    method StreamLlmApi(prompt: string, circuitXml: Option<string>,
                        server: HttpCall -> Reply, parse: string -> Chunk)
      returns (ok: bool, trace: seq<Event>)
      ensures WellFormedTrace(trace)
      ensures var reply := server(Outgoing(prompt, circuitXml));
              ok <==> reply.Responded? && reply.code == HttpOk && reply.body.end.Closed?
      ensures var reply := server(Outgoing(prompt, circuitXml));
              reply.Unreachable? ==> trace == [OnError(TransportErrorMessage(reply.message))]
      ensures var reply := server(Outgoing(prompt, circuitXml));
              reply.Responded? && reply.code == HttpOk ==>
                var fragments := Fragments(reply.body.lines, parse);
                trace == fragments + [match reply.body.end
                                      case Closed => OnComplete(Thoughts(fragments), Answers(fragments))
                                      case Failed(m) => OnError(TransportErrorMessage(m))]
      ensures var reply := server(Outgoing(prompt, circuitXml));
              reply.Responded? && reply.code != HttpOk ==>
                trace == [match reply.body.end
                          case Closed => OnError(StatusErrorMessage(reply.code, Concat(reply.body.lines)))
                          case Failed(m) => OnError(TransportErrorMessage(m))]
    {
      var reply := server(Outgoing(prompt, circuitXml));
      if reply.Unreachable? {
        ok, trace := false, [OnError(TransportErrorMessage(reply.message))];
        return;
      }
      var lines := reply.body.lines;
      if reply.code == HttpOk {
        var fragments, thinkingProcess, finalAnswer := ReadStream(lines, parse);
        var last;
        match reply.body.end {
          case Closed =>
            last := OnComplete(thinkingProcess, finalAnswer);
            ok := true;
          case Failed(m) =>
            last := OnError(TransportErrorMessage(m));
            ok := false;
        }
        FinishedTraceIsWellFormed(lines, parse, last);
        trace := fragments + [last];
      } else {
        var errorResponse := ReadErrorBody(lines);
        match reply.body.end {
          case Closed =>
            trace := [OnError(StatusErrorMessage(reply.code, errorResponse))];
          case Failed(m) =>
            trace := [OnError(TransportErrorMessage(m))];
        }
        ok := false;
      }
    }

    /** `callLlmApi`: the streaming call with an observer that appends each
        fragment to one of two buffers; the response on success, null otherwise. */
    method CallLlmApi(prompt: string, circuitXml: Option<string>,
                      server: HttpCall -> Reply, parse: string -> Chunk)
      returns (response: LlmResponse?)
      ensures var reply := server(Outgoing(prompt, circuitXml));
              response != null <==> reply.Responded? && reply.code == HttpOk && reply.body.end.Closed?
      ensures response != null ==>
                var fragments := Fragments(server(Outgoing(prompt, circuitXml)).body.lines, parse);
                && fresh(response)
                && response.thinkingProcess == Some(Thoughts(fragments))
                && response.finalAnswer == Some(Answers(fragments))
    {
      var ok, trace := StreamLlmApi(prompt, circuitXml, server, parse);
      // The observer's buffers after the calls in `trace`.
      var thinkingProcess, finalAnswer := Thoughts(trace), Answers(trace);
      if ok {
        var reply := server(Outgoing(prompt, circuitXml));
        var fragments := Fragments(reply.body.lines, parse);
        FinalEventAddsNoText(fragments, OnComplete(Thoughts(fragments), Answers(fragments)));
        response := new LlmResponse(Some(thinkingProcess), Some(finalAnswer));
      } else {
        response := null;
      }
    }

    /** `setApiConfig`: updates the shared settings and this copy by the same
        rule. The copy may already differ from the shared settings (they are
        public and can be set directly); it then stays apart where an argument
        is absent, and agrees again wherever one is present. */
    method SetApiConfig(newApiKey: Option<string>, newBaseUrl: Option<string>, newModel: Option<string>)
      requires config.Valid()
      modifies this, config
      ensures config.Valid()
      ensures config.Current() == ApiConfigUtil.SetConfig(old(config.Current()), newApiKey, newBaseUrl, newModel)
      ensures apiKey == ApiConfigUtil.Override(old(apiKey), newApiKey)
      ensures baseUrl == ApiConfigUtil.Override(old(baseUrl), newBaseUrl)
      ensures model == ApiConfigUtil.Override(old(model), newModel)
      ensures old(Synced()) ==> Synced()
    {
      config.SetApiConfig(newApiKey, newBaseUrl, newModel);
      if newApiKey.Some? && newApiKey.value != "" {
        apiKey := newApiKey.value;
      }
      if newBaseUrl.Some? && newBaseUrl.value != "" {
        baseUrl := newBaseUrl.value;
      }
      if newModel.Some? && newModel.value != "" {
        model := newModel.value;
      }
    }
  }

  /** The read loop of a 200 reply: one callback per fragment line, in order,
      each fragment also appended to its buffer. */
  method ReadStream(lines: seq<string>, parse: string -> Chunk)
    returns (trace: seq<Event>, thinkingProcess: string, finalAnswer: string)
    ensures trace == Fragments(lines, parse)
    ensures thinkingProcess == Thoughts(trace) && finalAnswer == Answers(trace)
  {
    thinkingProcess, finalAnswer := "", "";
    trace := [];
    var i := 0;
    while i < |lines|
      invariant 0 <= i <= |lines|
      invariant trace == Fragments(lines[..i], parse)
      invariant thinkingProcess == Thoughts(trace) && finalAnswer == Answers(trace)
    {
      var c := ClassifyLine(lines[i], parse);
      var fragment := FragmentOf(c);
      FragmentsSnoc(lines, i, parse);
      TextsAppend(trace, fragment);
      FragmentTexts(c);
      ghost var before := trace;
      match c {
        case Reasoning(s) =>
          thinkingProcess := thinkingProcess + s;
          trace := trace + [OnThinkingProcess(s)];
        case Answer(s) =>
          finalAnswer := finalAnswer + s;
          trace := trace + [OnFinalAnswer(s)];
        case _ =>
      }
      assert trace == before + fragment;
      assert Thoughts(trace) == Thoughts(before) + Thoughts(fragment);
      assert Answers(trace) == Answers(before) + Answers(fragment);
      i := i + 1;
    }
    assert lines[..i] == lines;
  }

  /** The read loop of an error body: the lines appended without separators. */
  method ReadErrorBody(lines: seq<string>) returns (errorResponse: string)
    ensures errorResponse == Concat(lines)
  {
    errorResponse := "";
    var i := 0;
    while i < |lines|
      invariant 0 <= i <= |lines|
      invariant errorResponse == Concat(lines[..i])
    {
      assert lines[..i + 1][..i] == lines[..i];
      errorResponse := errorResponse + lines[i];
      i := i + 1;
    }
    assert lines[..i] == lines;
  }

  /** A reply with one reasoning line, one answer line and the sentinel line
      the usual servers send, `data: [DONE]`: one thinking fragment, one answer
      fragment, and both texts for `onComplete`. Because of the space after
      `data:`, that sentinel line is not the exact `data:[DONE]` and is dropped
      only because it does not parse as an object. */
  lemma SentinelScenario(p1: string, p2: string, reasoning: string, answer: string,
                         parse: string -> Chunk)
    requires p1 != DoneSentinel && p2 != DoneSentinel
    requires parse(p1) == Parsed(Some([Choice(Obj(Container(Scalar(reasoning), Absent)), NoSlot)]))
    requires parse(p2) == Parsed(Some([Choice(Obj(Container(Absent, Scalar(answer))), NoSlot)]))
    requires parse(" [DONE]") == Malformed
    ensures var fragments := Fragments([DataPrefix + p1, DataPrefix + p2, DataPrefix + " [DONE]"], parse);
            && fragments == [OnThinkingProcess(reasoning), OnFinalAnswer(answer)]
            && Thoughts(fragments) == reasoning
            && Answers(fragments) == answer
  {
    DataLine(p1, parse);
    DataLine(p2, parse);
    DataLine(" [DONE]", parse);
    ThreeLines(DataPrefix + p1, DataPrefix + p2, DataPrefix + " [DONE]", parse);
    TwoFragmentTexts(reasoning, answer);
  }

  /** A `data:` line whose payload is not the sentinel goes to the parser. */
  lemma DataLine(payload: string, parse: string -> Chunk)
    requires payload != DoneSentinel
    ensures ClassifyLine(DataPrefix + payload, parse) == ClassifyChunk(parse(payload))
  {
    assert (DataPrefix + payload)[|DataPrefix|..] == payload;
  }

  lemma ThreeLines(l1: string, l2: string, l3: string, parse: string -> Chunk)
    ensures Fragments([l1, l2, l3], parse)
            == FragmentOf(ClassifyLine(l1, parse)) + FragmentOf(ClassifyLine(l2, parse))
               + FragmentOf(ClassifyLine(l3, parse))
  {
    assert [l1][..0] == [];
    assert Fragments([l1], parse) == FragmentOf(ClassifyLine(l1, parse));
    assert [l1, l2][..1] == [l1];
    assert Fragments([l1, l2], parse) == Fragments([l1], parse) + FragmentOf(ClassifyLine(l2, parse));
    assert [l1, l2, l3][..2] == [l1, l2];
  }

  lemma TwoFragmentTexts(reasoning: string, answer: string)
    ensures Thoughts([OnThinkingProcess(reasoning), OnFinalAnswer(answer)]) == reasoning
    ensures Answers([OnThinkingProcess(reasoning), OnFinalAnswer(answer)]) == answer
  {
    var fragments := [OnThinkingProcess(reasoning), OnFinalAnswer(answer)];
    assert fragments[..1] == [OnThinkingProcess(reasoning)] && fragments[..1][..0] == [];
    assert Thoughts(fragments[..1]) == reasoning && Answers(fragments[..1]) == "";
  }
}
