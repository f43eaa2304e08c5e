# LLM assistant client of logisim-evolution, modelled in Dafny

This project models the non-network logic of the AI assistant client in
logisim-evolution's `com.cburch.logisim.util` package:

- `HttpClientUtil` builds a chat-completion request: a fixed system prompt, then
  the user's question, then the circuit in `.circ` form when there is one. It
  sends the request and reads the server-push reply line by line. Each line is a
  reasoning fragment, an answer fragment or nothing. Each fragment is passed to
  the caller's `StreamingCallback` and also appended to one of two buffers. In
  the model the call ends with exactly one `onComplete` or `onError`; a reader
  that fails to close is not modelled (see "Left out"). `callLlmApi` wraps this
  in a buffering observer and returns an `LlmResponse`, or null.
- `ApiConfigUtil` holds the API key, base URL and model. They start from
  defaults. A properties file, a `.env` file and the process environment then
  override them in that order. `setApiConfig` can override them later.
- `LlmResponse` holds a thinking process and a final answer. It has presence
  tests and a fixed text layout.

## How the model is built

- All of Dafny's integers are unbounded. The only integer in the core is the
  HTTP status, which is printed in decimal.
- Files:
  - `wrappers.dfy`: the `Option` type. Java's `null` is `None`.
  - `java_string.dfy`: the `java.lang.String` operations the core uses:
    - `trim`, which drops chars `<= ' '` at both ends;
    - `indexOf`;
    - `split("=", 2)`;
    - decimal `int` to text;
    - appending lines to a `StringBuilder`.
  - `line_input.dfy`: text read with `BufferedReader.readLine`. It is the
    lines read, then a clean end or an `IOException` with its message.
  - `api_config.dfy`:
    - the layers as functions on a `Config` value;
    - class `ApiConfig`, whose methods (the loaders, `SetApiConfig`, the
      `.env` read loop and `ReadEnvLine`, its body for one line) update the
      three fields in place and are proved equal to those functions.
  - `stream_events.dfy`:
    - what the client sees of a parsed chunk;
    - the function that classifies one line;
    - `Fragments`, the callbacks a sequence of lines causes, with the
      accumulated texts `Thoughts` and `Answers`.
  - `llm_response.dfy`: the class `LlmResponse` and its `toString` layout.
  - `http_client.dfy`:
    - the request;
    - class `HttpClient`, with the class-level copy of the settings and the
      `streamLlmApi` method;
    - the module-level method `ReadStream`, the read loop of a 200 reply,
      whose loop invariants keep the two buffers and the callback trace, and
      `ReadErrorBody`, the read loop of an error body;
    - `callLlmApi` and `setApiConfig`.
- The network is a function parameter `server`. It maps the call the client
  would make (URL, `api-key` header, payload) to either no connection
  (`Unreachable`, for an `IOException` or `URISyntaxException` before a status is
  read), or a status code with the body as a line stream.
- Gson's parsing of a payload is a function parameter `parse`. It yields the JSON
  shape as far as the client looks at it. Every shape on which the client's
  calls throw is a constructor of its own, and the client then drops the line.
- Callback calls are returned as a trace of `Event`s.
- The `.env` file, the properties file and the process environment are given as
  values:
  - the `.env` file is a line stream; a missing file fails before its first line;
  - a properties file is missing, unreadable, or a map;
  - the environment is a map.

The model follows the code, including in these behaviours that differ from
what a reader of the client's documentation might expect:

- The payload is `line.substring(5)`, untrimmed. So `data: [DONE]`, with a space,
  is not the end marker. It reaches the parser, which fails on it, and the line
  is dropped (`SentinelScenario`). Only `data:[DONE]` is skipped as the marker.
- The API key defaults to `""`, and the non-empty guarantee covers only the base
  URL and the model (`ResolvedIsUsable`).
- A `delta` that is present but not an object (JSON `null` included) makes
  `getAsJsonObject` throw. The line is then dropped, and `message` is not tried
  (`DeltaPreferred`).
- An unreadable `reasoning_content` drops the line. It does not fall back to
  `content`.
- An empty `reasoning_content` still fires `onThinkingProcess("")` and hides the
  line's `content` (`ReasoningWins`).
- If `logisim-evolution.properties` exists in the working directory but cannot be
  read, the home-directory file is not tried (`UnreadableWorkingDirFileShadowsHome`).
- A failure while reading a non-200 error body is an `IOException`. It is
  reported as `Error calling LLM API: …`, not as the status message.

## Model

| member | source | states |
|---|---|---|
| HttpClientUtil.HttpClient.StreamLlmApi | src/main/java/com/cburch/logisim/util/HttpClientUtil.java:88-223 | with readers that close without failing, the trace is fragments followed by exactly one onComplete or onError; it returns true exactly for status 200 read to a clean end; on 200 the trace is the fragments of all lines in order, then onComplete with their concatenated reasoning and answer texts, or onError with the read error's message (fragments already sent stay sent); a non-200 status gives exactly one onError with the code and the error-body lines joined without separators; no connection gives exactly one onError "Error calling LLM API: " + message |
| HttpClientUtil.ReadStream | src/main/java/com/cburch/logisim/util/HttpClientUtil.java:155-198 | the read loop of a 200 reply: the callbacks are the fragments of all lines in order, and the two buffers end as the concatenated reasoning and answer texts of those callbacks |
| HttpClientUtil.ReadErrorBody | src/main/java/com/cburch/logisim/util/HttpClientUtil.java:208-212 | the error body is all lines appended without separators |
| HttpClientUtil.HttpClient.CallLlmApi | src/main/java/com/cburch/logisim/util/HttpClientUtil.java:50-78 | the response is non-null exactly when the streaming call succeeds, and then it is new and holds the concatenated reasoning fragments and the concatenated answer fragments |
| HttpClientUtil.HttpClient.SetApiConfig | src/main/java/com/cburch/logisim/util/HttpClientUtil.java:243-256 | the shared settings become SetConfig of the old ones; each field of the class-level copy is replaced by its argument when that is non-null and non-empty and kept otherwise; a copy that agreed with the shared settings still agrees |
| HttpClientUtil.HttpClient.constructor | src/main/java/com/cburch/logisim/util/HttpClientUtil.java:39-41 | the class-level copy starts equal to the shared settings |
| HttpClientUtil.HttpClient.Outgoing | src/main/java/com/cburch/logisim/util/HttpClientUtil.java:91-139 | the call sent: URL `baseUrl + "/chat/completions"`, the `api-key` header, and the request built with the copy's model |
| HttpClientUtil.UserContent | src/main/java/com/cburch/logisim/util/HttpClientUtil.java:129-136 | the question label and the prompt, two newlines, then the circuit label and the circuit when it is non-null and non-empty |
| HttpClientUtil.BuildRequest | src/main/java/com/cburch/logisim/util/HttpClientUtil.java:106-139 | the payload: the model, 2048 max tokens, streaming on, thinking enabled, the system message then the user message |
| HttpClientUtil.StatusErrorMessage | src/main/java/com/cburch/logisim/util/HttpClientUtil.java:214 | the `onError` text for a status other than 200: the code in decimal and the error body |
| HttpClientUtil.TransportErrorMessage | src/main/java/com/cburch/logisim/util/HttpClientUtil.java:220 | the `onError` text for a transport failure: a fixed prefix and the exception's message |
| HttpClientUtil.UserContentLayout | src/main/java/com/cburch/logisim/util/HttpClientUtil.java:129-136 | the user content starts with the question; the circuit section follows exactly when the circuit is non-null and non-empty; a null circuit and an empty one give the same content |
| HttpClientUtil.StatusErrorNamesCode | src/main/java/com/cburch/logisim/util/HttpClientUtil.java:214 | two status error messages are equal only for the same code and the same error body, so the message identifies the code |
| HttpClientUtil.SentinelScenario | src/main/java/com/cburch/logisim/util/HttpClientUtil.java:158-198 | a reasoning line, an answer line and `data: [DONE]` give one thinking fragment, then one answer fragment, and exactly those two texts; the spaced sentinel is dropped because it does not parse |
| HttpClientUtil.DataLine | src/main/java/com/cburch/logisim/util/HttpClientUtil.java:161-165 | a `data:` line whose payload is not exactly `[DONE]` is classified by what the parser makes of the payload |
| StreamEvents.ClassifyLine | src/main/java/com/cburch/logisim/util/HttpClientUtil.java:161-166 | a line counts only with the `data:` prefix and a payload other than exactly `[DONE]`; the payload is then classified by what the parser makes of it |
| StreamEvents.ClassifyChunk | src/main/java/com/cburch/logisim/util/HttpClientUtil.java:165-192 | a chunk that fails to parse, has no readable `choices`, or an empty one, yields nothing; otherwise the first choice decides |
| StreamEvents.SelectContainer | src/main/java/com/cburch/logisim/util/HttpClientUtil.java:168-175 | `delta` when present (nothing when it is not an object), else `message` when present |
| StreamEvents.ClassifyContainer | src/main/java/com/cburch/logisim/util/HttpClientUtil.java:177-189 | a non-null `reasoning_content` gives a reasoning fragment, else a non-null `content` an answer fragment; an unreadable one drops the line |
| StreamEvents.Fragments | src/main/java/com/cburch/logisim/util/HttpClientUtil.java:158-198 | the callbacks of a sequence of lines: each line's fragment, if any, in order |
| StreamEvents.Thoughts | src/main/java/com/cburch/logisim/util/HttpClientUtil.java:181 | the reasoning buffer: the concatenated texts of the reasoning callbacks |
| StreamEvents.Answers | src/main/java/com/cburch/logisim/util/HttpClientUtil.java:187 | the answer buffer: the concatenated texts of the answer callbacks |
| StreamEvents.InertLines | src/main/java/com/cburch/logisim/util/HttpClientUtil.java:158-167 | lines without the `data:` prefix, the exact `data:[DONE]`, and payloads that fail to parse or have no or empty `choices` cause no callback |
| StreamEvents.DeltaPreferred | src/main/java/com/cburch/logisim/util/HttpClientUtil.java:168-177 | an object `delta` is used whatever `message` holds; a non-object `delta` yields nothing; `message` is used only when `delta` is absent and `message` is an object |
| StreamEvents.ReasoningWins | src/main/java/com/cburch/logisim/util/HttpClientUtil.java:178-189 | a readable `reasoning_content` gives a reasoning fragment whatever `content` holds, even when the reasoning text is empty |
| StreamEvents.AtMostOneFragment | src/main/java/com/cburch/logisim/util/HttpClientUtil.java:178-189 | each line causes at most one callback, and it is a fragment callback |
| StreamEvents.FragmentsAppend | src/main/java/com/cburch/logisim/util/HttpClientUtil.java:158-198 | the fragments of two line sequences read one after the other are the fragments of the first followed by those of the second |
| StreamEvents.InertLinesVanish | src/main/java/com/cburch/logisim/util/HttpClientUtil.java:158-198 | inserting lines that cause no callback anywhere leaves the fragments unchanged, and the lines after them are still read |
| StreamEvents.NoFragments | src/main/java/com/cburch/logisim/util/HttpClientUtil.java:158-198 | lines none of which causes a callback cause no fragments together |
| StreamEvents.FragmentsAreFragments | src/main/java/com/cburch/logisim/util/HttpClientUtil.java:158-198 | there are no more fragments than lines, and all of them are fragment callbacks |
| StreamEvents.FinishedTraceIsWellFormed | src/main/java/com/cburch/logisim/util/HttpClientUtil.java:198-202 | the fragments followed by one final call end the trace with exactly one final call and nothing after it |
| StreamEvents.FragmentsSnoc | src/main/java/com/cburch/logisim/util/HttpClientUtil.java:158 | reading one more line adds its callback, if any, after the earlier ones |
| StreamEvents.FragmentTexts | src/main/java/com/cburch/logisim/util/HttpClientUtil.java:179-189 | a reasoning line adds its text to the reasoning buffer only, an answer line to the answer buffer only, any other line to neither |
| StreamEvents.TextsAppend | src/main/java/com/cburch/logisim/util/HttpClientUtil.java:181-187 | the accumulated reasoning and answer texts of a concatenated trace are the concatenations of the parts' texts |
| StreamEvents.FinalEventAddsNoText | src/main/java/com/cburch/logisim/util/HttpClientUtil.java:66-69 | the final call of a trace adds nothing to either accumulated text |
| ApiConfigUtil.Override | src/main/java/com/cburch/logisim/util/ApiConfigUtil.java:196-204 | a writer never replaces a non-empty value with an empty one |
| ApiConfigUtil.ParseEnvLine | src/main/java/com/cburch/logisim/util/ApiConfigUtil.java:105-118 | one line of `.env`: nothing when blank or a comment, else the split of the line with a column-0 `export ` dropped |
| ApiConfigUtil.StripExport | src/main/java/com/cburch/logisim/util/ApiConfigUtil.java:110-112 | drops `export ` only at column 0 of the untrimmed line |
| ApiConfigUtil.SplitEntry | src/main/java/com/cburch/logisim/util/ApiConfigUtil.java:115-118 | an entry of the trimmed text before and after the first `=`, or nothing without `=` |
| ApiConfigUtil.ApplyEnvEntry | src/main/java/com/cburch/logisim/util/ApiConfigUtil.java:120-139 | the key switch: a known key with a non-empty value sets its setting; anything else changes nothing |
| ApiConfigUtil.ApplyEnvEntries | src/main/java/com/cburch/logisim/util/ApiConfigUtil.java:103-141 | the entries applied first to last |
| ApiConfigUtil.ApplyProperties | src/main/java/com/cburch/logisim/util/ApiConfigUtil.java:60-77 | a loaded file's non-empty `api.key`, `api.base.url` and `api.model` replace their settings; a missing or unreadable file changes nothing |
| ApiConfigUtil.ChoosePropertiesFile | src/main/java/com/cburch/logisim/util/ApiConfigUtil.java:54-58 | the working-directory file unless it is missing, then the home-directory file |
| ApiConfigUtil.ApplySystemEnv | src/main/java/com/cburch/logisim/util/ApiConfigUtil.java:80-95 | non-empty `OPENAI_API_KEY`, `OPENAI_BASE_URL` and `OPENAI_MODEL` replace their settings |
| ApiConfigUtil.Resolve | src/main/java/com/cburch/logisim/util/ApiConfigUtil.java:36-51 | defaults, then the properties file, then the `.env` lines read, then the environment |
| ApiConfigUtil.SetConfig | src/main/java/com/cburch/logisim/util/ApiConfigUtil.java:195-205 | each non-null, non-empty argument replaces its setting |
| ApiConfigUtil.ParseEnvLines | src/main/java/com/cburch/logisim/util/ApiConfigUtil.java:103-141 | one entry per line of `.env`, each the reading of that line |
| ApiConfigUtil.CommentAndBlankLinesSayNothing | src/main/java/com/cburch/logisim/util/ApiConfigUtil.java:105-107 | a line whose trimmed form is empty or starts with `#` gives no entry |
| ApiConfigUtil.SplitAtFirstEquals | src/main/java/com/cburch/logisim/util/ApiConfigUtil.java:115-118 | the line is cut at its first `=` only, into a trimmed key and a trimmed value, so the value may hold `=` |
| ApiConfigUtil.ExportPrefixDropped | src/main/java/com/cburch/logisim/util/ApiConfigUtil.java:109-118 | a line starting with `export ` reads as the rest of the line |
| ApiConfigUtil.FirstEqualsSplits | src/main/java/com/cburch/logisim/util/ApiConfigUtil.java:105-118 | a line without `export ` that is not blank or a comment gives the trimmed text before and after its first `=` |
| ApiConfigUtil.LineWithoutEqualsSaysNothing | src/main/java/com/cburch/logisim/util/ApiConfigUtil.java:115-116 | a line without `=` gives no entry |
| ApiConfigUtil.IndentedExportIgnored | src/main/java/com/cburch/logisim/util/ApiConfigUtil.java:110-139 | `export ` after any non-empty run of leading chars `<= ' '` is not stripped; it stays in the key, and the line changes no setting |
| ApiConfigUtil.IndentedExportKey | src/main/java/com/cburch/logisim/util/ApiConfigUtil.java:110-117 | for a line of any non-empty run of chars `<= ' '` then `export `, the key, if there is one, starts with the `e` of `export` |
| ApiConfigUtil.KeyAfterBlankPrefix | src/main/java/com/cburch/logisim/util/ApiConfigUtil.java:115-117 | after leading chars `<= ' '`, the first char that is neither `<= ' '` nor `=` starts the key, if the line has one |
| ApiConfigUtil.CutAfterBlankPrefix | src/main/java/com/cburch/logisim/util/ApiConfigUtil.java:115 | the first `=` of such a line lies after the leading white space and after the first char of the rest |
| ApiConfigUtil.UnknownKeyIgnored | src/main/java/com/cburch/logisim/util/ApiConfigUtil.java:120-139 | an entry whose key is none of the three names changes nothing |
| ApiConfigUtil.EntryEffect | src/main/java/com/cburch/logisim/util/ApiConfigUtil.java:120-139 | an entry changes only the setting its key names, and only to a non-empty value |
| ApiConfigUtil.ParseEnvLinesSnoc | src/main/java/com/cburch/logisim/util/ApiConfigUtil.java:103 | reading one more line adds its entry after the others |
| ApiConfigUtil.ApplyEnvLinesSnoc | src/main/java/com/cburch/logisim/util/ApiConfigUtil.java:103-141 | reading one more line applies that line's entry to the settings so far |
| ApiConfigUtil.EnvFileLastWins | src/main/java/com/cburch/logisim/util/ApiConfigUtil.java:100-146 | after the whole file, each setting holds the value of the last entry that sets it, or its earlier value when none does |
| ApiConfigUtil.LastEntryWins | src/main/java/com/cburch/logisim/util/ApiConfigUtil.java:103-141 | among repeated keys, the last one with a non-empty value supplies the setting |
| ApiConfigUtil.EnvFileValueIsLastAssignment | src/main/java/com/cburch/logisim/util/ApiConfigUtil.java:103-141 | stated on the lines of the file: the last line that sets a setting supplies its value |
| ApiConfigUtil.EnvFileValueNone | src/main/java/com/cburch/logisim/util/ApiConfigUtil.java:103-141 | a file with no line setting a setting supplies nothing for it |
| ApiConfigUtil.ResolveLayering | src/main/java/com/cburch/logisim/util/ApiConfigUtil.java:40-51 | each setting is the environment's value if it supplies one, else the last `.env` value, else the chosen properties file's value, else the default; other settings play no part |
| ApiConfigUtil.PropertiesEffect | src/main/java/com/cburch/logisim/util/ApiConfigUtil.java:60-73 | the properties layer sets each setting to the file's non-empty value, if any |
| ApiConfigUtil.SystemEnvEffect | src/main/java/com/cburch/logisim/util/ApiConfigUtil.java:80-95 | the environment layer sets each setting to the variable's non-empty value, if any |
| ApiConfigUtil.ModelFromEnvironmentOnly | src/main/java/com/cburch/logisim/util/ApiConfigUtil.java:91-94 | an environment that only sets `OPENAI_MODEL` changes only the model |
| ApiConfigUtil.EnvEntriesKeepUsable | src/main/java/com/cburch/logisim/util/ApiConfigUtil.java:120-139 | `.env` entries never make the base URL or the model empty |
| ApiConfigUtil.ResolvedIsUsable | src/main/java/com/cburch/logisim/util/ApiConfigUtil.java:32-51 | whatever the sources, the base URL and the model are non-empty after initialisation |
| ApiConfigUtil.NoSourcesGiveDefaults | src/main/java/com/cburch/logisim/util/ApiConfigUtil.java:32-38 | with no files and an empty environment, the settings are `""`, `https://api.openai.com/v1` and `gpt-3.5-turbo` |
| ApiConfigUtil.UnreadableWorkingDirFileShadowsHome | src/main/java/com/cburch/logisim/util/ApiConfigUtil.java:54-77 | an existing but unreadable working-directory file is used instead of the home one, and the properties layer then changes nothing |
| ApiConfigUtil.SetConfigChangesOnlyPresent | src/main/java/com/cburch/logisim/util/ApiConfigUtil.java:195-205 | `setApiConfig` sets exactly the settings whose argument is non-null and non-empty, and leaves the others unchanged |
| ApiConfigUtil.SetConfigIdempotent | src/main/java/com/cburch/logisim/util/ApiConfigUtil.java:195-205 | calling `setApiConfig` twice with the same arguments is the same as calling it once |
| ApiConfigUtil.ApiConfig.constructor | src/main/java/com/cburch/logisim/util/ApiConfigUtil.java:36-51 | the static initialiser leaves the settings at Resolve of the sources, with the base URL and the model non-empty |
| ApiConfigUtil.ApiConfig.LoadFromPropertiesFile | src/main/java/com/cburch/logisim/util/ApiConfigUtil.java:53-78 | the settings become the properties layer applied to the old ones, using the working-directory file unless it is missing |
| ApiConfigUtil.ApiConfig.LoadFromSystemEnv | src/main/java/com/cburch/logisim/util/ApiConfigUtil.java:80-95 | the settings become the environment layer applied to the old ones |
| ApiConfigUtil.ApiConfig.LoadFromEnvFile | src/main/java/com/cburch/logisim/util/ApiConfigUtil.java:100-146 | the settings become the entries of all lines read before the end or the read error, applied in order to the old ones |
| ApiConfigUtil.ApiConfig.ReadEnvLine | src/main/java/com/cburch/logisim/util/ApiConfigUtil.java:104-140 | one turn of the read loop: the settings become the line's entry applied to the old ones |
| ApiConfigUtil.ApiConfig.SetFromEnvEntry | src/main/java/com/cburch/logisim/util/ApiConfigUtil.java:120-139 | the key switch: the settings become the entry applied to the old ones |
| ApiConfigUtil.ApiConfig.SetApiConfig | src/main/java/com/cburch/logisim/util/ApiConfigUtil.java:195-205 | the settings become SetConfig of the old ones, and the base URL and model stay non-empty |
| ApiConfigUtil.ApiConfig.GetApiConfig | src/main/java/com/cburch/logisim/util/ApiConfigUtil.java:153-159 | a map with exactly the keys `apiKey`, `baseUrl` and `model`, holding the current settings |
| JavaString.Trim | src/main/java/com/cburch/logisim/util/ApiConfigUtil.java:105 | the result is a slice of the input with only chars `<= ' '` before and after it; it is empty exactly when every char is `<= ' '`; otherwise neither of its ends is `<= ' '`; an input whose first char is not `<= ' '` keeps that char first |
| JavaString.TrimAfterBlankPrefix | src/main/java/com/cburch/logisim/util/ApiConfigUtil.java:117 | after any run of leading chars `<= ' '`, a char that is not `<= ' '` starts the trimmed text |
| JavaString.IndexOf | src/main/java/com/cburch/logisim/util/ApiConfigUtil.java:115 | the first position of the char, or -1 exactly when it does not occur |
| JavaString.SplitLimit2 | src/main/java/com/cburch/logisim/util/ApiConfigUtil.java:115 | two parts exactly when the separator occurs; then the first part holds no separator, and the parts joined by the separator give back the input |
| JavaString.CutAtFirst | src/main/java/com/cburch/logisim/util/HttpClientUtil.java:214 | two texts without the separator, each followed by the separator, are recovered by cutting at the first separator |
| JavaString.IntToString | src/main/java/com/cburch/logisim/util/HttpClientUtil.java:214 | the decimal text of an `int`, with `-` for a negative one |
| JavaString.Concat | src/main/java/com/cburch/logisim/util/HttpClientUtil.java:208-212 | the lines appended to a `StringBuilder` without separators |
| JavaString.IntToStringInjective | src/main/java/com/cburch/logisim/util/HttpClientUtil.java:214 | different status codes are printed as different texts |
| LlmResponses.Render | src/main/java/com/cburch/logisim/util/LlmResponse.java:78-88 | the `toString` text: the thinking section when the thinking process is present, then the answer section when the final answer is present |
| LlmResponses.RenderLayouts | src/main/java/com/cburch/logisim/util/LlmResponse.java:78-88 | the four layouts: thinking then answer sections, only the thinking one, only the answer one, or `""` |
| LlmResponses.RenderShowsWhatIsPresent | src/main/java/com/cburch/logisim/util/LlmResponse.java:78-88 | the text is empty exactly when neither part is present, and starts with the thinking header exactly when the thinking process is present |
| LlmResponses.NullAndEmptyRenderAlike | src/main/java/com/cburch/logisim/util/LlmResponse.java:66-88 | a null part and an empty part give the same text |
| LlmResponses.LlmResponse.constructor | src/main/java/com/cburch/logisim/util/LlmResponse.java:25-28 | the fields hold the arguments unchanged |
| LlmResponses.LlmResponse.SetThinkingProcess | src/main/java/com/cburch/logisim/util/LlmResponse.java:42-44 | sets the thinking process and leaves the final answer unchanged |
| LlmResponses.LlmResponse.SetFinalAnswer | src/main/java/com/cburch/logisim/util/LlmResponse.java:58-60 | sets the final answer and leaves the thinking process unchanged |
| LlmResponses.LlmResponse.HasThinkingProcess | src/main/java/com/cburch/logisim/util/LlmResponse.java:66-68 | true exactly when the thinking process is non-null and non-empty |
| LlmResponses.LlmResponse.HasFinalAnswer | src/main/java/com/cburch/logisim/util/LlmResponse.java:74-76 | true exactly when the final answer is non-null and non-empty |
| LlmResponses.LlmResponse.ToString | src/main/java/com/cburch/logisim/util/LlmResponse.java:78-88 | empty exactly when neither part is present; starts with the thinking header exactly when thinking is present; only the answer section when only the answer is present |

## Left out

- Network and transport are not modelled: URL and URI construction, `HttpURLConnection`, the request headers, the 30 s and 60 s timeouts, and the output-stream write. They are the `server` parameter.
- JSON is not modelled. Gson's serialisation of the payload is replaced by the `CompletionRequest` value, and its parsing of chunks by the `parse` parameter.
- A null error stream is not modelled. If `getErrorStream()` returns null on a non-200 status, the code throws a `NullPointerException`, which neither catch clause handles, so no `onError` is sent. The model gives every non-200 reply a line stream.
- Only exceptions the code catches are modelled. Exceptions thrown by the caller's callbacks, and runtime exceptions outside the per-chunk `try`, are not.
- Logging calls are not modelled.
- Concurrency is not modelled: concurrent calls and the last-writer-wins race on the static fields.
- `HttpClientUtil.getApiConfig` is not modelled separately, because it only delegates to `ApiConfigUtil.getApiConfig`.
- The getters of `ApiConfigUtil` (`getApiKey`, `getBaseUrl`, `getModel`) and of `LlmResponse` are not members of their own. They return a field unchanged, and the model reads that field directly.
- The static fields start from the values `ApiConfigUtil` had when `HttpClientUtil` was loaded. The model passes those values to the `HttpClient` constructor as one shared `ApiConfig` object.
- HttpClientUtil.HttpClient.SetApiConfig: the two copies can diverge. `ApiConfigUtil.setApiConfig` is public and updates only the shared settings; `streamLlmApi` then still uses the old class-level copy. The model lets the copy differ and proves only that a copy that agrees keeps agreeing.
- A failure while closing a reader is not modelled. The two `try`-with-resources readers (`HttpClientUtil.java` lines 153 and 206) are closed after `onComplete` or after the status `onError`. If `close()` threw an `IOException`, the catch at lines 218-221 would send a second `onError` and return `false`. The model treats every close as successful.
- `Properties.load` is not modelled; the model is given its result as a map. For the same reason the model does not capture `.properties` escapes or continuations.
- `System.getenv` is not modelled; the process environment is given as a map.
- The assistant panel, the circuit exporters, the streaming callback interface and the console test programs are not part of this model. The callback interface only shapes the `Event` type.
