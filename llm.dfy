/**
 * The LLM client: the two analysis calls (project source and resume text),
 * their error wrapping, and `_extract_json`, which takes the JSON out of a
 * reply that may be wrapped in a markdown code fence.
 *
 * The model call and `json.loads` are foreign code. The model is a function
 * from the prompt to its reply; the parser is a function from text to a JSON
 * value, `None` standing for `JSONDecodeError`.
 */
module LlmClient {
  import opened Wrappers
  import opened Text
  import opened Exceptions

  /** A JSON value as `json.loads` returns it; numbers keep their literal text. */
  datatype Json =
    | JNull
    | JBool(b: bool)
    | JNumber(literal: string)
    | JString(s: string)
    | JArray(items: seq<Json>)
    | JObject(fields: seq<(string, Json)>)

  /** What the model call did: an exception while configuring the client (outside the `try`), one during the call, or a reply text. */
  datatype LlmReply = SetupRaised(error: Exn) | CallRaised(message: string) | Replied(text: string)

  const Fence := "```"
  const JsonFence := "```json"
  const Fallback := JObject([
    ("description", JString("Error analyzing resume content.")),
    ("key_skills", JArray([])),
    ("highlights", JArray([]))])
  const MissingKey := "LLM_API_KEY is not set"
  const RequestFailed := "LLM request failed: "
  const EmptyReply := "LLM response was empty or blocked by safety filters"

  const SystemPrompt := "You are a senior software analyst. Return only strict JSON."
  const SourcePromptHead :=
    "Analyze the following frontend source code and return strict JSON with:\n"
    + "- description: project purpose plus application flow and user types\n"
    + "- features: array of main features\n"
    + "- tech_stack: A comprehensive array of ALL technologies used. You MUST explicitly look for and include:\n"
    + "    * Programming Languages (e.g., Python, JavaScript, TypeScript)\n"
    + "    * Frameworks (e.g., React, Next.js, Vue, FastAPI, Django)\n"
    + "    * State Management (e.g., Redux, Context API, Zustand)\n"
    + "    * API Fetching & Async tools (e.g., Axios, fetch, TanStack Query, SWR)\n"
    + "    * Styling & UI Libraries (e.g., f\\ Material UI, Bootstrap, CSS Modules)\n"
    + "    * Build tools (e.g., Vite, Webpack)\n"
    + "    * Any other major libraries found in imports or configuration.\n"
    + "- questions_that_can_be_asked_in_interview: array of 5 technical interview questions specifically related to the code patterns, libraries, and architecture used in this project.\n"
    + "- summary: overall summary\n"
    + "\n"
    + "Source code:\n"
  const ResumePromptHead :=
    "Analyze the following candidate resume text and return strict JSON with:\n"
    + "- description: brief profile summary.\n"
    + "- key_skills: array of technical and soft skills.\n"
    + "- key_projects: array of projects with brief descriptions.\n"
    + "- experience: array of work experience entries (e.g. \"Software Engineer at Google (2020-2022): Developed X...\").\n"
    + "- education: array of education entries.\n"
    + "- highlights: array of key achievements.\n"
    + "\n"
    + "Resume text:\n"

  /** Drops a leading "```json", or else a leading "```". */
  function OpenFence(t: string): (r: string)
    ensures IsPrefix(JsonFence, t) ==> r == t[|JsonFence|..]
    ensures IsPrefix(Fence, t) && !IsPrefix(JsonFence, t) ==> r == t[|Fence|..]
    ensures !IsPrefix(Fence, t) ==> r == t
    ensures IsSuffix(r, t)
  {
    if IsPrefix(JsonFence, t) then t[|JsonFence|..]
    else if IsPrefix(Fence, t) then t[|Fence|..]
    else t
  }

  /** Drops one trailing "```". */
  function CloseFence(t: string): (r: string)
    ensures !IsSuffix(Fence, t) ==> r == t
    ensures IsPrefix(r, t)
  {
    if IsSuffix(Fence, t) then t[..|t| - |Fence|] else t
  }

  /**
   * The fence removal of `_extract_json`: strip; drop a leading "```json",
   * or else a leading "```"; drop one trailing "```"; strip again.
   */
  function StripFence(text: string): (r: string)
    ensures IsStripped(r)
    ensures |r| <= |text|
  {
    Strip(CloseFence(OpenFence(Strip(text))))
  }

  /** A text that is already stripped is left alone by `strip()`. */
  lemma StrippedFixed(s: string)
    requires IsStripped(s)
    ensures Strip(s) == s
  {
    StripPadded([], s, []);
    assert [] + s + [] == s;
  }

  lemma OpeningFenceDropped(open: string, rest: string)
    requires open == JsonFence || open == Fence
    requires rest != [] && rest[0] == '\n'
    ensures OpenFence(open + rest) == rest
  {
    var w := open + rest;
    assert w[..|open|] == open;
    if open == Fence {
      assert w[3] == '\n';
      assert !IsPrefix(JsonFence, w);
    }
    assert w[|open|..] == rest;
  }

  lemma ClosingFenceDropped(inner: string)
    ensures CloseFence(inner + Fence) == inner
  {
    var w := inner + Fence;
    assert w[|w| - |Fence|..] == Fence;
    assert w[..|w| - |Fence|] == inner;
  }

  lemma {:induction false} FencedRoundTrip(open: string, s: string)
    requires open == JsonFence || open == Fence
    requires IsStripped(s)
    ensures StripFence(open + "\n" + s + "\n" + Fence) == s
  {
    var inner := "\n" + s + "\n";
    var w := open + (inner + Fence);
    assert open + "\n" + s + "\n" + Fence == w by {
      assert open + "\n" + s + "\n" + Fence == open + ("\n" + s + "\n" + Fence);
    }
    assert OpenFence(w) == inner + Fence by {
      OpeningFenceDropped(open, inner + Fence);
    }
    assert CloseFence(inner + Fence) == inner by {
      ClosingFenceDropped(inner);
    }
    assert Strip(inner) == s by {
      NewlineIsSpace();
      StripPadded("\n", s, "\n");
    }
    assert Strip(w) == w by {
      assert w[0] == open[0] == '`';
      assert w[|w| - 1] == Fence[2] == '`';
      StrippedFixed(w);
    }
    FenceSteps(w, inner + Fence, inner, s);
  }

  /** `StripFence` step by step: each stage's result feeds the next. */
  lemma FenceSteps(w: string, afterOpen: string, afterClose: string, s: string)
    requires Strip(w) == w && OpenFence(w) == afterOpen && CloseFence(afterOpen) == afterClose && Strip(afterClose) == s
    ensures StripFence(w) == s
  {
  }

  lemma NewlineIsSpace()
    ensures AllSpace("\n")
  {
    var nl := "\n";
    assert |nl| == 1 && nl[0] == '\n';
    assert IsSpace('\n');
  }

  /** A reply fenced as ```json ... ``` or ``` ... ```, one line each side, gives back exactly the text inside. */
  lemma StripFenceRoundTrip(s: string)
    requires IsStripped(s)
    ensures StripFence(JsonFence + "\n" + s + "\n" + Fence) == s
    ensures StripFence(Fence + "\n" + s + "\n" + Fence) == s
  {
    FencedRoundTrip(JsonFence, s);
    FencedRoundTrip(Fence, s);
  }

  /** A stripped reply with no fence at either end passes through unchanged. */
  lemma UnfencedUnchanged(s: string)
    requires IsStripped(s) && !IsPrefix(Fence, s) && !IsSuffix(Fence, s)
    ensures StripFence(s) == s
  {
    StrippedFixed(s);
  }

  /** `_extract_json`: the parsed de-fenced text, or the fixed fallback when parsing fails; it never raises. */
  function ExtractJson(text: string, parse: string -> Option<Json>): (r: Json)
    ensures parse(StripFence(text)).None? ==> r == Fallback
    ensures parse(StripFence(text)).Some? ==> r == parse(StripFence(text)).value
  {
    match parse(StripFence(text))
    case Some(v) => v
    case None => Fallback
  }

  /** A fenced reply parses as its inside would. */
  lemma ExtractFenced(s: string, parse: string -> Option<Json>)
    requires IsStripped(s)
    ensures ExtractJson(JsonFence + "\n" + s + "\n" + Fence, parse) == (if parse(s).Some? then parse(s).value else Fallback)
  {
    StripFenceRoundTrip(s);
  }

  /**
   * The shared body of both analysis calls: no API key raises
   * `RuntimeError` before any call; a configuration exception passes through;
   * an exception during the call, and an empty reply, become a `RuntimeError`
   * prefixed "LLM request failed: "; a reply goes through `_extract_json`.
   */
  function Request(apiKey: string, reply: LlmReply, parse: string -> Option<Json>): (r: Result<Json, Exn>)
    ensures apiKey == "" ==> r == Failure(Exn(RuntimeError, MissingKey))
    ensures apiKey != "" && reply.SetupRaised? ==> r == Failure(reply.error)
    ensures apiKey != "" && !reply.SetupRaised? && r.Failure? ==>
      r.error.kind == RuntimeError && IsPrefix(RequestFailed, r.error.message)
    ensures apiKey != "" && reply == Replied("") ==> r == Failure(Exn(RuntimeError, RequestFailed + EmptyReply))
    ensures apiKey != "" && reply.CallRaised? ==> r == Failure(Exn(RuntimeError, RequestFailed + reply.message))
    ensures r.Success? <==> apiKey != "" && reply.Replied? && reply.text != ""
    ensures r.Success? ==> r.value == ExtractJson(reply.text, parse)
  {
    if apiKey == "" then Failure(Exn(RuntimeError, MissingKey))
    else match reply
      case SetupRaised(e) => Failure(e)
      case CallRaised(m) =>
        assert (RequestFailed + m)[..|RequestFailed|] == RequestFailed;
        Failure(Exn(RuntimeError, RequestFailed + m))
      case Replied(text) =>
        if text == "" then
          assert (RequestFailed + EmptyReply)[..|RequestFailed|] == RequestFailed;
          Failure(Exn(RuntimeError, RequestFailed + EmptyReply))
        else Success(ExtractJson(text, parse))
  }

  /** `f"{SYSTEM_PROMPT}\n\n{TEMPLATE.format(...)}"` for a template that ends with the inserted text and a newline. */
  function Prompt(head: string, inserted: string): (p: string)
    ensures IsPrefix(SystemPrompt + "\n\n" + head, p)
    ensures IsSuffix(inserted + "\n", p)
    ensures |p| == |SystemPrompt| + 2 + |head| + |inserted| + 1
  {
    var p := SystemPrompt + "\n\n" + head + inserted + "\n";
    assert p[..|SystemPrompt + "\n\n" + head|] == SystemPrompt + "\n\n" + head;
    assert p[|p| - |inserted + "\n"|..] == inserted + "\n";
    p
  }

  /** `analyze_source_with_llm(source)`: the model is asked with the source prompt. */
  function AnalyzeSource(source: string, apiKey: string, model: string -> LlmReply, parse: string -> Option<Json>): Result<Json, Exn> {
    Request(apiKey, model(Prompt(SourcePromptHead, source)), parse)
  }

  /** `analyze_resume_with_llm(resume_text)`: the model is asked with the resume prompt. */
  function AnalyzeResume(resumeText: string, apiKey: string, model: string -> LlmReply, parse: string -> Option<Json>): Result<Json, Exn> {
    Request(apiKey, model(Prompt(ResumePromptHead, resumeText)), parse)
  }
}
