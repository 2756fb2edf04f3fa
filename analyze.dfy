/**
 * The two analysis routes: `POST /analyze-repo` (clone, choose the source
 * directory, bundle the sources, ask the model) and `POST /analyze-resume`
 * (extract the text, ask the model), with the way each turns the exceptions
 * of the pipeline into HTTP errors.
 *
 * What the outside world does is an input: the outcome of the `git` runs, the
 * cloned tree, the temporary directory's name, the upload's bytes and what
 * the PDF library makes of them, the API key, the model and the JSON parser.
 */
module AnalyzeRoutes {
  import opened Wrappers
  import opened Text
  import opened Exceptions
  import opened Utf8
  import RepoSource
  import ResumeText
  import LlmClient

  const UrlRequired := "repo_url is required"
  const InternalPrefix := "Internal Server Error: "
  const EmptyResume := "resume file is empty"
  const NoResumeText := "unable to extract resume text"
  const LlmErrorPrefix := "LLM Error: "
  const ServerErrorPrefix := "Server Error: "
  /** The last component of the path `clone_repo` returns, which `find_src_dir` compares with "src". */
  const RepoDirName := "repo"

  // ------------------------------------------------------------ analyze-repo

  /**
   * The `except` clauses of `analyze_repo`: `FileNotFoundError` is 404,
   * `ValueError` 400, `RuntimeError` 502, anything else 500 with its message
   * after "Internal Server Error: ".
   */
  function RepoError(e: Exn): (h: HttpError)
    ensures h.status == 404 <==> e.kind == FileNotFoundError
    ensures h.status == 400 <==> e.kind == ValueError
    ensures h.status == 502 <==> e.kind == RuntimeError
    ensures h.status == 500 <==> e.kind == OtherError
    ensures h.status in {400, 404, 500, 502}
    ensures e.kind != OtherError ==> h.detail == e.message
    ensures e.kind == OtherError ==>
      IsPrefix(InternalPrefix, h.detail) && IsSuffix(e.message, h.detail)
      && |h.detail| == |InternalPrefix| + |e.message|
  {
    match e.kind
    case FileNotFoundError => HttpError(404, e.message)
    case ValueError => HttpError(400, e.message)
    case RuntimeError => HttpError(502, e.message)
    case OtherError =>
      var d := InternalPrefix + e.message;
      assert d[..|InternalPrefix|] == InternalPrefix;
      assert d[|d| - |e.message|..] == e.message;
      HttpError(500, d)
  }

  /** A step's exception becomes the route's HTTP error; a value passes. */
  function Answer<T>(r: Result<T, Exn>): (a: Result<T, HttpError>)
    ensures a.Success? <==> r.Success?
    ensures a.Failure? ==> a.error == RepoError(r.error)
  {
    match r
    case Success(v) => Success(v)
    case Failure(e) => Failure(RepoError(e))
  }

  /** The source bundle `read_source_files` builds for the chosen directory of the cloned tree. */
  function SourceBundle(dirs: seq<RepoSource.Path>, files: seq<RepoSource.SourceFile>): Result<string, Exn> {
    RepoSource.Bundle(RepoSource.Parts(RepoSource.SrcDir(RepoDirName, dirs), files))
  }

  /**
   * The body of the `try` of `analyze_repo` once `clone_repo` has produced
   * `cloned`: the first step that raises decides the HTTP error.
   */
  function RepoResponse(cloned: Result<string, Exn>, dirs: seq<RepoSource.Path>, files: seq<RepoSource.SourceFile>,
                        apiKey: string, model: string -> LlmClient.LlmReply,
                        parse: string -> Option<LlmClient.Json>): (r: Result<LlmClient.Json, HttpError>)
    ensures cloned.Failure? ==> r == Failure(RepoError(cloned.error))
    ensures r.Success? ==> cloned.Success?
    ensures r.Failure? ==> r.error.status in {400, 404, 500, 502}
  {
    if cloned.Failure? then Failure(RepoError(cloned.error))
    else
      var bundle := SourceBundle(dirs, files);
      if bundle.Failure? then Failure(RepoError(bundle.error))
      else Answer(LlmClient.AnalyzeSource(bundle.value, apiKey, model, parse))
  }

  /**
   * `analyze_repo`: an empty URL is refused before anything is created;
   * otherwise a temporary directory is made, the pipeline runs, and the
   * directory is removed on every path out of the `try`.
   */
  method AnalyzeRepo(repoUrl: string, tmpDir: string, run: RepoSource.GitRun,
                     dirs: seq<RepoSource.Path>, files: seq<RepoSource.SourceFile>,
                     apiKey: string, model: string -> LlmClient.LlmReply, parse: string -> Option<LlmClient.Json>)
    returns (resp: Result<LlmClient.Json, HttpError>, tmpCreated: bool, tmpRemoved: bool)
    ensures repoUrl == "" ==> resp == Failure(HttpError(400, UrlRequired)) && !tmpCreated
    ensures repoUrl != "" ==> resp == RepoResponse(RepoSource.CloneRepo(repoUrl, tmpDir, run), dirs, files, apiKey, model, parse)
    ensures tmpCreated <==> repoUrl != ""
    ensures tmpRemoved == tmpCreated
  {
    if repoUrl == "" {
      return Failure(HttpError(400, UrlRequired)), false, false;
    }
    tmpCreated := true;
    var cloned := RepoSource.CloneRepo(repoUrl, tmpDir, run);
    if cloned.Failure? {
      resp := Failure(RepoError(cloned.error));
    } else {
      var src := RepoSource.FindSrcDir(RepoDirName, dirs);
      var combined := RepoSource.ReadSourceFiles(src, files);
      if combined.Failure? {
        resp := Failure(RepoError(combined.error));
      } else {
        var result := LlmClient.AnalyzeSource(combined.value, apiKey, model, parse);
        resp := Answer(result);
      }
    }
    tmpRemoved := true;
  }

  /** Every failure of the corrected `clone_repo` reaches the client as a 400 with its message. */
  lemma CloneFailureIs400(url: string, tmpDir: string, run: RepoSource.GitRun, dirs: seq<RepoSource.Path>,
                          files: seq<RepoSource.SourceFile>, apiKey: string,
                          model: string -> LlmClient.LlmReply, parse: string -> Option<LlmClient.Json>)
    requires run != RepoSource.Cloned
    ensures RepoResponse(RepoSource.CloneRepo(url, tmpDir, run), dirs, files, apiKey, model, parse)
         == Failure(HttpError(400, RepoSource.CloneRepo(url, tmpDir, run).error.message))
  {
  }

  /**
   * The finding in clone_repo seen at the route: with the code as written a
   * failing `git --version` answers 500 "Internal Server Error: ..." where the
   * corrected function answers 400 "Failed to clone repo: unknown error".
   */
  lemma VersionCheckFailureStatus(url: string, tmpDir: string, dirs: seq<RepoSource.Path>,
                                  files: seq<RepoSource.SourceFile>, apiKey: string,
                                  model: string -> LlmClient.LlmReply, parse: string -> Option<LlmClient.Json>)
    ensures RepoResponse(RepoSource.CloneRepoAsWritten(url, tmpDir, RepoSource.VersionCheckFailed), dirs, files, apiKey, model, parse)
         == Failure(HttpError(500, InternalPrefix + RepoSource.NoneStrip))
    ensures RepoResponse(RepoSource.CloneRepo(url, tmpDir, RepoSource.VersionCheckFailed), dirs, files, apiKey, model, parse)
         == Failure(HttpError(400, RepoSource.CloneFailedPrefix + "unknown error"))
  {
  }

  /** A cloned tree without a supported source file is a 404, before the model is asked. */
  lemma NoSourcesIs404(repoPath: string, dirs: seq<RepoSource.Path>, files: seq<RepoSource.SourceFile>,
                       apiKey: string, model: string -> LlmClient.LlmReply, parse: string -> Option<LlmClient.Json>)
    requires forall i :: 0 <= i < |files| ==> !RepoSource.Included(RepoSource.SrcDir(RepoDirName, dirs), files[i])
    ensures RepoResponse(Success(repoPath), dirs, files, apiKey, model, parse)
         == Failure(HttpError(404, RepoSource.NoSourceFiles))
  {
    RepoSource.PartsEmptyIff(RepoSource.SrcDir(RepoDirName, dirs), files);
    assert SourceBundle(dirs, files) == Failure(Exn(FileNotFoundError, RepoSource.NoSourceFiles));
  }

  /**
   * The model step of `analyze_repo`: JSON exactly when a key is set and the
   * model replied to the source prompt with some text; with no key, a 502
   * carrying the client's message.
   */
  lemma SourceAnswer(source: string, apiKey: string, model: string -> LlmClient.LlmReply,
                     parse: string -> Option<LlmClient.Json>)
    ensures var reply := model(LlmClient.Prompt(LlmClient.SourcePromptHead, source));
            Answer(LlmClient.AnalyzeSource(source, apiKey, model, parse)).Success? <==>
              apiKey != "" && reply.Replied? && reply.text != ""
    ensures apiKey == "" ==>
            Answer(LlmClient.AnalyzeSource(source, apiKey, model, parse)) == Failure(HttpError(502, LlmClient.MissingKey))
  {
    var reply := model(LlmClient.Prompt(LlmClient.SourcePromptHead, source));
    assert LlmClient.AnalyzeSource(source, apiKey, model, parse) == LlmClient.Request(apiKey, reply, parse);
  }

  /**
   * Once the clone succeeded, the bundle exists exactly when some file of the
   * tree is included, and the route answers with JSON exactly when the bundle
   * exists, a key is set and the model replied to it with some text.
   */
  lemma RepoSuccessIff(repoPath: string, dirs: seq<RepoSource.Path>, files: seq<RepoSource.SourceFile>,
                       apiKey: string, model: string -> LlmClient.LlmReply, parse: string -> Option<LlmClient.Json>)
    ensures SourceBundle(dirs, files).Success? <==>
            exists i :: 0 <= i < |files| && RepoSource.Included(RepoSource.SrcDir(RepoDirName, dirs), files[i])
    ensures var r := RepoResponse(Success(repoPath), dirs, files, apiKey, model, parse);
            var bundle := SourceBundle(dirs, files);
            r.Success? <==> bundle.Success? && apiKey != ""
                            && model(LlmClient.Prompt(LlmClient.SourcePromptHead, bundle.value)).Replied?
                            && model(LlmClient.Prompt(LlmClient.SourcePromptHead, bundle.value)).text != ""
    ensures SourceBundle(dirs, files).Success? && apiKey == "" ==>
            RepoResponse(Success(repoPath), dirs, files, apiKey, model, parse) == Failure(HttpError(502, LlmClient.MissingKey))
  {
    RepoSource.PartsEmptyIff(RepoSource.SrcDir(RepoDirName, dirs), files);
    var bundle := SourceBundle(dirs, files);
    if bundle.Success? {
      SourceAnswer(bundle.value, apiKey, model, parse);
      assert RepoResponse(Success(repoPath), dirs, files, apiKey, model, parse)
          == Answer(LlmClient.AnalyzeSource(bundle.value, apiKey, model, parse));
    }
  }

  // ---------------------------------------------------------- analyze-resume

  /** The `except` clauses around the model call of `analyze_resume`. */
  function ResumeLlmError(e: Exn): (h: HttpError)
    ensures h.status == 502 <==> e.kind == RuntimeError
    ensures h.status == 500 <==> e.kind != RuntimeError
    ensures e.kind == RuntimeError ==>
      IsPrefix(LlmErrorPrefix, h.detail) && IsSuffix(e.message, h.detail)
      && |h.detail| == |LlmErrorPrefix| + |e.message|
    ensures e.kind != RuntimeError ==>
      IsPrefix(ServerErrorPrefix, h.detail) && IsSuffix(e.message, h.detail)
      && |h.detail| == |ServerErrorPrefix| + |e.message|
  {
    var prefix := if e.kind == RuntimeError then LlmErrorPrefix else ServerErrorPrefix;
    var d := prefix + e.message;
    assert d[..|prefix|] == prefix;
    assert d[|d| - |e.message|..] == e.message;
    HttpError(if e.kind == RuntimeError then 502 else 500, d)
  }

  /** What `analyze_resume` answers for a non-empty upload, given the string `extract_resume_text` returned. */
  function ResumeResponse(text: string, apiKey: string, model: string -> LlmClient.LlmReply,
                          parse: string -> Option<LlmClient.Json>): (r: Result<LlmClient.Json, HttpError>)
    ensures r.Failure? && r.error.status == 400 <==> IsPrefix(ResumeText.ErrorPrefix, text) || text == ""
    ensures r.Failure? ==> r.error.status in {400, 500, 502}
    ensures IsPrefix(ResumeText.ErrorPrefix, text) ==> r == Failure(HttpError(400, text))
    ensures text == "" ==> r == Failure(HttpError(400, NoResumeText))
  {
    if IsPrefix(ResumeText.ErrorPrefix, text) then Failure(HttpError(400, text))
    else if text == "" then Failure(HttpError(400, NoResumeText))
    else
      match LlmClient.AnalyzeResume(text, apiKey, model, parse)
      case Success(v) => Success(v)
      case Failure(e) => Failure(ResumeLlmError(e))
  }

  /**
   * `analyze_resume`: an empty upload is refused; the text is extracted; a
   * returned "Error:" message or an empty text is a 400; otherwise the model is
   * asked.
   */
  method AnalyzeResume(content: seq<Byte>, pdf: ResumeText.PdfReading, apiKey: string,
                       model: string -> LlmClient.LlmReply, parse: string -> Option<LlmClient.Json>)
    returns (resp: Result<LlmClient.Json, HttpError>)
    ensures content == [] ==> resp == Failure(HttpError(400, EmptyResume))
    ensures content != [] ==> resp == ResumeResponse(ResumeText.Returned(ResumeText.Extract(content, pdf)), apiKey, model, parse)
  {
    if content == [] {
      return Failure(HttpError(400, EmptyResume));
    }
    var resumeText := ResumeText.ExtractResumeText(content, pdf);
    if |resumeText| >= |ResumeText.ErrorPrefix| && resumeText[..|ResumeText.ErrorPrefix|] == ResumeText.ErrorPrefix {
      return Failure(HttpError(400, resumeText));
    }
    if resumeText == "" {
      return Failure(HttpError(400, NoResumeText));
    }
    var result := LlmClient.AnalyzeResume(resumeText, apiKey, model, parse);
    match result {
      case Success(v) => resp := Success(v);
      case Failure(e) => resp := Failure(ResumeLlmError(e));
    }
  }

  /** Every rejection of the extractor reaches the client as a 400 carrying its message; the model is not asked. */
  lemma RejectionIs400(content: seq<Byte>, pdf: ResumeText.PdfReading, apiKey: string,
                       model: string -> LlmClient.LlmReply, parse: string -> Option<LlmClient.Json>)
    requires ResumeText.Extract(content, pdf).Rejected?
    ensures ResumeResponse(ResumeText.Returned(ResumeText.Extract(content, pdf)), apiKey, model, parse)
         == Failure(HttpError(400, ResumeText.Extract(content, pdf).message))
  {
  }

  /**
   * The "Error:" sentinel is read from the text alone: a resume whose own
   * extracted text begins with "Error:" is refused as if extraction had failed.
   */
  lemma ErrorLookingTextIsRefused(text: string, apiKey: string, model: string -> LlmClient.LlmReply,
                                  parse: string -> Option<LlmClient.Json>)
    requires IsPrefix(ResumeText.ErrorPrefix, text)
    ensures ResumeResponse(text, apiKey, model, parse) == Failure(HttpError(400, text))
  {
  }

  /**
   * The resume route answers with JSON exactly when a non-empty text not
   * beginning "Error:" was extracted, a key is set and the model replied.
   */
  lemma ResumeSuccessIff(text: string, apiKey: string, model: string -> LlmClient.LlmReply,
                         parse: string -> Option<LlmClient.Json>)
    ensures var reply := model(LlmClient.Prompt(LlmClient.ResumePromptHead, text));
            ResumeResponse(text, apiKey, model, parse).Success? <==>
              !IsPrefix(ResumeText.ErrorPrefix, text) && text != "" && apiKey != ""
              && reply.Replied? && reply.text != ""
    ensures !IsPrefix(ResumeText.ErrorPrefix, text) && text != "" && apiKey == "" ==>
              ResumeResponse(text, apiKey, model, parse) == Failure(HttpError(502, LlmErrorPrefix + LlmClient.MissingKey))
  {
  }
}
