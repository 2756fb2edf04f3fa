# Interview assistant core, modelled in Dafny

The system prepares and runs a technical interview.

- **Backend.**
  - `POST /analyze-repo` clones a repository and bundles its front-end sources. It asks a language model for a JSON analysis.
  - `POST /analyze-resume` turns an uploaded PDF or text resume into text and asks the model for a JSON analysis.
  - `POST /prepare-interview` builds the interviewer prompt from both analyses and pushes it to a voice agent.
  - `POST /proctor/initial-check` and `POST /proctor/monitor` judge webcam snapshots.
- **Front end.**
  - A device preflight page runs four probes in strict order; they fill five status entries.
  - A report page scores the session from the stored alerts.

The model keeps the source's structure, one Dafny module per source file:

| module | file | models |
|---|---|---|
| `Text` | `text.dfy` | Python's `str.join`, `strip`, `lstrip`, `rstrip`, `in`, ASCII `lower`, decimal rendering |
| `Utf8` | `utf8.dfy` | `bytes.decode("utf-8", errors="ignore")` and `bytes.decode("latin-1")`, with a UTF-8 encoder as reference |
| `Exceptions` | `exceptions.dfy` | the exception classes the handlers tell apart, and `HTTPException` |
| `RepoSource` | `repo.dfy` | `clone_repo`, `find_src_dir`, `_is_allowed_file`, `read_source_files` |
| `ResumeText` | `resume.dfy` | `extract_resume_text` |
| `LlmClient` | `llm.dfy` | `_extract_json`, the two analysis calls and their error wrapping |
| `AnalyzeRoutes` | `analyze.dfy` | the `analyze-repo` and `analyze-resume` handlers |
| `InterviewContext` | `interview.dfy` | the `prepare-interview` handler |
| `Proctor` | `proctor.dfy` | the `initial-check` and `monitor` handlers |
| `Preflight` | `preflight.dfy` | the system-check page: a `SystemCheck` class whose methods update its status entries in place |
| `ProctorReport` | `report.dfy` | the trust score and the timeline of the report page |

What the outside world does enters as a parameter:
- the outcome of the two `git` runs and the cloned tree;
- what the PDF library makes of the bytes;
- the face detector's count and the YOLO result;
- the ping latency;
- whether media requests are granted;
- the calibration reply;
- the PATCH outcome;
- environment variables;
- the language model (a function from prompt to reply);
- `json.loads` (a function from text to an optional JSON value).

A directory tree is the list of its directories in `os.walk` order plus its files in the same order. Each path is a sequence of components.

The main results:
- **Source bundle.** It is exactly the included files, in walk order.
- **Extensions.** A file is allowed exactly when its name ends in a dot followed by a listed extension, compared case-insensitively, and something other than dots precedes that dot.
- **Resume extraction.** Every rejection message begins with "Error:", extracted text is at most 20000 characters, and the first failing PDF page decides the message.
- **UTF-8.** Decoding with errors ignored undoes encoding, and ASCII input decodes the same as Latin-1.
- **Fences.** Stripping a markdown fence from a reply gives back exactly the text inside it.
- **Routes.** Every exception the pipelines raise maps to one HTTP status.
- **Interview prompt.** It always starts with the system instruction and ends with the guidelines.
- **Monitor.** It raises an alert exactly when some issue was found.
- **Preflight.** A run that no other run overlaps leaves the page settled: the passed checks, then the failing one, then untouched pending entries.

## Model

| member | source | states |
|---|---|---|
| `Text.Join` | Backend/app/utils/repo.py:78 | joining no parts is empty, one part is that part, and the result starts with the first part |
| `Text.JoinSnoc` | Backend/app/utils/repo.py:78 | joining one more part appends the separator and that part |
| `Text.JoinEndsWithLast` | Backend/app/routes/proctor.py:93 | a joined text ends with its last part |
| `Text.ContainsAt` | Backend/app/utils/repo.py:27 | `sub in s` holds exactly when `sub` occurs at some index of `s` |
| `Text.TrimStart` | Backend/app/llm_client.py:48 | what `lstrip` removes is whitespace, and what it keeps is a suffix not starting with whitespace |
| `Text.TrimEnd` | Backend/app/llm_client.py:48 | what `rstrip` removes is whitespace, and what it keeps is a prefix not ending with whitespace |
| `Text.Strip` | Backend/app/utils/resume.py:16 | `strip()` never lengthens a text and leaves no whitespace at either end |
| `Text.StripPadded` | Backend/app/llm_client.py:55 | whitespace around a stripped text is exactly what `strip()` removes |
| `Text.TrimStartPadded` | Backend/app/llm_client.py:48 | leading whitespace before a text without leading whitespace is exactly what `lstrip` removes |
| `Text.TrimEndPadded` | Backend/app/llm_client.py:48 | trailing whitespace after a text without trailing whitespace is exactly what `rstrip` removes |
| `Text.StripIdempotent` | Backend/app/llm_client.py:48-55 | stripping twice is stripping once |
| `Text.StripAllSpace` | Backend/app/utils/resume.py:16-18 | an all-whitespace text strips to the empty text |
| `Text.LowerChar` | Backend/app/utils/repo.py:49 | an upper-case ASCII letter becomes the lower-case letter 32 code points above it; every other character is kept; no upper-case letter is left; the dot is kept |
| `Text.Lower` | Backend/app/utils/repo.py:49 | lowering keeps the length, lowers character by character, and leaves no upper-case ASCII letter |
| `Text.LowerIdempotent` | Backend/app/utils/repo.py:49 | lowering a lowered text changes nothing |
| `Text.DigitChar` | Backend/app/routes/interview.py:49 | a digit's character is the digit's value above `'0'` |
| `Text.NatToString` | front-end/src/Pages/InterviewTester.jsx:27 | a rendered number is a non-empty string of digits without a leading zero |
| `Text.NatToStringRoundTrip` | front-end/src/Pages/InterviewTester.jsx:27 | reading the digits back gives the number |
| `Text.NatToStringInjective` | Backend/app/routes/interview.py:48-49 | distinct numbers render differently, so the question numbers are distinct |
| `Utf8.SequenceLength` | Backend/app/utils/resume.py:30 | the well-formed sequence at the front has 0 to 4 bytes, and an ASCII byte is a sequence of one |
| `Utf8.CodePoint` | Backend/app/utils/resume.py:30 | a well-formed sequence decodes to a Unicode scalar value, never a surrogate |
| `Utf8.DecodeIgnore` | Backend/app/utils/resume.py:30 | decoding with errors ignored never yields more characters than there are bytes |
| `Utf8.Latin1` | Backend/app/utils/resume.py:32 | Latin-1 yields one character per byte, each with the byte's number |
| `Utf8.AsciiDecodesAlike` | Backend/app/utils/resume.py:30-32 | on ASCII bytes the UTF-8 and Latin-1 decodings agree |
| `Utf8.EncodeChar` | Backend/app/utils/resume.py:30 | a character encodes to 1 to 4 bytes |
| `Utf8.Encode` | Backend/app/utils/resume.py:30 | a text encodes to between one and four bytes per character |
| `Utf8.EncodeCharDecodes` | Backend/app/utils/resume.py:30 | a character's encoding is one well-formed sequence, whatever follows, and decodes to that character |
| `Utf8.DecodeEncode` | Backend/app/utils/resume.py:30 | decoding with errors ignored undoes encoding: valid UTF-8 loses nothing |
| `Utf8.DecodeSkipsInvalidStart` | Backend/app/utils/resume.py:30 | a byte that cannot start a sequence is dropped and nothing else changes |
| `RepoSource.LastDot` | Backend/app/utils/repo.py:48 | the position found holds the last dot of the name, and there is none when the name has no dot |
| `RepoSource.SplitExt` | Backend/app/utils/repo.py:48 | root and extension concatenate back to the name; the extension is empty or starts at the last dot with something other than dots before it |
| `RepoSource.ExtensionIffExtensionAt` | Backend/app/utils/repo.py:47-49 | the lower-cased extension `splitext` finds is listed exactly when the name ends, from some dot on, in a listed extension compared in lower case, with a non-dot before that dot |
| `RepoSource.IsAllowedFile` | Backend/app/utils/repo.py:47-49 | `_is_allowed_file` holds exactly when some dot of the name begins a listed extension, in any letter case, after a stem that is not all dots |
| `RepoSource.ExtensionAtLower` | Backend/app/utils/repo.py:47-49 | lower-casing a name keeps every position at which an allowed extension begins |
| `RepoSource.AllowedIgnoresCase` | Backend/app/utils/repo.py:47-49 | a name is allowed exactly when its lower-cased form is |
| `RepoSource.UpperCaseExtensionAllowed` | Backend/app/utils/repo.py:47-49 | "Main.PY" is allowed |
| `RepoSource.NotAllowedExamples` | Backend/app/utils/repo.py:47-49 | the hidden file ".py" and "notes.txt" are not allowed |
| `RepoSource.FirstWalkedSrc` | Backend/app/utils/repo.py:40-43 | the walk's answer is the first reachable directory named "src", and there is none earlier; the root is returned when none is reachable |
| `RepoSource.SrcDir` | Backend/app/utils/repo.py:32-45 | a direct "src" child wins; a root named "src" is returned as is; otherwise the first reachable "src" directory in walk order, or the root |
| `RepoSource.FindSrcDir` | Backend/app/utils/repo.py:32-45 | the loop's answer is the directory `SrcDir` describes |
| `RepoSource.RelPath` | Backend/app/utils/repo.py:63 | the relative path ends with the file name, and is the file name alone for a file directly in the source directory |
| `RepoSource.FilePart` | Backend/app/utils/repo.py:70 | a part is the file header, the relative path, " ---" and a newline, then the content: prefix, suffix and length fix it |
| `RepoSource.IncludedIff` | Backend/app/utils/repo.py:55-69 | a file is included exactly when it lies below the source directory with no ignored directory on the way, ends in an allowed extension, was read, and has at most 100000 characters |
| `RepoSource.PartOf` | Backend/app/utils/repo.py:57-70 | a file adds a part exactly when it is included, and that part is its header and content |
| `RepoSource.Parts` | Backend/app/utils/repo.py:55-72 | there are no more parts than files, and every part starts with the file header |
| `RepoSource.PartsAppend` | Backend/app/utils/repo.py:55-72 | walking two runs of files one after the other gives their parts one after the other |
| `RepoSource.PartsMembers` | Backend/app/utils/repo.py:55-72 | every included file contributes its part, and every part comes from an included file |
| `RepoSource.PartsEmptyIff` | Backend/app/utils/repo.py:74-75 | there are no parts exactly when no file is included |
| `RepoSource.SkippedFileContributesNothing` | Backend/app/utils/repo.py:56-59 | a file in a pruned directory or with a disallowed name changes nothing, wherever it appears |
| `RepoSource.Truncate` | Backend/app/utils/repo.py:79-80 | a text of at most 150000 characters is kept; a longer one becomes its first 150000 characters plus the marker |
| `RepoSource.Bundle` | Backend/app/utils/repo.py:74-81 | it fails with `FileNotFoundError` exactly when there are no parts; otherwise it is the parts joined by a blank line and truncated, and a bundle within the limit starts with the first part |
| `RepoSource.BundleStartsWithHeader` | Backend/app/utils/repo.py:70-81 | a bundle always starts with the file header, truncated or not |
| `RepoSource.ReadSourceFiles` | Backend/app/utils/repo.py:51-81 | the walk loop returns the bundle of the parts of the files in walk order |
| `RepoSource.CloneFailureMessage` | Backend/app/utils/repo.py:25-29 | a stderr mentioning "Repository not found" gives the not-found message with the URL; otherwise the failure prefix followed by the stripped stderr, or by "unknown error" when that is empty |
| `RepoSource.CloneRepoAsWritten` | Backend/app/utils/repo.py:10-30 | the clone succeeds exactly when git ran and cloned; a failing version check escapes as an `AttributeError` |
| `RepoSource.CloneRepo` | Backend/app/utils/repo.py:10-30 | the clone succeeds exactly when git ran and cloned, and returns `<target>/repo`; every failure is a `ValueError`: git missing gives the not-installed message, a failed clone the `CloneFailureMessage` of its stderr |
| `RepoSource.VersionCheckFailureEscapes` | Backend/app/utils/repo.py:14-26 | a failing `git --version` is not a `ValueError` as written, and is one when corrected |
| `RepoSource.CloneRepoAgreesOtherwise` | Backend/app/utils/repo.py:10-30 | on every other git outcome the two versions agree |
| `ResumeText.PagesText` | Backend/app/utils/resume.py:14-15 | the page loop fails exactly when some page's extraction raised |
| `ResumeText.Cap` | Backend/app/utils/resume.py:35-36 | the result is a prefix of the text: the whole text when it has at most 20000 characters, otherwise exactly its first 20000 |
| `ResumeText.ErrorMessages` | Backend/app/utils/resume.py:19-28 | every error message begins with "Error:" |
| `ResumeText.PdfExtraction` | Backend/app/utils/resume.py:10-22 | an exception on opening or on the first raising page gives the failure prefix followed by its message; otherwise empty stripped text is refused as image-only, and any other text comes back stripped and capped |
| `ResumeText.PlainText` | Backend/app/utils/resume.py:30-32 | the stripped UTF-8 decoding when it is not empty, otherwise the stripped Latin-1 decoding; never longer than the bytes |
| `ResumeText.Extract` | Backend/app/utils/resume.py:6-38 | a "%PDF" signature takes the PDF branch; otherwise a NUL byte is rejected and anything else is decoded; rejections begin with "Error:" and texts are at most 20000 characters |
| `ResumeText.ExtractResumeText` | Backend/app/utils/resume.py:6-38 | the loop-based function returns the text or rejection message that `Extract` describes |
| `ResumeText.ReadPages` | Backend/app/utils/resume.py:14-15 | the page loop returns what `PagesText` describes: the texts concatenated, or the first page exception |
| `ResumeText.FirstRaiseWins` | Backend/app/utils/resume.py:14-22 | once a page has raised, later pages change nothing: the first exception is the one reported |
| `ResumeText.PagesTextAppend` | Backend/app/utils/resume.py:14-15 | page texts are concatenated in page order with nothing between them |
| `ResumeText.AsciiTextFile` | Backend/app/utils/resume.py:25-36 | an ASCII text file without NUL bytes comes back as its stripped text, capped |
| `ResumeText.Utf8TextFile` | Backend/app/utils/resume.py:25-36 | a UTF-8 text file without NUL bytes comes back as its own stripped text, capped |
| `LlmClient.OpenFence` | Backend/app/llm_client.py:49-52 | a leading "```json" is dropped; otherwise a leading "```" is dropped; with no leading fence the text is unchanged; the result is always a suffix |
| `LlmClient.CloseFence` | Backend/app/llm_client.py:53-54 | with no trailing fence the text is unchanged; the result is always a prefix |
| `LlmClient.StripFence` | Backend/app/llm_client.py:47-55 | the de-fenced text is stripped and no longer than the reply |
| `LlmClient.OpeningFenceDropped` | Backend/app/llm_client.py:49-52 | either opening fence followed by a newline is removed exactly |
| `LlmClient.ClosingFenceDropped` | Backend/app/llm_client.py:53-54 | a trailing fence is removed exactly |
| `LlmClient.FencedRoundTrip` | Backend/app/llm_client.py:47-55 | a stripped text fenced on its own lines comes back exactly |
| `LlmClient.StripFenceRoundTrip` | Backend/app/llm_client.py:47-55 | wrapping in "```json" or "```" fences and de-fencing gives the text back |
| `LlmClient.UnfencedUnchanged` | Backend/app/llm_client.py:47-55 | a stripped reply with no fence at either end passes through unchanged |
| `LlmClient.ExtractJson` | Backend/app/llm_client.py:47-66 | the result is the parse of the de-fenced text, or the fixed fallback object when parsing fails; it never raises |
| `LlmClient.ExtractFenced` | Backend/app/llm_client.py:47-66 | a fenced reply yields what its inside parses to |
| `LlmClient.Request` | Backend/app/llm_client.py:68-86 | no key raises `RuntimeError` before any call; a call exception or an empty reply becomes a `RuntimeError` prefixed "LLM request failed: "; success exactly when the key is set and a non-empty reply came |
| `LlmClient.Prompt` | Backend/app/llm_client.py:75 | the prompt starts with the system prompt, a blank line and the template head, and ends with the inserted text and a newline |
| `AnalyzeRoutes.RepoError` | Backend/app/routes/analyze.py:31-39 | `FileNotFoundError` is 404, `ValueError` 400, `RuntimeError` 502 and anything else 500, each exactly; the detail is the message, or for 500 "Internal Server Error: " followed by the message |
| `AnalyzeRoutes.Answer` | Backend/app/routes/analyze.py:28-39 | a value passes; an exception becomes the status and detail `RepoError` gives it |
| `AnalyzeRoutes.RepoResponse` | Backend/app/routes/analyze.py:22-39 | a clone failure decides the answer; success needs a clone; every failure is 400, 404, 500 or 502 |
| `AnalyzeRoutes.AnalyzeRepo` | Backend/app/routes/analyze.py:12-44 | an empty URL is a 400 and creates nothing; otherwise the pipeline's answer, run on the corrected `clone_repo` (so a failing `git --version` answers 400 where the code as written answers 500, see Findings); the temporary directory is removed exactly when it was created |
| `AnalyzeRoutes.CloneFailureIs400` | Backend/app/routes/analyze.py:23-34 | every failure of the corrected clone reaches the client as 400 with its message |
| `AnalyzeRoutes.VersionCheckFailureStatus` | Backend/app/routes/analyze.py:23-39 | a failing version check answers 500 as written and 400 when corrected |
| `AnalyzeRoutes.NoSourcesIs404` | Backend/app/routes/analyze.py:25-32 | a cloned tree with no included file is a 404 with the no-sources message |
| `AnalyzeRoutes.SourceAnswer` | Backend/app/routes/analyze.py:28-36 | the model step succeeds exactly when a key is set and a non-empty reply came; with no key it is 502 with the client's message |
| `AnalyzeRoutes.RepoSuccessIff` | Backend/app/routes/analyze.py:22-36 | after a clone, a bundle exists exactly when some file is included, and the route gives JSON exactly when there is a bundle, a key and a non-empty reply |
| `AnalyzeRoutes.ResumeLlmError` | Backend/app/routes/analyze.py:63-66 | `RuntimeError` is 502 with "LLM Error: " followed by the message; anything else is 500 with "Server Error: " followed by the message |
| `AnalyzeRoutes.ResumeResponse` | Backend/app/routes/analyze.py:52-66 | a 400 exactly when the text begins with "Error:" (the text itself is the detail) or is empty (with the fixed message); every failure is 400, 500 or 502 |
| `AnalyzeRoutes.AnalyzeResume` | Backend/app/routes/analyze.py:46-66 | an empty upload is a 400; otherwise the answer for the extracted text |
| `AnalyzeRoutes.RejectionIs400` | Backend/app/routes/analyze.py:52-55 | every extractor rejection reaches the client as 400 with its message |
| `AnalyzeRoutes.ErrorLookingTextIsRefused` | Backend/app/routes/analyze.py:54-55 | any text beginning with "Error:" is refused with 400, even a genuine resume text |
| `AnalyzeRoutes.ResumeSuccessIff` | Backend/app/routes/analyze.py:54-66 | JSON exactly when the text is non-empty, not an "Error:" message, the key is set and the model replied; no key is 502 |
| `InterviewContext.Take` | Backend/app/routes/interview.py:43 | slicing keeps the first n entries, or all when there are fewer |
| `InterviewContext.NumberedLines` | Backend/app/routes/interview.py:48-49 | one line per question, the i-th reading `i+1`, a period, a space and the question |
| `InterviewContext.DescriptionPart` | Backend/app/routes/interview.py:35-36 | no line exactly when the description is empty; otherwise one line, "Project Description: " and the description |
| `InterviewContext.TechPart` | Backend/app/routes/interview.py:38-40 | no line exactly when the tech stack is empty; otherwise one line, "Technologies Used: " and every technology joined by ", " |
| `InterviewContext.FeaturePart` | Backend/app/routes/interview.py:42-44 | no line exactly when there are no features; otherwise one line, "Key Features: " and the first three features (by `Take`) joined by "; " |
| `InterviewContext.QuestionPart` | Backend/app/routes/interview.py:46-49 | nothing exactly when there are no questions; otherwise the header and then the first min(n, 3) questions, numbered from 1 |
| `InterviewContext.RepoParts` | Backend/app/routes/interview.py:31-49 | the project header, then the description, tech, feature and question lines, in this order |
| `InterviewContext.RepoLineCount` | Backend/app/routes/interview.py:31-49 | the project section has one line per non-empty entry after the header, and one more per question shown; at most eight lines |
| `InterviewContext.HeaderThenLines` | Backend/app/routes/interview.py:31-49 | appending the runs of lines one at a time gives the header followed by all of them |
| `InterviewContext.SkillPart` | Backend/app/routes/interview.py:56-58 | no line exactly when there are no skills; otherwise one line, "Key Skills: " and the first five skills joined by ", " |
| `InterviewContext.ExperiencePart` | Backend/app/routes/interview.py:60-62 | no line exactly when there is no experience; otherwise one line, "Years of Experience: ", the number of entries and " roles" |
| `InterviewContext.HighlightPart` | Backend/app/routes/interview.py:64-66 | no line exactly when there are no highlights; otherwise one line, "Key Achievements: " and the first two highlights joined by "; " |
| `InterviewContext.ResumeParts` | Backend/app/routes/interview.py:52-66 | the resume header, then the skill, experience and highlight lines, in this order, one per non-empty entry |
| `InterviewContext.ContextParts` | Backend/app/routes/interview.py:28-80 | the project section (when there is a project analysis) comes first, the resume section (when there is a resume analysis) next, and the guidelines header and text are always the last two entries |
| `InterviewContext.ResumeHeaderNotInProject` | Backend/app/routes/interview.py:31-53 | no line of the project section equals the resume header |
| `InterviewContext.RepoHeaderNotInResume` | Backend/app/routes/interview.py:32-66 | no line of the resume section equals the project header |
| `InterviewContext.SectionsPresent` | Backend/app/routes/interview.py:28-80 | each section header is in the context exactly when its analysis is, and the resume header comes right after the project section |
| `InterviewContext.Prompt` | Backend/app/routes/interview.py:82-92 | the prompt is the system instruction followed by the context lines joined by newlines |
| `InterviewContext.PromptFrame` | Backend/app/routes/interview.py:68-92 | the prompt starts with the system instruction and ends with the guidelines |
| `InterviewContext.RepoSection` | Backend/app/routes/interview.py:31-49 | the appending code builds the project section `RepoParts` describes |
| `InterviewContext.NumberQuestions` | Backend/app/routes/interview.py:48-49 | the enumerate loop yields the lines `NumberedLines` describes |
| `InterviewContext.ResumeSection` | Backend/app/routes/interview.py:52-66 | the appending code builds the resume section `ResumeParts` describes |
| `InterviewContext.BuildPrompt` | Backend/app/routes/interview.py:28-92 | the handler's prompt is the system instruction followed by the parts joined by newlines |
| `InterviewContext.PrepareInterview` | Backend/app/routes/interview.py:95-140 | no key is a 500 and sends nothing; otherwise one PATCH with the prompt and first message, and success exactly when it answered 200 |
| `Proctor.InitialCheck` | Backend/app/routes/proctor.py:34-54 | "ok" with "Face Centered" exactly when one face is seen; "fail" with "No face detected" or "Multiple faces detected" for zero or several faces; "error" with "Invalid image format" or the exception message for an undecodable image or a detector exception |
| `Proctor.FaceIssues` | Backend/app/routes/proctor.py:73-76 | no face gives the no-face issue, several give the multiple-faces issue, and exactly one face gives none |
| `Proctor.YoloIssues` | Backend/app/routes/proctor.py:79-86 | the phone and extra-people issues appear exactly when YOLO succeeded and flagged them, phone first |
| `Proctor.Monitor` | Backend/app/routes/proctor.py:56-95 | error for an undecodable image; a detector exception escapes; otherwise an alert joining all issues with ", ", or ok when there is none |
| `Proctor.MonitorAlertIff` | Backend/app/routes/proctor.py:70-95 | no issue exactly when one face is seen and YOLO flagged nothing |
| `Proctor.YoloFailureKeepsFaceIssue` | Backend/app/routes/proctor.py:80-90 | a YOLO exception leaves the face-count issue alone in the list |
| `Proctor.AlertTextOrder` | Backend/app/routes/proctor.py:92-93 | the alert starts with the face issue when there is one and ends with the last issue |
| `Preflight.InternetVerdict` | front-end/src/Pages/InterviewTester.jsx:19-37 | success under 2000 ms, a passing warning at or over it, failure with no reply |
| `Preflight.MediaVerdict` | front-end/src/Pages/InterviewTester.jsx:40-70 | a granted stream is a success and passes; a rejected one fails |
| `Preflight.AiVerdict` | front-end/src/Pages/InterviewTester.jsx:83-116 | success exactly for status "ok"; failure exactly for any other reply, with the detail or the default text; a passing warning exactly when unreachable; without a snapshot the entry stays at "Verifying face position..." and does not pass |
| `Preflight.CameraAndFaceVerdict` | front-end/src/Pages/InterviewTester.jsx:73-124 | passes exactly when the camera is granted with a mounted preview and calibration passes; the denied and unmounted cases leave calibration waiting |
| `Preflight.PassedPrefix` | front-end/src/Pages/InterviewTester.jsx:127-143 | k checks pass exactly when the first k verdicts pass |
| `Preflight.Track.constructor` | front-end/src/Pages/InterviewTester.jsx:43 | a new track is live |
| `Preflight.Track.Stop` | front-end/src/Pages/InterviewTester.jsx:45 | a stopped track is no longer live |
| `Preflight.StopAll` | front-end/src/Pages/InterviewTester.jsx:45 | every track of the stream is stopped |
| `Preflight.SystemCheck.constructor` | front-end/src/Pages/InterviewTester.jsx:7-15 | all five entries start pending with "Waiting...", the step counter at 0, nothing scheduled |
| `Preflight.SystemCheck.CheckInternet` | front-end/src/Pages/InterviewTester.jsx:19-37 | only the internet entry changes, to the verdict's state, and the result is the verdict |
| `Preflight.SystemCheck.CheckMedia` | front-end/src/Pages/InterviewTester.jsx:40-70 | only the probe's entry changes; the result says whether the stream was granted; all its tracks end stopped |
| `Preflight.SystemCheck.CheckCameraAndFace` | front-end/src/Pages/InterviewTester.jsx:73-124 | only the camera and calibration entries change, to the verdict's states |
| `Preflight.SystemCheck.RunAfterInternet` | front-end/src/Pages/InterviewTester.jsx:129-142 | after the internet check passed, each later check runs only if the previous passed, with the counter and navigation following |
| `Preflight.SystemCheck.RunTests` | front-end/src/Pages/InterviewTester.jsx:127-143 | each entry holds its verdict exactly when its check ran; the counter and navigation follow the passed prefix; a run from all-pending entries, which no other run overlaps, ends settled (see Left out) |
| `Preflight.SettledAfterRun` | front-end/src/Pages/InterviewTester.jsx:127-143 | after a run from all-pending entries: passed entries, then the failing or stuck one, then pending entries; overlapping runs are not modelled (see Left out) |
| `ProctorReport.LoadAlerts` | front-end/src/Pages/proctoredreport.jsx:9-10 | a missing stored report reads as no alerts |
| `ProctorReport.Score` | front-end/src/Pages/proctoredreport.jsx:13 | the score is between 0 and 100, 10 points lower per alert, and 0 from ten alerts on |
| `ProctorReport.ScoreAntitone` | front-end/src/Pages/proctoredreport.jsx:13 | more alerts never raise the score |
| `ProctorReport.GreenIffAtMostOneAlert` | front-end/src/Pages/proctoredreport.jsx:24 | the score shows green exactly when at most one alert was recorded |
| `ProctorReport.Color` | front-end/src/Pages/proctoredreport.jsx:24 | green exactly for a score above 80, red otherwise |
| `ProctorReport.ScoreExamples` | front-end/src/Pages/proctoredreport.jsx:13 | 0, 3, 5 and 20 alerts score 100, 70, 50 and 0 |
| `ProctorReport.Rows` | front-end/src/Pages/proctoredreport.jsx:50-56 | one row per alert, in stored order, with its time and issue and severity "High" |
| `ProctorReport.Timeline` | front-end/src/Pages/proctoredreport.jsx:37-60 | the no-malpractices message exactly for an empty list; otherwise the table of `Rows`: one row per alert, in stored order, with its time and issue and severity "High" |
| `ProctorReport.AppendAlert` | front-end/src/Pages/proctoredreport.jsx:13-56 | one more alert adds one row at the end and lowers the score by 10 until it reaches 0 |

## Left out

- **Network and devices.** These are not modelled:
  - the browser's `fetch`, `getUserMedia`, `getDisplayMedia`, the timers, the canvas snapshot and `localStorage`;
  - the HTTP client of the backend and the Gemini client.
  - Their outcomes are parameters. The navigation scheduled after the preflight is a flag.
- **Camera stream.** The camera stream that `checkCameraAndFace` opens is never stopped in the source. The model does not track its tracks.
- **Foreign libraries.** OpenCV decoding, the Haar cascade and the YOLO model are not modelled; their results are parameters. So are `pypdf`'s page texts and exceptions, and `json.loads`.
- **Files and temporary directories.** `os.walk`, `open`/`read`, `tempfile.mkdtemp`, `shutil.rmtree` and `on_rm_error` are not modelled.
  - The tree and the file contents are inputs, and a file whose read raised has no content.
  - Removal of the temporary directory is a flag.
  - Text-mode newline translation and the UTF-8 decoding of source files are taken as already applied to the content.
- **Paths.** They are component sequences joined with "/". Platform separators and `os.path.relpath` edge cases are not modelled.
- **Case folding.** Extensions are lower-cased in ASCII only. Python's full Unicode `lower()` can differ on non-ASCII names, but a non-ASCII extension never lowers to one of the listed ASCII extensions.
- **Request validation.** Pydantic validation of request and response bodies is not modelled: the `HttpUrl` type of `repo_url`, and the `response_model` filtering of the analysis JSON. The handler's own empty-URL check is modelled.
- **Application wiring.** `print` logging, `load_dotenv`, the FastAPI application and routers in `main.py`, and the React pages other than the preflight and report pages are not modelled. This covers `App.jsx`, `AnalyzerPage.jsx`, `inputform.jsx`, `VedioScreen.jsx` and `InterviewScreen.jsx`.
- **Analysis values.** An analysis value that is missing, `None` or empty is one case, as Python's truthiness makes it. Non-string list entries, which would make `join` raise, are not modelled.
- **Blobless snapshot.** When the camera preview has no size after the one-second wait, `toBlob` passes `null` and `formData.append` throws inside the callback, before `resolve`. The probe's promise then never settles. `Preflight.AiVerdict` models this `NoSnapshot` outcome as a probe that does not pass, with the calibration entry left at "Verifying face position...". The model does not capture that `runTests` stays suspended; since this is the last probe, the page's entries, counter and navigation end the same either way.
- `Preflight.SystemCheck.RunTests`, `Preflight.SettledAfterRun`: the model runs one `runTests` at a time, as a single uninterrupted call. On the page the run is asynchronous, and the "Start System Check" button stays enabled while it runs, so a second click starts a second run whose entry updates interleave with the first's. The first run can then still schedule the navigation after the second run's internet probe failed. The settled shape is proved only for a run that no other run overlaps.
- **Retry.** The preflight's "retry" is the same `runTests` run again. It does not reset the entries first: the code has no reset, and the model follows the code.
- **Unwrapped analysis calls.** `LlmClient.AnalyzeSource` and `LlmClient.AnalyzeResume` carry no contract of their own. What they return is stated through `LlmClient.Request` and `AnalyzeRoutes.SourceAnswer` / `AnalyzeRoutes.ResumeSuccessIff`.

## Findings

| source | as written | input that shows it | evidently intended | confidence | as-written member | corrected member |
|---|---|---|---|---|---|---|
| Backend/app/utils/repo.py:14-26 | when `git --version` exits non-zero, the `CalledProcessError` has `stderr` `None` (its stderr went to `DEVNULL`). `e.stderr.strip()` then raises `AttributeError`, and `analyze-repo` answers 500 "Internal Server Error: 'NoneType' object has no attribute 'strip'" | a server whose `git --version` exits with a non-zero status | the failure is reported like other clone failures, as a `ValueError`, answered with 400 "Failed to clone repo: unknown error" | not executed | `RepoSource.CloneRepoAsWritten`, `AnalyzeRoutes.VersionCheckFailureStatus` | `RepoSource.CloneRepo` (used by `AnalyzeRoutes.AnalyzeRepo`) |
