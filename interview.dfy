/**
 * `prepare-interview`: builds the interviewer prompt from the optional project
 * and resume analyses, then pushes it to the voice agent with a PATCH request.
 *
 * The environment variables and the outcome of the PATCH request are inputs.
 */
module InterviewContext {
  import opened Wrappers
  import opened Text
  import opened Exceptions

  /**
   * The entries of `repo_analysis` the builder reads. An empty text or list
   * stands for an entry that is missing, `None` or empty: all three are falsy
   * and are skipped alike.
   */
  datatype RepoAnalysis = RepoAnalysis(
    description: string,
    techStack: seq<string>,
    features: seq<string>,
    questions: seq<string>)

  /** The entries of `resume_analysis` the builder reads, with the same reading of empty values. */
  datatype ResumeAnalysis = ResumeAnalysis(
    keySkills: seq<string>,
    experience: seq<string>,
    highlights: seq<string>)

  /** The outcome of the PATCH to the agent: an HTTP status, or an exception. */
  datatype PatchOutcome = Responded(statusCode: int) | PatchRaised(message: string)

  /** The PATCH request sent to the voice-agent service. */
  datatype PatchRequest = PatchRequest(url: string, apiKey: string, prompt: string, firstMessage: string)

  /** The JSON reply of `prepare-interview`. */
  datatype InterviewResponse = InterviewResponse(context: string, agentId: string, apiKey: string, success: bool)

  const RepoHeader := "=== CANDIDATE'S PROJECT ANALYSIS ==="
  const QuestionsHeader := "\nProject-Specific Questions to Ask:"
  const ResumeHeader := "\n=== CANDIDATE'S RESUME ANALYSIS ==="
  const GuidelinesHeader := "\n=== INTERVIEW GUIDELINES ==="
  const Guidelines :=
    "\nYou are conducting a technical interview. Follow this structure:\n"
    + "1. Start with a brief introduction and ask the candidate to introduce themselves\n"
    + "2. Ask 2-3 questions about their PROJECT (based on the analysis above)\n"
    + "3. Ask 2-3 questions about their RESUME experience and skills\n"
    + "4. Ask 2-3 FUNDAMENTAL questions on: Data Structures & Algorithms, Computer Networks, DBMS, or OOP\n"
    + "5. End by asking if they have any questions for you\n"
    + "\n"
    + "Keep questions concise and conversational. Listen to their answers and ask follow-up questions.\n"
    + "Be professional but friendly. Each question should be asked ONE AT A TIME.\n"
  const SystemInstruction :=
    "You are a technical interviewer named Sarah. "
    + "Use the following analysis of the candidate's code and resume to ask them targeted questions. "
    + "Do not read the analysis out loud; use it to formulate your questions.\n\n"
  const FirstMessage :=
    "Hello! I'm Sarah, your technical interviewer. I've reviewed your project and resume. "
    + "Let's start - could you briefly introduce yourself?"
  const AgentsUrl := "https://api.elevenlabs.io/v1/convai/agents/"
  const DescriptionLabel := "Project Description: "
  const TechLabel := "Technologies Used: "
  const FeaturesLabel := "Key Features: "
  const SkillsLabel := "Key Skills: "
  const ExperienceLabel := "Years of Experience: "
  const RolesSuffix := " roles"
  const HighlightsLabel := "Key Achievements: "
  const MaxFeatures := 3
  const MaxQuestions := 3
  const MaxSkills := 5
  const MaxHighlights := 2

  /** `xs[:n]`. */
  function Take(xs: seq<string>, n: nat): (r: seq<string>)
    ensures |r| == if |xs| < n then |xs| else n
    ensures r == xs[..|r|]
  {
    if |xs| <= n then xs else xs[..n]
  }

  /** `f"{i}. {q}"` for `enumerate(qs, 1)`: the questions in input order, numbered from 1. */
  function NumberedLines(qs: seq<string>): (lines: seq<string>)
    ensures |lines| == |qs|
    ensures forall i :: 0 <= i < |qs| ==> lines[i] == NatToString(i + 1) + ". " + qs[i]
  {
    if qs == [] then []
    else NumberedLines(qs[..|qs| - 1]) + [NatToString(|qs|) + ". " + qs[|qs| - 1]]
  }

  /** `Project Description: ...` when the description is truthy. */
  function DescriptionPart(repo: RepoAnalysis): (part: seq<string>)
    ensures part == [] <==> repo.description == ""
    ensures part != [] ==> part == [DescriptionLabel + repo.description]
  {
    if repo.description != "" then [DescriptionLabel + repo.description] else []
  }

  /** Every technology, joined by ", ", when the list is truthy. */
  function TechPart(repo: RepoAnalysis): (part: seq<string>)
    ensures part == [] <==> repo.techStack == []
    ensures part != [] ==> part == [TechLabel + Join(repo.techStack, ", ")]
  {
    if repo.techStack != [] then [TechLabel + Join(repo.techStack, ", ")] else []
  }

  /** The first three features, joined by "; ", when the list is truthy. */
  function FeaturePart(repo: RepoAnalysis): (part: seq<string>)
    ensures part == [] <==> repo.features == []
    ensures part != [] ==> part == [FeaturesLabel + Join(Take(repo.features, MaxFeatures), "; ")]
  {
    if repo.features != [] then [FeaturesLabel + Join(Take(repo.features, MaxFeatures), "; ")] else []
  }

  /** The questions heading and the first three questions, numbered, when the list is truthy. */
  function QuestionPart(repo: RepoAnalysis): (part: seq<string>)
    ensures part == [] <==> repo.questions == []
    ensures repo.questions != [] ==>
      && |part| == 1 + |Take(repo.questions, MaxQuestions)|
      && part[0] == QuestionsHeader
      && part[1..] == NumberedLines(Take(repo.questions, MaxQuestions))
  {
    if repo.questions != [] then
      var part := [QuestionsHeader] + NumberedLines(Take(repo.questions, MaxQuestions));
      assert part[1..] == NumberedLines(Take(repo.questions, MaxQuestions));
      part
    else []
  }

  /** The project lines: the header, then each truthy entry, in this order. */
  function RepoParts(repo: RepoAnalysis): (parts: seq<string>)
    ensures parts != [] && parts[0] == RepoHeader
    ensures parts[1..] == DescriptionPart(repo) + TechPart(repo) + FeaturePart(repo) + QuestionPart(repo)
  {
    var rest := DescriptionPart(repo) + TechPart(repo) + FeaturePart(repo) + QuestionPart(repo);
    var parts := [RepoHeader] + rest;
    assert parts[1..] == rest;
    parts
  }

  /** One line per truthy entry after the header, and one per question shown, at most three. */
  lemma RepoLineCount(repo: RepoAnalysis)
    ensures |RepoParts(repo)| == 1 + (if repo.description != "" then 1 else 0) + (if repo.techStack != [] then 1 else 0)
                                   + (if repo.features != [] then 1 else 0)
                                   + (if repo.questions != [] then 1 + |Take(repo.questions, MaxQuestions)| else 0)
    ensures |RepoParts(repo)| <= 5 + MaxQuestions
  {
    var parts := RepoParts(repo);
    assert |parts| == 1 + |parts[1..]|;
  }

  /** The first five skills, joined by ", ", when the list is truthy. */
  function SkillPart(resume: ResumeAnalysis): (part: seq<string>)
    ensures part == [] <==> resume.keySkills == []
    ensures part != [] ==> part == [SkillsLabel + Join(Take(resume.keySkills, MaxSkills), ", ")]
  {
    if resume.keySkills != [] then [SkillsLabel + Join(Take(resume.keySkills, MaxSkills), ", ")] else []
  }

  /** The number of experience entries, counted as roles, when the list is truthy. */
  function ExperiencePart(resume: ResumeAnalysis): (part: seq<string>)
    ensures part == [] <==> resume.experience == []
    ensures part != [] ==> part == [ExperienceLabel + NatToString(|resume.experience|) + RolesSuffix]
  {
    if resume.experience != [] then [ExperienceLabel + NatToString(|resume.experience|) + RolesSuffix] else []
  }

  /** The first two highlights, joined by "; ", when the list is truthy. */
  function HighlightPart(resume: ResumeAnalysis): (part: seq<string>)
    ensures part == [] <==> resume.highlights == []
    ensures part != [] ==> part == [HighlightsLabel + Join(Take(resume.highlights, MaxHighlights), "; ")]
  {
    if resume.highlights != [] then [HighlightsLabel + Join(Take(resume.highlights, MaxHighlights), "; ")] else []
  }

  /** The resume lines: the header, then each truthy entry, in this order. */
  function ResumeParts(resume: ResumeAnalysis): (parts: seq<string>)
    ensures parts != [] && parts[0] == ResumeHeader
    ensures parts[1..] == SkillPart(resume) + ExperiencePart(resume) + HighlightPart(resume)
    ensures |parts| == 1 + (if resume.keySkills != [] then 1 else 0) + (if resume.experience != [] then 1 else 0)
                         + (if resume.highlights != [] then 1 else 0)
  {
    [ResumeHeader] + SkillPart(resume) + ExperiencePart(resume) + HighlightPart(resume)
  }

  /** The project section, or nothing when there is no project analysis. */
  function ProjectSection(repo: Option<RepoAnalysis>): seq<string> {
    if repo.Some? then RepoParts(repo.value) else []
  }

  /**
   * `context_parts`: the project section when there is a project analysis,
   * then the resume section when there is a resume analysis, then always the
   * guidelines last. `None` stands for an analysis that is absent, `None` or
   * an empty dictionary, the three falsy cases the builder skips alike.
   */
  function ContextParts(repo: Option<RepoAnalysis>, resume: Option<ResumeAnalysis>): (parts: seq<string>)
    ensures |parts| >= 2 && parts[|parts| - 2] == GuidelinesHeader && parts[|parts| - 1] == Guidelines
    ensures parts[0] == RepoHeader <==> repo.Some?
    ensures var n := |ProjectSection(repo)|;
      && n <= |parts| - 2
      && parts[..n] == ProjectSection(repo)
      && (resume.Some? ==> parts[n..|parts| - 2] == ResumeParts(resume.value))
      && (resume.None? ==> n == |parts| - 2)
  {
    var parts := ProjectSection(repo) + (if resume.Some? then ResumeParts(resume.value) else []) + [GuidelinesHeader, Guidelines];
    assert parts[..|ProjectSection(repo)|] == ProjectSection(repo);
    parts
  }

  /** No line of the project section can be taken for the resume header. */
  lemma {:induction false} ResumeHeaderNotInProject(repo: RepoAnalysis)
    ensures ResumeHeader !in RepoParts(repo)
  {
    var q := Take(repo.questions, MaxQuestions);
    var parts := RepoParts(repo);
    forall x | x in parts
      ensures x != ResumeHeader
    {
      assert x == RepoHeader || x in DescriptionPart(repo) || x in TechPart(repo) || x in FeaturePart(repo)
             || x in QuestionPart(repo);
      if x in QuestionPart(repo) && x != QuestionsHeader {
        assert x in NumberedLines(q);
        var i :| 0 <= i < |q| && NumberedLines(q)[i] == x;
        assert '0' <= x[0] <= '9';
      }
    }
  }

  /** No line of the resume section can be taken for the project header. */
  lemma {:induction false} RepoHeaderNotInResume(resume: ResumeAnalysis)
    ensures RepoHeader !in ResumeParts(resume)
  {
    var parts := ResumeParts(resume);
    forall x | x in parts
      ensures x != RepoHeader
    {
      var k :| 0 <= k < |parts| && parts[k] == x;
      if k > 0 {
        assert x in SkillPart(resume) || x in ExperiencePart(resume) || x in HighlightPart(resume);
        assert x[0] in {'K', 'Y'};
      }
    }
  }

  /**
   * Each section is in the context exactly when its analysis is, and the
   * resume header comes straight after the project section.
   */
  lemma {:induction false} SectionsPresent(repo: Option<RepoAnalysis>, resume: Option<ResumeAnalysis>)
    ensures RepoHeader in ContextParts(repo, resume) <==> repo.Some?
    ensures ResumeHeader in ContextParts(repo, resume) <==> resume.Some?
    ensures resume.Some? ==> ContextParts(repo, resume)[|ProjectSection(repo)|] == ResumeHeader
  {
    var parts := ContextParts(repo, resume);
    var front := ProjectSection(repo);
    var middle := if resume.Some? then ResumeParts(resume.value) else [];
    var tail := [GuidelinesHeader, Guidelines];
    assert parts == front + middle + tail;
    assert RepoHeader !in tail && ResumeHeader !in tail by {
      assert |GuidelinesHeader| != |ResumeHeader| && |Guidelines| != |ResumeHeader|;
      assert |GuidelinesHeader| != |RepoHeader| && |Guidelines| != |RepoHeader|;
    }
    if repo.Some? {
      ResumeHeaderNotInProject(repo.value);
      assert RepoHeader in front;
    }
    if resume.Some? {
      RepoHeaderNotInResume(resume.value);
      assert ResumeHeader in middle;
    }
    assert forall x :: x in parts <==> x in front || x in middle || x in tail;
  }

  /** The prompt: the system instruction, then the parts joined by newlines. */
  function Prompt(repo: Option<RepoAnalysis>, resume: Option<ResumeAnalysis>): (p: string)
    ensures IsPrefix(SystemInstruction, p)
    ensures p[|SystemInstruction|..] == Join(ContextParts(repo, resume), "\n")
  {
    var p := SystemInstruction + Join(ContextParts(repo, resume), "\n");
    assert p[..|SystemInstruction|] == SystemInstruction;
    p
  }

  /** Joining a list whose last two entries are `a` and `b` ends with `a`, the separator and `b`. */
  lemma {:induction false} JoinEndsWithLastTwo(parts: seq<string>, a: string, b: string, sep: string)
    requires |parts| >= 2 && parts[|parts| - 2] == a && parts[|parts| - 1] == b
    ensures IsSuffix(a + sep + b, Join(parts, sep))
  {
    var front := parts[..|parts| - 2];
    assert parts == front + [a] + [b];
    if front == [] {
      assert parts == [a] + [b];
      JoinSnoc([a], b, sep);
    } else {
      JoinSnoc(front, a, sep);
      JoinSnoc(front + [a], b, sep);
      assert Join(parts, sep) == Join(front, sep) + sep + (a + sep + b);
    }
  }

  /** Whatever the inputs, the prompt starts with the instruction and ends with the guidelines section. */
  lemma {:induction false} PromptFrame(repo: Option<RepoAnalysis>, resume: Option<ResumeAnalysis>)
    ensures IsPrefix(SystemInstruction, Prompt(repo, resume))
    ensures IsSuffix(GuidelinesHeader + "\n" + Guidelines, Prompt(repo, resume))
  {
    var joined := Join(ContextParts(repo, resume), "\n");
    JoinEndsWithLastTwo(ContextParts(repo, resume), GuidelinesHeader, Guidelines, "\n");
    SuffixOfAppend(SystemInstruction, joined, GuidelinesHeader + "\n" + Guidelines);
  }

  lemma SuffixOfAppend(pre: string, s: string, suffix: string)
    requires IsSuffix(suffix, s)
    ensures IsPrefix(pre, pre + s) && IsSuffix(suffix, pre + s)
  {
    assert (pre + s)[..|pre|] == pre;
    assert (pre + s)[|pre + s| - |suffix|..] == s[|s| - |suffix|..];
  }

  /** The project section, appended entry by entry and the questions in a loop. */
  method RepoSection(r: RepoAnalysis) returns (section: seq<string>)
    ensures section == RepoParts(r)
  {
    section := [RepoHeader];
    if r.description != "" {
      section := section + [DescriptionLabel + r.description];
    }
    assert section == [RepoHeader] + DescriptionPart(r);
    if r.techStack != [] {
      section := section + [TechLabel + Join(r.techStack, ", ")];
    }
    assert section == [RepoHeader] + DescriptionPart(r) + TechPart(r);
    if r.features != [] {
      section := section + [FeaturesLabel + Join(Take(r.features, MaxFeatures), "; ")];
    }
    assert section == [RepoHeader] + DescriptionPart(r) + TechPart(r) + FeaturePart(r);
    if r.questions != [] {
      var lines := NumberQuestions(Take(r.questions, MaxQuestions));
      section := section + ([QuestionsHeader] + lines);
    }
    HeaderThenLines(RepoHeader, DescriptionPart(r), TechPart(r), FeaturePart(r), QuestionPart(r));
  }

  /** Regrouping: the header followed by four runs of lines, appended one at a time or all at once. */
  lemma HeaderThenLines(header: string, a: seq<string>, b: seq<string>, c: seq<string>, d: seq<string>)
    ensures [header] + a + b + c + d == [header] + (a + b + c + d)
  {
  }

  /** The `enumerate(..., 1)` loop: one numbered line per question, in order. */
  method NumberQuestions(qs: seq<string>) returns (lines: seq<string>)
    ensures lines == NumberedLines(qs)
  {
    lines := [];
    var i := 0;
    while i < |qs|
      invariant 0 <= i <= |qs|
      invariant lines == NumberedLines(qs[..i])
    {
      assert qs[..i + 1][..i] == qs[..i];
      lines := lines + [NatToString(i + 1) + ". " + qs[i]];
      i := i + 1;
    }
    assert qs[..i] == qs;
  }

  /** The resume section, appended entry by entry. */
  method ResumeSection(s: ResumeAnalysis) returns (section: seq<string>)
    ensures section == ResumeParts(s)
  {
    section := [ResumeHeader];
    if s.keySkills != [] {
      section := section + [SkillsLabel + Join(Take(s.keySkills, MaxSkills), ", ")];
    }
    if s.experience != [] {
      section := section + [ExperienceLabel + NatToString(|s.experience|) + RolesSuffix];
    }
    if s.highlights != [] {
      section := section + [HighlightsLabel + Join(Take(s.highlights, MaxHighlights), "; ")];
    }
  }

  /**
   * The builder as the endpoint runs it: appends the sections in order, the
   * guidelines last, and joins them by newlines after the system instruction.
   */
  method BuildPrompt(repo: Option<RepoAnalysis>, resume: Option<ResumeAnalysis>) returns (prompt: string)
    ensures prompt == Prompt(repo, resume)
  {
    var parts: seq<string> := [];
    if repo.Some? {
      parts := RepoSection(repo.value);
    }
    ghost var repoPart := parts;
    if resume.Some? {
      var section := ResumeSection(resume.value);
      parts := parts + section;
    }
    assert parts == repoPart + (if resume.Some? then ResumeParts(resume.value) else []);
    parts := parts + [GuidelinesHeader, Guidelines];
    assert parts == ContextParts(repo, resume);
    prompt := SystemInstruction + Join(parts, "\n");
  }

  /**
   * `prepare_interview`: without an API key it answers HTTP 500 and sends
   * nothing; otherwise it sends the prompt to the agent and answers with it,
   * `success` being true only on a 200 reply. A failed PATCH never fails the
   * request.
   */
  method PrepareInterview(repo: Option<RepoAnalysis>, resume: Option<ResumeAnalysis>,
                          apiKey: string, agentId: string, patch: PatchOutcome)
    returns (r: Result<InterviewResponse, HttpError>, sent: Option<PatchRequest>)
    ensures apiKey == "" ==> r == Failure(HttpError(500, "ElevenLabs API key not configured")) && sent.None?
    ensures apiKey != "" ==>
      && sent == Some(PatchRequest(AgentsUrl + agentId, apiKey, Prompt(repo, resume), FirstMessage))
      && r == Success(InterviewResponse(Prompt(repo, resume), agentId, apiKey, patch == Responded(200)))
  {
    var prompt := BuildPrompt(repo, resume);
    if apiKey == "" {
      return Failure(HttpError(500, "ElevenLabs API key not configured")), None;
    }
    var updated := false;
    sent := Some(PatchRequest(AgentsUrl + agentId, apiKey, prompt, FirstMessage));
    match patch {
      case Responded(code) =>
        if code == 200 {
          updated := true;
        }
      case PatchRaised(_) =>
    }
    r := Success(InterviewResponse(prompt, agentId, apiKey, updated));
  }
}
