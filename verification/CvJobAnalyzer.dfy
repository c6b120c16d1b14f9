/**
 * The CV / job-description analyzer (CV-Job-analyzer/cv_job_analyze.py).
 *
 * The analyzer object keeps the submitted job description and the text of
 * the uploaded CV; the page's POST handler stores whichever of the two a
 * request carries and, once both are present, sends one chat request to the
 * model and clears the inputs. The reset clears the job description and the
 * file but NOT the CV text, so the next job description alone is analysed
 * against the previous CV (`StaleCvIsReused`).
 */
module CvJobAnalyzer {
  import opened Wrappers
  import Base
  import opened Normalise

  /** An uploaded PDF, given by the text PyPDF2 extracts from each page, in page order. */
  datatype PdfFile = PdfFile(pages: seq<string>)

  /** The chat-completion client: (model name, messages) to the reply's text. */
  type Completion = (string, seq<Base.Message>) -> string

  const AnalyzerModel: string := "gpt-4o-mini"

  /** The system prompt as written in the constructor, before normalisation. */
  const RawSystemPrompt: string :=
    "\n"
    + "        "
    + "You are "
    + "an "
    + "assistant"
    + " whose "
    + "job is "
    + "to "
    + "analyze "
    + "a CV and"
    + " a job "
    + "description,"
    + "        "
    + "     "
    + "then "
    + "provide "
    + "a "
    + "feedback"
    + " on how "
    + "well the"
    + " CV is "
    + "aligned "
    + "with"
    + "        "
    + "        "
    + " the "
    + "role "
    + "described"
    + " in the "
    + "job "
    + "description"
    + " and its"
    + " "
    + "requirements."
    + "\n"
    + "        "
    + "Your "
    + "response"
    + " should "
    + "include "
    + "the "
    + "following:"
    + "\n"
    + "        "
    + "1. "
    + "Summarize"
    + " the job"
    + " "
    + "description"
    + " by: job"
    + " domain,"
    + " role, "
    + "principle"
    + " "
    + "missions"
    + " and all"
    + " "
    + "requirements."
    + "\n"
    + "        "
    + "2. Skill"
    + " gap "
    + "identification:"
    + " Compare"
    + " the "
    + "skills "
    + "listed "
    + "in the "
    + "resume"
    + "        "
    + "     "
    + "with "
    + "those "
    + "required"
    + " in the "
    + "job "
    + "posting,"
    + " "
    + "highlighting"
    + " areas "
    + "where "
    + "the "
    + "resume "
    + "may be"
    + "        "
    + "        "
    + " lacking"
    + " or "
    + "overemphasized."
    + "\n"
    + "        "
    + "3. "
    + "Keyword "
    + "matching"
    + " between"
    + " a CV "
    + "and a "
    + "job "
    + "posting:"
    + " Match "
    + "keywords"
    + " from "
    + "the job "
    + "description"
    + "        "
    + "     "
    + "with the"
    + " resume,"
    + " "
    + "determining"
    + " how "
    + "well "
    + "they "
    + "align."
    + "        "
    + "        "
    + " Provide"
    + " "
    + "specific"
    + " "
    + "suggestions"
    + " for "
    + "missing "
    + "keywords"
    + " to add "
    + "to the "
    + "CV.\n"
    + "        "
    + "4. "
    + "Recommendations"
    + " for CV "
    + "improvement:"
    + " Provide"
    + " "
    + "actionable"
    + " "
    + "suggestions"
    + " on"
    + "        "
    + "     how"
    + " to "
    + "enhance "
    + "the "
    + "resume, "
    + "such as "
    + "adding "
    + "missing "
    + "skills "
    + "or "
    + "rephrasing"
    + " "
    + "experience"
    + " to"
    + "        "
    + "        "
    + " match "
    + "job "
    + "requirements."
    + "\n"
    + "        "
    + "5. "
    + "Alignment"
    + " score: "
    + "Display "
    + "a score "
    + "that "
    + "represents"
    + " the "
    + "degree "
    + "of "
    + "alignment"
    + "        "
    + "     "
    + "between "
    + "the "
    + "resume "
    + "and the "
    + "job "
    + "posting."
    + "\n"
    + "        "
    + "6. "
    + "Personalized"
    + " "
    + "feedback:"
    + " Offer "
    + "tailored"
    + " advice "
    + "based on"
    + " the job"
    + " "
    + "posting,"
    + "        "
    + "     "
    + "guiding "
    + "the user"
    + " on how "
    + "to "
    + "optimize"
    + " their "
    + "CV for "
    + "the best"
    + " chances"
    + " of "
    + "success."
    + "\n"
    + "        "
    + "7. Job "
    + "market "
    + "trend "
    + "insights,"
    + " provide"
    + " broader"
    + " market "
    + "trends "
    + "and "
    + "insights,"
    + "        "
    + "     "
    + "such as "
    + "in-demand"
    + " skills "
    + "and "
    + "salary "
    + "ranges.\n"
    + "        "
    + "Provide "
    + "responses"
    + " that "
    + "are "
    + "concise,"
    + " clear, "
    + "and to "
    + "the "
    + "point. "
    + "Respond "
    + "in "
    + "markdown."
    + "\n"
    + "        "

  /** The system prompt the analyzer sends: the raw text with every run of blanks collapsed. */
  const SystemPrompt: string := CollapseBlanks(RawSystemPrompt)

  /** Python's f-string rendering of an optional string: `None` prints as "None". */
  function Show(v: Option<string>): (s: string)
    ensures v.Some? ==> s == v.value
  {
    if v.Some? then v.value else "None"
  }

  /** The literal parts of the f-string in `get_user_prompt`. */
  const UserPromptHead: string :=
    "\n"
    + "            Below is the job description and the content of the uploaded CV.\n"
    + "            Job description: \n"
    + "            "
  const UserPromptMiddle: string :=
    "\n"
    + "\n"
    + "            CV content:\n"
    + "            "
  const UserPromptTail: string := "\n        "

  /** The f-string of `get_user_prompt`, before normalisation. */
  function UserPromptTemplate(jobDescription: string, cvContent: string): string
  {
    UserPromptHead + jobDescription + UserPromptMiddle + cvContent + UserPromptTail
  }

  /** `get_user_prompt(job_description, cv_content)`: always a string, never None. */
  function UserPrompt(jobDescription: Option<string>, cvContent: Option<string>): (p: string)
    ensures NoTab(p) && NoDoubleSpace(p)
    ensures CollapseBlanks(p) == p
  {
    var p := CollapseBlanks(UserPromptTemplate(Show(jobDescription), Show(cvContent)));
    CollapseBlanksIdempotent(UserPromptTemplate(Show(jobDescription), Show(cvContent)));
    p
  }

  /** Apart from blanks, the prompt is the template's text with the job description and the CV in order. */
  lemma UserPromptKeepsInputs(jobDescription: string, cvContent: string)
    ensures Strip(UserPrompt(Some(jobDescription), Some(cvContent)))
         == Strip(UserPromptHead) + Strip(jobDescription) + Strip(UserPromptMiddle)
          + Strip(cvContent) + Strip(UserPromptTail)
  {
    var a, b, c := UserPromptHead, UserPromptMiddle, UserPromptTail;
    CollapseBlanksKeepsText(UserPromptTemplate(jobDescription, cvContent));
    StripAppend(a + jobDescription + b + cvContent, c);
    StripAppend(a + jobDescription + b, cvContent);
    StripAppend(a + jobDescription, b);
    StripAppend(a, jobDescription);
  }

  /** Concatenation of the page texts, in page order (`cv_content += page.extract_text()`). */
  function PagesText(pages: seq<string>): string
  {
    if pages == [] then "" else PagesText(pages[..|pages| - 1]) + pages[|pages| - 1]
  }

  /** The CV text of several uploads' pages is the texts of the parts, joined. */
  lemma {:induction false} PagesTextAppend(a: seq<string>, b: seq<string>)
    ensures PagesText(a + b) == PagesText(a) + PagesText(b)
    decreases |b|
  {
    if b != [] {
      var b' := b[..|b| - 1];
      assert (a + b)[..|a + b| - 1] == a + b';
      PagesTextAppend(a, b');
    } else {
      assert a + b == a;
    }
  }

  /**
   * Page `i`'s text appears in the CV text exactly where the text of the
   * pages before it ends.
   */
  lemma PageInCvText(pages: seq<string>, i: nat)
    requires i < |pages|
    ensures var start := |PagesText(pages[..i])|;
      && start + |pages[i]| <= |PagesText(pages)|
      && PagesText(pages)[..start] == PagesText(pages[..i])
      && PagesText(pages)[start..start + |pages[i]|] == pages[i]
  {
    var front, back := pages[..i + 1], pages[i + 1..];
    assert pages == front + back;
    PagesTextAppend(front, back);
    assert front[..|front| - 1] == pages[..i];
    assert PagesText(front) == PagesText(pages[..i]) + pages[i];
  }

  class CvJobDescriptionAnalyzer {
    const openai: Completion
    /** Set once by the constructor and never reassigned. */
    const systemPrompt: string
    var userPrompt: Option<string>
    var jobDesc: Option<string>
    var cvContent: Option<string>
    var cvFile: Option<PdfFile>
    var analyzeResult: Option<string>
    /** Every message list sent to the model so far, oldest first. */
    ghost var requests: seq<seq<Base.Message>>

    constructor (openai: Completion)
      ensures this.openai == openai
      ensures systemPrompt == SystemPrompt
      ensures userPrompt == None && jobDesc == None && cvContent == None
      ensures cvFile == None && analyzeResult == None
      ensures requests == []
    {
      this.openai := openai;
      systemPrompt := SystemPrompt;
      userPrompt := None;
      jobDesc := None;
      cvContent := None;
      cvFile := None;
      analyzeResult := None;
      requests := [];
    }

    /** `get_job_description(job_desc)`: changes `job_desc` and nothing else. */
    method GetJobDescription(jobDesc: Option<string>)
      modifies this`jobDesc
      ensures this.jobDesc == jobDesc
    {
      this.jobDesc := jobDesc;
    }

    /**
     * `get_cv_content(cv_file)`: records the file; for a real file the CV text
     * is rebuilt from "" page by page, for None it is left as it was.
     */
    method GetCvContent(cvFile: Option<PdfFile>)
      modifies this`cvFile, this`cvContent
      ensures this.cvFile == cvFile
      ensures cvFile.Some? ==> cvContent == Some(PagesText(cvFile.value.pages))
      ensures cvFile.None? ==> cvContent == old(cvContent)
    {
      this.cvFile := cvFile;
      if cvFile.Some? {
        var pages := cvFile.value.pages;
        cvContent := Some("");
        for i := 0 to |pages|
          invariant this.cvFile == cvFile
          invariant cvContent == Some(PagesText(pages[..i]))
        {
          assert pages[..i + 1][..i] == pages[..i];
          cvContent := Some(cvContent.value + pages[i]);
        }
        assert pages[..|pages|] == pages;
      }
    }

    /**
     * `analyze()`: builds the user prompt from the stored inputs, sends the
     * system/user pair to the model, stores the reply and returns it. The
     * prompt is never None, so the source's exit branch is dead.
     */
    method Analyze() returns (result: string)
      modifies this`userPrompt, this`analyzeResult, this`requests
      ensures userPrompt == Some(UserPrompt(jobDesc, cvContent))
      ensures requests == old(requests) + [Base.CreateMessage(systemPrompt, userPrompt.value)]
      ensures result == openai(AnalyzerModel, Base.CreateMessage(systemPrompt, userPrompt.value))
      ensures analyzeResult == Some(result)
    {
      userPrompt := Some(UserPrompt(jobDesc, cvContent));
      if userPrompt.None? {
        assert false;
      }
      var message := Base.CreateMessage(systemPrompt, userPrompt.value);
      requests := requests + [message];
      analyzeResult := Some(openai(AnalyzerModel, message));
      result := analyzeResult.value;
    }
  }

  /**
   * What a POST to "/" carries: whether `text_submit` and `pdf_submit` are in
   * the form, the `text_input` field if present, and the `pdf_file` upload if
   * present.
   */
  datatype Form = Form(textSubmit: bool, textInput: Option<string>, pdfSubmit: bool, pdfFile: Option<PdfFile>)

  /** `pdf_submit` without a `pdf_file` upload: `request.files["pdf_file"]` fails with a 400. */
  predicate MissingUpload(form: Form)
  {
    !form.textSubmit && form.pdfSubmit && form.pdfFile.None?
  }

  datatype PostOutcome = BadRequest | Stored | Analyzed(result: string)

  /**
   * Lines 99-102 of cv_job_analyze.py: store the job description or the CV that the
   * request carries; `text_submit` wins when a request has both.
   */
  method StoreSubmission(analyzer: CvJobDescriptionAnalyzer, form: Form) returns (ok: bool)
    modifies analyzer`jobDesc, analyzer`cvFile, analyzer`cvContent
    ensures ok == !MissingUpload(form)
    ensures analyzer.jobDesc == if form.textSubmit then form.textInput else old(analyzer.jobDesc)
    ensures analyzer.cvContent ==
      if ok && !form.textSubmit && form.pdfSubmit then Some(PagesText(form.pdfFile.value.pages))
      else old(analyzer.cvContent)
    ensures analyzer.cvFile ==
      if ok && !form.textSubmit && form.pdfSubmit then form.pdfFile else old(analyzer.cvFile)
  {
    ok := true;
    if form.textSubmit {
      analyzer.GetJobDescription(form.textInput);
    } else if form.pdfSubmit {
      if form.pdfFile.None? {
        return false;
      }
      analyzer.GetCvContent(form.pdfFile);
    }
  }

  /**
   * Lines 104-109 of cv_job_analyze.py: once both inputs are present, analyse, then
   * reset the job description and the file. The CV text stays set.
   */
  method AnalyzeWhenReady(analyzer: CvJobDescriptionAnalyzer) returns (outcome: PostOutcome)
    modifies analyzer`jobDesc, analyzer`cvFile, analyzer`cvContent
    modifies analyzer`userPrompt, analyzer`analyzeResult, analyzer`requests
    ensures outcome != BadRequest
    ensures outcome.Analyzed? <==> old(analyzer.jobDesc).Some? && old(analyzer.cvContent).Some?
    ensures outcome.Analyzed? ==>
      var message := Base.CreateMessage(analyzer.systemPrompt, UserPrompt(old(analyzer.jobDesc), old(analyzer.cvContent)));
      && outcome.result == analyzer.openai(AnalyzerModel, message)
      && analyzer.analyzeResult == Some(outcome.result)
      && analyzer.userPrompt == Some(UserPrompt(old(analyzer.jobDesc), old(analyzer.cvContent)))
      && analyzer.requests == old(analyzer.requests) + [message]
      && analyzer.jobDesc == None && analyzer.cvFile == None
    ensures outcome.Stored? ==>
      && analyzer.jobDesc == old(analyzer.jobDesc) && analyzer.cvFile == old(analyzer.cvFile)
      && analyzer.analyzeResult == old(analyzer.analyzeResult)
      && analyzer.userPrompt == old(analyzer.userPrompt)
      && analyzer.requests == old(analyzer.requests)
    ensures analyzer.cvContent == old(analyzer.cvContent)
  {
    if analyzer.jobDesc.Some? && analyzer.cvContent.Some? {
      var result := analyzer.Analyze();
      analyzer.GetJobDescription(None);
      analyzer.GetCvContent(None);
      outcome := Analyzed(result);
    } else {
      outcome := Stored;
    }
  }

  /** The state-changing part of the `index` route for a POST request. */
  method HandlePost(analyzer: CvJobDescriptionAnalyzer, form: Form) returns (outcome: PostOutcome)
    modifies analyzer`jobDesc, analyzer`cvFile, analyzer`cvContent
    modifies analyzer`userPrompt, analyzer`analyzeResult, analyzer`requests
    ensures MissingUpload(form) ==>
      && outcome == BadRequest
      && analyzer.jobDesc == old(analyzer.jobDesc) && analyzer.cvContent == old(analyzer.cvContent)
      && analyzer.cvFile == old(analyzer.cvFile)
    ensures !MissingUpload(form) ==>
      var upload := !form.textSubmit && form.pdfSubmit;
      var job := if form.textSubmit then form.textInput else old(analyzer.jobDesc);
      var cv := if upload then Some(PagesText(form.pdfFile.value.pages)) else old(analyzer.cvContent);
      var file := if upload then form.pdfFile else old(analyzer.cvFile);
      && outcome != BadRequest
      && analyzer.cvContent == cv
      && (outcome.Analyzed? <==> job.Some? && cv.Some?)
      && (outcome.Analyzed? ==>
            var message := Base.CreateMessage(analyzer.systemPrompt, UserPrompt(job, cv));
            && outcome.result == analyzer.openai(AnalyzerModel, message)
            && analyzer.analyzeResult == Some(outcome.result)
            && analyzer.userPrompt == Some(UserPrompt(job, cv))
            && analyzer.requests == old(analyzer.requests) + [message]
            && analyzer.jobDesc == None && analyzer.cvFile == None)
      && (outcome == Stored ==> analyzer.jobDesc == job && analyzer.cvFile == file)
    ensures !outcome.Analyzed? ==>
      && analyzer.analyzeResult == old(analyzer.analyzeResult)
      && analyzer.userPrompt == old(analyzer.userPrompt)
      && analyzer.requests == old(analyzer.requests)
  {
    var ok := StoreSubmission(analyzer, form);
    if !ok {
      return BadRequest;
    }
    outcome := AnalyzeWhenReady(analyzer);
  }

  /**
   * An analyzer with no job description and no CV yet (a fresh one) is given
   * a job description, then a CV, which triggers the first analysis; a second
   * job description alone then triggers a second analysis against the first
   * CV, with no new upload.
   */
  method StaleCvIsReused(analyzer: CvJobDescriptionAnalyzer, firstJob: string, secondJob: string, pages: seq<string>)
    returns (first: PostOutcome, second: PostOutcome)
    requires analyzer.jobDesc == None && analyzer.cvContent == None
    modifies analyzer`jobDesc, analyzer`cvFile, analyzer`cvContent
    modifies analyzer`userPrompt, analyzer`analyzeResult, analyzer`requests
    ensures first == Analyzed(analyzer.openai(AnalyzerModel,
      Base.CreateMessage(analyzer.systemPrompt, UserPrompt(Some(firstJob), Some(PagesText(pages))))))
    ensures second == Analyzed(analyzer.openai(AnalyzerModel,
      Base.CreateMessage(analyzer.systemPrompt, UserPrompt(Some(secondJob), Some(PagesText(pages))))))
  {
    var stored := HandlePost(analyzer, Form(true, Some(firstJob), false, None));
    assert analyzer.jobDesc == Some(firstJob) && analyzer.cvContent == None;
    first := HandlePost(analyzer, Form(false, None, true, Some(PdfFile(pages))));
    assert analyzer.jobDesc == None && analyzer.cvContent == Some(PagesText(pages));
    second := HandlePost(analyzer, Form(true, Some(secondJob), false, None));
  }
}
