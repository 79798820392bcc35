/**
 * The ATS analyser panel: the keywords of a job description are split into
 * those the resume also has and those it lacks, and the analysis request is
 * refused while the job description is blank.
 */
module KeywordAnalyzer {
  import opened Collections
  import opened Strings
  import opened Types
  import opened Keywords

  const BlankJobDescriptionError: string := "Please paste a job description."
  const AnalysisFailedError: string := "Failed to analyze. Please try again."

  function Descriptions(experience: seq<Experience>): (r: seq<string>)
    ensures |r| == |experience|
    ensures forall i :: 0 <= i < |r| ==> r[i] == experience[i].description
  {
    Map(experience, (e: Experience) => e.description)
  }

  /** The text the resume keywords are drawn from: summary, experience descriptions and skills, separated by spaces. */
  function KeywordSourceText(r: Resume): (t: string)
    ensures |t| > |r.summary| && t[..|r.summary|] == r.summary && t[|r.summary|] == ' '
    ensures |t| > |r.skills| && t[|t| - |r.skills| - 1..] == " " + r.skills
  {
    r.summary + " " + Join(Descriptions(r.experience), " ") + " " + r.skills
  }

  /** `getResumeKeywords()`. */
  function ResumeKeywords(r: Resume): (k: seq<string>)
    ensures NoDuplicates(k)
    ensures forall w :: w in k ==> IsSignificant(w)
  {
    ExtractKeywords(KeywordSourceText(r))
  }

  datatype KeywordMatch = KeywordMatch(matched: seq<string>, missing: seq<string>)

  /** `matchedKeywords` and `missingKeywords`: the job keywords with and without a match, each in job order. */
  function MatchKeywords(job: seq<string>, resume: seq<string>): (m: KeywordMatch)
    ensures forall k :: k in m.matched <==> k in job && k in resume
    ensures forall k :: k in m.missing <==> k in job && k !in resume
    ensures IsSubsequence(m.matched, job) && IsSubsequence(m.missing, job)
    ensures multiset(m.matched) + multiset(m.missing) == multiset(job)
    ensures |m.matched| + |m.missing| == |job|
  {
    var inResume := (k: string) => k in resume;
    var notInResume := (k: string) => k !in resume;
    FilterPartition(job, inResume, notInResume);
    FilterIsSubsequence(job, inResume);
    FilterIsSubsequence(job, notInResume);
    KeywordMatch(Filter(job, inResume), Filter(job, notInResume))
  }

  /** The keyword report the panel shows for a resume and a job description. */
  function Analyze(r: Resume, jobDescription: string): (m: KeywordMatch)
    ensures Trim(jobDescription) == "" ==> m.matched == [] && m.missing == []
    ensures forall k :: k in m.matched <==> k in ExtractKeywords(jobDescription) && k in ResumeKeywords(r)
    ensures forall k :: k in m.missing <==> k in ExtractKeywords(jobDescription) && k !in ResumeKeywords(r)
    ensures |m.matched| + |m.missing| == |ExtractKeywords(jobDescription)|
    ensures NoDuplicates(m.matched) && NoDuplicates(m.missing)
  {
    var job := ExtractKeywords(jobDescription);
    var resume := ResumeKeywords(r);
    BlankHasNoKeywords(jobDescription);
    FilterNoDuplicates(job, (k: string) => k in resume);
    FilterNoDuplicates(job, (k: string) => k !in resume);
    MatchKeywords(job, resume)
  }

  /** `handleAnalyze` goes ahead exactly when the trimmed job description is not empty. */
  predicate CanAnalyze(jobDescription: string)
    ensures CanAnalyze(jobDescription) <==> !IsBlank(jobDescription)
  {
    Trim(jobDescription) != ""
  }

  /** Swapping two parts of the job description leaves the matched and missing keywords unchanged as sets. */
  lemma AnalyzeSwap(r: Resume, x: string, y: string, k: string)
    ensures k in Analyze(r, x + " " + y).matched <==> k in Analyze(r, y + " " + x).matched
    ensures k in Analyze(r, x + " " + y).missing <==> k in Analyze(r, y + " " + x).missing
  {
    SwapSameKeywords(x, y, k);
  }

  /** Matched and missing keywords never overlap. */
  lemma MatchDisjoint(r: Resume, jobDescription: string)
    ensures forall k :: k in Analyze(r, jobDescription).matched ==> k !in Analyze(r, jobDescription).missing
  {
  }

  /** The tokens of descriptions joined by spaces are the tokens of the descriptions. */
  lemma {:induction false} TokensOfJoin(ds: seq<string>, w: string)
    ensures w in Tokens(Join(ds, " ")) <==> exists i :: 0 <= i < |ds| && w in Tokens(ds[i])
  {
    if ds == [] {
      assert Normalize("") == "";
    } else if |ds| > 1 {
      TokensConcat(ds[0], Join(ds[1..], " "));
      TokensOfJoin(ds[1..], w);
      if w in Tokens(Join(ds[1..], " ")) {
        var i :| 0 <= i < |ds[1..]| && w in Tokens(ds[1..][i]);
        assert ds[i + 1] == ds[1..][i];
      }
      if exists i :: 0 <= i < |ds| && w in Tokens(ds[i]) {
        var i :| 0 <= i < |ds| && w in Tokens(ds[i]);
        if i > 0 {
          assert ds[1..][i - 1] == ds[i];
        }
      }
    }
  }

  /**
   * A word is a resume keyword exactly when it is a token of the summary, of
   * some experience description or of the skills; contact details, projects,
   * education and certifications contribute nothing.
   */
  lemma ResumeKeywordSources(r: Resume, w: string)
    ensures w in ResumeKeywords(r) <==>
      || w in Tokens(r.summary)
      || (exists i :: 0 <= i < |r.experience| && w in Tokens(r.experience[i].description))
      || w in Tokens(r.skills)
  {
    var ds := Descriptions(r.experience);
    var joined := Join(ds, " ");
    assert KeywordSourceText(r) == r.summary + " " + joined + " " + r.skills;
    KeywordsAreTokens(KeywordSourceText(r), w);
    TokensOfThree(r.summary, joined, r.skills, w);
    TokensOfJoin(ds, w);
    DescriptionTokens(r.experience, ds, w);
  }

  /** A word is a keyword of a text exactly when it is one of its tokens. */
  lemma KeywordsAreTokens(text: string, w: string)
    ensures w in ExtractKeywords(text) <==> w in Tokens(text)
  {
    if w in Tokens(text) {
      var i :| 0 <= i < |Tokens(text)| && Tokens(text)[i] == w;
    }
  }

  lemma TokensOfThree(a: string, b: string, c: string, w: string)
    ensures w in Tokens(a + " " + b + " " + c) <==> w in Tokens(a) || w in Tokens(b) || w in Tokens(c)
  {
    TokensConcat(a, b);
    TokensConcat(a + " " + b, c);
  }

  lemma DescriptionTokens(experience: seq<Experience>, ds: seq<string>, w: string)
    requires ds == Descriptions(experience)
    ensures (exists i :: 0 <= i < |ds| && w in Tokens(ds[i])) <==>
      exists i :: 0 <= i < |experience| && w in Tokens(experience[i].description)
  {
    if exists i :: 0 <= i < |ds| && w in Tokens(ds[i]) {
      var i :| 0 <= i < |ds| && w in Tokens(ds[i]);
      assert w in Tokens(experience[i].description);
    }
  }

  /** The state of the analyser panel. */
  class AnalyzerPanel {
    var jobDescription: string
    var analysisResult: string
    var isLoading: bool
    var error: string

    constructor ()
      ensures jobDescription == "" && analysisResult == "" && !isLoading && error == ""
    {
      jobDescription := "";
      analysisResult := "";
      isLoading := false;
      error := "";
    }

    /** The job-description text area's change handler. */
    method SetJobDescription(text: string)
      modifies this
      ensures jobDescription == text
      ensures analysisResult == old(analysisResult) && isLoading == old(isLoading) && error == old(error)
    {
      jobDescription := text;
    }

    /**
     * The synchronous part of `handleAnalyze`: a job description that is blank
     * after trimming is refused with an error; otherwise the error and the
     * previous result are cleared and loading starts.
     */
    method BeginAnalysis() returns (started: bool)
      modifies this
      ensures started <==> !IsBlank(jobDescription)
      ensures jobDescription == old(jobDescription)
      ensures !started ==>
        error == BlankJobDescriptionError && analysisResult == old(analysisResult) && isLoading == old(isLoading)
      ensures started ==> error == "" && analysisResult == "" && isLoading
    {
      started := CanAnalyze(jobDescription);
      if !started {
        error := BlankJobDescriptionError;
      } else {
        error := "";
        isLoading := true;
        analysisResult := "";
      }
    }

    /**
     * The end of `handleAnalyze` once the awaited call settles: `Some(text)`
     * is a reply, `None` a failure. Either way loading stops.
     */
    method FinishAnalysis(outcome: Option<string>)
      modifies this
      ensures !isLoading && jobDescription == old(jobDescription)
      ensures outcome.Some? ==> analysisResult == outcome.value && error == old(error)
      ensures outcome.None? ==> error == AnalysisFailedError && analysisResult == old(analysisResult)
    {
      match outcome {
        case Some(text) =>
          analysisResult := text;
        case None =>
          error := AnalysisFailedError;
      }
      isLoading := false;
    }
  }
}
