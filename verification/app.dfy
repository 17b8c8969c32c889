/** The scoring logic written inline in app.py: the order of the fail-fast
    gates behind the "Analyze" button, the skill match and skill gaps, the ATS
    keyword overlap, the rule-based explanation lists and the per-company
    readiness scores. */
module App {
  import opened Text
  import opened Validation
  import opened SkillExtractor
  import opened ResumeQuality
  import opened Predictor
  import opened Roles
  import opened Rounding

  // -----------------------------------------------------------------------
  // Job description
  // -----------------------------------------------------------------------

  /** The job text the analysis reads: the pasted text for "Custom", the
      canned description of the selected role otherwise. The role selector
      offers only "Custom" and the described roles. */
  function JobDescriptionFor(role: string, pastedText: string): (jd: string)
    requires role == "Custom" || role in RoleDescriptions
    ensures role == "Custom" ==> jd == pastedText
    ensures role != "Custom" ==> jd in RoleDescriptions.Values
  {
    if role == "Custom" then pastedText else RoleDescriptions[role]
  }

  /** For every role but "Custom" the job text is never blank and always
      yields at least one job skill, communication. */
  lemma CannedJobDescriptionHasSkills(role: string, pastedText: string)
    requires role in RoleDescriptions
    ensures !AllSpace(JobDescriptionFor(role, pastedText))
    ensures "communication" in Detected(Lower(JobDescriptionFor(role, pastedText)), Skills)
    ensures |Detected(Lower(JobDescriptionFor(role, pastedText)), Skills)| > 0
  {
    DescribedRoles();
    var text := RoleDescriptions[role];
    DescriptionsMentionCommunication(role);
    StripBlank(text);
    CommunicationFound(text);
    CommunicationIsDetected(text);
  }

  /** A text that mentions "communication" in any letter case yields the
      communication skill. */
  lemma CommunicationIsDetected(text: string)
    requires Contains(Lower(text), "communication")
    ensures "communication" in Detected(Lower(text), Skills)
    ensures |Detected(Lower(text), Skills)| > 0
  {
    assert "communication" in Skills[5].keywords;
    assert Mentions(Lower(text), Skills[5]);
    ExtractedSkillsFacts(Lower(text));
  }

  /** A text that contains "communication" contains it once lower-cased. */
  lemma CommunicationFound(text: string)
    requires Contains(text, "communication")
    ensures Contains(Lower(text), "communication")
  {
    ContainsLower(text, "communication");
    assert forall i | 0 <= i < 13 :: Lower("communication")[i] == "communication"[i];
    assert Lower("communication") == "communication";
  }

  /** A text that contains "HTML" contains "html" once lower-cased. */
  lemma HtmlFound(text: string)
    requires Contains(text, "HTML")
    ensures Contains(Lower(text), "html")
  {
    ContainsLower(text, "HTML");
    assert forall i | 0 <= i < 4 :: Lower("HTML")[i] == "html"[i];
    assert Lower("HTML") == "html";
  }

  /** The canned "Frontend Developer" text lists HTML, and substring matching
      turns it into a "machine learning" job skill. */
  lemma FrontendJobListsMachineLearning()
    ensures "Frontend Developer" in RoleDescriptions
    ensures "machine learning" in Detected(Lower(RoleDescriptions["Frontend Developer"]), Skills)
  {
    FrontendDescriptionMentionsHtml();
    HtmlFound(RoleDescriptions["Frontend Developer"]);
    HtmlIsDetected(RoleDescriptions["Frontend Developer"]);
  }

  /** Any text that mentions "html" in any letter case yields the
      machine-learning skill: "html" contains the keyword "ml". */
  lemma HtmlIsDetected(text: string)
    requires Contains(Lower(text), "html")
    ensures "machine learning" in Detected(Lower(text), Skills)
  {
    ContainsMiddle("ht", "ml", "");
    assert "ht" + "ml" + "" == "html";
    ContainsTransitive(Lower(text), "html", "ml");
    assert "ml" in Skills[2].keywords;
    assert Mentions(Lower(text), Skills[2]);
    ExtractedSkillsFacts(Lower(text));
  }

  // -----------------------------------------------------------------------
  // Skill match
  // -----------------------------------------------------------------------

  /** A list has at least as many entries as distinct entries, and exactly as
      many when no entry is repeated. */
  lemma {:induction false} DistinctBound(s: seq<string>)
    ensures |Distinct(s)| <= |s|
    ensures (forall a, b | 0 <= a < b < |s| :: s[a] != s[b]) ==> |Distinct(s)| == |s|
    decreases |s|
  {
    if s != [] {
      var n := |s| - 1;
      DistinctBound(s[..n]);
      assert Distinct(s) == Distinct(s[..n]) + {s[n]};
      if forall a, b | 0 <= a < b < |s| :: s[a] != s[b] {
        assert s[n] !in Distinct(s[..n]);
      }
    }
  }

  lemma RatioAtMostOne(a: nat, n: nat)
    requires 0 < n && a <= n
    ensures 0.0 <= a as real / n as real <= 1.0
  {
  }

  /** `round(a / n * 100, 2)`: a count out of `n` as a percentage, rounded
      to two decimals. */
  function Percent(a: nat, n: nat): (p: real)
    requires 0 < n && a <= n
    ensures 0.0 <= p <= 100.0
  {
    RatioAtMostOne(a, n);
    RoundWithin((a as real / n as real) * 100.0, 0, 100);
    Round2((a as real / n as real) * 100.0)
  }

  /** Up to 20000 entries the rounded percentage is 0 only for a count of 0,
      and below 20000 entries it is 100 only for the full count. Above 20000
      entries a count of 1 rounds down to 0; at exactly 20000 entries, one
      short of the full count lands on a rounding tie, which rounds up to 100. */
  lemma PercentEnds(a: nat, n: nat)
    requires 0 < n <= 20000 && a <= n
    ensures Percent(a, n) == 0.0 <==> a == 0
    ensures n < 20000 ==> (Percent(a, n) == 100.0 <==> a == n)
  {
    var x := (a as real / n as real) * 100.0;
    assert x * n as real == 100.0 * a as real;
    Round2Facts(x, x, 0);
    Round2Facts(0.0, 0.0, 0);
    Round2Facts(100.0, 100.0, 100);
    if a > 0 {
      ShareBound(x, n as real);
    }
    if a == n {
      assert a as real / n as real == 1.0;
    }
    if a < n < 20000 {
      var d := 100.0 - x;
      assert d * n as real == 100.0 * (n - a) as real;
      ShareBound(d, n as real);
      assert x < 99.995;
    }
  }

  /** A share that makes up at least 100 over at most 20000 entries is at
      least 0.005, and above it over fewer entries. */
  lemma ShareBound(x: real, n: real)
    requires 0.0 < n <= 20000.0 && x * n >= 100.0
    ensures x >= 0.005
    ensures n < 20000.0 ==> x > 0.005
  {
    assert x == (x * n) / n;
    assert x > 0.0;
    assert x * 20000.0 - x * n == x * (20000.0 - n);
    assert x * (20000.0 - n) >= 0.0;
    if n < 20000.0 {
      assert x * (20000.0 - n) > 0.0;
    }
  }

  /** The two limits of `PercentEnds` are sharp: one match in 20001 entries
      rounds to 0, and 19999 matches in 20000 round to 100. */
  lemma PercentEndsSharp()
    ensures Percent(1, 20001) == 0.0
    ensures Percent(19999, 20000) == 100.0
  {
    assert (1.0 / 20001.0) * 100.0 < 0.005;
    assert (19999.0 / 20000.0) * 100.0 == 99.995;
  }

  /** Match %: the share of the job skills that the resume also lists, as a
      rounded percentage; 0 when the job lists no skill. */
  function MatchPercentage(resumeSkills: seq<string>, jobSkills: seq<string>): (m: real)
    ensures 0.0 <= m <= 100.0
    ensures jobSkills == [] ==> m == 0.0
  {
    if |jobSkills| > 0 then
      var common := Distinct(resumeSkills) * Distinct(jobSkills);
      DistinctBound(jobSkills);
      SubsetSize(common, Distinct(jobSkills));
      Percent(|common|, |jobSkills|)
    else 0.0
  }

  /** `set(job_skills) - set(resume_skills)` */
  function MissingSkills(resumeSkills: seq<string>, jobSkills: seq<string>): (missing: set<string>)
    ensures forall skill :: skill in missing <==> skill in jobSkills && skill !in resumeSkills
  {
    Distinct(jobSkills) - Distinct(resumeSkills)
  }

  /** A subset is no larger than its superset, and equal to it when as large. */
  lemma SubsetSize(a: set<string>, b: set<string>)
    requires a <= b
    ensures |a| <= |b|
    ensures |a| == |b| ==> a == b
  {
    assert b == a + (b - a);
    assert |b| == |a| + |b - a|;
  }

  /** The skill gaps are the job skills the resume lacks. For a job list of
      at most six entries (as `extract_skills` produces) the match is 0%
      exactly when no job skill is listed in the resume, and when that list
      has no repeats either there is no gap exactly when the match is 100%. */
  lemma SkillGapsAndMatch(resumeSkills: seq<string>, jobSkills: seq<string>)
    ensures MissingSkills(resumeSkills, jobSkills) <= Distinct(jobSkills)
    ensures MissingSkills(resumeSkills, jobSkills) * Distinct(resumeSkills) == {}
    ensures 0 < |jobSkills| <= |Skills| ==>
              (MatchPercentage(resumeSkills, jobSkills) == 0.0
               <==> Distinct(resumeSkills) * Distinct(jobSkills) == {})
    ensures 0 < |jobSkills| <= |Skills| && (forall a, b | 0 <= a < b < |jobSkills| :: jobSkills[a] != jobSkills[b]) ==>
              (MissingSkills(resumeSkills, jobSkills) == {} <==> MatchPercentage(resumeSkills, jobSkills) == 100.0)
  {
    var common := Distinct(resumeSkills) * Distinct(jobSkills);
    var job := Distinct(jobSkills);
    if 0 < |jobSkills| <= |Skills| {
      var n := |jobSkills|;
      var m := MatchPercentage(resumeSkills, jobSkills);
      DistinctBound(jobSkills);
      SubsetSize(common, job);
      assert m == Percent(|common|, n);
      PercentEnds(|common|, n);
      if forall a, b | 0 <= a < b < n :: jobSkills[a] != jobSkills[b] {
        assert |job| == n;
        if MissingSkills(resumeSkills, jobSkills) == {} {
          forall x | x in job ensures x in common {
            assert x !in MissingSkills(resumeSkills, jobSkills);
          }
          assert common == job;
        }
        if m == 100.0 {
          SubsetSize(common, job);
          assert job - Distinct(resumeSkills) == job - common;
        }
      }
    }
  }

  // -----------------------------------------------------------------------
  // ATS keywords
  // -----------------------------------------------------------------------

  /** `set(jd_keywords) & set(resume_keywords)` */
  function MatchedKeywords(jdKeywords: set<string>, resumeKeywords: set<string>): (matched: set<string>)
    ensures matched <= jdKeywords && matched <= resumeKeywords
  {
    jdKeywords * resumeKeywords
  }

  /** `set(jd_keywords) - set(resume_keywords)` */
  function MissingKeywords(jdKeywords: set<string>, resumeKeywords: set<string>): (missing: set<string>)
    ensures missing <= jdKeywords && missing !! resumeKeywords
  {
    jdKeywords - resumeKeywords
  }

  /** The ATS score: the share of the job keywords that the resume has, as a
      rounded percentage; 0 when the job has no keyword. */
  function AtsScore(jdKeywords: set<string>, resumeKeywords: set<string>): (score: real)
    ensures 0.0 <= score <= 100.0
    ensures jdKeywords == {} ==> score == 0.0
  {
    if |jdKeywords| > 0 then
      var matched := MatchedKeywords(jdKeywords, resumeKeywords);
      SubsetSize(matched, jdKeywords);
      Percent(|matched|, |jdKeywords|)
    else 0.0
  }

  /** Matched and missing keywords split the job keywords in two. Up to
      20000 job keywords the score is 0 exactly when nothing matches, and for
      fewer than 20000 it is 100 exactly when nothing is missing. */
  lemma KeywordsPartition(jdKeywords: set<string>, resumeKeywords: set<string>)
    ensures var matched := MatchedKeywords(jdKeywords, resumeKeywords);
            var missing := MissingKeywords(jdKeywords, resumeKeywords);
            && matched + missing == jdKeywords
            && matched * missing == {}
            && |matched| + |missing| == |jdKeywords|
            && (|jdKeywords| <= 20000 ==> (AtsScore(jdKeywords, resumeKeywords) == 0.0 <==> matched == {}))
            && (0 < |jdKeywords| < 20000 ==> (AtsScore(jdKeywords, resumeKeywords) == 100.0 <==> missing == {}))
  {
    var matched := MatchedKeywords(jdKeywords, resumeKeywords);
    var missing := MissingKeywords(jdKeywords, resumeKeywords);
    assert jdKeywords == matched + missing;
    assert |jdKeywords| == |matched| + |missing|;
    if 0 < |jdKeywords| <= 20000 {
      SubsetSize(matched, jdKeywords);
      PercentEnds(|matched|, |jdKeywords|);
      if |matched| == |jdKeywords| {
        SubsetSize(matched, jdKeywords);
      }
    }
  }

  // -----------------------------------------------------------------------
  // The "Analyze" run
  // -----------------------------------------------------------------------

  /** The sidebar inputs. */
  datatype Profile = Profile(cgpa: real, internship: int, projects: int, communication: int,
                             dsaScore: int, hackathons: int)

  /** What a successful run shows. */
  datatype Report = Report(
    resumeSkills: seq<string>,
    jobSkills: seq<string>,
    matchedKeywords: set<string>,
    missingKeywords: set<string>,
    atsScore: real,
    resumeQuality: real,
    matchPercentage: real,
    missingSkills: set<string>,
    probability: real)

  /** A run stops at the first failing gate with an error message, fails in
      the estimator with its error text shown as detail, or shows a report. */
  datatype Analysis =
    | Rejected(message: string)
    | PredictionFailed(message: string, detail: string)
    | Scored(report: Report)

  const PasteResumeText := "Please paste resume text."
  const ProvideJobDescription := "Please provide job description."
  const CheckInputs := "Prediction failed. Please check inputs."

  /** The skills `extract_skills` gives for one text. */
  function SkillsOf(text: string): seq<string> {
    Detected(Lower(text), Skills)
  }

  /** What the classifier answers for this profile and match. */
  function ClassifierAnswer(classifier: seq<real> -> ClassifierResult, profile: Profile,
                            resumeText: string, jobDescription: string): ClassifierResult
  {
    classifier(Features(profile.cgpa, profile.internship, profile.communication,
                        MatchPercentage(SkillsOf(resumeText), SkillsOf(jobDescription))))
  }

  /** The rules of the validator that the inline checks repeat reject with
      the validator's own message. */
  lemma InlineChecksAgree(resumeText: string)
    requires !AllSpace(resumeText)
    ensures var words := Split(Lower(Strip(resumeText)));
            (|words| <= 1 ==> ValidateResumeText(resumeText) == Verdict(false, SeemsInvalid))
            && (|words| > 1 && |Distinct(words)| <= 1
                ==> ValidateResumeText(resumeText) == Verdict(false, RepeatedSpam))
  {
    TokensOfStripped(resumeText);
    FirstFailingRuleDecides(resumeText);
  }

  /** The "Analyze" button. A blank resume is rejected first, then a blank
      job text; an invalid resume is rejected with the validator's message;
      a classifier error gives the generic failure with the error as detail.
      Only a run that passes all of these shows a report, and the report
      holds the extracted skills, the keyword overlap, the resume quality,
      the match and the clamped probability. */
  method Analyze(classifier: seq<real> -> ClassifierResult, profile: Profile, role: string,
                 resumeText: string, jobDescription: string)
    returns (a: Analysis)
    ensures a == Rejected(PasteResumeText) <==> AllSpace(resumeText)
    ensures a == Rejected(ProvideJobDescription) <==> !AllSpace(resumeText) && AllSpace(jobDescription)
    ensures !AllSpace(resumeText) && !AllSpace(jobDescription) && !ValidateResumeText(resumeText).valid
            ==> a == Rejected(ValidateResumeText(resumeText).message)
    ensures a.PredictionFailed? <==>
              !AllSpace(resumeText) && !AllSpace(jobDescription) && ValidateResumeText(resumeText).valid
              && ClassifierAnswer(classifier, profile, resumeText, jobDescription).Raised?
    ensures a.PredictionFailed? ==>
              a == PredictionFailed(CheckInputs, ClassifierAnswer(classifier, profile, resumeText, jobDescription).error)
    ensures a.Scored? <==>
              !AllSpace(resumeText) && !AllSpace(jobDescription) && ValidateResumeText(resumeText).valid
              && ClassifierAnswer(classifier, profile, resumeText, jobDescription).Probability?
    ensures a.Scored? ==>
              var r := a.report;
              var jd := ExtractKeywords(jobDescription);
              var rk := ExtractKeywords(resumeText);
              var raw := ClassifierAnswer(classifier, profile, resumeText, jobDescription).p;
              && r.resumeSkills == SkillsOf(resumeText)
              && r.jobSkills == SkillsOf(jobDescription)
              && r.matchedKeywords == MatchedKeywords(jd, rk)
              && r.missingKeywords == MissingKeywords(jd, rk)
              && r.atsScore == AtsScore(jd, rk)
              && r.resumeQuality == CalculateResumeQuality(resumeText, r.resumeSkills)
              && r.matchPercentage == MatchPercentage(r.resumeSkills, r.jobSkills)
              && r.missingSkills == MissingSkills(r.resumeSkills, r.jobSkills)
              && r.probability == Round2(Clamp(PreClamp(raw, profile.cgpa, profile.internship, r.matchPercentage,
                                                        profile.projects, profile.dsaScore, r.resumeQuality,
                                                        profile.hackathons, role, RoleDifficulty), 5.0, 95.0))
              && 5.0 <= r.probability <= 95.0
  {
    StripBlank(resumeText);
    StripBlank(jobDescription);
    if Strip(resumeText) == [] {
      return Rejected(PasteResumeText);
    }
    if Strip(jobDescription) == [] {
      return Rejected(ProvideJobDescription);
    }
    var resumeSkills, jobSkills := ExtractSkills(resumeText, jobDescription);
    var jdKeywords := ExtractKeywords(jobDescription);
    var resumeKeywords := ExtractKeywords(resumeText);
    var matchedKeywords := MatchedKeywords(jdKeywords, resumeKeywords);
    var missingKeywords := MissingKeywords(jdKeywords, resumeKeywords);
    var atsScore := AtsScore(jdKeywords, resumeKeywords);
    var resumeQuality := CalculateResumeQuality(resumeText, resumeSkills);

    // The inline checks ahead of the validator.
    var text := Strip(resumeText);
    if text == [] {
      assert false;
    }
    var words := Split(Lower(text));
    InlineChecksAgree(resumeText);
    if |words| <= 1 {
      return Rejected(SeemsInvalid);
    }
    if |Distinct(words)| <= 1 {
      return Rejected(RepeatedSpam);
    }

    var verdict := ValidateResumeText(resumeText);
    if !verdict.valid {
      return Rejected(verdict.message);
    }

    var matchPercentage := MatchPercentage(resumeSkills, jobSkills);
    var missingSkills := MissingSkills(resumeSkills, jobSkills);
    var prediction := PredictPlacement(classifier, profile.cgpa, profile.internship, profile.communication,
                                       matchPercentage, profile.projects, profile.dsaScore, resumeQuality,
                                       profile.hackathons, role, RoleDifficulty);
    if prediction.Failed? {
      return PredictionFailed(CheckInputs, prediction.error);
    }
    a := Scored(Report(resumeSkills, jobSkills, matchedKeywords, missingKeywords, atsScore,
                       resumeQuality, matchPercentage, missingSkills, prediction.probability));
  }

  // -----------------------------------------------------------------------
  // Explainability panel
  // -----------------------------------------------------------------------

  /** The one-entry list of a message whose rule fires, the empty list otherwise. */
  function Piece(fires: bool, message: string): seq<string> {
    if fires then [message] else []
  }

  // Messages of the explainability panel.
  const StrongCgpa := "Strong CGPA"
  const InternshipDone := "Internship experience"
  const GoodMatch := "Good skill match with job role"
  const GoodDsa := "Good Dsa / Coding ability"
  const ActiveHackathons := "Active in hackathons / certifications"
  const StrongResume := "Strong resume quality"
  const ImproveAcademics := "Improve academic performance"
  const GetInternship := "Get internship experience"
  const ImproveMatch := "Improve skill match with job role"
  const MajorGaps := "Major skill gaps for target role"
  const PracticeDsa := "Practice Dsa problems"
  const DoCertifications := "Do certifications or hackathons"
  const ImproveResume := "Improve resume structure and achievements"

  /** The strengths of the explainability panel, in rule order. */
  function ExplainStrengths(cgpa: real, internship: int, matchPercentage: real, dsaScore: int,
                            hackathons: int, resumeQuality: real): seq<string>
  {
    Piece(cgpa >= 8.0, StrongCgpa)
    + Piece(internship == 1, InternshipDone)
    + Piece(matchPercentage >= 70.0, GoodMatch)
    + Piece(dsaScore >= 7, GoodDsa)
    + Piece(hackathons >= 2, ActiveHackathons)
    + Piece(resumeQuality >= 7.0, StrongResume)
  }

  /** The improvements of the explainability panel, in rule order. */
  function ExplainImprovements(cgpa: real, internship: int, matchPercentage: real, dsaScore: int,
                            hackathons: int, resumeQuality: real): seq<string>
  {
    Piece(cgpa < 8.0, ImproveAcademics)
    + Piece(internship != 1, GetInternship)
    + Piece(40.0 <= matchPercentage < 70.0, ImproveMatch)
    + Piece(matchPercentage < 40.0, MajorGaps)
    + Piece(dsaScore < 7, PracticeDsa)
    + Piece(hackathons < 2, DoCertifications)
    + Piece(resumeQuality < 7.0, ImproveResume)
  }

  /** The six strength messages of the explainability panel are pairwise different. */
  lemma StrengthMessagesDiffer()
    ensures StrongCgpa != InternshipDone && StrongCgpa != GoodMatch && StrongCgpa != GoodDsa
    ensures StrongCgpa != ActiveHackathons && StrongCgpa != StrongResume && InternshipDone != GoodMatch
    ensures InternshipDone != GoodDsa && InternshipDone != ActiveHackathons && InternshipDone != StrongResume
    ensures GoodMatch != GoodDsa && GoodMatch != ActiveHackathons && GoodMatch != StrongResume
    ensures GoodDsa != ActiveHackathons && GoodDsa != StrongResume && ActiveHackathons != StrongResume
  {
  }

  /** The seven improvement messages of the explainability panel are pairwise different. */
  lemma ImprovementMessagesDiffer()
    ensures ImproveAcademics != GetInternship && ImproveAcademics != ImproveMatch && ImproveAcademics != MajorGaps
    ensures ImproveAcademics != PracticeDsa && ImproveAcademics != DoCertifications && ImproveAcademics != ImproveResume
    ensures GetInternship != ImproveMatch && GetInternship != MajorGaps && GetInternship != PracticeDsa
    ensures GetInternship != DoCertifications && GetInternship != ImproveResume && ImproveMatch != MajorGaps
    ensures ImproveMatch != PracticeDsa && ImproveMatch != DoCertifications && ImproveMatch != ImproveResume
    ensures MajorGaps != PracticeDsa && MajorGaps != DoCertifications && MajorGaps != ImproveResume
    ensures PracticeDsa != DoCertifications && PracticeDsa != ImproveResume && DoCertifications != ImproveResume
  {
  }

  /** Each of the six rules adds one entry to exactly one of the two lists. */
  lemma ExplanationCount(cgpa: real, internship: int, matchPercentage: real, dsaScore: int,
                          hackathons: int, resumeQuality: real)
    ensures |ExplainStrengths(cgpa, internship, matchPercentage, dsaScore, hackathons, resumeQuality)| + |ExplainImprovements(cgpa, internship, matchPercentage, dsaScore, hackathons, resumeQuality)| == 6
  {
  }

  /** A strength is listed exactly when its condition holds. */
  lemma ExplainStrengthRules(cgpa: real, internship: int, matchPercentage: real, dsaScore: int,
                           hackathons: int, resumeQuality: real)
    ensures var strengths := ExplainStrengths(cgpa, internship, matchPercentage, dsaScore, hackathons, resumeQuality);
            && |strengths| <= 6
            && (StrongCgpa in strengths <==> cgpa >= 8.0)
            && (InternshipDone in strengths <==> internship == 1)
            && (GoodMatch in strengths <==> matchPercentage >= 70.0)
            && (GoodDsa in strengths <==> dsaScore >= 7)
            && (ActiveHackathons in strengths <==> hackathons >= 2)
            && (StrongResume in strengths <==> resumeQuality >= 7.0)
  {
    StrengthMessagesDiffer();
  }

  /** An improvement is listed exactly when its condition holds; the skill
      match gives at most one of its two improvements. */
  lemma ExplainImprovementRules(cgpa: real, internship: int, matchPercentage: real, dsaScore: int,
                               hackathons: int, resumeQuality: real)
    ensures var improvements := ExplainImprovements(cgpa, internship, matchPercentage, dsaScore, hackathons, resumeQuality);
            && |improvements| <= 6
            && !(ImproveMatch in improvements && MajorGaps in improvements)
            && (ImproveAcademics in improvements <==> cgpa < 8.0)
            && (GetInternship in improvements <==> internship != 1)
            && (ImproveMatch in improvements <==> 40.0 <= matchPercentage < 70.0)
            && (MajorGaps in improvements <==> matchPercentage < 40.0)
            && (PracticeDsa in improvements <==> dsaScore < 7)
            && (DoCertifications in improvements <==> hackathons < 2)
            && (ImproveResume in improvements <==> resumeQuality < 7.0)
  {
    ImprovementMessagesDiffer();
  }

  /** The explainability panel: the two lists, built rule by rule. */
  method ExplainScore(cgpa: real, internship: int, matchPercentage: real, dsaScore: int,
                      hackathons: int, resumeQuality: real)
    returns (strengths: seq<string>, improvements: seq<string>)
    ensures strengths == ExplainStrengths(cgpa, internship, matchPercentage, dsaScore, hackathons, resumeQuality)
    ensures improvements == ExplainImprovements(cgpa, internship, matchPercentage, dsaScore, hackathons, resumeQuality)
  {
    strengths := [];
    improvements := [];
    if cgpa >= 8.0 {
      strengths := strengths + [StrongCgpa];
    } else {
      improvements := improvements + [ImproveAcademics];
    }
    assert strengths == Piece(cgpa >= 8.0, StrongCgpa);
    assert improvements == Piece(cgpa < 8.0, ImproveAcademics);
    ghost var s1, i1 := strengths, improvements;
    if internship == 1 {
      strengths := strengths + [InternshipDone];
    } else {
      improvements := improvements + [GetInternship];
    }
    assert strengths == s1 + Piece(internship == 1, InternshipDone);
    assert improvements == i1 + Piece(internship != 1, GetInternship);
    ghost var s2, i2 := strengths, improvements;
    if matchPercentage >= 70.0 {
      strengths := strengths + [GoodMatch];
    } else if matchPercentage >= 40.0 {
      improvements := improvements + [ImproveMatch];
    } else {
      improvements := improvements + [MajorGaps];
    }
    assert strengths == s2 + Piece(matchPercentage >= 70.0, GoodMatch);
    assert improvements == i2 + Piece(40.0 <= matchPercentage < 70.0, ImproveMatch)
                              + Piece(matchPercentage < 40.0, MajorGaps);
    ghost var s3, i3 := strengths, improvements;
    if dsaScore >= 7 {
      strengths := strengths + [GoodDsa];
    } else {
      improvements := improvements + [PracticeDsa];
    }
    assert strengths == s3 + Piece(dsaScore >= 7, GoodDsa);
    assert improvements == i3 + Piece(dsaScore < 7, PracticeDsa);
    ghost var s4, i4 := strengths, improvements;
    if hackathons >= 2 {
      strengths := strengths + [ActiveHackathons];
    } else {
      improvements := improvements + [DoCertifications];
    }
    assert strengths == s4 + Piece(hackathons >= 2, ActiveHackathons);
    assert improvements == i4 + Piece(hackathons < 2, DoCertifications);
    ghost var s5, i5 := strengths, improvements;
    if resumeQuality >= 7.0 {
      strengths := strengths + [StrongResume];
    } else {
      improvements := improvements + [ImproveResume];
    }
    assert strengths == s5 + Piece(resumeQuality >= 7.0, StrongResume);
    assert improvements == i5 + Piece(resumeQuality < 7.0, ImproveResume);
  }

  // -----------------------------------------------------------------------
  // Insight panel
  // -----------------------------------------------------------------------

  // Messages of the insight panel; the last strength is shared with the explainability panel.
  const StrongAcademics := "Strong academic performance"
  const RealWorldExposure := "Internship experience adds real-world exposure"
  const GoodCoverage := "Good skill coverage for the role"
  const StrongProblemSolving := "Strong problem-solving ability"
  const LowCgpa := "Low CGPA may affect shortlist chances"
  const NoInternship := "No internship experience"
  const LimitedSkills := "Limited technical skills detected"
  const NotAligned := "Resume not aligned with job role"
  const ImproveCoding := "Improve coding/problem-solving skills"
  const KeepHustling := "Keep Hustling Hard !!"
  const NoWeakAreas := "No major weak areas \U{2014} keep growing \U{1F525}"

  /** A column of the insight panel: its fired messages, or the fallback
      when none fired. */
  function OrFallback(fired: seq<string>, fallback: string): seq<string> {
    if fired == [] then [fallback] else fired
  }

  /** The messages of the strengths column whose rules fire, in rule order. */
  function InsightStrengthsFired(cgpa: real, internship: int, skillCount: nat, dsaScore: int,
                                 hackathons: int): seq<string>
  {
    Piece(cgpa >= 8.0, StrongAcademics)
    + Piece(internship == 1, RealWorldExposure)
    + Piece(skillCount >= 4, GoodCoverage)
    + Piece(dsaScore >= 7, StrongProblemSolving)
    + Piece(hackathons >= 2, ActiveHackathons)
  }

  /** The messages of the weak-areas column whose rules fire, in rule order. */
  function InsightWeakFired(cgpa: real, internship: int, skillCount: nat, matchPercentage: real,
                            dsaScore: int): seq<string>
  {
    Piece(cgpa < 7.0, LowCgpa)
    + Piece(internship == 0, NoInternship)
    + Piece(skillCount <= 2, LimitedSkills)
    + Piece(matchPercentage < 50.0, NotAligned)
    + Piece(dsaScore <= 5, ImproveCoding)
  }

  /** The messages of each insight column differ from each other and from its fallback. */
  lemma InsightMessagesDiffer()
    ensures StrongAcademics != RealWorldExposure && StrongAcademics != GoodCoverage && StrongAcademics != StrongProblemSolving
    ensures StrongAcademics != ActiveHackathons && StrongAcademics != KeepHustling && RealWorldExposure != GoodCoverage
    ensures RealWorldExposure != StrongProblemSolving && RealWorldExposure != ActiveHackathons && RealWorldExposure != KeepHustling
    ensures GoodCoverage != StrongProblemSolving && GoodCoverage != ActiveHackathons && GoodCoverage != KeepHustling
    ensures StrongProblemSolving != ActiveHackathons && StrongProblemSolving != KeepHustling && ActiveHackathons != KeepHustling
    ensures LowCgpa != NoInternship && LowCgpa != LimitedSkills && LowCgpa != NotAligned
    ensures LowCgpa != ImproveCoding && LowCgpa != NoWeakAreas && NoInternship != LimitedSkills
    ensures NoInternship != NotAligned && NoInternship != ImproveCoding && NoInternship != NoWeakAreas
    ensures LimitedSkills != NotAligned && LimitedSkills != ImproveCoding && LimitedSkills != NoWeakAreas
    ensures NotAligned != ImproveCoding && NotAligned != NoWeakAreas && ImproveCoding != NoWeakAreas
  {
  }

  /** Neither column is ever empty; each rule's message is there exactly
      when its condition holds, and the fallback stands alone exactly when no
      rule of its column fires. */
  lemma InsightRules(cgpa: real, internship: int, skillCount: nat, matchPercentage: real,
                     dsaScore: int, hackathons: int)
    ensures var strengths := OrFallback(InsightStrengthsFired(cgpa, internship, skillCount, dsaScore, hackathons), KeepHustling);
            && |strengths| > 0
            && (StrongAcademics in strengths <==> cgpa >= 8.0)
            && (RealWorldExposure in strengths <==> internship == 1)
            && (GoodCoverage in strengths <==> skillCount >= 4)
            && (StrongProblemSolving in strengths <==> dsaScore >= 7)
            && (ActiveHackathons in strengths <==> hackathons >= 2)
            && (strengths == [KeepHustling] <==> !(cgpa >= 8.0 || internship == 1 || skillCount >= 4 || dsaScore >= 7 || hackathons >= 2))
    ensures var weak := OrFallback(InsightWeakFired(cgpa, internship, skillCount, matchPercentage, dsaScore), NoWeakAreas);
            && |weak| > 0
            && (LowCgpa in weak <==> cgpa < 7.0)
            && (NoInternship in weak <==> internship == 0)
            && (LimitedSkills in weak <==> skillCount <= 2)
            && (NotAligned in weak <==> matchPercentage < 50.0)
            && (ImproveCoding in weak <==> dsaScore <= 5)
            && (weak == [NoWeakAreas] <==> !(cgpa < 7.0 || internship == 0 || skillCount <= 2 || matchPercentage < 50.0 || dsaScore <= 5))
  {
    InsightMessagesDiffer();
  }

  /** The insight panel: each column built rule by rule, then given its
      fallback if it is still empty. */
  method InsightPanel(cgpa: real, internship: int, skillCount: nat, matchPercentage: real,
                      dsaScore: int, hackathons: int)
    returns (strengths: seq<string>, weak: seq<string>)
    ensures strengths == OrFallback(InsightStrengthsFired(cgpa, internship, skillCount, dsaScore, hackathons), KeepHustling)
    ensures weak == OrFallback(InsightWeakFired(cgpa, internship, skillCount, matchPercentage, dsaScore), NoWeakAreas)
  {
    strengths := InsightStrengths(cgpa, internship, skillCount, dsaScore, hackathons);
    weak := InsightWeakAreas(cgpa, internship, skillCount, matchPercentage, dsaScore);
  }

  /** The strengths column of the insight panel. */
  method InsightStrengths(cgpa: real, internship: int, skillCount: nat, dsaScore: int, hackathons: int)
    returns (strengths: seq<string>)
    ensures strengths == OrFallback(InsightStrengthsFired(cgpa, internship, skillCount, dsaScore, hackathons), KeepHustling)
  {
    strengths := [];
    if cgpa >= 8.0 {
      strengths := strengths + [StrongAcademics];
    }
    assert strengths == Piece(cgpa >= 8.0, StrongAcademics);
    ghost var strengths1 := strengths;
    if internship == 1 {
      strengths := strengths + [RealWorldExposure];
    }
    assert strengths == strengths1 + Piece(internship == 1, RealWorldExposure);
    ghost var strengths2 := strengths;
    if skillCount >= 4 {
      strengths := strengths + [GoodCoverage];
    }
    assert strengths == strengths2 + Piece(skillCount >= 4, GoodCoverage);
    ghost var strengths3 := strengths;
    if dsaScore >= 7 {
      strengths := strengths + [StrongProblemSolving];
    }
    assert strengths == strengths3 + Piece(dsaScore >= 7, StrongProblemSolving);
    ghost var strengths4 := strengths;
    if hackathons >= 2 {
      strengths := strengths + [ActiveHackathons];
    }
    assert strengths == strengths4 + Piece(hackathons >= 2, ActiveHackathons);
    if strengths == [] {
      strengths := strengths + [KeepHustling];
    }
  }

  /** The weak-areas column of the insight panel. */
  method InsightWeakAreas(cgpa: real, internship: int, skillCount: nat, matchPercentage: real, dsaScore: int)
    returns (weak: seq<string>)
    ensures weak == OrFallback(InsightWeakFired(cgpa, internship, skillCount, matchPercentage, dsaScore), NoWeakAreas)
  {
    weak := [];
    if cgpa < 7.0 {
      weak := weak + [LowCgpa];
    }
    assert weak == Piece(cgpa < 7.0, LowCgpa);
    ghost var weak1 := weak;
    if internship == 0 {
      weak := weak + [NoInternship];
    }
    assert weak == weak1 + Piece(internship == 0, NoInternship);
    ghost var weak2 := weak;
    if skillCount <= 2 {
      weak := weak + [LimitedSkills];
    }
    assert weak == weak2 + Piece(skillCount <= 2, LimitedSkills);
    ghost var weak3 := weak;
    if matchPercentage < 50.0 {
      weak := weak + [NotAligned];
    }
    assert weak == weak3 + Piece(matchPercentage < 50.0, NotAligned);
    ghost var weak4 := weak;
    if dsaScore <= 5 {
      weak := weak + [ImproveCoding];
    }
    assert weak == weak4 + Piece(dsaScore <= 5, ImproveCoding);
    if weak == [] {
      weak := weak + [NoWeakAreas];
    }
  }

  // -----------------------------------------------------------------------
  // Next steps
  // -----------------------------------------------------------------------

  // The lines of the next-steps section.
  const AddMissingSkills := "Add missing skills from job description"
  const TryInternships := "Try 1\U{2013}2 internships or open-source projects"
  const SolveDsa := "Solve 150+ DSA problems on LeetCode"
  const QuantifyAchievements := "Add quantified achievements (numbers, impact)"
  const JoinHackathons := "Participate in hackathons or certifications"
  const FocusAcademics := "Focus on academics next semester"
  const MockInterviews := "Do mock interviews weekly"
  const RealWorldProject := "Build 1 real-world project"

  /** The lines written under "Exact Next Steps", in order. */
  function NextStepsList(matchPercentage: real, internship: int, dsaScore: int, resumeQuality: real,
                         hackathons: int, cgpa: real): seq<string>
  {
    Piece(matchPercentage < 60.0, AddMissingSkills)
    + Piece(internship == 0, TryInternships)
    + Piece(dsaScore < 7, SolveDsa)
    + Piece(resumeQuality < 6.0, QuantifyAchievements)
    + Piece(hackathons < 2, JoinHackathons)
    + Piece(cgpa < 7.5, FocusAcademics)
    + [MockInterviews]
    + [RealWorldProject]
  }

  /** The eight next-step lines are pairwise different. */
  lemma NextStepsDiffer()
    ensures AddMissingSkills != TryInternships && AddMissingSkills != SolveDsa && AddMissingSkills != QuantifyAchievements
    ensures AddMissingSkills != JoinHackathons && AddMissingSkills != FocusAcademics && AddMissingSkills != MockInterviews
    ensures AddMissingSkills != RealWorldProject && TryInternships != SolveDsa && TryInternships != QuantifyAchievements
    ensures TryInternships != JoinHackathons && TryInternships != FocusAcademics && TryInternships != MockInterviews
    ensures TryInternships != RealWorldProject && SolveDsa != QuantifyAchievements && SolveDsa != JoinHackathons
    ensures SolveDsa != FocusAcademics && SolveDsa != MockInterviews && SolveDsa != RealWorldProject
    ensures QuantifyAchievements != JoinHackathons && QuantifyAchievements != FocusAcademics && QuantifyAchievements != MockInterviews
    ensures QuantifyAchievements != RealWorldProject && JoinHackathons != FocusAcademics && JoinHackathons != MockInterviews
    ensures JoinHackathons != RealWorldProject && FocusAcademics != MockInterviews && FocusAcademics != RealWorldProject
    ensures MockInterviews != RealWorldProject
  {
  }

  /** The list ends with the two steps that are always written, after one
      step per condition that holds. */
  lemma NextStepsShape(matchPercentage: real, internship: int, dsaScore: int, resumeQuality: real,
                        hackathons: int, cgpa: real)
    ensures var steps := NextStepsList(matchPercentage, internship, dsaScore, resumeQuality, hackathons, cgpa);
            && |steps| == 2 + (if matchPercentage < 60.0 then 1 else 0)
                            + (if internship == 0 then 1 else 0)
                            + (if dsaScore < 7 then 1 else 0)
                            + (if resumeQuality < 6.0 then 1 else 0)
                            + (if hackathons < 2 then 1 else 0)
                            + (if cgpa < 7.5 then 1 else 0)
            && steps[|steps| - 2..] == [MockInterviews, RealWorldProject]
  {
  }

  /** Each conditional step is written exactly when its condition holds. */
  lemma NextStepsRules(matchPercentage: real, internship: int, dsaScore: int, resumeQuality: real,
                        hackathons: int, cgpa: real)
    ensures var steps := NextStepsList(matchPercentage, internship, dsaScore, resumeQuality, hackathons, cgpa);
            (AddMissingSkills in steps <==> matchPercentage < 60.0)
            && (TryInternships in steps <==> internship == 0)
            && (SolveDsa in steps <==> dsaScore < 7)
            && (QuantifyAchievements in steps <==> resumeQuality < 6.0)
            && (JoinHackathons in steps <==> hackathons < 2)
            && (FocusAcademics in steps <==> cgpa < 7.5)
  {
    NextStepsDiffer();
  }

  /** The next steps, written one after the other. */
  method NextSteps(matchPercentage: real, internship: int, dsaScore: int, resumeQuality: real,
                   hackathons: int, cgpa: real)
    returns (steps: seq<string>)
    ensures steps == NextStepsList(matchPercentage, internship, dsaScore, resumeQuality, hackathons, cgpa)
  {
    steps := [];
    if matchPercentage < 60.0 {
      steps := steps + [AddMissingSkills];
    }
    assert steps == Piece(matchPercentage < 60.0, AddMissingSkills);
    ghost var steps1 := steps;
    if internship == 0 {
      steps := steps + [TryInternships];
    }
    assert steps == steps1 + Piece(internship == 0, TryInternships);
    ghost var steps2 := steps;
    if dsaScore < 7 {
      steps := steps + [SolveDsa];
    }
    assert steps == steps2 + Piece(dsaScore < 7, SolveDsa);
    ghost var steps3 := steps;
    if resumeQuality < 6.0 {
      steps := steps + [QuantifyAchievements];
    }
    assert steps == steps3 + Piece(resumeQuality < 6.0, QuantifyAchievements);
    ghost var steps4 := steps;
    if hackathons < 2 {
      steps := steps + [JoinHackathons];
    }
    assert steps == steps4 + Piece(hackathons < 2, JoinHackathons);
    ghost var steps5 := steps;
    if cgpa < 7.5 {
      steps := steps + [FocusAcademics];
    }
    assert steps == steps5 + Piece(cgpa < 7.5, FocusAcademics);
    steps := steps + [MockInterviews];
    steps := steps + [RealWorldProject];
  }

  // -----------------------------------------------------------------------
  // Learning roadmap and recruiter recommendation
  // -----------------------------------------------------------------------

  /** `ROADMAP_LIBRARY`: one piece of advice per skill; "data structures" is
      not a taxonomy skill, so it is never missing. */
  const RoadmapLibrary: map<string, string> := map[
    "python" := "Complete Python OOP and build 2 mini projects.",
    "sql" := "Practice SQL joins and queries.",
    "machine learning" := "Build one ML project.",
    "data analysis" := "Learn Pandas + visualization.",
    "git" := "Learn Git branching and maintain repo.",
    "communication" := "Practice mock interviews.",
    "data structures" := "Solve 100+ DSA problems."
  ]

  const NoSkillGaps := "No major skill gaps. Focus on advanced projects."

  /** The roadmap lines: the advice for each missing skill the library knows,
      or a single closing line when nothing is missing. The source walks the
      missing skills in set order, which the model does not fix. */
  function Roadmap(missingSkills: set<string>): (lines: set<string>)
    ensures forall line | line in lines :: line == NoSkillGaps || line in RoadmapLibrary.Values
    ensures NoSkillGaps in lines <==> missingSkills == {}
  {
    if missingSkills == {} then {NoSkillGaps}
    else set skill | skill in missingSkills && skill in RoadmapLibrary :: RoadmapLibrary[skill]
  }

  /** Every taxonomy skill has advice, so each missing skill found by the
      pipeline gets its own line, and no line is the closing one. */
  lemma RoadmapCoversSkills(missingSkills: set<string>)
    requires forall skill | skill in missingSkills :: Rank(skill) < |Skills|
    ensures forall skill | skill in missingSkills :: skill in RoadmapLibrary && RoadmapLibrary[skill] in Roadmap(missingSkills)
    ensures missingSkills != {} ==> NoSkillGaps !in Roadmap(missingSkills)
    ensures Roadmap(missingSkills) == {NoSkillGaps} <==> missingSkills == {}
  {
    forall skill | skill in missingSkills ensures skill in RoadmapLibrary {
      assert Rank(skill) < 6;
    }
    if missingSkills != {} {
      var skill :| skill in missingSkills;
      assert RoadmapLibrary[skill] in Roadmap(missingSkills);
      RoadmapAdviceIsNotClosing(skill);
    }
  }

  lemma RoadmapAdviceIsNotClosing(skill: string)
    requires skill in RoadmapLibrary
    ensures RoadmapLibrary[skill] != NoSkillGaps
  {
  }

  const TopCompanies := "Ready to apply to top product companies."
  const MidTierCompanies := "Ready for mid-tier companies. Improve 1-2 skills for top companies."
  const FocusFirst := "Focus on internships, DSA, and skill matching before applying."

  /** The recruiter recommendation for a placement probability. */
  function RecruiterRecommendation(probability: real): (line: string)
    ensures line in {TopCompanies, MidTierCompanies, FocusFirst}
  {
    if probability >= 85.0 then TopCompanies
    else if probability >= 65.0 then MidTierCompanies
    else FocusFirst
  }

  /** The recommendation names top product companies from 85 on, mid-tier
      companies from 65 to below 85, and otherwise asks to focus first; it
      never goes down a band as the probability rises. */
  lemma RecruiterBands(probability: real, higher: real)
    ensures RecruiterRecommendation(probability) == TopCompanies <==> probability >= 85.0
    ensures RecruiterRecommendation(probability) == MidTierCompanies <==> 65.0 <= probability < 85.0
    ensures RecruiterRecommendation(probability) == FocusFirst <==> probability < 65.0
    ensures probability <= higher && RecruiterRecommendation(probability) != FocusFirst
            ==> RecruiterRecommendation(higher) != FocusFirst
  {
    assert TopCompanies != MidTierCompanies && TopCompanies != FocusFirst && MidTierCompanies != FocusFirst;
  }

  // -----------------------------------------------------------------------
  // Company readiness
  // -----------------------------------------------------------------------

  /** `company_targets`: each company with the divisor its score uses. */
  const CompanyTargets: seq<(string, real)> := [
    ("Amazon SDE", 1.2),
    ("Google SWE", 1.25),
    ("Infosys Graduate Engineer", 0.9),
    ("Startup Intern", 0.8)
  ]

  datatype Readiness = Ready | AlmostReady | NeedsImprovement

  /** The band a company score falls in. */
  function ReadinessOf(score: real): (band: Readiness)
    ensures band == Ready <==> score >= 85.0
    ensures band == NeedsImprovement <==> score < 65.0
  {
    if score >= 85.0 then Ready else if score >= 65.0 then AlmostReady else NeedsImprovement
  }

  /** Dividing a non-negative value by a larger divisor never gives more. */
  lemma LargerDivisorSmallerShare(p: real, d1: real, d2: real)
    requires p >= 0.0 && 0.0 < d1 <= d2
    ensures p / d2 <= p / d1
  {
    var q1 := p / d1;
    var q2 := p / d2;
    assert q1 * d1 == p && q2 * d2 == p;
    assert q2 * d1 <= q2 * d2;
  }

  /** One score per company, in table order: the probability divided by the
      company's divisor, clamped to [5, 95] and rounded to one decimal, with
      the band of that rounded score. The score does
      not depend on the selected role, and for a non-negative probability
      the companies are ordered Startup Intern, Infosys, Amazon, Google from
      the highest score down. */
  method CompanyReadiness(probability: real) returns (scores: seq<(string, real, Readiness)>)
    ensures |scores| == |CompanyTargets|
    ensures forall i | 0 <= i < |scores| ::
              && scores[i].0 == CompanyTargets[i].0
              && scores[i].1 == Round1(Clamp(probability / CompanyTargets[i].1, 5.0, 95.0))
              && 5.0 <= scores[i].1 <= 95.0
              && scores[i].2 == ReadinessOf(scores[i].1)
    ensures probability >= 0.0 ==> scores[3].1 >= scores[2].1 >= scores[0].1 >= scores[1].1
  {
    scores := [];
    for i := 0 to |CompanyTargets|
      invariant |scores| == i
      invariant forall j | 0 <= j < i ::
                  && scores[j].0 == CompanyTargets[j].0
                  && scores[j].1 == Round1(Clamp(probability / CompanyTargets[j].1, 5.0, 95.0))
                  && 5.0 <= scores[j].1 <= 95.0
                  && scores[j].2 == ReadinessOf(scores[j].1)
    {
      var (company, difficulty) := CompanyTargets[i];
      var companyScore := probability / difficulty;
      companyScore := Clamp(companyScore, 5.0, 95.0);
      RoundWithin(companyScore, 5, 95);
      companyScore := Round1(companyScore);
      scores := scores + [(company, companyScore, ReadinessOf(companyScore))];
    }
    if probability >= 0.0 {
      LargerDivisorSmallerShare(probability, 0.8, 0.9);
      LargerDivisorSmallerShare(probability, 0.9, 1.2);
      LargerDivisorSmallerShare(probability, 1.2, 1.25);
      ClampMonotone(probability / 0.9, probability / 0.8, 5.0, 95.0);
      ClampMonotone(probability / 1.2, probability / 0.9, 5.0, 95.0);
      ClampMonotone(probability / 1.25, probability / 1.2, 5.0, 95.0);
      Round1Facts(Clamp(probability / 0.9, 5.0, 95.0), Clamp(probability / 0.8, 5.0, 95.0), 0);
      Round1Facts(Clamp(probability / 1.2, 5.0, 95.0), Clamp(probability / 0.9, 5.0, 95.0), 0);
      Round1Facts(Clamp(probability / 1.25, 5.0, 95.0), Clamp(probability / 1.2, 5.0, 95.0), 0);
    }
  }
}
