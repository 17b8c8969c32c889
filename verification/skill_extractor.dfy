/** nlp/skill_extractor.py: the fixed six-skill taxonomy, skill extraction by
    plain substring matching (no word boundaries), and keyword extraction for
    the ATS overlap. */
module SkillExtractor {
  import opened Text

  /** A canonical skill name and the surface keywords that signal it. */
  datatype Skill = Skill(name: string, keywords: seq<string>)

  /** The taxonomy, in the order of the source dictionary. */
  const Skills: seq<Skill> := [
    Skill("python", ["python"]),
    Skill("sql", ["sql"]),
    Skill("machine learning", ["machine learning", "ml"]),
    Skill("data analysis", ["data analysis", "analysis"]),
    Skill("git", ["git", "github"]),
    Skill("communication", ["communication", "presentation", "teamwork"])
  ]

  /** `any(k in clean for k in keywords)` */
  predicate Mentions(clean: string, skill: Skill) {
    exists k | k in skill.keywords :: Contains(clean, k)
  }

  /** The names of the skills of `skills` that `clean` mentions, in the
      order of `skills`: what the loop of `extract_skills` has appended after
      visiting `skills`. */
  function Detected(clean: string, skills: seq<Skill>): seq<string> {
    if skills == [] then []
    else
      var last := skills[|skills| - 1];
      Detected(clean, skills[..|skills| - 1]) + (if Mentions(clean, last) then [last.name] else [])
  }

  /** `extract_skills`: one pass over the taxonomy, appending each skill to
      the resume list and to the job list when the lower-cased text mentions it. */
  method ExtractSkills(resumeText: string, jobDescription: string)
    returns (resumeSkills: seq<string>, jobSkills: seq<string>)
    ensures resumeSkills == Detected(Lower(resumeText), Skills)
    ensures jobSkills == Detected(Lower(jobDescription), Skills)
  {
    var resumeClean := Lower(resumeText);
    var jobClean := Lower(jobDescription);
    resumeSkills := [];
    jobSkills := [];
    for i := 0 to |Skills|
      invariant resumeSkills == Detected(resumeClean, Skills[..i])
      invariant jobSkills == Detected(jobClean, Skills[..i])
    {
      var skill := Skills[i];
      assert Skills[..i + 1][..i] == Skills[..i];
      if Mentions(resumeClean, skill) {
        resumeSkills := resumeSkills + [skill.name];
      }
      if Mentions(jobClean, skill) {
        jobSkills := jobSkills + [skill.name];
      }
    }
    assert Skills[..|Skills|] == Skills;
  }

  /** Position of a name in the taxonomy; |Skills| when it is not a taxonomy name. */
  function Rank(name: string): nat {
    if name == "python" then 0
    else if name == "sql" then 1
    else if name == "machine learning" then 2
    else if name == "data analysis" then 3
    else if name == "git" then 4
    else if name == "communication" then 5
    else 6
  }

  lemma RankOfSkills()
    ensures |Skills| == 6
    ensures forall j | 0 <= j < |Skills| :: Rank(Skills[j].name) == j
  {
  }

  /** A name is detected exactly when it is the name of a taxonomy skill one of
      whose keywords occurs in the text. */
  lemma {:induction false} DetectedIff(clean: string, n: nat, name: string)
    requires n <= |Skills|
    ensures name in Detected(clean, Skills[..n])
            <==> exists j | 0 <= j < n :: Skills[j].name == name && Mentions(clean, Skills[j])
  {
    if n > 0 {
      assert Skills[..n][..n - 1] == Skills[..n - 1];
      DetectedIff(clean, n - 1, name);
    }
  }

  /** The detected names appear in taxonomy order, strictly, so they are
      taxonomy names without repetition and at most six of them. */
  lemma {:induction false} DetectedInTaxonomyOrder(clean: string, n: nat)
    requires n <= |Skills|
    ensures var r := Detected(clean, Skills[..n]);
            && |r| <= n
            && (forall a | 0 <= a < |r| :: Rank(r[a]) < n)
            && (forall a, b | 0 <= a < b < |r| :: Rank(r[a]) < Rank(r[b]))
  {
    RankOfSkills();
    if n > 0 {
      assert Skills[..n][..n - 1] == Skills[..n - 1];
      DetectedInTaxonomyOrder(clean, n - 1);
    }
  }

  /** The two lists of `extract_skills`: each is a duplicate-free list of
      taxonomy names in taxonomy order, and a skill is listed exactly when the
      lower-cased text mentions one of its keywords. */
  lemma ExtractedSkillsFacts(clean: string)
    ensures var r := Detected(clean, Skills);
            && |r| <= 6
            && (forall a, b | 0 <= a < b < |r| :: r[a] != r[b] && Rank(r[a]) < Rank(r[b]))
            && (forall a | 0 <= a < |r| :: Rank(r[a]) < 6 && Skills[Rank(r[a])].name == r[a])
            && (forall j | 0 <= j < 6 :: Skills[j].name in r <==> Mentions(clean, Skills[j]))
  {
    assert Skills[..6] == Skills;
    RankOfSkills();
    DetectedInTaxonomyOrder(clean, 6);
    forall j | 0 <= j < 6 ensures Skills[j].name in Detected(clean, Skills) <==> Mentions(clean, Skills[j]) {
      DetectedIff(clean, 6, Skills[j].name);
    }
  }

  /** Two texts that differ at most in the letter case of their characters. */
  predicate SameUpToCase(a: string, b: string) {
    |a| == |b| && forall i | 0 <= i < |a| :: LowerChar(a[i]) == LowerChar(b[i])
  }

  /** Extraction ignores letter case: changing the case of either text
      changes neither skill list. */
  lemma SkillsIgnoreCase(resume1: string, job1: string, resume2: string, job2: string)
    requires SameUpToCase(resume1, resume2) && SameUpToCase(job1, job2)
    ensures Detected(Lower(resume1), Skills) == Detected(Lower(resume2), Skills)
    ensures Detected(Lower(job1), Skills) == Detected(Lower(job2), Skills)
  {
    assert Lower(resume1) == Lower(resume2);
    assert Lower(job1) == Lower(job2);
  }

  /** Matching has no word boundary: "HTML" signals machine learning through "ml". */
  lemma HtmlSignalsMachineLearning()
    ensures "machine learning" in Detected(Lower("HTML"), Skills)
  {
    assert forall i | 0 <= i < 4 :: Lower("HTML")[i] == "html"[i];
    ContainsMiddle("ht", "ml", "");
    assert "ht" + "ml" + "" == "html";
    assert Lower("HTML") == "html";
    assert "ml" in Skills[2].keywords && Contains(Lower("HTML"), "ml");
    assert Mentions(Lower("HTML"), Skills[2]);
    ExtractedSkillsFacts(Lower("HTML"));
  }

  /** ... and "mysql" signals sql. */
  lemma MysqlSignalsSql()
    ensures "sql" in Detected(Lower("mysql"), Skills)
  {
    assert forall i | 0 <= i < 5 :: Lower("mysql")[i] == "mysql"[i];
    ContainsMiddle("my", "sql", "");
    assert "my" + "sql" + "" == "mysql";
    assert Lower("mysql") == "mysql";
    assert "sql" in Skills[1].keywords && Contains(Lower("mysql"), "sql");
    assert Mentions(Lower("mysql"), Skills[1]);
    ExtractedSkillsFacts(Lower("mysql"));
  }

  // -----------------------------------------------------------------------
  // Keywords
  // -----------------------------------------------------------------------

  const Stopwords: set<string> := {
    "the", "and", "with", "for", "a", "an", "to", "of", "in",
    "role", "candidate", "should", "experience", "looking",
    "we", "are", "required", "skills", "job", "work"
  }

  /** `.replace(",", " ")` */
  function ReplaceCommas(s: string): string {
    seq(|s|, i requires 0 <= i < |s| => if s[i] == ',' then ' ' else s[i])
  }

  /** `extract_keywords`: the distinct tokens of the lower-cased text, commas
      read as blanks, that are not stopwords and are longer than two
      characters. The source returns `list(set(...))`, whose order Python
      leaves unspecified; the model returns the set. */
  function ExtractKeywords(text: string): (keywords: set<string>)
    ensures keywords !! Stopwords
  {
    var words := Split(ReplaceCommas(Lower(text)));
    set w | w in words && w !in Stopwords && |w| > 2
  }

  /** Every token of a text with its commas read as blanks is a piece of the
      text itself: a token holds no blank, so it covers no comma. */
  lemma TokensInText(t: string)
    ensures forall w | w in Split(ReplaceCommas(t)) :: Contains(t, w)
  {
    var prepared := ReplaceCommas(t);
    SplitTokens(prepared);
    forall w | w in Split(prepared) ensures Contains(t, w) {
      var i :| 0 <= i <= |prepared| - |w| && OccursAt(prepared, w, i);
      forall j | 0 <= j < |w| ensures t[i + j] == w[j] {
        assert prepared[i + j] == w[j];
        assert !IsSpace(w[j]);
      }
      assert t[i..i + |w|] == w;
      assert OccursAt(t, w, i);
    }
  }

  /** Keyword extraction ignores letter case too. */
  lemma KeywordsIgnoreCase(text1: string, text2: string)
    requires SameUpToCase(text1, text2)
    ensures ExtractKeywords(text1) == ExtractKeywords(text2)
  {
    assert Lower(text1) == Lower(text2);
  }

  /** Every keyword is a token of the prepared text that passed the filter,
      and every such token is a keyword; each keyword is longer than two
      characters, no stopword, a piece of the lower-cased text, and has no
      upper-case letter, comma or whitespace. */
  lemma KeywordsExactly(text: string)
    ensures var words := Split(ReplaceCommas(Lower(text)));
            forall w :: w in ExtractKeywords(text) <==> w in words && w !in Stopwords && |w| > 2
    ensures forall w | w in ExtractKeywords(text) ::
              |w| > 2 && w !in Stopwords && Contains(Lower(text), w)
              && forall i | 0 <= i < |w| :: !IsUpper(w[i]) && w[i] != ',' && !IsSpace(w[i])
  {
    TokensInText(Lower(text));
    var prepared := ReplaceCommas(Lower(text));
    SplitTokens(prepared);
    forall w, i | w in ExtractKeywords(text) && 0 <= i < |w|
      ensures !IsUpper(w[i]) && w[i] != ','
    {
      var j :| 0 <= j < |prepared| && prepared[j] == w[i];
    }
  }
}
