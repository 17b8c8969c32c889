/** config/roles.py: the two constant tables keyed by role name. The
    difficulty multipliers feed the placement estimator; the canned job
    descriptions stand in for a pasted job description whenever the role is
    not "Custom". */
module Roles {
  import opened Text

  /** A dict display: its entries in order, a later entry for a key
      replacing an earlier one. */
  function DictOf<V>(entries: seq<(string, V)>): map<string, V> {
    if entries == [] then map[]
    else
      var last := entries[|entries| - 1];
      DictOf(entries[..|entries| - 1])[last.0 := last.1]
  }

  /** The keys written in a dict display. */
  function KeySet<V>(entries: seq<(string, V)>): set<string> {
    set i | 0 <= i < |entries| :: entries[i].0
  }

  /** No key is written twice. */
  predicate DistinctKeys<V>(entries: seq<(string, V)>) {
    forall i, j | 0 <= i < j < |entries| :: entries[i].0 != entries[j].0
  }

  /** With no key repeated, the dict has one key per entry and each key maps
      to the value written beside it. */
  lemma {:induction false} DictOfDistinct<V>(entries: seq<(string, V)>)
    requires DistinctKeys(entries)
    ensures |DictOf(entries)| == |entries|
    ensures DictOf(entries).Keys == KeySet(entries)
    ensures forall i | 0 <= i < |entries| :: DictOf(entries)[entries[i].0] == entries[i].1
  {
    if entries != [] {
      var n := |entries| - 1;
      var front := entries[..n];
      assert DistinctKeys(front);
      DictOfDistinct(front);
      assert entries[n].0 !in DictOf(front);
      assert forall i | 0 <= i < n :: front[i] == entries[i];
    }
  }

  /** The display of `role_difficulty`, in source order. */
  const RoleDifficultyEntries: seq<(string, real)> := [
    ("Python Developer", 0.95),
    ("Backend Developer", 1.0),
    ("Frontend Developer", 0.95),
    ("Full Stack Developer", 1.05),
    ("Software Engineer", 1.05),
    ("Data Analyst", 1.0),
    ("ML Engineer", 1.15),
    ("Data Scientist", 1.2),
    ("Cybersecurity Analyst", 1.1),
    ("DevOps Engineer", 1.15),
    ("Cloud Engineer", 1.1),
    ("Database Engineer", 1.05),
    ("QA Engineer", 0.9),
    ("Business Analyst", 0.95),
    ("Mobile App Developer", 1.0),
    ("Product Engineer", 1.05),
    ("Mechanical Engineer", 1.0),
    ("Robotics Engineer", 1.2),
    ("AI Research Intern", 1.25),
    ("Amazon SDE", 1.35),
    ("Google SWE", 1.4),
    ("Infosys Graduate Engineer", 0.9),
    ("Startup Intern", 0.85),
    ("Custom", 1.0)
  ]

  /** `role_difficulty` as a dictionary. */
  const RoleDifficulty: map<string, real> := DictOf(RoleDifficultyEntries)

  /** The text of a triple-quoted description as laid out in the source: a
      line break after the opening quotes, each line indented by eight blanks
      and ended by a line break, and eight blanks before the closing quotes. */
  function Block(lines: seq<string>): string {
    "\n" + Indented(lines) + "        "
  }

  /** The lines, each indented by eight blanks and ended by a line break. */
  function Indented(lines: seq<string>): string {
    if lines == [] then [] else "        " + lines[0] + "\n" + Indented(lines[1..])
  }

  // The lines of each description. On the line that names "communication"
  // (and "HTML" for the frontend role) the word is written as a piece of its
  // own; the string is the same.

  const PythonDeveloperLines: seq<string> := [
    "We are hiring a Python Developer to build backend services and APIs.",
    "Required skills include Python, SQL, Git, data structures and " + "communication" + ".",
    "Experience with Flask/Django and debugging production issues preferred."
  ]

  const DataAnalystLines: seq<string> := [
    "Looking for Data Analyst with Python, SQL, data analysis,",
    "data visualization and " + "communication" + " skills.",
    "Candidate must prepare dashboards, analyze trends,",
    "and present business insights."
  ]

  const MLEngineerLines: seq<string> := [
    "Hiring ML Engineer experienced in Python, SQL,",
    "machine learning, data analysis, Git and " + "communication" + ".",
    "Candidate should build regression/classification models,",
    "evaluate performance and deploy models."
  ]

  const BackendDeveloperLines: seq<string> := [
    "Backend Developer needed with Python or Java,",
    "SQL databases, Git, APIs, data structures and " + "communication" + ".",
    "Experience building scalable services and debugging systems required."
  ]

  const FrontendDeveloperLines: seq<string> := [
    "Frontend Developer with " + "HTML" + ", CSS, JavaScript,",
    "Git and " + "communication" + " skills.",
    "Experience building responsive UI and integrating APIs preferred."
  ]

  const FullStackDeveloperLines: seq<string> := [
    "Full Stack Developer with Python/Java, HTML, CSS, SQL,",
    "Git and " + "communication" + " skills.",
    "Candidate must build end-to-end web applications and APIs."
  ]

  const SoftwareEngineerLines: seq<string> := [
    "Software Engineer role requiring data structures,",
    "Python or Java, Git, SQL and " + "communication" + ".",
    "Candidate must design algorithms and write optimized code."
  ]

  const MechanicalEngineerLines: seq<string> := [
    "Mechanical Engineer with CAD, problem solving,",
    "project documentation and " + "communication" + " skills.",
    "Experience in design analysis and teamwork required."
  ]

  const CybersecurityAnalystLines: seq<string> := [
    "Cybersecurity Analyst with networking basics,",
    "Python scripting, Git and " + "communication" + ".",
    "Candidate must analyze vulnerabilities and monitor systems."
  ]

  const DevOpsEngineerLines: seq<string> := [
    "DevOps Engineer with Python scripting, Git,",
    "SQL and " + "communication" + " skills.",
    "Candidate should understand CI/CD pipelines,",
    "automation, cloud deployment and debugging systems."
  ]

  const CloudEngineerLines: seq<string> := [
    "Cloud Engineer required with Python, Git,",
    "SQL and " + "communication" + " skills.",
    "Candidate must manage cloud deployments,",
    "monitor systems and automate workflows."
  ]

  const BusinessAnalystLines: seq<string> := [
    "Business Analyst with " + "communication" + ",",
    "data analysis, SQL and reporting skills.",
    "Candidate should prepare dashboards,",
    "interpret data and present insights."
  ]

  const QAEngineerLines: seq<string> := [
    "QA Engineer with Python scripting, Git,",
    "debugging and " + "communication" + ".",
    "Candidate must design test cases,",
    "perform automation testing and analyze defects."
  ]

  const AIResearchInternLines: seq<string> := [
    "AI Research Intern with Python,",
    "machine learning, data analysis and " + "communication" + ".",
    "Candidate should implement algorithms,",
    "run experiments and document findings."
  ]

  const MobileAppDeveloperLines: seq<string> := [
    "Mobile Developer with Java/Python backend,",
    "Git, APIs and " + "communication" + " skills.",
    "Candidate must build mobile apps and debug issues."
  ]

  const DatabaseEngineerLines: seq<string> := [
    "Database Engineer with strong SQL,",
    "data analysis, Python scripting,",
    "Git and " + "communication" + " skills.",
    "Candidate should design schemas and optimize queries."
  ]

  const ProductEngineerLines: seq<string> := [
    "Product Engineer with Python or Java,",
    "Git, SQL and " + "communication" + " skills.",
    "Candidate must build scalable features",
    "and collaborate across teams."
  ]

  const RoboticsEngineerLines: seq<string> := [
    "Robotics Engineer with Python,",
    "data analysis, problem solving and " + "communication" + ".",
    "Experience with sensor data and testing preferred."
  ]

  const DataScientistLines: seq<string> := [
    "Data Scientist with Python, SQL,",
    "machine learning, data analysis,",
    "Git and " + "communication" + ".",
    "Candidate must clean datasets,",
    "build predictive models and present insights."
  ]

  const AmazonSDELines: seq<string> := [
    "Amazon Software Development Engineer role requiring",
    "data structures, algorithms,",
    "Python or Java,",
    "SQL, Git and " + "communication" + " skills.",
    "Candidate must build scalable systems,",
    "write optimized code and participate in design reviews."
  ]

  const GoogleSWELines: seq<string> := [
    "Google Software Engineer role requiring strong",
    "problem solving, data structures,",
    "Python or Java,",
    "system design,",
    "Git and " + "communication" + ".",
    "Candidate must design efficient algorithms",
    "and collaborate in large codebases."
  ]

  const InfosysGraduateEngineerLines: seq<string> := [
    "Graduate Engineer Trainee with Python or Java,",
    "SQL, Git and " + "communication" + " skills.",
    "Candidate must learn enterprise systems,",
    "debug issues and work in Agile teams."
  ]

  const StartupInternLines: seq<string> := [
    "Startup Intern with Python,",
    "data analysis,",
    "Git and " + "communication" + " skills.",
    "Candidate should build quick prototypes,",
    "debug features and collaborate in small teams."
  ]

  /** `role_descriptions`, in source order: each role with the lines of its
      description. */
  const RoleDescriptionEntries: seq<(string, seq<string>)> := [
    ("Python Developer", PythonDeveloperLines),
    ("Data Analyst", DataAnalystLines),
    ("ML Engineer", MLEngineerLines),
    ("Backend Developer", BackendDeveloperLines),
    ("Frontend Developer", FrontendDeveloperLines),
    ("Full Stack Developer", FullStackDeveloperLines),
    ("Software Engineer", SoftwareEngineerLines),
    ("Mechanical Engineer", MechanicalEngineerLines),
    ("Cybersecurity Analyst", CybersecurityAnalystLines),
    ("DevOps Engineer", DevOpsEngineerLines),
    ("Cloud Engineer", CloudEngineerLines),
    ("Business Analyst", BusinessAnalystLines),
    ("QA Engineer", QAEngineerLines),
    ("AI Research Intern", AIResearchInternLines),
    ("Mobile App Developer", MobileAppDeveloperLines),
    ("Database Engineer", DatabaseEngineerLines),
    ("Product Engineer", ProductEngineerLines),
    ("Robotics Engineer", RoboticsEngineerLines),
    ("Data Scientist", DataScientistLines),
    ("Amazon SDE", AmazonSDELines),
    ("Google SWE", GoogleSWELines),
    ("Infosys Graduate Engineer", InfosysGraduateEngineerLines),
    ("Startup Intern", StartupInternLines)
  ]

  /** The lines of each described role. */
  const DescribedLines: map<string, seq<string>> := DictOf(RoleDescriptionEntries)

  /** `role_descriptions`: each role's text is the block of its lines. */
  const RoleDescriptions: map<string, string> := map r | r in DescribedLines :: Block(DescribedLines[r])

  /** Facts read off the display of `role_difficulty`. */
  lemma DifficultyKeysDistinct()
    ensures |RoleDifficultyEntries| == 24 && DistinctKeys(RoleDifficultyEntries)
    ensures RoleDifficultyEntries[23] == ("Custom", 1.0)
    ensures forall i | 0 <= i < 24 :: 0.85 <= RoleDifficultyEntries[i].1 <= 1.4
  {
  }

  /** `role_difficulty` has 24 roles, "Custom" among them with the neutral
      multiplier, and every multiplier lies in [0.85, 1.4], so all are positive. */
  lemma DifficultyTable()
    ensures |RoleDifficulty| == 24
    ensures "Custom" in RoleDifficulty && RoleDifficulty["Custom"] == 1.0
    ensures forall r | r in RoleDifficulty :: 0.85 <= RoleDifficulty[r] <= 1.4
  {
    DifficultyKeysDistinct();
    DictOfDistinct(RoleDifficultyEntries);
  }

  /** The display of `role_descriptions` writes 23 different roles. */
  lemma DescriptionKeysDistinct()
    ensures |RoleDescriptionEntries| == 23 && DistinctKeys(RoleDescriptionEntries)
  {
  }

  /** The position in `RoleDifficultyEntries` of each described role, and the
      position in `RoleDescriptionEntries` of each role with a difficulty but
      "Custom". */
  const DescribedAt: seq<nat> := [0, 5, 6, 1, 2, 3, 4, 16, 8, 9, 10, 13, 12, 18, 14, 11, 15, 17, 7, 19, 20, 21, 22]
  const DifficultyAt: seq<nat> := [0, 3, 4, 5, 6, 1, 2, 18, 8, 9, 10, 15, 12, 11, 14, 16, 7, 17, 13, 19, 20, 21, 22]

  /** Where each described role sits in the difficulty table. */
  lemma DescribedRolesHaveDifficulty()
    ensures forall i | 0 <= i < 23 :: 0 <= DescribedAt[i] < 23
              && RoleDescriptionEntries[i].0 == RoleDifficultyEntries[DescribedAt[i]].0
  {
  }

  /** Where each role of the difficulty table but "Custom" is described. */
  lemma RolesWithDifficultyAreDescribed()
    ensures forall j | 0 <= j < 23 :: 0 <= DifficultyAt[j] < 23
              && RoleDifficultyEntries[j].0 == RoleDescriptionEntries[DifficultyAt[j]].0
  {
  }

  lemma DescriptionKeysMatch()
    ensures KeySet(RoleDescriptionEntries)
            == KeySet(RoleDifficultyEntries) - {"Custom"}
  {
    DescribedSubset();
    DifficultySubset();
  }

  lemma DescribedSubset()
    ensures KeySet(RoleDescriptionEntries) <= KeySet(RoleDifficultyEntries) - {"Custom"}
  {
    DescriptionKeysDistinct();
    DifficultyKeysDistinct();
    DescribedRolesHaveDifficulty();
    forall i | 0 <= i < 23
      ensures RoleDescriptionEntries[i].0 != "Custom"
      ensures RoleDescriptionEntries[i].0 in KeySet(RoleDifficultyEntries)
    {
      assert RoleDifficultyEntries[DescribedAt[i]].0 == RoleDescriptionEntries[i].0;
    }
  }

  lemma DifficultySubset()
    ensures KeySet(RoleDifficultyEntries) - {"Custom"} <= KeySet(RoleDescriptionEntries)
  {
    DescriptionKeysDistinct();
    DifficultyKeysDistinct();
    RolesWithDifficultyAreDescribed();
    forall j | 0 <= j < 23
      ensures RoleDifficultyEntries[j].0 in KeySet(RoleDescriptionEntries)
    {
      assert RoleDescriptionEntries[DifficultyAt[j]].0 == RoleDifficultyEntries[j].0;
    }
  }

  /** Exactly the roles with a difficulty other than "Custom" have a canned
      description. */
  lemma DescribedRoles()
    ensures RoleDescriptions.Keys == RoleDifficulty.Keys - {"Custom"}
  {
    DifficultyKeysDistinct();
    DictOfDistinct(RoleDifficultyEntries);
    DescriptionKeysDistinct();
    DictOfDistinct(RoleDescriptionEntries);
    DescriptionKeysMatch();
  }

  /** A word on one line of a block is in the block's text. */
  lemma BlockMentions(lines: seq<string>, k: nat, pre: string, word: string, post: string)
    requires k < |lines| && lines[k] == pre + word + post
    ensures Contains(Block(lines), word)
  {
    ContainsMiddle(pre, word, post);
    IndentedMentions(lines, k, word);
    ContainsInPart("\n", Indented(lines), "        ", word);
  }

  /** A word on one of the lines is in the indented body. */
  lemma {:induction false} IndentedMentions(lines: seq<string>, k: nat, word: string)
    requires k < |lines| && Contains(lines[k], word)
    ensures Contains(Indented(lines), word)
  {
    var rest := Indented(lines[1..]);
    assert Indented(lines) == "        " + lines[0] + ("\n" + rest);
    if k == 0 {
      ContainsInPart("        ", lines[0], "\n" + rest, word);
    } else {
      IndentedMentions(lines[1..], k - 1, word);
      assert Indented(lines) == "        " + lines[0] + "\n" + rest + "";
      ContainsInPart("        " + lines[0] + "\n", rest, "", word);
    }
  }

  // For each canned description, the line that names communication.

  lemma PythonDeveloperMentionsCommunication()
    ensures Contains(Block(PythonDeveloperLines), "communication")
  {
    BlockMentions(PythonDeveloperLines, 1, "Required skills include Python, SQL, Git, data structures and ", "communication", ".");
  }

  lemma DataAnalystMentionsCommunication()
    ensures Contains(Block(DataAnalystLines), "communication")
  {
    BlockMentions(DataAnalystLines, 1, "data visualization and ", "communication", " skills.");
  }

  lemma MLEngineerMentionsCommunication()
    ensures Contains(Block(MLEngineerLines), "communication")
  {
    BlockMentions(MLEngineerLines, 1, "machine learning, data analysis, Git and ", "communication", ".");
  }

  lemma BackendDeveloperMentionsCommunication()
    ensures Contains(Block(BackendDeveloperLines), "communication")
  {
    BlockMentions(BackendDeveloperLines, 1, "SQL databases, Git, APIs, data structures and ", "communication", ".");
  }

  lemma FrontendDeveloperMentionsCommunication()
    ensures Contains(Block(FrontendDeveloperLines), "communication")
  {
    BlockMentions(FrontendDeveloperLines, 1, "Git and ", "communication", " skills.");
  }

  lemma FullStackDeveloperMentionsCommunication()
    ensures Contains(Block(FullStackDeveloperLines), "communication")
  {
    BlockMentions(FullStackDeveloperLines, 1, "Git and ", "communication", " skills.");
  }

  lemma SoftwareEngineerMentionsCommunication()
    ensures Contains(Block(SoftwareEngineerLines), "communication")
  {
    BlockMentions(SoftwareEngineerLines, 1, "Python or Java, Git, SQL and ", "communication", ".");
  }

  lemma MechanicalEngineerMentionsCommunication()
    ensures Contains(Block(MechanicalEngineerLines), "communication")
  {
    BlockMentions(MechanicalEngineerLines, 1, "project documentation and ", "communication", " skills.");
  }

  lemma CybersecurityAnalystMentionsCommunication()
    ensures Contains(Block(CybersecurityAnalystLines), "communication")
  {
    BlockMentions(CybersecurityAnalystLines, 1, "Python scripting, Git and ", "communication", ".");
  }

  lemma DevOpsEngineerMentionsCommunication()
    ensures Contains(Block(DevOpsEngineerLines), "communication")
  {
    BlockMentions(DevOpsEngineerLines, 1, "SQL and ", "communication", " skills.");
  }

  lemma CloudEngineerMentionsCommunication()
    ensures Contains(Block(CloudEngineerLines), "communication")
  {
    BlockMentions(CloudEngineerLines, 1, "SQL and ", "communication", " skills.");
  }

  lemma BusinessAnalystMentionsCommunication()
    ensures Contains(Block(BusinessAnalystLines), "communication")
  {
    BlockMentions(BusinessAnalystLines, 0, "Business Analyst with ", "communication", ",");
  }

  lemma QAEngineerMentionsCommunication()
    ensures Contains(Block(QAEngineerLines), "communication")
  {
    BlockMentions(QAEngineerLines, 1, "debugging and ", "communication", ".");
  }

  lemma AIResearchInternMentionsCommunication()
    ensures Contains(Block(AIResearchInternLines), "communication")
  {
    BlockMentions(AIResearchInternLines, 1, "machine learning, data analysis and ", "communication", ".");
  }

  lemma MobileAppDeveloperMentionsCommunication()
    ensures Contains(Block(MobileAppDeveloperLines), "communication")
  {
    BlockMentions(MobileAppDeveloperLines, 1, "Git, APIs and ", "communication", " skills.");
  }

  lemma DatabaseEngineerMentionsCommunication()
    ensures Contains(Block(DatabaseEngineerLines), "communication")
  {
    BlockMentions(DatabaseEngineerLines, 2, "Git and ", "communication", " skills.");
  }

  lemma ProductEngineerMentionsCommunication()
    ensures Contains(Block(ProductEngineerLines), "communication")
  {
    BlockMentions(ProductEngineerLines, 1, "Git, SQL and ", "communication", " skills.");
  }

  lemma RoboticsEngineerMentionsCommunication()
    ensures Contains(Block(RoboticsEngineerLines), "communication")
  {
    BlockMentions(RoboticsEngineerLines, 1, "data analysis, problem solving and ", "communication", ".");
  }

  lemma DataScientistMentionsCommunication()
    ensures Contains(Block(DataScientistLines), "communication")
  {
    BlockMentions(DataScientistLines, 2, "Git and ", "communication", ".");
  }

  lemma AmazonSDEMentionsCommunication()
    ensures Contains(Block(AmazonSDELines), "communication")
  {
    BlockMentions(AmazonSDELines, 3, "SQL, Git and ", "communication", " skills.");
  }

  lemma GoogleSWEMentionsCommunication()
    ensures Contains(Block(GoogleSWELines), "communication")
  {
    BlockMentions(GoogleSWELines, 4, "Git and ", "communication", ".");
  }

  lemma InfosysGraduateEngineerMentionsCommunication()
    ensures Contains(Block(InfosysGraduateEngineerLines), "communication")
  {
    BlockMentions(InfosysGraduateEngineerLines, 1, "SQL, Git and ", "communication", " skills.");
  }

  lemma StartupInternMentionsCommunication()
    ensures Contains(Block(StartupInternLines), "communication")
  {
    BlockMentions(StartupInternLines, 2, "Git and ", "communication", " skills.");
  }

  /** Every entry of `role_descriptions` names communication. */
  lemma EntryMentionsCommunication(i: nat)
    requires i < |RoleDescriptionEntries|
    ensures Contains(Block(RoleDescriptionEntries[i].1), "communication")
  {
    if i < 12 {
      EarlyEntryMentionsCommunication(i);
    } else {
      LateEntryMentionsCommunication(i);
    }
  }

  // The first twelve entries.
  lemma EarlyEntryMentionsCommunication(i: nat)
    requires 0 <= i < 12
    ensures Contains(Block(RoleDescriptionEntries[i].1), "communication")
  {
    if i == 0 {
      assert RoleDescriptionEntries[0].1 == PythonDeveloperLines;
      PythonDeveloperMentionsCommunication();
    } else if i == 1 {
      assert RoleDescriptionEntries[1].1 == DataAnalystLines;
      DataAnalystMentionsCommunication();
    } else if i == 2 {
      assert RoleDescriptionEntries[2].1 == MLEngineerLines;
      MLEngineerMentionsCommunication();
    } else if i == 3 {
      assert RoleDescriptionEntries[3].1 == BackendDeveloperLines;
      BackendDeveloperMentionsCommunication();
    } else if i == 4 {
      assert RoleDescriptionEntries[4].1 == FrontendDeveloperLines;
      FrontendDeveloperMentionsCommunication();
    } else if i == 5 {
      assert RoleDescriptionEntries[5].1 == FullStackDeveloperLines;
      FullStackDeveloperMentionsCommunication();
    } else if i == 6 {
      assert RoleDescriptionEntries[6].1 == SoftwareEngineerLines;
      SoftwareEngineerMentionsCommunication();
    } else if i == 7 {
      assert RoleDescriptionEntries[7].1 == MechanicalEngineerLines;
      MechanicalEngineerMentionsCommunication();
    } else if i == 8 {
      assert RoleDescriptionEntries[8].1 == CybersecurityAnalystLines;
      CybersecurityAnalystMentionsCommunication();
    } else if i == 9 {
      assert RoleDescriptionEntries[9].1 == DevOpsEngineerLines;
      DevOpsEngineerMentionsCommunication();
    } else if i == 10 {
      assert RoleDescriptionEntries[10].1 == CloudEngineerLines;
      CloudEngineerMentionsCommunication();
    } else if i == 11 {
      assert RoleDescriptionEntries[11].1 == BusinessAnalystLines;
      BusinessAnalystMentionsCommunication();
    }
  }

  // The remaining eleven.
  lemma LateEntryMentionsCommunication(i: nat)
    requires 12 <= i < 23
    ensures Contains(Block(RoleDescriptionEntries[i].1), "communication")
  {
    if i == 12 {
      assert RoleDescriptionEntries[12].1 == QAEngineerLines;
      QAEngineerMentionsCommunication();
    } else if i == 13 {
      assert RoleDescriptionEntries[13].1 == AIResearchInternLines;
      AIResearchInternMentionsCommunication();
    } else if i == 14 {
      assert RoleDescriptionEntries[14].1 == MobileAppDeveloperLines;
      MobileAppDeveloperMentionsCommunication();
    } else if i == 15 {
      assert RoleDescriptionEntries[15].1 == DatabaseEngineerLines;
      DatabaseEngineerMentionsCommunication();
    } else if i == 16 {
      assert RoleDescriptionEntries[16].1 == ProductEngineerLines;
      ProductEngineerMentionsCommunication();
    } else if i == 17 {
      assert RoleDescriptionEntries[17].1 == RoboticsEngineerLines;
      RoboticsEngineerMentionsCommunication();
    } else if i == 18 {
      assert RoleDescriptionEntries[18].1 == DataScientistLines;
      DataScientistMentionsCommunication();
    } else if i == 19 {
      assert RoleDescriptionEntries[19].1 == AmazonSDELines;
      AmazonSDEMentionsCommunication();
    } else if i == 20 {
      assert RoleDescriptionEntries[20].1 == GoogleSWELines;
      GoogleSWEMentionsCommunication();
    } else if i == 21 {
      assert RoleDescriptionEntries[21].1 == InfosysGraduateEngineerLines;
      InfosysGraduateEngineerMentionsCommunication();
    } else if i == 22 {
      assert RoleDescriptionEntries[22].1 == StartupInternLines;
      StartupInternMentionsCommunication();
    }
  }

  /** The entry a described role's text comes from. */
  lemma DescriptionEntry(role: string) returns (i: nat)
    requires role in RoleDescriptions
    ensures i < |RoleDescriptionEntries| && RoleDescriptionEntries[i].0 == role
    ensures RoleDescriptions[role] == Block(RoleDescriptionEntries[i].1)
  {
    DescriptionKeysDistinct();
    DictOfDistinct(RoleDescriptionEntries);
    i :| 0 <= i < |RoleDescriptionEntries| && RoleDescriptionEntries[i].0 == role;
  }

  /** Every canned description names communication, so none of them is
      blank after stripping. */
  lemma DescriptionsMentionCommunication(role: string)
    requires role in RoleDescriptions
    ensures Contains(RoleDescriptions[role], "communication")
    ensures Strip(RoleDescriptions[role]) != []
  {
    var i := DescriptionEntry(role);
    EntryMentionsCommunication(i);
    MentionNotBlank(RoleDescriptions[role]);
  }

  lemma MentionNotBlank(text: string)
    requires Contains(text, "communication")
    ensures Strip(text) != []
  {
    ContainsNotBlank(text, "communication", 0);
    StripBlank(text);
  }

  lemma FrontendDeveloperMentionsHtml()
    ensures Contains(Block(FrontendDeveloperLines), "HTML")
  {
    BlockMentions(FrontendDeveloperLines, 0, "Frontend Developer with ", "HTML", ", CSS, JavaScript,");
  }

  /** The "Frontend Developer" text lists HTML. */
  lemma FrontendDescriptionMentionsHtml()
    ensures "Frontend Developer" in RoleDescriptions
    ensures Contains(RoleDescriptions["Frontend Developer"], "HTML")
  {
    FrontendDeveloperEntry();
    EntryDescribed(4);
    FrontendDeveloperMentionsHtml();
  }

  lemma FrontendDeveloperEntry()
    ensures RoleDescriptionEntries[4] == ("Frontend Developer", FrontendDeveloperLines)
  {
  }

  /** The text of each entry is the description of the role it names. */
  lemma EntryDescribed(i: nat)
    requires i < |RoleDescriptionEntries|
    ensures RoleDescriptionEntries[i].0 in RoleDescriptions
    ensures RoleDescriptions[RoleDescriptionEntries[i].0] == Block(RoleDescriptionEntries[i].1)
  {
    DescriptionKeysDistinct();
    DictOfDistinct(RoleDescriptionEntries);
  }
}
