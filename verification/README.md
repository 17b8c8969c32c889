# PlacementIQ scoring pipeline in Dafny

PlacementIQ is a Streamlit app. A student enters a profile: CGPA, internship, projects, communication, coding score and hackathons. They also paste a resume and pick a target role, whose job description is either canned or pasted. The app answers with several results:

- a placement probability;
- the skills the resume and the job have in common, and the gaps;
- an ATS keyword score and a resume-quality score;
- rule-based explanation lists and next steps;
- a readiness score for four companies.

This project models the deterministic pipeline behind those answers and proves what it promises. One module models each source file:

| module | file | form |
|---|---|---|
| `Text` | Python's `str.strip`, `str.split`, `str.lower`, `isalpha`, `isdigit` and substring `in`, on ASCII text | functions and lemmas |
| `Rounding` | Python's `round(x, 1)` and `round(x, 2)` | functions and lemmas |
| `Validation` | `utils/validation.py`: five rejection rules tried in order | functions and lemmas |
| `SkillExtractor` | `nlp/skill_extractor.py`: the six-skill taxonomy and the keyword filter | a `method` with a `for` loop for `extract_skills`; functions for the rest |
| `ResumeQuality` | `nlp/resume_quality.py`: three capped terms | functions and lemmas |
| `Predictor` | `models/predictor.py`: the probability estimator | a `method` that updates its local probability step by step, as the source does |
| `Roles` | `config/roles.py`: the role multipliers and the canned job descriptions | constant tables and lemmas |
| `App` | the scoring logic written inline in `app.py` | methods for the parts built by appending or looping; functions for the set expressions |

### The classifier and the job descriptions

The trained classifier is foreign code, so it is a parameter of type `seq<real> -> ClassifierResult`. It yields either a probability or the text of the exception it raised. As a result, the contracts can say exactly which feature row the classifier sees.

The Python dictionaries `role_difficulty` and `role_descriptions` are written as entry sequences in source order. `DictOf` turns an entry sequence into a map, and a later entry replaces an earlier one, as in a Python dict display. Each description is kept as the list of its source lines. `Block` rebuilds the triple-quoted text from those lines, with its leading newline, its eight-blank indentation and its trailing indentation.

### Two notes on the code

- The inline check at `app.py:417` can never fire. The gate at `app.py:368` has already stopped every run whose stripped resume is empty. `App.Analyze` keeps the check as a branch that it proves unreachable.
- The inline checks at `app.py:424-431` repeat the validator's first three rules with the same messages. `App.InlineChecksAgree` proves that the two agree.

## Model

| member | source | states |
|---|---|---|
| Text.StripBlank | utils/validation.py:3-6 | `strip()` gives the empty string exactly when the text is all whitespace |
| Text.StripPadding | utils/validation.py:3 | whitespace added before or after a text does not change its stripped form |
| Text.StripLower | utils/validation.py:3-8 | lower-casing and stripping commute |
| Text.SplitStrip | utils/validation.py:8 | stripping does not change the whitespace tokens |
| Text.SplitTokens | utils/validation.py:8 | every token is non-empty, holds no whitespace, and occurs as a contiguous piece of the text |
| Text.LowerIsLowerCase | nlp/skill_extractor.py:11-12 | a lower-cased text has no upper-case letter |
| Text.ContainsLower | nlp/skill_extractor.py:11-12 | a text that contains a word contains it again once both are lower-cased |
| Text.ContainsTransitive | nlp/skill_extractor.py:18-21 | a substring of a substring is a substring |
| Rounding.Round1Facts | app.py:840 | `round(x, 1)` moves a value by at most 0.05, keeps order and keeps whole numbers |
| Rounding.Round2Facts | models/predictor.py:43 | `round(x, 2)` moves a value by at most 0.005, keeps order and keeps whole numbers |
| Rounding.RoundWithin | models/predictor.py:42-43 | rounding after a clamp to whole bounds keeps those bounds |
| Validation.ValidateResumeText | utils/validation.py:2-25 | the verdict is valid exactly when its message is empty, and the message is always the empty string or one of the three rejection texts |
| Validation.FirstFailingRuleDecides | utils/validation.py:2-25 | the five rules, stated on the raw text, each decide the verdict when they are the first to fire (blank text, at most one token, at most one distinct token, fewer than three tokens with a letter, more than six tokens with 10·distinct < 3·total); the result is `(True, "")` exactly when none fires |
| Validation.RatioInIntegers | utils/validation.py:21-22 | `distinct / total < 0.3` holds exactly when `10·distinct < 3·total` |
| Validation.TokensOfStripped | utils/validation.py:3-8 | the rules can be read on the tokens of the raw text |
| Validation.AcceptedHasVariety | utils/validation.py:2-25 | an accepted resume has at least three tokens, at least two of them different |
| Validation.PaddingInvariant | utils/validation.py:3 | leading and trailing whitespace never change the verdict |
| Validation.CaseInvariant | utils/validation.py:8 | texts equal after lower-casing get the same verdict |
| Validation.EmptyTextAsksForResume | utils/validation.py:5-6 | the empty text gets "Please paste your resume." |
| Validation.SingleWordIsInvalid | utils/validation.py:10-11 | any non-empty text without whitespace is one token and gets "Resume text seems invalid." |
| Validation.SameWordTwiceIsSpam | utils/validation.py:13-14 | "Python python" is rejected as repeated spam |
| Validation.CopiesAreSpam | utils/validation.py:13-14 | two or more blank-separated copies of any word are rejected as repeated spam |
| SkillExtractor.ExtractSkills | nlp/skill_extractor.py:10-24 | the loop's two lists are the taxonomy skills mentioned by the lower-cased resume and by the lower-cased job text; each list depends on its own text only |
| SkillExtractor.RankOfSkills | nlp/skill_extractor.py:1-8 | the taxonomy has six skills in a fixed order |
| SkillExtractor.DetectedIff | nlp/skill_extractor.py:17-21 | a name is listed exactly when it names a taxonomy skill one of whose keywords is a substring of the lower-cased text |
| SkillExtractor.DetectedInTaxonomyOrder | nlp/skill_extractor.py:17-21 | the listed names come in strict taxonomy order, at most one per skill visited |
| SkillExtractor.ExtractedSkillsFacts | nlp/skill_extractor.py:1-24 | each output list has at most six taxonomy names, no repeats, in taxonomy order, and lists a skill exactly when one of its keywords occurs |
| SkillExtractor.SkillsIgnoreCase | nlp/skill_extractor.py:11-12 | changing the letter case of either text changes neither list |
| SkillExtractor.HtmlSignalsMachineLearning | nlp/skill_extractor.py:17-21 | substring matching has no word boundary: "HTML" yields "machine learning" through "ml" |
| SkillExtractor.MysqlSignalsSql | nlp/skill_extractor.py:17-21 | "mysql" yields "sql" |
| SkillExtractor.ExtractKeywords | nlp/skill_extractor.py:26-37 | no stopword is ever a keyword |
| SkillExtractor.KeywordsExactly | nlp/skill_extractor.py:26-37 | keywords are exactly the filtered tokens of the lower-cased, comma-blanked text; each is longer than two characters, no stopword, a piece of the lower-cased text, with no upper case, comma or whitespace |
| SkillExtractor.KeywordsIgnoreCase | nlp/skill_extractor.py:27 | keyword extraction ignores letter case |
| ResumeQuality.CalculateResumeQuality | nlp/resume_quality.py:1-10 | the rounded score lies in [0, 10] |
| ResumeQuality.TermsCapped | nlp/resume_quality.py:5-8 | the length term is capped at 4, the skill term at 4 and the digit term at 2 |
| ResumeQuality.SaturatedScoreIsTen | nlp/resume_quality.py:5-10 | 200 words, 6 skills and 10 digits give exactly 10, before and after rounding |
| ResumeQuality.EmptyResumeScoresZero | nlp/resume_quality.py:1-10 | empty text with no skills scores 0 |
| ResumeQuality.ScoreMonotone | nlp/resume_quality.py:5-10 | more words, skills or digits never lower the score, before or after rounding |
| ResumeQuality.CountDigitsAppend | nlp/resume_quality.py:3 | digits are counted per character, additively over concatenation |
| ResumeQuality.ThreeDigitNumberCountsThree | nlp/resume_quality.py:3 | "350" contributes 3 |
| ResumeQuality.SkillsOnlyByLength | nlp/resume_quality.py:7 | the skill list matters only through its length |
| Predictor.Clamp | models/predictor.py:42 | `max(lo, min(x, hi))` lies in [lo, hi] and leaves values inside it alone |
| Predictor.PredictPlacement | models/predictor.py:4-46 | the classifier sees exactly `[cgpa, internship, communication, match]`; a raised error is returned as a failure with its text and never as a score; otherwise the result is the clamped and rounded value of the steps in source order, and lies in [5, 95] |
| Predictor.PenaltiesAsFactors | models/predictor.py:35-40 | each penalty multiplies once, exactly when its condition holds |
| Predictor.PenaltiesNeverIncrease | models/predictor.py:35-40 | for a non-negative value the penalties never increase it, and never take it below 0.612 of itself |
| Predictor.PenaltiesStrictlyMonotone | models/predictor.py:35-40 | the penalties keep strict order between two values |
| Predictor.ClampMonotone | models/predictor.py:42 | clamping keeps order |
| Predictor.MoreProjectsScoreHigher | models/predictor.py:27-43 | with a positive multiplier, more projects raise the pre-clamp value strictly and never lower the returned probability |
| Roles.DictOfDistinct | config/roles.py:1-32 | a dict display with distinct keys has one key per entry, and each key maps to its entry's value |
| Roles.DifficultyKeysDistinct | config/roles.py:1-32 | `role_difficulty` lists 24 distinct roles, "Custom" last with 1.0, every value in [0.85, 1.4] |
| Roles.DifficultyTable | config/roles.py:1-32 | `role_difficulty` has 24 keys, maps "Custom" to 1.0, and every multiplier lies in [0.85, 1.4] |
| Roles.DescriptionKeysDistinct | config/roles.py:35-223 | `role_descriptions` lists 23 distinct roles |
| Roles.DescribedRoles | config/roles.py:1-223 | the described roles are exactly the roles with a multiplier, except "Custom" |
| Roles.EntryMentionsCommunication | config/roles.py:35-223 | every canned description contains "communication" |
| Roles.DescriptionsMentionCommunication | config/roles.py:35-223 | every canned description contains "communication" and is not blank after stripping |
| Roles.FrontendDescriptionMentionsHtml | config/roles.py:69-72 | the "Frontend Developer" description lists HTML |
| App.JobDescriptionFor | app.py:340-348 | the job text is the pasted text for "Custom" and one of the canned descriptions for any other role |
| App.CannedJobDescriptionHasSkills | app.py:340-347 | for every role but "Custom" the job text is not blank and yields the communication skill, so the job skill list is never empty |
| App.CommunicationIsDetected | nlp/skill_extractor.py:17-21 | a text that contains "communication" in any letter case yields the communication skill, so its skill list is not empty |
| App.HtmlIsDetected | nlp/skill_extractor.py:17-21 | a text that contains "html" in any letter case yields the machine-learning skill, through the keyword "ml" |
| App.FrontendJobListsMachineLearning | app.py:346-347 | the canned Frontend Developer job text yields "machine learning" |
| App.Percent | app.py:449-451 | the rounded percentage of a count out of `n` lies in [0, 100] |
| App.PercentEnds | app.py:449-451 | up to 20000 entries the rounded percentage is 0 exactly for a count of 0; below 20000 entries it is 100 exactly for the full count |
| App.PercentEndsSharp | app.py:449-451 | those limits are sharp: 1 of 20001 rounds to 0, and 19999 of 20000 rounds to 100 |
| App.MatchPercentage | app.py:447-451 | match % lies in [0, 100] and is 0 when the job has no skill |
| App.SkillGapsAndMatch | app.py:447-453 | missing skills are job skills absent from the resume; for a job list of at most six skills, match % is 0 exactly when nothing is shared, and, without repeats, there is no gap exactly when match % is 100 |
| App.MissingSkills | app.py:453 | a skill is missing exactly when the job lists it and the resume does not |
| App.AtsScore | app.py:405-408 | the ATS score lies in [0, 100] and is 0 without job keywords |
| App.MatchedKeywords | app.py:402 | the matched keywords are keywords of both the job and the resume |
| App.MissingKeywords | app.py:403 | the missing keywords are job keywords the resume does not have |
| App.KeywordsPartition | app.py:402-408 | matched and missing keywords partition the job keywords; up to 20000 job keywords the score is 0 exactly when nothing matches, and below 20000 it is 100 exactly when nothing is missing |
| App.InlineChecksAgree | app.py:415-431 | the inline one-token and one-distinct-token checks reject with the validator's own messages |
| App.Analyze | app.py:365-475 | gate order: blank resume, then blank job text, then the validator, then a classifier error; a report appears exactly when all pass, and it holds the extracted skills, the keyword overlap, the quality, the match and the estimator's probability in [5, 95] |
| App.ExplanationCount | app.py:655-688 | each of the six rules adds exactly one entry to one of the two lists, six together |
| App.ExplainStrengthRules | app.py:655-688 | each strength is listed exactly when its condition holds |
| App.ExplainImprovementRules | app.py:655-688 | each improvement is listed exactly when its condition holds, and at most one of the two skill-match improvements appears |
| App.ExplainScore | app.py:655-688 | the lists built by the if/else chain equal the rule-order lists |
| App.InsightRules | app.py:712-759 | neither column is empty; each message is listed exactly when its condition holds; a fallback stands alone exactly when no rule of its column fires |
| App.InsightPanel | app.py:712-759 | the columns built by appending equal the rule-order columns with their fallbacks |
| App.InsightStrengths | app.py:712-727 | the strengths column built by appending equals the rules that fire, in source order, or the encouragement line when none fires |
| App.InsightWeakAreas | app.py:745-759 | the weak-areas column built by appending equals the rules that fire, in source order, or the no-weak-areas line when none fires |
| App.NextStepsShape | app.py:775-796 | the steps number two plus one per condition that holds, and the two unconditional steps come last |
| App.NextStepsRules | app.py:775-796 | each conditional step is written exactly when its condition holds |
| App.NextSteps | app.py:775-796 | the written lines equal the rule-order list |
| App.Roadmap | app.py:811-816 | every roadmap line is library advice or the closing line, and the closing line appears exactly when no skill is missing |
| App.RoadmapCoversSkills | app.py:801-816 | every missing taxonomy skill gets its advice; the closing line appears exactly when nothing is missing |
| App.RecruiterRecommendation | app.py:821-826 | the recommendation is always one of the three recruiter messages |
| App.RecruiterBands | app.py:821-826 | top companies from 85, mid-tier from 65 to below 85, focus-first below 65; a higher probability never falls back to focus-first |
| App.ReadinessOf | app.py:842-847 | "Ready" exactly from 85, "Needs Improvement" exactly below 65 |
| App.CompanyReadiness | app.py:831-847 | one score per company in table order, equal to the rounded clamp of probability / divisor, in [5, 95], with its band; the score ignores the selected role, and for a non-negative probability Startup ≥ Infosys ≥ Amazon ≥ Google |

## Left out

- The Streamlit interface is not modelled: layout, CSS, sliders, progress bar, sleeps, tags, charts and formatting.
- The skill-count warnings at `app.py:434-437` are display-only and not modelled.
- The "Why this score" reasons at `app.py:526-610` are not modelled. They are display text.
- The resume-strength meter at `app.py:569-578` is not modelled. It is display text.
- The readiness banner at `app.py:638-643` is not modelled. It is display text.
- `utils/pdf_reader.py` is not part of this model. It wraps file I/O.
- Loading the classifier (`joblib.load`) is not modelled. `predict_proba` is the classifier parameter.
- `archieve/appx.py` and `data/demo_profiles.py` are not part of this model. The first is a superseded copy of the pipeline; the second holds demo strings only.
- Text is ASCII only. Unicode case mapping, Unicode letters and digits, and non-ASCII whitespace are not modelled.
- Rounding.Round1Facts, Rounding.Round2Facts: `round` is modelled on exact reals with ties going up. Python rounds binary floats half to even, so the two can differ on values that are exact ties.
- Real arithmetic replaces floating point throughout.
- SkillExtractor.KeywordsExactly: `extract_keywords` returns `list(set(...))`, whose order Python leaves unspecified. The model returns the set, which is duplicate-free by construction.
- App.MissingSkills: `missing_skills` is a list built from a set, in unspecified order. The model returns the set.
- App.RoadmapCoversSkills: the order of the roadmap lines is not modelled, for the same reason.
- App.Analyze: the report does not include the profile-derived displays (skill chart, matched-skill count). These only echo inputs. The explanation lists, insight panel, next steps, roadmap, recruiter line and company readiness are not part of the report either: each is its own member (`ExplainScore`, `InsightPanel`, `NextSteps`, `Roadmap`, `RecruiterRecommendation`, `CompanyReadiness`), applied to the report's values.
- App.PercentEnds and App.KeywordsPartition: the zero end is stated up to 20000 entries and the full end below 20000. Above 20000 entries a single match rounds to 0.00 %, which is the source's behaviour too. At exactly 20000 entries, one short of the full count lands on a rounding tie; the model rounds it up to 100, while Python's result depends on the binary float.
- The slider ranges of the sidebar are not assumed. Every contract holds for all integer and real inputs.
