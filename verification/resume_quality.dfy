/** nlp/resume_quality.py: a 0-10 resume-quality heuristic made of three
    independently capped terms for length, skill coverage and digits. */
module ResumeQuality {
  import opened Text
  import opened Rounding

  /** `sum(c.isdigit() for c in text)`: digits counted one character at a time. */
  function CountDigits(s: string): nat {
    if s == [] then 0 else (if IsDigit(s[0]) then 1 else 0) + CountDigits(s[1..])
  }

  function Min(a: real, b: real): real { if a < b then a else b }

  function LengthTerm(wordCount: nat): real { Min(wordCount as real / 200.0, 1.0) * 4.0 }
  function SkillTerm(skillCount: nat): real { Min(skillCount as real / 6.0, 1.0) * 4.0 }
  function DigitTerm(digitCount: nat): real { Min(digitCount as real / 10.0, 1.0) * 2.0 }

  /** The score as a function of the three counts it reads. */
  function QualityScore(wordCount: nat, skillCount: nat, digitCount: nat): real {
    LengthTerm(wordCount) + SkillTerm(skillCount) + DigitTerm(digitCount)
  }

  /** `calculate_resume_quality`: the score rounded to two decimals. The
      skill list is read only through its length, the text through its token
      count and its digit count. */
  function CalculateResumeQuality(resumeText: string, resumeSkills: seq<string>): (q: real)
    ensures 0.0 <= q <= 10.0
  {
    var score := QualityScore(|Split(resumeText)|, |resumeSkills|, CountDigits(resumeText));
    TermsCapped(|Split(resumeText)|, |resumeSkills|, CountDigits(resumeText));
    RoundWithin(score, 0, 10);
    Round2(score)
  }

  /** Each term is capped on its own: length at 4, skills at 4, digits at 2;
      so the score is within [0, 10]. */
  lemma TermsCapped(wordCount: nat, skillCount: nat, digitCount: nat)
    ensures 0.0 <= LengthTerm(wordCount) <= 4.0
    ensures 0.0 <= SkillTerm(skillCount) <= 4.0
    ensures 0.0 <= DigitTerm(digitCount) <= 2.0
    ensures 0.0 <= QualityScore(wordCount, skillCount, digitCount) <= 10.0
  {
  }

  /** At least 200 words, 6 skills and 10 digits saturate every term: the
      score is exactly 10. */
  lemma SaturatedScoreIsTen(wordCount: nat, skillCount: nat, digitCount: nat)
    requires wordCount >= 200 && skillCount >= 6 && digitCount >= 10
    ensures QualityScore(wordCount, skillCount, digitCount) == 10.0
    ensures Round2(QualityScore(wordCount, skillCount, digitCount)) == 10.0
  {
    Round2Facts(10.0, 10.0, 10);
    assert wordCount as real / 200.0 >= 1.0;
    assert skillCount as real / 6.0 >= 1.0;
    assert digitCount as real / 10.0 >= 1.0;
  }

  /** Empty text with no skills scores 0. */
  lemma EmptyResumeScoresZero()
    ensures CalculateResumeQuality("", []) == 0.0
  {
    assert Split("") == [];
    Round2Facts(0.0, 0.0, 0);
  }

  lemma DivMonotone(a: real, b: real, c: real)
    requires a <= b && c > 0.0
    ensures a / c <= b / c
  {
    assert b / c - a / c == (b - a) / c;
  }

  /** More words, more skills or more digits never lower the score, before
      or after rounding. */
  lemma ScoreMonotone(w1: nat, w2: nat, s1: nat, s2: nat, d1: nat, d2: nat)
    requires w1 <= w2 && s1 <= s2 && d1 <= d2
    ensures QualityScore(w1, s1, d1) <= QualityScore(w2, s2, d2)
    ensures Round2(QualityScore(w1, s1, d1)) <= Round2(QualityScore(w2, s2, d2))
  {
    Round2Facts(QualityScore(w1, s1, d1), QualityScore(w2, s2, d2), 0);
    DivMonotone(w1 as real, w2 as real, 200.0);
    DivMonotone(s1 as real, s2 as real, 6.0);
    DivMonotone(d1 as real, d2 as real, 10.0);
  }

  /** Digit counting is additive over concatenation, so every digit
      character counts once: "350" contributes 3. */
  lemma {:induction false} CountDigitsAppend(a: string, b: string)
    ensures CountDigits(a + b) == CountDigits(a) + CountDigits(b)
    decreases |a|
  {
    if a == [] {
      assert a + b == b;
    } else {
      assert (a + b)[1..] == a[1..] + b;
      CountDigitsAppend(a[1..], b);
    }
  }

  lemma ThreeDigitNumberCountsThree()
    ensures CountDigits("350") == 3
  {
    assert "350"[1..] == "50" && "50"[1..] == "0" && "0"[1..] == "";
  }

  /** Two skill lists of the same length give the same score. */
  lemma SkillsOnlyByLength(resumeText: string, s1: seq<string>, s2: seq<string>)
    requires |s1| == |s2|
    ensures CalculateResumeQuality(resumeText, s1) == CalculateResumeQuality(resumeText, s2)
  {
  }
}
