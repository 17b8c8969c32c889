/** The resume-text validator of utils/validation.py: five rejection rules
    over the lower-cased whitespace tokens of the stripped text, tried in
    order; the first rule that fires decides the message. */
module Validation {
  import opened Text

  datatype Verdict = Verdict(valid: bool, message: string)

  const PasteResume := "Please paste your resume."
  const SeemsInvalid := "Resume text seems invalid."
  const RepeatedSpam := "Resume text looks like repeated spam."

  /** `set(words)` */
  function Distinct(words: seq<string>): set<string> {
    set w | w in words
  }

  /** `any(c.isalpha() for c in w)` */
  predicate HasAlpha(w: string) {
    exists i | 0 <= i < |w| :: IsAlpha(w[i])
  }

  /** `[w for w in words if any(c.isalpha() for c in w)]` */
  function RealWords(words: seq<string>): (r: seq<string>)
    ensures |r| <= |words|
  {
    if words == [] then []
    else (if HasAlpha(words[0]) then [words[0]] else []) + RealWords(words[1..])
  }

  function Max(a: int, b: int): int { if a < b then b else a }

  /** `validate_resume_text`: `(True, "")` for an accepted text, otherwise
      `(False, message)` with one of the three rejection messages. */
  function ValidateResumeText(resumeText: string): (v: Verdict)
    ensures v.valid <==> v.message == ""
    ensures v.message in {"", PasteResume, SeemsInvalid, RepeatedSpam}
  {
    var text := Strip(resumeText);
    if text == "" then Verdict(false, PasteResume)
    else
      var words := Split(Lower(text));
      if |words| <= 1 then Verdict(false, SeemsInvalid)
      else if |Distinct(words)| <= 1 then Verdict(false, RepeatedSpam)
      else if |RealWords(words)| < 3 then Verdict(false, SeemsInvalid)
      else
        var uniqueRatio := |Distinct(words)| as real / Max(|words|, 1) as real;
        if |words| > 6 && uniqueRatio < 0.3 then Verdict(false, RepeatedSpam)
        else Verdict(true, "")
  }

  /** The tokens the rules look at, taken from the raw text. */
  function Tokens(resumeText: string): seq<string> {
    Split(Lower(resumeText))
  }

  /** Rule 5 in integers: `d / n < 0.3` exactly when `10 d < 3 n`. */
  lemma RatioInIntegers(d: nat, n: nat)
    requires n > 0
    ensures d as real / n as real < 0.3 <==> 10 * d < 3 * n
  {
    DivBelow(d as real, n as real, 0.3);
  }

  lemma DivBelow(a: real, n: real, c: real)
    requires n > 0.0
    ensures a / n < c <==> a < c * n
  {
    var q := a / n;
    assert q * n == a;
    if q < c {
      assert (c - q) * n > 0.0;
    } else {
      assert (q - c) * n >= 0.0;
    }
  }

  /** Stripping does not change the tokens: the rules can be read on the raw text. */
  lemma TokensOfStripped(resumeText: string)
    ensures Split(Lower(Strip(resumeText))) == Tokens(resumeText)
  {
    StripLower(resumeText);
    SplitStrip(Lower(resumeText));
  }

  /** The five rules in order, each stated on the raw text: a verdict is the
      message of the first rule that fires, and only a text that passes all
      five is accepted, with an empty message. */
  lemma FirstFailingRuleDecides(resumeText: string)
    ensures var v := ValidateResumeText(resumeText);
            var words := Tokens(resumeText);
            var d := |Distinct(words)|;
            && (AllSpace(resumeText) ==> v == Verdict(false, PasteResume))
            && (!AllSpace(resumeText) && |words| <= 1 ==> v == Verdict(false, SeemsInvalid))
            && (!AllSpace(resumeText) && |words| > 1 && d <= 1 ==> v == Verdict(false, RepeatedSpam))
            && (!AllSpace(resumeText) && |words| > 1 && d > 1 && |RealWords(words)| < 3
                ==> v == Verdict(false, SeemsInvalid))
            && ((!AllSpace(resumeText) && |words| > 1 && d > 1 && |RealWords(words)| >= 3
                 && |words| > 6 && 10 * d < 3 * |words|) ==> v == Verdict(false, RepeatedSpam))
            && (v.valid <==> !AllSpace(resumeText) && |words| > 1 && d > 1 && |RealWords(words)| >= 3
                             && !(|words| > 6 && 10 * d < 3 * |words|))
            && (v.valid <==> v == Verdict(true, ""))
  {
    StripBlank(resumeText);
    TokensOfStripped(resumeText);
    var words := Tokens(resumeText);
    if |words| > 0 {
      RatioInIntegers(|Distinct(words)|, |words|);
    }
  }

  /** An accepted resume has at least three tokens, two of them different. */
  lemma AcceptedHasVariety(resumeText: string)
    requires ValidateResumeText(resumeText).valid
    ensures |Tokens(resumeText)| >= 3 && |Distinct(Tokens(resumeText))| >= 2
  {
    FirstFailingRuleDecides(resumeText);
  }

  /** Leading or trailing whitespace never changes the verdict. */
  lemma PaddingInvariant(ws1: string, resumeText: string, ws2: string)
    requires AllSpace(ws1) && AllSpace(ws2)
    ensures ValidateResumeText(ws1 + resumeText + ws2) == ValidateResumeText(resumeText)
  {
    StripPadding(ws1, resumeText, ws2);
  }

  /** Texts that differ only in letter case get the same verdict. */
  lemma CaseInvariant(t1: string, t2: string)
    requires Lower(t1) == Lower(t2)
    ensures ValidateResumeText(t1) == ValidateResumeText(t2)
  {
    StripLower(t1);
    StripLower(t2);
    assert |Strip(t1)| == |Lower(Strip(t1))|;
    assert |Strip(t2)| == |Lower(Strip(t2))|;
  }

  lemma EmptyTextAsksForResume()
    ensures ValidateResumeText("") == Verdict(false, PasteResume)
  {
  }

  /** A text made of one word, with no whitespace anywhere, is a single
      token: "Resume text seems invalid." */
  lemma SingleWordIsInvalid(w: string)
    requires w != [] && forall i | 0 <= i < |w| :: !IsSpace(w[i])
    ensures ValidateResumeText(w) == Verdict(false, SeemsInvalid)
  {
    LowerWordIsWord(w);
    assert Repeated(Lower(w), 1) == Lower(w);
    SplitSameWords(Lower(w), 1);
    assert !IsSpace(w[0]);
    FirstFailingRuleDecides(w);
  }

  /** Lower-casing keeps a word a word. */
  lemma LowerWordIsWord(w: string)
    requires w != [] && forall i | 0 <= i < |w| :: !IsSpace(w[i])
    ensures Lower(w) != [] && forall i | 0 <= i < |Lower(w)| :: !IsSpace(Lower(w)[i])
  {
  }

  /** Two tokens equal up to case are spam: "Python python". */
  lemma SameWordTwiceIsSpam()
    ensures ValidateResumeText("Python python") == Verdict(false, RepeatedSpam)
  {
    var t := "Python python";
    assert t == "Python" + " " + "python";
    LowerAppend("Python", " ");
    LowerAppend("Python" + " ", "python");
    LowerWord();
    assert Lower(" ") == " ";
    assert Repeated("python", 2) == "python" + " " + "python";
    SplitSameWords("python", 2);
    DistinctOfCopies("python", 2);
    assert t[0] == 'P';
    FirstFailingRuleDecides(t);
  }

  lemma LowerWord()
    ensures Lower("Python") == "python" && Lower("python") == "python"
  {
    assert forall i | 0 <= i < 6 :: Lower("Python")[i] == "python"[i];
    assert forall i | 0 <= i < 6 :: Lower("python")[i] == "python"[i];
  }

  lemma {:induction false} LowerRepeated(w: string, k: nat)
    ensures Lower(Repeated(w, k)) == Repeated(Lower(w), k)
    decreases k
  {
    if k == 1 {
      assert Repeated(w, k) == w;
    } else if k > 1 {
      LowerRepeated(w, k - 1);
      LowerAppend(w, " ");
      LowerAppend(w + " ", Repeated(w, k - 1));
      assert Lower(" ") == " ";
    }
  }

  lemma DistinctOfCopies(w: string, k: nat)
    requires k >= 1
    ensures Distinct(seq(k, _ => w)) == {w}
  {
    var s := seq(k, _ => w);
    assert s[0] == w;
    forall x | x in Distinct(s) ensures x == w {
      var i :| 0 <= i < k && s[i] == x;
    }
  }

  /** `k` copies of one token, separated by single blanks. */
  function Repeated(w: string, k: nat): string {
    if k <= 1 then (if k == 1 then w else "") else w + " " + Repeated(w, k - 1)
  }

  lemma {:induction false} SplitSameWords(w: string, k: nat)
    requires w != [] && forall i | 0 <= i < |w| :: !IsSpace(w[i])
    requires k >= 1
    ensures Split(Repeated(w, k)) == seq(k, _ => w)
    decreases k
  {
    TokenLengthOfWord(w, if k == 1 then "" else " " + Repeated(w, k - 1));
    var s := Repeated(w, k);
    if k == 1 {
      assert s == w + "";
      assert s[|w|..] == [];
    } else {
      SplitSameWords(w, k - 1);
      assert s == w + (" " + Repeated(w, k - 1));
      assert s[|w|..] == " " + Repeated(w, k - 1);
      assert s[|w|..][1..] == Repeated(w, k - 1);
      assert seq(k, _ => w) == [w] + seq(k - 1, _ => w);
    }
  }

  lemma {:induction false} TokenLengthOfWord(w: string, rest: string)
    requires forall i | 0 <= i < |w| :: !IsSpace(w[i])
    requires rest == [] || IsSpace(rest[0])
    ensures TokenLength(w + rest) == |w|
    decreases |w|
  {
    if w != [] {
      assert (w + rest)[1..] == w[1..] + rest;
      TokenLengthOfWord(w[1..], rest);
    } else {
      assert w + rest == rest;
    }
  }

  /** Two or more copies of one word, separated by blanks, are rejected as
      spam: however many tokens there are, only one of them is distinct. */
  lemma CopiesAreSpam(w: string, k: nat)
    requires w != [] && forall i | 0 <= i < |w| :: !IsSpace(w[i])
    requires k >= 2
    ensures ValidateResumeText(Repeated(w, k)) == Verdict(false, RepeatedSpam)
  {
    var t := Repeated(w, k);
    TokensOfCopies(w, k);
    DistinctOfCopies(Lower(w), k);
    assert |Distinct(Tokens(t))| == 1;
    CopiesNotBlank(w, k);
    FirstFailingRuleDecides(t);
  }

  lemma TokensOfCopies(w: string, k: nat)
    requires w != [] && forall i | 0 <= i < |w| :: !IsSpace(w[i])
    requires k >= 1
    ensures Tokens(Repeated(w, k)) == seq(k, _ => Lower(w))
  {
    LowerRepeated(w, k);
    LowerWordIsWord(w);
    SplitSameWords(Lower(w), k);
  }

  lemma CopiesNotBlank(w: string, k: nat)
    requires w != [] && forall i | 0 <= i < |w| :: !IsSpace(w[i])
    requires k >= 2
    ensures !AllSpace(Repeated(w, k))
  {
    var t := Repeated(w, k);
    assert t == w + (" " + Repeated(w, k - 1));
    assert t[0] == w[0];
  }
}
