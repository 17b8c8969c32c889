/** models/predictor.py: the placement-probability estimator. The trained
    classifier is a parameter; the estimator scales its probability, adds four
    bonuses, applies the role multiplier and three penalties, then clamps to
    [5, 95] and rounds to two decimals. */
module Predictor {
  import opened Rounding

  /** What the classifier call gives back: a positive-class probability, or
      the text of the exception it raised. */
  datatype ClassifierResult = Probability(p: real) | Raised(error: string)

  /** `(True, probability)` or `(False, str(e))`. */
  datatype Prediction = Predicted(probability: real) | Failed(error: string)

  /** The feature row handed to the classifier, in this order. Project count,
      coding score, resume quality and hackathons are not part of it. */
  function Features(cgpa: real, internship: int, communication: int, matchPercentage: real): seq<real> {
    [cgpa, internship as real, communication as real, matchPercentage]
  }

  /** `role_difficulty.get(role, 1.0)` */
  function Multiplier(role: string, roleDifficulty: map<string, real>): real {
    if role in roleDifficulty then roleDifficulty[role] else 1.0
  }

  /** Steps 1-5: the scaled classifier probability plus the four bonuses. */
  function Blend(rawProb: real, projects: int, dsaScore: int, resumeQuality: real, hackathons: int): real {
    rawProb * 60.0 + projects as real * 1.2 + dsaScore as real * 0.8 + resumeQuality * 0.7 + hackathons as real * 0.6
  }

  /** Step 7: the three conditional penalties, in source order. */
  function Penalized(p: real, internship: int, cgpa: real, matchPercentage: real): real {
    var p1 := if internship == 0 then p * 0.9 else p;
    var p2 := if cgpa < 6.5 then p1 * 0.85 else p1;
    if matchPercentage < 40.0 then p2 * 0.8 else p2
  }

  /** The value just before clamping. */
  function PreClamp(rawProb: real, cgpa: real, internship: int, matchPercentage: real, projects: int,
                    dsaScore: int, resumeQuality: real, hackathons: int, role: string,
                    roleDifficulty: map<string, real>): real
  {
    Penalized(Blend(rawProb, projects, dsaScore, resumeQuality, hackathons) * Multiplier(role, roleDifficulty),
              internship, cgpa, matchPercentage)
  }

  /** `max(lo, min(x, hi))` */
  function Clamp(x: real, lo: real, hi: real): (r: real)
    requires lo <= hi
    ensures lo <= r <= hi
    ensures lo <= x <= hi ==> r == x
  {
    if x > hi then hi else if x < lo then lo else x
  }

  /** `predict_placement`: the local probability is updated step by step. The
      result is a failure carrying the classifier's error text exactly when the
      classifier raises, and otherwise the clamped pre-clamp value rounded to
      two decimals, which lies in [5, 95]. */
  method PredictPlacement(classifier: seq<real> -> ClassifierResult, cgpa: real, internship: int,
                          communication: int, matchPercentage: real, projects: int, dsaScore: int,
                          resumeQuality: real, hackathons: int, role: string,
                          roleDifficulty: map<string, real>)
    returns (r: Prediction)
    ensures var out := classifier(Features(cgpa, internship, communication, matchPercentage));
            && (out.Raised? <==> r.Failed?)
            && (out.Raised? ==> r == Failed(out.error))
            && (out.Probability? ==> r == Predicted(Round2(Clamp(PreClamp(out.p, cgpa, internship, matchPercentage,
                                                                          projects, dsaScore, resumeQuality, hackathons,
                                                                          role, roleDifficulty), 5.0, 95.0))))
    ensures r.Predicted? ==> 5.0 <= r.probability <= 95.0
  {
    var inputFeatures := [cgpa, internship as real, communication as real, matchPercentage];
    assert inputFeatures == Features(cgpa, internship, communication, matchPercentage);
    var out := classifier(inputFeatures);
    if out.Raised? {
      return Failed(out.error);
    }
    var rawProb := out.p;
    var probability := rawProb * 60.0;
    probability := probability + projects as real * 1.2;
    probability := probability + dsaScore as real * 0.8;
    probability := probability + resumeQuality * 0.7;
    probability := probability + hackathons as real * 0.6;
    assert probability == Blend(rawProb, projects, dsaScore, resumeQuality, hackathons);
    probability := probability * Multiplier(role, roleDifficulty);
    ghost var scaled := probability;
    if internship == 0 {
      probability := probability * 0.9;
    }
    if cgpa < 6.5 {
      probability := probability * 0.85;
    }
    if matchPercentage < 40.0 {
      probability := probability * 0.8;
    }
    assert probability == Penalized(scaled, internship, cgpa, matchPercentage);
    assert probability == PreClamp(rawProb, cgpa, internship, matchPercentage, projects, dsaScore,
                                   resumeQuality, hackathons, role, roleDifficulty);
    probability := Clamp(probability, 5.0, 95.0);
    RoundWithin(probability, 5, 95);
    r := Predicted(Round2(probability));
  }

  /** Factor of one penalty: `f` when its condition holds, 1 otherwise. */
  function Factor(condition: bool, f: real): real { if condition then f else 1.0 }

  /** Each penalty multiplies exactly once, exactly when its condition holds. */
  lemma PenaltiesAsFactors(p: real, internship: int, cgpa: real, matchPercentage: real)
    ensures Penalized(p, internship, cgpa, matchPercentage)
            == p * Factor(internship == 0, 0.9) * Factor(cgpa < 6.5, 0.85) * Factor(matchPercentage < 40.0, 0.8)
  {
  }

  /** For a non-negative value the penalties never increase it, and all three
      together take it down to no less than 0.612 of itself. */
  lemma PenaltiesNeverIncrease(p: real, internship: int, cgpa: real, matchPercentage: real)
    requires p >= 0.0
    ensures p * 0.612 <= Penalized(p, internship, cgpa, matchPercentage) <= p
  {
    var f := Factor(internship == 0, 0.9) * Factor(cgpa < 6.5, 0.85) * Factor(matchPercentage < 40.0, 0.8);
    PenaltiesAsFactors(p, internship, cgpa, matchPercentage);
    assert 0.612 <= f <= 1.0;
    assert p * f == p * Factor(internship == 0, 0.9) * Factor(cgpa < 6.5, 0.85) * Factor(matchPercentage < 40.0, 0.8);
    assert p * 0.612 <= p * f <= p;
  }

  /** The penalties keep strict order between two values. */
  lemma PenaltiesStrictlyMonotone(a: real, b: real, internship: int, cgpa: real, matchPercentage: real)
    requires a < b
    ensures Penalized(a, internship, cgpa, matchPercentage) < Penalized(b, internship, cgpa, matchPercentage)
  {
    var f := Factor(internship == 0, 0.9) * Factor(cgpa < 6.5, 0.85) * Factor(matchPercentage < 40.0, 0.8);
    PenaltiesAsFactors(a, internship, cgpa, matchPercentage);
    PenaltiesAsFactors(b, internship, cgpa, matchPercentage);
    assert f > 0.0;
    assert a * f == a * Factor(internship == 0, 0.9) * Factor(cgpa < 6.5, 0.85) * Factor(matchPercentage < 40.0, 0.8);
    assert b * f == b * Factor(internship == 0, 0.9) * Factor(cgpa < 6.5, 0.85) * Factor(matchPercentage < 40.0, 0.8);
    assert (b - a) * f > 0.0;
  }

  lemma ScaleStrict(a: real, b: real, m: real)
    requires a < b && m > 0.0
    ensures a * m < b * m
  {
    assert b * m - a * m == (b - a) * m;
  }

  lemma ClampMonotone(x: real, y: real, lo: real, hi: real)
    requires lo <= hi && x <= y
    ensures Clamp(x, lo, hi) <= Clamp(y, lo, hi)
  {
  }

  /** With a positive role multiplier and everything else fixed, one more
      project raises the pre-clamp value strictly, and the clamped and rounded
      result never goes down. */
  lemma MoreProjectsScoreHigher(rawProb: real, cgpa: real, internship: int, matchPercentage: real,
                                projects1: int, projects2: int, dsaScore: int, resumeQuality: real,
                                hackathons: int, role: string, roleDifficulty: map<string, real>)
    requires projects1 < projects2
    requires Multiplier(role, roleDifficulty) > 0.0
    ensures PreClamp(rawProb, cgpa, internship, matchPercentage, projects1, dsaScore, resumeQuality,
                     hackathons, role, roleDifficulty)
          < PreClamp(rawProb, cgpa, internship, matchPercentage, projects2, dsaScore, resumeQuality,
                     hackathons, role, roleDifficulty)
    ensures Clamp(PreClamp(rawProb, cgpa, internship, matchPercentage, projects1, dsaScore, resumeQuality,
                           hackathons, role, roleDifficulty), 5.0, 95.0)
         <= Clamp(PreClamp(rawProb, cgpa, internship, matchPercentage, projects2, dsaScore, resumeQuality,
                           hackathons, role, roleDifficulty), 5.0, 95.0)
    ensures Round2(Clamp(PreClamp(rawProb, cgpa, internship, matchPercentage, projects1, dsaScore, resumeQuality,
                                  hackathons, role, roleDifficulty), 5.0, 95.0))
         <= Round2(Clamp(PreClamp(rawProb, cgpa, internship, matchPercentage, projects2, dsaScore, resumeQuality,
                                  hackathons, role, roleDifficulty), 5.0, 95.0))
  {
    var m := Multiplier(role, roleDifficulty);
    var b1 := Blend(rawProb, projects1, dsaScore, resumeQuality, hackathons);
    var b2 := Blend(rawProb, projects2, dsaScore, resumeQuality, hackathons);
    ScaledPenaltiesStrict(b1, b2, m, internship, cgpa, matchPercentage);
    var p1 := PreClamp(rawProb, cgpa, internship, matchPercentage, projects1, dsaScore, resumeQuality,
                       hackathons, role, roleDifficulty);
    var p2 := PreClamp(rawProb, cgpa, internship, matchPercentage, projects2, dsaScore, resumeQuality,
                       hackathons, role, roleDifficulty);
    ClampMonotone(p1, p2, 5.0, 95.0);
    Round2Facts(Clamp(p1, 5.0, 95.0), Clamp(p2, 5.0, 95.0), 0);
  }

  lemma ScaledPenaltiesStrict(b1: real, b2: real, m: real, internship: int, cgpa: real, matchPercentage: real)
    requires b1 < b2 && m > 0.0
    ensures Penalized(b1 * m, internship, cgpa, matchPercentage) < Penalized(b2 * m, internship, cgpa, matchPercentage)
  {
    ScaleStrict(b1, b2, m);
    PenaltiesStrictlyMonotone(b1 * m, b2 * m, internship, cgpa, matchPercentage);
  }
}
