/**
 * The rule-based part of the audio feedback service (main.py): the clipping of the
 * tempo-stability and rhythm-complexity measures, the jazz classification of the
 * measured features (tempo category, assessments, swing feel, similar artists), the
 * rule-based scores with their tips, and the overall score.
 *
 * Audio analysis itself (beat tracking, onsets, RMS energy) is not modelled: the
 * statistics it produces enter as reals, and the standard-deviation-over-mean ratios
 * behind stability and complexity enter as opaque reals.
 */
module JazzFeedback {
  import Seqs

  /** The features the classifiers read from `analyze_audio_file`'s result. */
  datatype Features = Features(
    tempo: real,
    tempoStability: real,
    rhythmComplexity: real,
    noteDensity: real,
    dynamicRange: real)

  /** `np.clip(x, lo, hi)`. */
  function Clip(x: real, lo: real, hi: real): (r: real)
    requires lo <= hi
    ensures lo <= r <= hi
    ensures lo <= x <= hi ==> r == x
    ensures x < lo ==> r == lo
    ensures hi < x ==> r == hi
  {
    if x < lo then lo else if hi < x then hi else x
  }

  /** `calculate_tempo_stability`: `ratio` stands for the standard deviation of the beat
      intervals over their mean. Fewer than three beats give 0.5. */
  function TempoStability(beatCount: nat, ratio: real): (s: real)
    ensures 0.0 <= s <= 1.0
    ensures beatCount < 3 ==> s == 0.5
    ensures beatCount >= 3 && 0.0 <= ratio <= 1.0 ==> s == 1.0 - ratio
    ensures beatCount >= 3 && ratio >= 1.0 ==> s == 0.0
  {
    if beatCount < 3 then 0.5 else Clip(1.0 - ratio, 0.0, 1.0)
  }

  /** `calculate_rhythm_complexity`: `ratio` stands for the standard deviation of the
      onset intervals over their mean, scaled by five. Fewer than three onsets give 1.0. */
  function RhythmComplexity(onsetCount: nat, ratio: real): (c: real)
    ensures 0.0 <= c <= 10.0
    ensures onsetCount < 3 ==> c == 1.0
    ensures onsetCount >= 3 && 0.0 <= ratio <= 2.0 ==> c == 5.0 * ratio
    ensures onsetCount >= 3 && ratio >= 2.0 ==> c == 10.0
  {
    if onsetCount < 3 then 1.0 else Clip(ratio * 5.0, 0.0, 10.0)
  }

  // ---------------------------------------------------------------------------
  // analyze_jazz_patterns

  /** The tempo category, tests in order; everything outside [60, 200) falls through. */
  function TempoCategory(tempo: real): string {
    if 60.0 <= tempo < 100.0 then "Ballad"
    else if 100.0 <= tempo < 140.0 then "Medium Swing"
    else if 140.0 <= tempo < 200.0 then "Up-Tempo/Bebop"
    else "Very Fast"
  }

  /** The reference recording named with the category. */
  function TempoReference(tempo: real): string {
    if 60.0 <= tempo < 100.0 then "Ähnlich Bill Evans' 'Waltz for Debby'"
    else if 100.0 <= tempo < 140.0 then "Typisch für Miles Davis' 'So What'"
    else if 140.0 <= tempo < 200.0 then "Charlie Parker Bebop-Tempo"
    else "John Coltrane 'Giant Steps' Tempo"
  }

  const SimpleRhythm := "Einfache, klare Phrasierung"
  const ModerateRhythm := "Moderate Komplexität, gut balanciert"
  const HecticRhythm := "Sehr komplex, evtl. zu hektisch"

  function RhythmAssessment(complexity: real): string {
    if complexity < 3.0 then SimpleRhythm
    else if 3.0 <= complexity < 6.0 then ModerateRhythm
    else HecticRhythm
  }

  const SparseDensity := "Sparsame Phrasierung (Monk-Stil)"
  const BalancedDensity := "Ausgewogene Dichte (Mainstream Jazz)"
  const DenseDensity := "Sehr dichte Lines (Bebop/Coltrane-Stil)"

  function DensityAssessment(density: real): string {
    if density < 2.0 then SparseDensity
    else if 2.0 <= density < 4.0 then BalancedDensity
    else DenseDensity
  }

  const StraightSwing := "Straight/Even Eighths"
  const ClassicSwing := "Classic Swing Feel (2:1)"
  const ModernSwing := "Complex/Modern Swing"

  /** `estimate_swing_feel`, on the rhythm complexity. */
  function EstimateSwingFeel(complexity: real): string {
    if complexity < 3.0 then StraightSwing
    else if 3.0 <= complexity < 6.0 then ClassicSwing
    else ModernSwing
  }

  /** `get_similar_artists`: the first rule that matches picks the pair. */
  function SimilarArtists(tempo: real, density: real): (r: seq<string>)
    ensures |r| == 2
  {
    if tempo < 100.0 && density < 2.0 then ["Bill Evans", "Keith Jarrett"]
    else if 140.0 <= tempo < 200.0 && density > 3.0 then ["Charlie Parker", "Dizzy Gillespie"]
    else if density > 4.0 then ["John Coltrane", "Michael Brecker"]
    else ["Miles Davis", "Dexter Gordon"]
  }

  datatype JazzAnalysis = JazzAnalysis(
    tempoCategory: string,
    tempoReference: string,
    rhythmAssessment: string,
    densityAssessment: string,
    swingFeel: string,
    similarArtists: seq<string>)

  /** `analyze_jazz_patterns`. */
  function AnalyzeJazzPatterns(f: Features): (a: JazzAnalysis)
    ensures |a.similarArtists| == 2
  {
    JazzAnalysis(
      TempoCategory(f.tempo),
      TempoReference(f.tempo),
      RhythmAssessment(f.rhythmComplexity),
      DensityAssessment(f.noteDensity),
      EstimateSwingFeel(f.rhythmComplexity),
      SimilarArtists(f.tempo, f.noteDensity))
  }

  /** The four tempo categories are the intervals [60, 100), [100, 140), [140, 200) and
      everything else, so a tempo below 60 is classed "Very Fast" as well. */
  lemma TempoCategoryIntervals(tempo: real)
    ensures TempoCategory(tempo) == "Ballad" <==> 60.0 <= tempo < 100.0
    ensures TempoCategory(tempo) == "Medium Swing" <==> 100.0 <= tempo < 140.0
    ensures TempoCategory(tempo) == "Up-Tempo/Bebop" <==> 140.0 <= tempo < 200.0
    ensures TempoCategory(tempo) == "Very Fast" <==> tempo < 60.0 || 200.0 <= tempo
  {
  }

  /** The reference always goes with its category: it is a function of the category. */
  lemma ReferenceFollowsCategory(t1: real, t2: real)
    ensures TempoCategory(t1) == TempoCategory(t2) <==> TempoReference(t1) == TempoReference(t2)
  {
  }

  /** The rhythm assessment, the density assessment and the swing feel each take exactly
      one of three values, split at the documented thresholds. */
  lemma AssessmentIntervals(complexity: real, density: real)
    ensures RhythmAssessment(complexity) == SimpleRhythm <==> complexity < 3.0
    ensures RhythmAssessment(complexity) == ModerateRhythm <==> 3.0 <= complexity < 6.0
    ensures RhythmAssessment(complexity) == HecticRhythm <==> 6.0 <= complexity
    ensures DensityAssessment(density) == SparseDensity <==> density < 2.0
    ensures DensityAssessment(density) == BalancedDensity <==> 2.0 <= density < 4.0
    ensures DensityAssessment(density) == DenseDensity <==> 4.0 <= density
    ensures EstimateSwingFeel(complexity) == StraightSwing <==> complexity < 3.0
    ensures EstimateSwingFeel(complexity) == ClassicSwing <==> 3.0 <= complexity < 6.0
    ensures EstimateSwingFeel(complexity) == ModernSwing <==> 6.0 <= complexity
  {
  }

  /** The swing feel and the rhythm assessment share their thresholds, so each determines
      the other. */
  lemma SwingMatchesRhythm(f: Features)
    ensures var a := AnalyzeJazzPatterns(f);
      && (a.swingFeel == StraightSwing <==> a.rhythmAssessment == SimpleRhythm)
      && (a.swingFeel == ClassicSwing <==> a.rhythmAssessment == ModerateRhythm)
      && (a.swingFeel == ModernSwing <==> a.rhythmAssessment == HecticRhythm)
  {
    AssessmentIntervals(f.rhythmComplexity, f.noteDensity);
  }

  /** Which pair is chosen, rule by rule: each rule applies only when the earlier ones
      do not. */
  lemma SimilarArtistsRules(tempo: real, density: real)
    ensures SimilarArtists(tempo, density)[0] == "Bill Evans" <==> tempo < 100.0 && density < 2.0
    ensures SimilarArtists(tempo, density)[0] == "Charlie Parker" <==>
              !(tempo < 100.0 && density < 2.0) && 140.0 <= tempo < 200.0 && density > 3.0
    ensures SimilarArtists(tempo, density)[0] == "John Coltrane" <==>
              !(tempo < 100.0 && density < 2.0) && !(140.0 <= tempo < 200.0 && density > 3.0)
              && density > 4.0
    ensures SimilarArtists(tempo, density)[0] == "Miles Davis" <==>
              !(tempo < 100.0 && density < 2.0) && !(140.0 <= tempo < 200.0 && density > 3.0)
              && density <= 4.0
  {
  }

  /** The artists agree with the other classifications: Parker and Gillespie come only
      with the bebop category, Coltrane and Brecker only with dense lines, and Evans and
      Jarrett only with sparse phrasing, in a ballad or, below 60, a "Very Fast" tempo. */
  lemma ArtistsAgreeWithCategories(f: Features)
    ensures var a := AnalyzeJazzPatterns(f);
      && (a.similarArtists[0] == "Charlie Parker" ==> a.tempoCategory == "Up-Tempo/Bebop")
      && (a.similarArtists[0] == "John Coltrane" ==> a.densityAssessment == DenseDensity)
      && (a.similarArtists[0] == "Bill Evans" ==>
            a.densityAssessment == SparseDensity
            && (a.tempoCategory == "Ballad" || a.tempoCategory == "Very Fast"))
  {
    SimilarArtistsRules(f.tempo, f.noteDensity);
    TempoCategoryIntervals(f.tempo);
    AssessmentIntervals(f.rhythmComplexity, f.noteDensity);
  }

  /** A slow piece at 50 BPM is classed "Very Fast", with the Giant Steps reference, and
      compared with Evans and Jarrett when its phrasing is sparse. */
  lemma SlowTempoIsVeryFast(density: real)
    requires density < 2.0
    ensures var a := AnalyzeJazzPatterns(Features(50.0, 1.0, 1.0, density, 1.0));
      && a.tempoCategory == "Very Fast"
      && a.tempoReference == "John Coltrane 'Giant Steps' Tempo"
      && a.similarArtists == ["Bill Evans", "Keith Jarrett"]
  {
  }

  // ---------------------------------------------------------------------------
  // generate_rule_based_feedback

  /** Stability weighted by five, plus five for a complexity in [3, 6] and three otherwise. */
  function RhythmScore(stability: real, complexity: real): (s: real)
    ensures 0.0 <= stability <= 1.0 ==> 3.0 <= s <= 10.0
    ensures 3.0 <= complexity <= 6.0 ==> s == 5.0 * stability + 5.0
    ensures !(3.0 <= complexity <= 6.0) ==> s == 5.0 * stability + 3.0
  {
    stability * 5.0 + (if 3.0 <= complexity <= 6.0 then 5.0 else 3.0)
  }

  const HarmonyScore: real := 7.0

  /** 6.5 for a density in [2, 4], 4 included (unlike the density assessment), else 5.5. */
  function MelodyScore(density: real): (s: real)
    ensures s == 6.5 || s == 5.5
    ensures s == 6.5 <==> 2.0 <= density <= 4.0
  {
    if 2.0 <= density <= 4.0 then 6.5 else 5.5
  }

  /** Twice the dynamic range, capped at ten. */
  function ArticulationScore(dynamicRange: real): (s: real)
    ensures s <= 10.0
    ensures dynamicRange * 2.0 <= 10.0 ==> s == dynamicRange * 2.0
    ensures dynamicRange * 2.0 >= 10.0 ==> s == 10.0
    ensures dynamicRange >= 0.0 ==> 0.0 <= s
  {
    if 10.0 <= dynamicRange * 2.0 then 10.0 else dynamicRange * 2.0
  }

  /** The melody score counts a density of exactly four as balanced while the density
      assessment already calls it dense. */
  lemma MelodyAtFour()
    ensures MelodyScore(4.0) == 6.5 && DensityAssessment(4.0) == DenseDensity
  {
  }

  /** One feedback category: its score and its tips. The feedback sentences, which format
      numbers, are not modelled. */
  datatype Category = Category(score: real, tips: seq<string>)

  datatype Feedback = Feedback(rhythm: Category, harmony: Category, melody: Category, articulation: Category)

  /** `', '.join(parts)`. */
  function JoinComma(parts: seq<string>): string {
    if parts == [] then ""
    else if |parts| == 1 then parts[0]
    else parts[0] + ", " + JoinComma(parts[1..])
  }

  /** The rhythm tips: practise at the tempo, listen to the first artist, work on the
      swing feel. */
  function RhythmTips(tempoText: string, artist: string, swingFeel: string): seq<string> {
    ["Übe mit Metronom bei " + tempoText + " BPM",
     "Höre dir " + artist + " für rhythmische Inspiration an",
     "Arbeite am " + swingFeel]
  }

  const HarmonyTips: seq<string> := [
    "Experimentiere mit ii-V-I Progressionen",
    "Nutze chromatische Approach-Töne",
    "Studiere Bebop-Scales für mehr harmonische Freiheit"]

  /** The melody tips: phrase lengths ("dicht" above a density of three, else "sparsam"),
      pauses, and the first two artists. */
  function MelodyTips(density: real, artists: seq<string>): seq<string> {
    ["Variiere Phrasenlängen - aktuell eher " + (if density > 3.0 then "dicht" else "sparsam"),
     "Nutze mehr Pausen zwischen Phrasen",
     "Studiere " + JoinComma(Seqs.Take(artists, 2)) + " für melodische Ideen"]
  }

  const ArticulationTips: seq<string> := [
    "Arbeite an extremeren dynamischen Kontrasten",
    "Nutze Akzente für rhythmische Betonung",
    "Experimentiere mit Ghost Notes für mehr Groove"]

  /** `generate_rule_based_feedback`; `tempoText` is the tempo as printed with no decimals. */
  function RuleBasedFeedback(f: Features, a: JazzAnalysis, tempoText: string): (fb: Feedback)
    requires a.similarArtists != []
  {
    Feedback(
      Category(RhythmScore(f.tempoStability, f.rhythmComplexity),
               RhythmTips(tempoText, a.similarArtists[0], a.swingFeel)),
      Category(HarmonyScore, HarmonyTips),
      Category(MelodyScore(f.noteDensity), MelodyTips(f.noteDensity, a.similarArtists)),
      Category(ArticulationScore(f.dynamicRange), ArticulationTips))
  }

  /** Every category holds three tips; harmony always scores 7, melody 6.5 or 5.5,
      articulation at most 10 and, for a stability in [0, 1], rhythm between 3 and 10. */
  lemma RuleBasedFeedbackProperties(f: Features, a: JazzAnalysis, tempoText: string)
    requires a.similarArtists != []
    ensures var fb := RuleBasedFeedback(f, a, tempoText);
      && |fb.rhythm.tips| == 3 && |fb.harmony.tips| == 3
      && |fb.melody.tips| == 3 && |fb.articulation.tips| == 3
      && fb.harmony.score == 7.0
      && (fb.melody.score == 6.5 <==> 2.0 <= f.noteDensity <= 4.0)
      && (fb.melody.score == 6.5 || fb.melody.score == 5.5)
      && fb.articulation.score <= 10.0
      && (0.0 <= f.tempoStability <= 1.0 ==> 3.0 <= fb.rhythm.score <= 10.0)
  {
  }

  /** The second rhythm tip and the last melody tip name the artists found, and the last
      rhythm tip the swing feel. */
  lemma TipsNameArtists(f: Features, tempoText: string)
    ensures var a := AnalyzeJazzPatterns(f);
      var fb := RuleBasedFeedback(f, a, tempoText);
      && fb.rhythm.tips[1] == "Höre dir " + a.similarArtists[0] + " für rhythmische Inspiration an"
      && fb.melody.tips[2] == "Studiere " + a.similarArtists[0] + ", " + a.similarArtists[1] + " für melodische Ideen"
      && fb.rhythm.tips[2] == "Arbeite am " + EstimateSwingFeel(f.rhythmComplexity)
  {
    var two := SimilarArtists(f.tempo, f.noteDensity);
    JoinTwo(two);
  }

  lemma JoinTwo(two: seq<string>)
    requires |two| == 2
    ensures JoinComma(Seqs.Take(two, 2)) == two[0] + ", " + two[1]
  {
    assert Seqs.Take(two, 2) == two;
    assert JoinComma(two[1..]) == two[1];
  }

  // ---------------------------------------------------------------------------
  // analyze_audio

  /** The overall score: the mean of the four category scores. */
  function OverallScore(fb: Feedback): real {
    (fb.rhythm.score + fb.harmony.score + fb.melody.score + fb.articulation.score) / 4.0
  }

  datatype AnalysisResult = AnalysisResult(overallScore: real, jazzAnalysis: JazzAnalysis, feedback: Feedback)

  /** `analyze_audio` after the audio analysis: the jazz analysis, the feedback (the
      language-model call is commented out, so always the rule-based one) and the overall
      score. */
  function AnalyzeAudio(f: Features, tempoText: string): AnalysisResult {
    var a := AnalyzeJazzPatterns(f);
    var fb := RuleBasedFeedback(f, a, tempoText);
    AnalysisResult(OverallScore(fb), a, fb)
  }

  /** The mean of four scores lies between their least and largest value. */
  lemma OverallBetween(fb: Feedback, lo: real, hi: real)
    requires lo <= fb.rhythm.score <= hi && lo <= fb.harmony.score <= hi
    requires lo <= fb.melody.score <= hi && lo <= fb.articulation.score <= hi
    ensures lo <= OverallScore(fb) <= hi
  {
  }

  /** For a stability in [0, 1] and a non-negative dynamic range the overall score lies in
      [3.875, 8.375]: rhythm in [3, 10], harmony 7, melody at least 5.5 and at most 6.5,
      articulation in [0, 10]. */
  lemma OverallScoreBounds(f: Features, tempoText: string)
    requires 0.0 <= f.tempoStability <= 1.0 && f.dynamicRange >= 0.0
    ensures 3.875 <= AnalyzeAudio(f, tempoText).overallScore <= 8.375
  {
    var r := AnalyzeAudio(f, tempoText);
    RuleBasedFeedbackProperties(f, r.jazzAnalysis, tempoText);
    var fb := r.feedback;
    assert r.overallScore == (fb.rhythm.score + 7.0 + fb.melody.score + fb.articulation.score) / 4.0;
  }

  /** Features measured from audio always have a stability in [0, 1], so the bounds hold
      whenever the dynamic range is non-negative, as a ratio of RMS energies is. */
  lemma MeasuredScoreBounds(tempo: real, beatCount: nat, beatRatio: real, onsetCount: nat,
                            onsetRatio: real, density: real, dynamicRange: real, tempoText: string)
    requires dynamicRange >= 0.0
    ensures var f := Features(tempo, TempoStability(beatCount, beatRatio),
                              RhythmComplexity(onsetCount, onsetRatio), density, dynamicRange);
      3.875 <= AnalyzeAudio(f, tempoText).overallScore <= 8.375
  {
    var f := Features(tempo, TempoStability(beatCount, beatRatio),
                      RhythmComplexity(onsetCount, onsetRatio), density, dynamicRange);
    OverallScoreBounds(f, tempoText);
  }
}
