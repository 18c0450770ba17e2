/**
 * The earlier version of the feedback service (main_OLD_backup.py). Its tempo, rhythm
 * and density classifiers, its artist rules and its score formulas are the ones of
 * main.py and are reused from `JazzFeedback`. It differs in four places: the swing
 * feel is decided inline with two outcomes only; the tips read differently; the
 * language-model reply is cut down to its JSON object before parsing; and the
 * rule-based feedback is only the fallback when no model feedback arrives.
 */
module JazzFeedbackBackup {
  import opened Wrappers
  import Seqs
  import Text
  import JF = JazzFeedback

  const ClassicSwing := "Classic Swing Feel"
  const ComplexSwing := "Complex Swing"

  /** The inline swing feel of `analyze_jazz_patterns`. */
  function SwingFeel(complexity: real): (r: string)
    ensures r == ClassicSwing <==> 3.0 <= complexity < 6.0
    ensures r == ComplexSwing <==> !(3.0 <= complexity < 6.0)
  {
    if 3.0 <= complexity < 6.0 then ClassicSwing else ComplexSwing
  }

  /** `analyze_jazz_patterns` of this version. */
  function AnalyzeJazzPatterns(f: JF.Features): (a: JF.JazzAnalysis)
    ensures |a.similarArtists| == 2
  {
    JF.JazzAnalysis(
      JF.TempoCategory(f.tempo),
      JF.TempoReference(f.tempo),
      JF.RhythmAssessment(f.rhythmComplexity),
      JF.DensityAssessment(f.noteDensity),
      SwingFeel(f.rhythmComplexity),
      JF.SimilarArtists(f.tempo, f.noteDensity))
  }

  /** The two versions agree on everything but the swing feel, where the inline test calls
      a complexity below 3 "Complex Swing" and the later version calls it straight
      eighths; the classic swing feel is found on the same interval by both. */
  lemma AgreesWithLaterVersion(f: JF.Features)
    ensures var earlier := AnalyzeJazzPatterns(f);
      var later := JF.AnalyzeJazzPatterns(f);
      && earlier.tempoCategory == later.tempoCategory
      && earlier.tempoReference == later.tempoReference
      && earlier.rhythmAssessment == later.rhythmAssessment
      && earlier.densityAssessment == later.densityAssessment
      && earlier.similarArtists == later.similarArtists
      && (earlier.swingFeel == ClassicSwing <==> later.swingFeel == JF.ClassicSwing)
      && (f.rhythmComplexity < 3.0 ==> earlier.swingFeel == ComplexSwing && later.swingFeel == JF.StraightSwing)
  {
    JF.AssessmentIntervals(f.rhythmComplexity, f.noteDensity);
  }

  /** The swing feel of this version says "Classic" exactly when the rhythm is assessed
      as moderately complex. */
  lemma SwingMatchesRhythm(f: JF.Features)
    ensures var a := AnalyzeJazzPatterns(f);
      a.swingFeel == ClassicSwing <==> a.rhythmAssessment == JF.ModerateRhythm
  {
    JF.AssessmentIntervals(f.rhythmComplexity, f.noteDensity);
  }

  // ---------------------------------------------------------------------------
  // generate_rule_based_feedback

  function RhythmTips(tempoText: string, artist: string, swingFeel: string): seq<string> {
    ["Übe mit Metronom bei " + tempoText + " BPM",
     "Höre dir " + artist + " für rhythmische Inspiration an",
     "Arbeite am " + swingFeel]
  }

  const HarmonyTips: seq<string> := [
    "Experimentiere mit ii-V-I Progressionen",
    "Nutze chromatische Approach-Töne",
    "Studiere Bebop-Scales"]

  function MelodyTips(artists: seq<string>): seq<string> {
    ["Variiere Phrasenlängen",
     "Nutze mehr Pausen zwischen Phrasen",
     "Studiere " + JF.JoinComma(Seqs.Take(artists, 2))]
  }

  const ArticulationTips: seq<string> := [
    "Arbeite an dynamischen Kontrasten",
    "Nutze Akzente für rhythmische Betonung",
    "Experimentiere mit Ghost Notes"]

  /** `generate_rule_based_feedback` of this version: the later version's scores, with
      shorter tips. */
  function RuleBasedFeedback(f: JF.Features, a: JF.JazzAnalysis, tempoText: string): JF.Feedback
    requires a.similarArtists != []
  {
    JF.Feedback(
      JF.Category(JF.RhythmScore(f.tempoStability, f.rhythmComplexity),
                  RhythmTips(tempoText, a.similarArtists[0], a.swingFeel)),
      JF.Category(JF.HarmonyScore, HarmonyTips),
      JF.Category(JF.MelodyScore(f.noteDensity), MelodyTips(a.similarArtists)),
      JF.Category(JF.ArticulationScore(f.dynamicRange), ArticulationTips))
  }

  /** Both versions give every category three tips and the same four scores. */
  lemma RuleBasedAgreesWithLaterVersion(f: JF.Features, a: JF.JazzAnalysis, tempoText: string)
    requires a.similarArtists != []
    ensures var fb := RuleBasedFeedback(f, a, tempoText);
      var later := JF.RuleBasedFeedback(f, a, tempoText);
      && |fb.rhythm.tips| == 3 && |fb.harmony.tips| == 3
      && |fb.melody.tips| == 3 && |fb.articulation.tips| == 3
      && fb.rhythm.score == later.rhythm.score && fb.harmony.score == later.harmony.score
      && fb.melody.score == later.melody.score && fb.articulation.score == later.articulation.score
      && JF.OverallScore(fb) == JF.OverallScore(later)
  {
  }

  // ---------------------------------------------------------------------------
  // get_apertus_feedback: cutting the reply down to its JSON object

  /** `s[lo:hi]` for non-negative bounds: both are cut to the length, and an empty slice
      results when `hi` is not beyond `lo`. */
  function Slice(s: string, lo: nat, hi: nat): (r: string)
    ensures lo < hi <= |s| ==> r == s[lo..hi]
    ensures hi <= lo ==> r == []
    ensures |r| <= |s|
  {
    var l := if lo < |s| then lo else |s|;
    var h := if hi < |s| then hi else |s|;
    if h <= l then [] else s[l..h]
  }

  /** The reply with every "```json" and then every "```" removed, and stripped. */
  function CleanReply(text: string): string {
    Text.Strip(Text.ReplaceAll(Text.ReplaceAll(text, "```json", ""), "```", ""))
  }

  /** The slice of the cleaned reply handed to the JSON parser: when it holds a '{', from
      its first '{' through its last '}'. */
  function JsonSlice(clean: string): string {
    if '{' in clean then
      var jsonStart := Text.FindChar(clean, '{');
      var jsonEnd := Text.RFindChar(clean, '}') + 1;
      Slice(clean, jsonStart, jsonEnd)
    else clean
  }

  /** The text handed to the JSON parser for a reply. */
  function JsonCandidate(text: string): string {
    JsonSlice(CleanReply(text))
  }

  /** Without a '{' the cleaned reply is parsed as it is; with a '{' but no '}' after it
      the candidate is empty. */
  lemma JsonSliceFallbacks(clean: string)
    ensures '{' !in clean ==> JsonSlice(clean) == clean
    ensures '{' in clean && Text.RFindChar(clean, '}') < Text.FindChar(clean, '{') ==> JsonSlice(clean) == []
    ensures |JsonSlice(clean)| <= |clean|
  {
  }

  /** A slice from a '{' through a later '}' starts with '{' and ends with '}'. */
  lemma SliceBetweenBraces(s: string, lo: nat, hi: nat)
    requires lo < hi < |s| && s[lo] == '{' && s[hi] == '}'
    ensures var r := Slice(s, lo, hi + 1); r == s[lo..hi + 1] && |r| >= 2 && r[0] == '{' && r[|r| - 1] == '}'
  {
    Seqs.SliceEnds(s, lo, hi);
  }

  /** With a '{' (its index is not -1) and a '}' after it, the candidate is the cleaned
      reply from its first '{' through its last '}', so it starts with '{' and ends with
      '}'. */
  lemma JsonSliceObject(clean: string)
    requires 0 <= Text.FindChar(clean, '{') < Text.RFindChar(clean, '}')
    ensures var first, last := Text.FindChar(clean, '{'), Text.RFindChar(clean, '}');
      var r := JsonSlice(clean);
      && r == clean[first..last + 1]
      && |r| >= 2 && r[0] == '{' && r[|r| - 1] == '}'
  {
    var first, last := Text.FindChar(clean, '{'), Text.RFindChar(clean, '}');
    JsonSliceBetween(clean);
    SliceBetweenBraces(clean, first, last);
  }

  /** In that case the candidate is the slice between the two indices found. */
  lemma JsonSliceBetween(clean: string)
    requires 0 <= Text.FindChar(clean, '{') < Text.RFindChar(clean, '}')
    ensures JsonSlice(clean) == Slice(clean, Text.FindChar(clean, '{'), Text.RFindChar(clean, '}') + 1)
  {
  }

  /** The slice is the widest one: no '{' comes before it and no '}' after it. */
  lemma JsonSliceWidest(clean: string)
    ensures var first := Text.FindChar(clean, '{');
      var last := Text.RFindChar(clean, '}');
      '{' in clean && first < last ==>
        '{' !in clean[..first] && '}' !in clean[last + 1..]
  {
    var first := Text.FindChar(clean, '{');
    var last := Text.RFindChar(clean, '}');
    if '{' in clean && first < last {
      assert forall i :: 0 <= i < first ==> clean[..first][i] == clean[i];
      assert forall i :: last + 1 <= i < |clean| ==> clean[last + 1..][i - last - 1] == clean[i];
    }
  }

  /** `get_apertus_feedback`: without a client (or when the call fails, `reply` is `None`)
      there is no feedback. Otherwise `parse`, standing for `json.loads` and the checks
      made on its result, gets the cleaned reply when it holds no '{', the cleaned reply
      from its first '{' through its last '}' when such a '}' exists, and the empty text
      when no '}' follows the first '{'. */
  function ApertusFeedback(reply: Option<string>, parse: string -> Option<JF.Feedback>): (r: Option<JF.Feedback>)
    ensures reply.None? ==> r.None?
    ensures reply.Some? ==>
      var c := CleanReply(reply.value);
      && ('{' !in c ==> r == parse(c))
      && (0 <= Text.FindChar(c, '{') < Text.RFindChar(c, '}') ==>
            r == parse(c[Text.FindChar(c, '{')..Text.RFindChar(c, '}') + 1]))
      && ('{' in c && Text.RFindChar(c, '}') < Text.FindChar(c, '{') ==> r == parse([]))
  {
    if reply.None? then None
    else
      CandidateCases(reply.value);
      parse(JsonCandidate(reply.value))
  }

  /** The candidate in each of the three cases of the cleaned reply. */
  lemma CandidateCases(text: string)
    ensures var c := CleanReply(text);
      && ('{' !in c ==> JsonCandidate(text) == c)
      && (0 <= Text.FindChar(c, '{') < Text.RFindChar(c, '}') ==>
            JsonCandidate(text) == c[Text.FindChar(c, '{')..Text.RFindChar(c, '}') + 1])
      && ('{' in c && Text.RFindChar(c, '}') < Text.FindChar(c, '{') ==> JsonCandidate(text) == [])
  {
    var c := CleanReply(text);
    JsonSliceFallbacks(c);
    if 0 <= Text.FindChar(c, '{') < Text.RFindChar(c, '}') {
      JsonSliceObject(c);
    }
  }

  // ---------------------------------------------------------------------------
  // process_audio_in_background

  /** The result stored by the background task: the model's feedback when there is one,
      otherwise the rule-based one, and the mean of its four scores. */
  function ProcessAudio(f: JF.Features, reply: Option<string>, parse: string -> Option<JF.Feedback>,
                        tempoText: string): JF.AnalysisResult
  {
    var a := AnalyzeJazzPatterns(f);
    var ai := ApertusFeedback(reply, parse);
    var fb := if ai.Some? then ai.value else RuleBasedFeedback(f, a, tempoText);
    JF.AnalysisResult(JF.OverallScore(fb), a, fb)
  }

  /** Without model feedback the scores, and so the overall score, are the later
      version's, which lies in [3.875, 8.375] for a stability in [0, 1] and a non-negative
      dynamic range; with model feedback the overall score is the mean of its scores. */
  lemma ProcessAudioScore(f: JF.Features, reply: Option<string>, parse: string -> Option<JF.Feedback>,
                          tempoText: string)
    ensures var r := ProcessAudio(f, reply, parse, tempoText);
      var ai := ApertusFeedback(reply, parse);
      && (ai.Some? ==> r.feedback == ai.value)
      && (ai.None? ==> r.overallScore == JF.AnalyzeAudio(f, tempoText).overallScore)
      && (ai.None? && 0.0 <= f.tempoStability <= 1.0 && f.dynamicRange >= 0.0 ==>
            3.875 <= r.overallScore <= 8.375)
  {
    var ai := ApertusFeedback(reply, parse);
    if ai.None? {
      var a := AnalyzeJazzPatterns(f);
      AgreesWithLaterVersion(f);
      RuleBasedAgreesWithLaterVersion(f, a, tempoText);
      var later := JF.AnalyzeJazzPatterns(f);
      assert JF.OverallScore(JF.RuleBasedFeedback(f, a, tempoText))
          == JF.OverallScore(JF.RuleBasedFeedback(f, later, tempoText));
      if 0.0 <= f.tempoStability <= 1.0 && f.dynamicRange >= 0.0 {
        JF.OverallScoreBounds(f, tempoText);
      }
    }
  }
}
