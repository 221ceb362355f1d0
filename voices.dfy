/**
  `findBestVoice` of the browser client: English voices are scored against a
  priority list of case-insensitive patterns; a winner scoring 5 or more is
  kept, otherwise the choice falls back to `voices.find` over the list.
 */
module Voices {
  import opened Wrappers
  import opened Text

  /** A speech-synthesis voice: its name and its BCP 47 language tag. */
  datatype Voice = Voice(name: string, lang: string)

  /** A pattern (matched case-insensitively against name or lang) and its priority. */
  datatype Preference = Preference(pattern: string, priority: nat)

  /** The priority list, highest first. */
  const VoicePreferences: seq<Preference> := [
    Preference("google", 10),
    Preference("microsoft", 9),
    Preference("samantha", 8),
    Preference("alex", 7),
    Preference("david", 6),
    Preference("en-in", 5),
    Preference("indian", 4),
    Preference("raj", 4),
    Preference("dev", 4),
    Preference("male", 3),
    Preference("en-", 2)
  ]

  /** A winner scoring below this is discarded in favour of the fallback search. */
  const QualityThreshold := 5

  /** `pattern.test(voice.name) || pattern.test(voice.lang)` for a pattern of lower-case letters with the `i` flag. */
  predicate Matches(pattern: string, v: Voice)
  {
    Contains(Lower(v.name), pattern) || Contains(Lower(v.lang), pattern)
  }

  /** `voice.lang.startsWith('en')`, case-sensitive. */
  predicate IsEnglish(v: Voice)
  {
    StartsWith(v.lang, "en")
  }

  /** The fallback's first test: English, and a premium vendor or voice name in the lower-cased name. */
  predicate IsPremiumEnglish(v: Voice)
  {
    var name := Lower(v.name);
    IsEnglish(v) &&
    (Contains(name, "google") || Contains(name, "microsoft") || Contains(name, "samantha") || Contains(name, "alex"))
  }

  /** The score of `v`: the highest priority among the matching preferences, 0 when none matches. */
  function ScoreOf(v: Voice, prefs: seq<Preference>): (score: nat)
    ensures forall i :: 0 <= i < |prefs| && Matches(prefs[i].pattern, v) ==> prefs[i].priority <= score
    ensures score == 0 || exists i :: 0 <= i < |prefs| && Matches(prefs[i].pattern, v) && prefs[i].priority == score
  {
    if prefs == [] then 0
    else
      var front, last := prefs[..|prefs| - 1], prefs[|prefs| - 1];
      var earlier := ScoreOf(v, front);
      assert forall i :: 0 <= i < |front| ==> front[i] == prefs[i];
      if Matches(last.pattern, v) && last.priority > earlier then last.priority else earlier
  }

  /** The score `findBestVoice` gives a voice. */
  function Score(v: Voice): nat
  {
    ScoreOf(v, VoicePreferences)
  }

  /**
    The scoring loop over `voices`: the best voice so far and its score,
    starting from (null, -1); only English voices are scored and only a
    strictly higher score replaces the best.
   */
  function ScoringPass(voices: seq<Voice>, score: Voice -> nat): (r: (Option<Voice>, int))
    ensures r.0.Some? ==> r.0.value in voices && IsEnglish(r.0.value) && r.1 == score(r.0.value)
    ensures r.0.None? <==> r.1 == -1
    ensures r.1 >= -1
  {
    if voices == [] then (None, -1)
    else
      var previous := ScoringPass(voices[..|voices| - 1], score);
      var v := voices[|voices| - 1];
      if IsEnglish(v) && score(v) > previous.1 then (Some(v), score(v)) else previous
  }

  /** Index `i` is the voice the scoring loop keeps: English, top-scoring, and the first to reach that score. */
  predicate IsScoringWinner(voices: seq<Voice>, score: Voice -> nat, i: int)
  {
    0 <= i < |voices| && IsEnglish(voices[i]) &&
    (forall j :: 0 <= j < |voices| && IsEnglish(voices[j]) ==> score(voices[j]) <= score(voices[i])) &&
    (forall j :: 0 <= j < i && IsEnglish(voices[j]) ==> score(voices[j]) < score(voices[i]))
  }

  predicate HasEnglish(voices: seq<Voice>)
  {
    exists i :: 0 <= i < |voices| && IsEnglish(voices[i])
  }

  /** `voices.find(p)`, as the index of the first voice satisfying `p`. */
  function FindIndex(voices: seq<Voice>, p: Voice -> bool): (r: Option<nat>)
    ensures r.Some? ==> r.value < |voices| && p(voices[r.value])
    ensures r.Some? ==> forall j :: 0 <= j < r.value ==> !p(voices[j])
    ensures r.None? ==> forall j :: 0 <= j < |voices| ==> !p(voices[j])
  {
    if voices == [] then None
    else if p(voices[0]) then Some(0)
    else
      var r := FindIndex(voices[1..], p);
      if r.Some? then Some(r.value + 1) else None
  }

  /** The fallback chain: a premium English voice, else any English voice, else the first voice, else none. */
  function Fallback(voices: seq<Voice>): (r: Option<Voice>)
    ensures r.Some? <==> voices != []
    ensures r.Some? ==> r.value in voices
  {
    var premium := FindIndex(voices, IsPremiumEnglish);
    var english := FindIndex(voices, IsEnglish);
    if premium.Some? then Some(voices[premium.value])
    else if english.Some? then Some(voices[english.value])
    else if voices != [] then Some(voices[0])
    else None
  }

  /** The voice `findBestVoice` returns (None for `undefined`). */
  function SelectVoice(voices: seq<Voice>): (r: Option<Voice>)
    ensures r.Some? <==> voices != []
    ensures r.Some? ==> r.value in voices
  {
    var (best, score) := ScoringPass(voices, Score);
    if best.None? || score < QualityThreshold then Fallback(voices) else best
  }

  /**
    `findBestVoice`: the scoring loop, with its inner loop over the
    preferences, then the fallback search when the winner is missing or
    scores below 5.
   */
  method FindBestVoice(voices: seq<Voice>) returns (bestVoice: Option<Voice>)
    ensures bestVoice == SelectVoice(voices)
  {
    bestVoice := None;
    var bestScore := -1;
    for i := 0 to |voices|
      invariant (bestVoice, bestScore) == ScoringPass(voices[..i], Score)
    {
      var voice := voices[i];
      assert voices[..i + 1][..i] == voices[..i];
      if !IsEnglish(voice) {
        continue;
      }
      var score := 0;
      for k := 0 to |VoicePreferences|
        invariant score == ScoreOf(voice, VoicePreferences[..k])
      {
        var pref := VoicePreferences[k];
        assert VoicePreferences[..k + 1][..k] == VoicePreferences[..k];
        if Matches(pref.pattern, voice) && pref.priority > score {
          score := pref.priority;
        }
      }
      assert VoicePreferences[..|VoicePreferences|] == VoicePreferences;
      if score > bestScore {
        bestScore := score;
        bestVoice := Some(voice);
      }
    }
    assert voices[..|voices|] == voices;
    if bestVoice.None? || bestScore < QualityThreshold {
      bestVoice := Fallback(voices);
    }
  }

  /** Without an English voice the scoring loop keeps nothing, and with one it keeps something. */
  lemma {:induction false} ScoringPassEmpty(voices: seq<Voice>, score: Voice -> nat)
    ensures !HasEnglish(voices) <==> ScoringPass(voices, score) == (None, -1)
  {
    if voices != [] {
      var front, v := voices[..|voices| - 1], voices[|voices| - 1];
      ScoringPassEmpty(front, score);
      assert forall j :: 0 <= j < |front| ==> front[j] == voices[j];
    }
  }

  /** A winner of a prefix stays the winner when the next voice does not beat it. */
  lemma WinnerSurvives(voices: seq<Voice>, score: Voice -> nat, i: int)
    requires |voices| > 0 && IsScoringWinner(voices[..|voices| - 1], score, i)
    requires !(IsEnglish(voices[|voices| - 1]) && score(voices[|voices| - 1]) > score(voices[i]))
    ensures IsScoringWinner(voices, score, i)
  {
    var front := voices[..|voices| - 1];
    var top := score(voices[i]);
    assert front[i] == voices[i];
    forall j | 0 <= j < |voices| && IsEnglish(voices[j])
      ensures score(voices[j]) <= top
    {
      if j < |front| {
        assert front[j] == voices[j];
      }
    }
    forall j | 0 <= j < i && IsEnglish(voices[j])
      ensures score(voices[j]) < top
    {
      assert front[j] == voices[j];
    }
  }

  /** The next voice becomes the winner when it beats the prefix's winner. */
  lemma WinnerReplaced(voices: seq<Voice>, score: Voice -> nat, i: int)
    requires |voices| > 0 && IsEnglish(voices[|voices| - 1])
    requires IsScoringWinner(voices[..|voices| - 1], score, i)
    requires score(voices[|voices| - 1]) > score(voices[i])
    ensures IsScoringWinner(voices, score, |voices| - 1)
  {
    var front, last := voices[..|voices| - 1], |voices| - 1;
    var top := score(voices[last]);
    assert front[i] == voices[i];
    forall j | 0 <= j < last && IsEnglish(voices[j])
      ensures score(voices[j]) < top
    {
      assert front[j] == voices[j];
    }
    forall j | 0 <= j < |voices| && IsEnglish(voices[j])
      ensures score(voices[j]) <= top
    {
      if j < last {
        assert front[j] == voices[j];
      }
    }
  }

  /** The next voice becomes the winner when it is the first English voice. */
  lemma FirstEnglishWins(voices: seq<Voice>, score: Voice -> nat)
    requires |voices| > 0 && IsEnglish(voices[|voices| - 1])
    requires !HasEnglish(voices[..|voices| - 1])
    ensures IsScoringWinner(voices, score, |voices| - 1)
  {
    var front, last := voices[..|voices| - 1], |voices| - 1;
    forall j | 0 <= j < |front|
      ensures !IsEnglish(voices[j])
    {
      assert front[j] == voices[j];
    }
    forall j | 0 <= j < |voices| && IsEnglish(voices[j])
      ensures score(voices[j]) <= score(voices[last])
    {
      assert j == last;
    }
  }

  /** The scoring loop keeps the first top-scoring English voice. */
  lemma {:induction false} ScoringPassWinner(voices: seq<Voice>, score: Voice -> nat)
    requires HasEnglish(voices)
    ensures exists i :: IsScoringWinner(voices, score, i) && ScoringPass(voices, score) == (Some(voices[i]), score(voices[i]))
  {
    var front, v := voices[..|voices| - 1], voices[|voices| - 1];
    ScoringPassEmpty(front, score);
    assert forall j :: 0 <= j < |front| ==> front[j] == voices[j];
    if HasEnglish(front) {
      ScoringPassWinner(front, score);
      var i :| IsScoringWinner(front, score, i) && ScoringPass(front, score) == (Some(front[i]), score(front[i]));
      if IsEnglish(v) && score(v) > score(voices[i]) {
        WinnerReplaced(voices, score, i);
        assert ScoringPass(voices, score) == (Some(voices[|voices| - 1]), score(voices[|voices| - 1]));
      } else {
        WinnerSurvives(voices, score, i);
      }
    } else {
      FirstEnglishWins(voices, score);
      assert ScoringPass(voices, score) == (Some(voices[|voices| - 1]), score(voices[|voices| - 1]));
    }
  }

  /** There is only one scoring winner. */
  lemma WinnerUnique(voices: seq<Voice>, score: Voice -> nat, i: int, w: int)
    requires IsScoringWinner(voices, score, i) && IsScoringWinner(voices, score, w)
    ensures i == w
  {
  }

  /** A premium English voice scores at least 7: its name matches google, microsoft, samantha or alex. */
  lemma PremiumScoresHigh(v: Voice)
    requires IsPremiumEnglish(v)
    ensures Score(v) >= 7
  {
    var name := Lower(v.name);
    if Contains(name, "google") {
      assert Matches(VoicePreferences[0].pattern, v);
    } else if Contains(name, "microsoft") {
      assert Matches(VoicePreferences[1].pattern, v);
    } else if Contains(name, "samantha") {
      assert Matches(VoicePreferences[2].pattern, v);
    } else {
      assert Matches(VoicePreferences[3].pattern, v);
    }
  }

  /**
    The premium search of the fallback never finds anything: the fallback
    runs only when no English voice scored 5, and a premium English voice
    scores at least 7.
   */
  lemma PremiumFallbackNeverMatches(voices: seq<Voice>)
    requires ScoringPass(voices, Score).0.None? || ScoringPass(voices, Score).1 < QualityThreshold
    ensures FindIndex(voices, IsPremiumEnglish).None?
  {
    var r := FindIndex(voices, IsPremiumEnglish);
    if r.Some? {
      ScoringPassWinner(voices, Score);
      PremiumScoresHigh(voices[r.value]);
    }
  }

  /** A winner scoring 5 or more is the answer. */
  lemma GoodVoiceKept(voices: seq<Voice>, i: int)
    requires IsScoringWinner(voices, Score, i) && Score(voices[i]) >= QualityThreshold
    ensures SelectVoice(voices) == Some(voices[i])
  {
    ScoringPassWinner(voices, Score);
    var w :| IsScoringWinner(voices, Score, w) &&
      ScoringPass(voices, Score) == (Some(voices[w]), Score(voices[w]));
    WinnerUnique(voices, Score, i, w);
  }

  /**
    When every English voice scores below 5 the scores are thrown away: the
    answer is the first English voice, whatever the ranking said.
   */
  lemma LowScoresTakeFirstEnglish(voices: seq<Voice>, i: int)
    requires 0 <= i < |voices| && IsEnglish(voices[i])
    requires forall j :: 0 <= j < i ==> !IsEnglish(voices[j])
    requires forall j :: 0 <= j < |voices| && IsEnglish(voices[j]) ==> Score(voices[j]) < QualityThreshold
    ensures SelectVoice(voices) == Some(voices[i])
  {
    ScoringPassWinner(voices, Score);
    PremiumFallbackNeverMatches(voices);
    var r := FindIndex(voices, IsEnglish);
    assert r.Some? && r.value == i;
  }

  /** Without any English voice the first voice is chosen, and an empty list yields none. */
  lemma NoEnglishTakesFirst(voices: seq<Voice>)
    requires !HasEnglish(voices)
    ensures voices != [] ==> SelectVoice(voices) == Some(voices[0])
    ensures voices == [] ==> SelectVoice(voices) == None
  {
    ScoringPassEmpty(voices, Score);
    assert FindIndex(voices, IsEnglish).None?;
  }
}
