/**
 * The voice-analysis report of src/components/voice-analysis.tsx.
 *
 * `generateVoiceAnalysis` draws ten integers with
 * `Math.floor(Math.random() * k) + c`, grades them with two threshold
 * graders, builds an ordered list of improvement suggestions of which it
 * keeps the first two, and formats two durations as `0:SS`.  The component
 * colours grades and scores.  Here every random draw is a parameter `r < k`,
 * so the report is a deterministic function of its draws.
 */
module VoiceAnalysis {

  import opened Wrappers

  // ---------------------------------------------------------------- draws

  /** `Math.floor(Math.random() * k) + c`, the random part being the draw `r < k`. */
  function Draw(r: nat, k: nat, c: int): (v: int)
    requires r < k
    ensures c <= v <= c + k - 1
  {
    c + r
  }

  /** A value is produced by some draw exactly when it lies in `c .. c + k - 1`. */
  lemma DrawReaches(k: nat, c: int, v: int)
    ensures (exists r: nat :: r < k && Draw(r, k, c) == v) <==> c <= v <= c + k - 1
  {
    if c <= v <= c + k - 1 {
      var r: nat := v - c;
      assert Draw(r, k, c) == v;
    }
  }

  /** The ten random draws of one report, in source order. */
  datatype Draws = Draws(
    score: nat, stutters: nat, fillerWords: nat, repetitions: nat,
    wpm: nat, speakingSeconds: nat, pauseSeconds: nat,
    clarity: nat, volume: nat, pitch: nat)

  /** What `Math.floor(Math.random() * k)` can return for each draw. */
  predicate ValidDraws(d: Draws)
  {
    d.score < 20 && d.stutters < 4 && d.fillerWords < 2 && d.repetitions < 5 &&
    d.wpm < 30 && d.speakingSeconds < 20 && d.pauseSeconds < 5 &&
    d.clarity < 12 && d.volume < 15 && d.pitch < 15
  }

  /** The measured numbers a report is built from. */
  datatype Metrics = Metrics(
    overallScore: int, stutters: int, fillerWords: int, repetitions: int,
    wpm: int, speakingSeconds: nat, pauseSeconds: nat,
    clarity: int, volume: int, pitch: int)

  /**
   * The ranges the draws really produce.  Several source comments claim one
   * more at the top (68-88, 95-125, 40-60, 3-8, 82-94, 78-93, 77-92).
   */
  predicate InGeneratedRanges(m: Metrics)
  {
    68 <= m.overallScore <= 87 && 2 <= m.stutters <= 5 && 1 <= m.fillerWords <= 2 &&
    5 <= m.repetitions <= 9 && 95 <= m.wpm <= 124 && 40 <= m.speakingSeconds <= 59 &&
    3 <= m.pauseSeconds <= 7 && 82 <= m.clarity <= 93 && 78 <= m.volume <= 92 &&
    77 <= m.pitch <= 91
  }

  /** The metrics a set of draws yields. */
  function Measure(d: Draws): (m: Metrics)
    requires ValidDraws(d)
    ensures InGeneratedRanges(m)
  {
    Metrics(
      Draw(d.score, 20, 68), Draw(d.stutters, 4, 2), Draw(d.fillerWords, 2, 1),
      Draw(d.repetitions, 5, 5), Draw(d.wpm, 30, 95),
      Draw(d.speakingSeconds, 20, 40), Draw(d.pauseSeconds, 5, 3),
      Draw(d.clarity, 12, 82), Draw(d.volume, 15, 78), Draw(d.pitch, 15, 77))
  }

  /** The ranges are exact: every metrics value inside them comes from some draws. */
  lemma MeasureOnto(m: Metrics)
    requires InGeneratedRanges(m)
    ensures exists d :: ValidDraws(d) && Measure(d) == m
  {
    var d := Draws(
      (m.overallScore - 68) as nat, (m.stutters - 2) as nat, (m.fillerWords - 1) as nat,
      (m.repetitions - 5) as nat, (m.wpm - 95) as nat,
      (m.speakingSeconds - 40) as nat, (m.pauseSeconds - 3) as nat,
      (m.clarity - 82) as nat, (m.volume - 78) as nat, (m.pitch - 77) as nat);
    assert ValidDraws(d) && Measure(d) == m;
  }

  /** The top value each overstated comment names is never produced. */
  lemma CommentedUpperBoundsUnreachable(d: Draws)
    requires ValidDraws(d)
    ensures Measure(d).overallScore != 88 && Measure(d).wpm != 125
    ensures Measure(d).speakingSeconds != 60 && Measure(d).pauseSeconds != 8
    ensures Measure(d).clarity != 94 && Measure(d).volume != 93 && Measure(d).pitch != 92
  {
  }

  // --------------------------------------------------------------- grades

  /** Rank of a letter grade, `A` best; anything else ranks after `D`. */
  function GradeRank(g: string): nat
  {
    if g == "A" then 0 else if g == "B" then 1 else if g == "C" then 2 else if g == "D" then 3 else 4
  }

  /** `getGrade`: the first threshold the value does not exceed picks the letter. */
  function GetGrade(value: int, thresholds: seq<int>): (g: string)
    requires |thresholds| >= 3
    ensures g == "A" <==> value <= thresholds[0]
    ensures g == "B" <==> thresholds[0] < value <= thresholds[1]
    ensures g == "C" <==> thresholds[0] < value && thresholds[1] < value <= thresholds[2]
    ensures g == "D" <==> thresholds[0] < value && thresholds[1] < value && thresholds[2] < value
  {
    if value <= thresholds[0] then "A"
    else if value <= thresholds[1] then "B"
    else if value <= thresholds[2] then "C"
    else "D"
  }

  /** With ascending thresholds a larger value never gets a better grade. */
  lemma GetGradeMonotone(v1: int, v2: int, thresholds: seq<int>)
    requires |thresholds| >= 3
    requires thresholds[0] <= thresholds[1] <= thresholds[2]
    requires v1 <= v2
    ensures GradeRank(GetGrade(v1, thresholds)) <= GradeRank(GetGrade(v2, thresholds))
  {
  }

  /** `getPaceGrade`: A for 120..150 wpm, B for 100..119, C for 80..99, D otherwise. */
  function GetPaceGrade(wpm: int): (g: string)
    ensures g == "A" <==> 120 <= wpm <= 150
    ensures g == "B" <==> 100 <= wpm < 120
    ensures g == "C" <==> 80 <= wpm < 100
    ensures g == "D" <==> wpm < 80 || 150 < wpm
  {
    if wpm >= 120 && wpm <= 150 then "A"
    else if wpm >= 100 && wpm < 120 then "B"
    else if wpm >= 80 && wpm < 100 then "C"
    else "D"
  }

  /**
   * On generated metrics: the stutter grade is A exactly at 2 stutters and B
   * otherwise, the filler-word grade is always B, and the pace grade is
   * never D (A at 120..124, B at 100..119, C at 95..99).
   */
  lemma GeneratedGrades(m: Metrics)
    requires InGeneratedRanges(m)
    ensures GetGrade(m.stutters, [2, 5, 8]) == (if m.stutters == 2 then "A" else "B")
    ensures GetGrade(m.fillerWords, [0, 2, 4]) == "B"
    ensures GetPaceGrade(m.wpm) != "D"
  {
  }

  // --------------------------------------------------------------- colours

  const Green := "text-green-400"
  const Blue := "text-blue-400"
  const Yellow := "text-yellow-400"
  const Red := "text-red-400"
  const Grey := "text-gray-400"

  /** `getGradeColor`: A/B/C/D are green/blue/yellow/red, anything else grey. */
  function GetGradeColor(grade: string): (c: string)
    ensures c == Green <==> grade == "A"
    ensures c == Blue <==> grade == "B"
    ensures c == Yellow <==> grade == "C"
    ensures c == Red <==> grade == "D"
    ensures c == Grey <==> GradeRank(grade) == 4
  {
    if grade == "A" then Green
    else if grade == "B" then Blue
    else if grade == "C" then Yellow
    else if grade == "D" then Red
    else Grey
  }

  /** `getScoreColor`: green from 90, blue from 75, yellow from 60, red below. */
  function GetScoreColor(score: int): (c: string)
    ensures c == Green <==> 90 <= score
    ensures c == Blue <==> 75 <= score < 90
    ensures c == Yellow <==> 60 <= score < 75
    ensures c == Red <==> score < 60
  {
    if score >= 90 then Green
    else if score >= 75 then Blue
    else if score >= 60 then Yellow
    else Red
  }

  /** Every grade `getGrade` and `getPaceGrade` produce is shown in a grade colour, never grey. */
  lemma GradesAreColoured(value: int, thresholds: seq<int>, wpm: int)
    requires |thresholds| >= 3
    ensures GetGradeColor(GetGrade(value, thresholds)) != Grey
    ensures GetGradeColor(GetPaceGrade(wpm)) != Grey
  {
  }

  /** A generated overall score is blue from 75 and yellow below; never green or red. */
  lemma GeneratedScoreColour(d: Draws)
    requires ValidDraws(d)
    ensures GetScoreColor(Measure(d).overallScore) == Blue <==> Measure(d).overallScore >= 75
    ensures GetScoreColor(Measure(d).overallScore) in {Blue, Yellow}
  {
  }

  // ---------------------------------------------------------- suggestions

  /** The eight fixed improvement messages; `Text` gives their wording. */
  datatype Advice =
    | ReduceStuttering | IncreasePace | MinimizeFillers | ImproveClarity
    | SteadyVolume | VaryPitch | KeepPracticing | LargerAudiences

  function Text(a: Advice): string
  {
    match a
    case ReduceStuttering => "Reduce stuttering by speaking more slowly and taking deep breaths before starting."
    case IncreasePace => "Increase your speaking pace slightly to maintain audience engagement."
    case MinimizeFillers => "Minimize filler words like 'um' and 'uh' by pausing instead when thinking."
    case ImproveClarity => "Improve clarity by articulating words more precisely."
    case SteadyVolume => "Maintain consistent volume throughout your speech."
    case VaryPitch => "Vary your pitch more to keep the audience engaged."
    case KeepPracticing => "Continue practicing to maintain your excellent speaking skills."
    case LargerAudiences => "Try speaking in front of larger audiences to build confidence."
  }


  /** One suggestion check: whether it fires and what it suggests. */
  datatype Check = Check(fires: bool, advice: Advice)

  /** The six checks, in the order the source writes them. */
  function Checks(m: Metrics): (cs: seq<Check>)
    ensures |cs| == 6
    ensures forall i, j :: 0 <= i < j < |cs| ==> cs[i].advice != cs[j].advice
    ensures forall i :: 0 <= i < |cs| ==> cs[i].advice != KeepPracticing && cs[i].advice != LargerAudiences
    ensures cs[2].fires <==> m.fillerWords > 0
  {
    [Check(m.stutters > 3, ReduceStuttering),
     Check(m.wpm < 100 || m.wpm > 150, IncreasePace),
     Check(m.fillerWords > 0, MinimizeFillers),
     Check(m.clarity < 90, ImproveClarity),
     Check(m.volume < 85, SteadyVolume),
     Check(m.pitch < 85, VaryPitch)]
  }

  /** The advice a single firing check contributes. */
  function When(fires: bool, a: Advice): (r: seq<Advice>)
    ensures |r| <= 1
  {
    if fires then [a] else []
  }

  /** The advice of the first `k` checks that fire, in check order. */
  function FiredUpTo(cs: seq<Check>, k: nat): (r: seq<Advice>)
    requires k <= |cs|
    ensures |r| <= k
  {
    if k == 0 then [] else FiredUpTo(cs, k - 1) + When(cs[k - 1].fires, cs[k - 1].advice)
  }

  /** A piece of advice is listed exactly when one of the checks carrying it fires. */
  lemma {:induction false} FiredExactly(cs: seq<Check>, k: nat, a: Advice)
    requires k <= |cs|
    ensures a in FiredUpTo(cs, k) <==> exists i :: 0 <= i < k && cs[i].fires && cs[i].advice == a
  {
    if k > 0 {
      FiredExactly(cs, k - 1, a);
      var last := cs[k - 1];
      assert FiredUpTo(cs, k) == FiredUpTo(cs, k - 1) + When(last.fires, last.advice);
      if last.fires && last.advice == a {
        assert a in FiredUpTo(cs, k);
      }
    }
  }

  /** No advice is listed exactly when none of the checks fires. */
  lemma {:induction false} FiredEmpty(cs: seq<Check>, k: nat)
    requires k <= |cs|
    ensures FiredUpTo(cs, k) == [] <==> forall i :: 0 <= i < k ==> !cs[i].fires
  {
    if k > 0 {
      FiredEmpty(cs, k - 1);
    }
  }

  /** The suggestions a report's metrics trigger. */
  function Suggestions(m: Metrics): seq<Advice>
  {
    FiredUpTo(Checks(m), 6)
  }

  /** `improvements.slice(0, 2)`. */
  function TakeTwo<T>(s: seq<T>): (t: seq<T>)
    ensures |t| == if |s| < 2 then |s| else 2
    ensures t <= s
  {
    if |s| < 2 then s else s[..2]
  }

  /**
   * `areasForImprovement`: the first two triggered suggestions, or the two
   * encouragement messages when none is triggered.
   */
  function Areas(m: Metrics): (r: seq<Advice>)
    ensures 1 <= |r| <= 2
    ensures Suggestions(m) != [] ==> r <= Suggestions(m)
    ensures Suggestions(m) != [] ==> |r| == if |Suggestions(m)| < 2 then |Suggestions(m)| else 2
  {
    TakeTwo(if Suggestions(m) == [] then [KeepPracticing, LargerAudiences] else Suggestions(m))
  }

  /** The two encouragement messages appear exactly when none of the six checks fires. */
  lemma AreasFallback(m: Metrics)
    ensures Areas(m) == [KeepPracticing, LargerAudiences] <==> Suggestions(m) == []
    ensures Suggestions(m) == [] <==>
      !(m.stutters > 3) && !(m.wpm < 100 || m.wpm > 150) && !(m.fillerWords > 0) &&
      !(m.clarity < 90) && !(m.volume < 85) && !(m.pitch < 85)
  {
    var cs := Checks(m);
    FiredEmpty(cs, 6);
    if Suggestions(m) != [] {
      FiredExactly(cs, 6, Suggestions(m)[0]);
    }
    assert cs[0].fires == (m.stutters > 3) && cs[1].fires == (m.wpm < 100 || m.wpm > 150);
    assert cs[2].fires == (m.fillerWords > 0) && cs[3].fires == (m.clarity < 90);
    assert cs[4].fires == (m.volume < 85) && cs[5].fires == (m.pitch < 85);
  }

  /**
   * For generated metrics the filler-word check always fires, so the
   * fallback is unreachable and the areas are one or two triggered suggestions.
   */
  lemma GeneratedAreas(m: Metrics)
    requires InGeneratedRanges(m)
    ensures MinimizeFillers in Suggestions(m)
    ensures Areas(m) == TakeTwo(Suggestions(m))
    ensures 1 <= |Areas(m)| <= 2
  {
    assert Checks(m)[2].fires && Checks(m)[2].advice == MinimizeFillers;
    FiredExactly(Checks(m), 6, MinimizeFillers);
  }

  /**
   * The comment before the fallback promises at least two areas, but a
   * generated report can carry just one: only the filler-word check fires.
   */
  lemma SingleAreaReachable()
    ensures exists m :: InGeneratedRanges(m) && |Areas(m)| == 1
  {
    var m := Metrics(70, 2, 1, 5, 110, 45, 4, 91, 90, 90);
    assert Suggestions(m) == [MinimizeFillers];
    assert InGeneratedRanges(m) && |Areas(m)| == 1;
  }

  // ------------------------------------------------------------ durations

  /** The decimal digit for `n < 10`. */
  function Digit(n: nat): (c: char)
    requires n < 10
    ensures '0' <= c <= '9' && c as int - '0' as int == n
  {
    "0123456789"[n]
  }

  predicate AllDigits(s: string)
  {
    forall i :: 0 <= i < |s| ==> '0' <= s[i] <= '9'
  }

  /** `n.toString()` for a natural number. */
  function NatToString(n: nat): (s: string)
    ensures 1 <= |s| && AllDigits(s)
    ensures |s| == 1 <==> n < 10
    decreases n
  {
    if n < 10 then [Digit(n)] else NatToString(n / 10) + [Digit(n % 10)]
  }

  /** The number a string of decimal digits denotes. */
  function DigitsValue(s: string): nat
    requires AllDigits(s)
  {
    if s == [] then 0 else DigitsValue(s[..|s| - 1]) * 10 + (s[|s| - 1] as int - '0' as int)
  }

  lemma {:induction false} NatToStringRoundTrip(n: nat)
    ensures DigitsValue(NatToString(n)) == n
    decreases n
  {
    if n >= 10 {
      NatToStringRoundTrip(n / 10);
      var s := NatToString(n);
      assert s[..|s| - 1] == NatToString(n / 10);
    }
  }

  /** `n` copies of `c`. */
  function Repeat(c: char, n: nat): (r: string)
    ensures |r| == n && forall i :: 0 <= i < n ==> r[i] == c
  {
    if n == 0 then [] else [c] + Repeat(c, n - 1)
  }

  /** `s.padStart(width, pad)` with a one-character pad. */
  function PadStart(s: string, width: nat, pad: char): (r: string)
    ensures |r| == if |s| < width then width else |s|
    ensures r[|r| - |s|..] == s
    ensures forall i :: 0 <= i < |r| - |s| ==> r[i] == pad
  {
    if |s| >= width then s else Repeat(pad, width - |s|) + s
  }

  /** Leading zeros do not change the value of a digit string. */
  lemma {:induction false} LeadingZeros(z: nat, s: string)
    requires AllDigits(s)
    ensures AllDigits(Repeat('0', z) + s)
    ensures DigitsValue(Repeat('0', z) + s) == DigitsValue(s)
    decreases z, |s|
  {
    var t := Repeat('0', z) + s;
    if s == [] {
      if z > 0 {
        assert t[..|t| - 1] == Repeat('0', z - 1) + [];
        LeadingZeros(z - 1, []);
      }
    } else {
      var init := s[..|s| - 1];
      assert t[..|t| - 1] == Repeat('0', z) + init;
      LeadingZeros(z, init);
    }
  }

  /** The `0:SS` string of a duration in seconds. */
  function FormatSeconds(seconds: nat): (t: string)
    ensures |t| >= 4 && t[..2] == "0:" && AllDigits(t[2..])
  {
    "0:" + PadStart(NatToString(seconds), 2, '0')
  }

  /** Reads back a `0:` followed by digits. */
  function ParseTime(t: string): Option<nat>
  {
    if |t| >= 3 && t[..2] == "0:" && AllDigits(t[2..]) then Some(DigitsValue(t[2..])) else None
  }

  /** Every formatted duration reads back as the seconds it was made from. */
  lemma FormatSecondsRoundTrip(seconds: nat)
    ensures ParseTime(FormatSeconds(seconds)) == Some(seconds)
  {
    var s := NatToString(seconds);
    NatToStringRoundTrip(seconds);
    var padded := PadStart(s, 2, '0');
    var z := |padded| - |s|;
    if |s| >= 2 {
      assert padded == s;
    } else {
      assert padded == Repeat('0', z) + s;
      LeadingZeros(z, s);
    }
    assert AllDigits(padded) && DigitsValue(padded) == seconds;
    var t := FormatSeconds(seconds);
    assert t == "0:" + padded;
    assert t[..2] == "0:" && t[2..] == padded;
  }

  /** Below 100 seconds the string is `0:` and exactly two digits, zero-padded. */
  lemma FormatSecondsTwoDigits(seconds: nat)
    requires seconds < 100
    ensures FormatSeconds(seconds) == ['0', ':', Digit(seconds / 10), Digit(seconds % 10)]
  {
    if seconds >= 10 {
      assert NatToString(seconds) == [Digit(seconds / 10), Digit(seconds % 10)];
    }
  }

  // --------------------------------------------------------------- report

  datatype Graded = Graded(count: int, grade: string)
  datatype FluencyAnalysis = FluencyAnalysis(stutters: Graded, fillerWords: Graded, repetitions: Graded)
  datatype SpeechPace = SpeechPace(
    wordsPerMinute: int, grade: string, speakingTime: string, pauseTime: string, idealRange: string)
  datatype VoiceQuality = VoiceQuality(clarity: int, volumeConsistency: int, pitchConsistency: int)
  datatype VoiceAnalysisData = VoiceAnalysisData(
    overallScore: int, fluencyAnalysis: FluencyAnalysis, speechPace: SpeechPace,
    voiceQuality: VoiceQuality, areasForImprovement: seq<Advice>)

  /** The report carries exactly the given metrics. */
  predicate Reports(r: VoiceAnalysisData, m: Metrics)
  {
    r.overallScore == m.overallScore &&
    r.fluencyAnalysis.stutters.count == m.stutters &&
    r.fluencyAnalysis.fillerWords.count == m.fillerWords &&
    r.fluencyAnalysis.repetitions.count == m.repetitions &&
    r.speechPace.wordsPerMinute == m.wpm &&
    ParseTime(r.speechPace.speakingTime) == Some(m.speakingSeconds) &&
    ParseTime(r.speechPace.pauseTime) == Some(m.pauseSeconds) &&
    r.voiceQuality == VoiceQuality(m.clarity, m.volume, m.pitch)
  }

  /**
   * The `improvements` array of `generateVoiceAnalysis`: one conditional push
   * per check in source order, then the two encouragement messages if none
   * fired.  `m` names the metrics the arguments come from.
   */
  method CollectImprovements(stutters: int, wpm: int, fillerWords: int, clarity: int,
                             volumeConsistency: int, pitchConsistency: int, ghost m: Metrics)
    returns (improvements: seq<Advice>)
    requires m.stutters == stutters && m.wpm == wpm && m.fillerWords == fillerWords
    requires m.clarity == clarity && m.volume == volumeConsistency && m.pitch == pitchConsistency
    ensures improvements == if Suggestions(m) == [] then [KeepPracticing, LargerAudiences] else Suggestions(m)
  {
    ghost var cs := Checks(m);
    improvements := [];
    if stutters > 3 {
      improvements := improvements + [ReduceStuttering];
    }
    assert improvements == FiredUpTo(cs, 1);
    if wpm < 100 || wpm > 150 {
      improvements := improvements + [IncreasePace];
    }
    assert improvements == FiredUpTo(cs, 2);
    if fillerWords > 0 {
      improvements := improvements + [MinimizeFillers];
    }
    assert improvements == FiredUpTo(cs, 3);
    if clarity < 90 {
      improvements := improvements + [ImproveClarity];
    }
    assert improvements == FiredUpTo(cs, 4);
    if volumeConsistency < 85 {
      improvements := improvements + [SteadyVolume];
    }
    assert improvements == FiredUpTo(cs, 5);
    if pitchConsistency < 85 {
      improvements := improvements + [VaryPitch];
    }
    assert improvements == FiredUpTo(cs, 6);

    if |improvements| == 0 {
      improvements := improvements + [KeepPracticing];
      improvements := improvements + [LargerAudiences];
    }
  }

  /** `generateVoiceAnalysis`, with its ten random draws supplied. */
  method GenerateVoiceAnalysis(d: Draws) returns (r: VoiceAnalysisData)
    requires ValidDraws(d)
    ensures Reports(r, Measure(d)) && InGeneratedRanges(Measure(d))
    ensures r.fluencyAnalysis.stutters.grade == (if r.fluencyAnalysis.stutters.count == 2 then "A" else "B")
    ensures r.fluencyAnalysis.fillerWords.grade == "B"
    ensures r.fluencyAnalysis.repetitions.grade == "C"
    ensures r.speechPace.grade == GetPaceGrade(r.speechPace.wordsPerMinute) != "D"
    ensures |r.speechPace.speakingTime| == 4 && |r.speechPace.pauseTime| == 4
    ensures r.speechPace.idealRange == "120-150 wpm"
    ensures r.areasForImprovement == TakeTwo(Suggestions(Measure(d)))
    ensures 1 <= |r.areasForImprovement| <= 2
  {
    var overallScore := Draw(d.score, 20, 68);
    var stutters := Draw(d.stutters, 4, 2);
    var fillerWords := Draw(d.fillerWords, 2, 1);
    var repetitions := Draw(d.repetitions, 5, 5);
    var wpm := Draw(d.wpm, 30, 95);
    var speakingTimeSeconds: nat := Draw(d.speakingSeconds, 20, 40);
    var pauseTimeSeconds: nat := Draw(d.pauseSeconds, 5, 3);
    var clarity := Draw(d.clarity, 12, 82);
    var volumeConsistency := Draw(d.volume, 15, 78);
    var pitchConsistency := Draw(d.pitch, 15, 77);
    ghost var m := Measure(d);
    var improvements := CollectImprovements(stutters, wpm, fillerWords, clarity, volumeConsistency, pitchConsistency, m);

    GeneratedAreas(m);
    GeneratedGrades(m);
    FormatSecondsRoundTrip(speakingTimeSeconds);
    FormatSecondsRoundTrip(pauseTimeSeconds);
    FormatSecondsTwoDigits(speakingTimeSeconds);
    FormatSecondsTwoDigits(pauseTimeSeconds);

    r := VoiceAnalysisData(
      overallScore,
      FluencyAnalysis(
        Graded(stutters, GetGrade(stutters, [2, 5, 8])),
        Graded(fillerWords, GetGrade(fillerWords, [0, 2, 4])),
        Graded(repetitions, "C")),
      SpeechPace(
        wpm, GetPaceGrade(wpm),
        FormatSeconds(speakingTimeSeconds), FormatSeconds(pauseTimeSeconds),
        "120-150 wpm"),
      VoiceQuality(clarity, volumeConsistency, pitchConsistency),
      TakeTwo(improvements));
  }
}
