/**
 * The lesson screen's state (src/screens/LessonScreen.tsx): which lesson
 * is shown, the feedback and score of the last analysis, the analysing
 * flag, the last recording and whether the avatar video is playing. Each
 * handler becomes a method that updates these fields; the effect that
 * runs when the lesson index changes is folded into the navigation
 * methods. Alerts and rendering are not modelled, apart from the score
 * band and the difficulty colour, which are pure.
 */
module LessonScreen {
  import opened JsValues
  import opened Types
  import opened LessonData
  import TheFluent
  import opened Strings
  import opened TextArea

  // ---------------------------------------------------------------------
  // Pure helpers
  // ---------------------------------------------------------------------

  /** `result.words.map(w => ({ word, isCorrect: status === 'correct', score }))`. */
  function ToFeedback(words: seq<TheFluentWord>): (fs: seq<WordFeedback>)
    ensures |fs| == |words|
    ensures forall i :: 0 <= i < |words| ==>
      fs[i].word == words[i].word && fs[i].score == Some(words[i].score)
      && (fs[i].isCorrect <==> words[i].status == Correct)
  {
    seq(|words|, i requires 0 <= i < |words| => WordFeedback(words[i].word, words[i].status == Correct, Some(words[i].score)))
  }

  /** The three bands of the overall score used by the result panel and the alert. */
  datatype ScoreBand = Excellent | Good | KeepPractising

  function GetScoreBand(score: int): (b: ScoreBand)
    ensures b == Excellent <==> score >= 80
    ensures b == Good <==> 60 <= score < 80
    ensures b == KeepPractising <==> score < 60
  {
    if score >= 80 then Excellent else if score >= 60 then Good else KeepPractising
  }

  /** The colour of the score and its icon. */
  function ScoreColor(score: int): (c: string)
    ensures GetScoreBand(score) == Excellent ==> c == "#34c759"
    ensures GetScoreBand(score) == Good ==> c == "#ff9500"
    ensures GetScoreBand(score) == KeepPractising ==> c == "#ff3b30"
  {
    match GetScoreBand(score)
    case Excellent => "#34c759"
    case Good => "#ff9500"
    case KeepPractising => "#ff3b30"
  }

  /** A higher score is never in a lower band. */
  lemma ScoreBandMonotone(a: int, b: int)
    requires a <= b
    ensures GetScoreBand(a) == Excellent ==> GetScoreBand(b) == Excellent
    ensures GetScoreBand(b) == KeepPractising ==> GetScoreBand(a) == KeepPractising
  {
  }

  /** The message under the score. */
  function ScoreMessage(score: int): (m: string)
    ensures m == "🎉 Harika! Telaffuzunuz mükemmel!" <==> score >= 80
    ensures m == "👍 İyi! Biraz daha pratik yapın." <==> 60 <= score < 80
    ensures m == "💪 Devam edin! Pratik yaparak gelişeceksiniz." <==> score < 60
  {
    match GetScoreBand(score)
    case Excellent => "🎉 Harika! Telaffuzunuz mükemmel!"
    case Good => "👍 İyi! Biraz daha pratik yapın."
    case KeepPractising => "💪 Devam edin! Pratik yaparak gelişeceksiniz."
  }

  // ---------------------------------------------------------------------
  // The lesson text
  // ---------------------------------------------------------------------

  /**
   * The lesson text as the screen renders it: `<TextArea>` is given the
   * text only, so the feedback of an analysis never reaches it.
   */
  function LessonTextViewAsWritten(lesson: Lesson, feedback: seq<WordFeedback>): (v: View)
    ensures v == PlainText(lesson.text)
  {
    TextAreaView(lesson.text, None)
  }

  /**
   * The discrepancy: after an analysis that scored at least one word the
   * screen tells the user that correct words are marked green and wrong
   * ones red, yet the text it shows carries no marking at all.
   */
  lemma AsWrittenDropsFeedback(lesson: Lesson, words: seq<TheFluentWord>)
    requires words != []
    ensures LessonTextViewAsWritten(lesson, ToFeedback(words)) == PlainText(lesson.text)
    ensures TextAreaView(lesson.text, Some(ToFeedback(words))).WordView?
  {
  }

  /** The lesson text with the current feedback passed to `<TextArea>`. */
  function LessonTextView(lesson: Lesson, feedback: seq<WordFeedback>): (v: View)
    ensures feedback == [] ==> v == PlainText(lesson.text)
    ensures feedback != [] ==> v.WordView? && v.showLegend
    ensures v.WordView? ==> Concat(PieceTexts(v.pieces)) == lesson.text
  {
    var v := TextAreaView(lesson.text, Some(feedback));
    if v.WordView? then (WordViewKeepsText(lesson.text, Some(feedback)); v) else v
  }

  /**
   * With the feedback passed on, a word of the text that matches an
   * analysed word (and no later one) is highlighted green exactly when the
   * analysis judged it correct.
   */
  lemma AnalysedWordHighlighted(lesson: Lesson, words: seq<TheFluentWord>, i: int, j: int)
    requires 0 <= i < |words|
    requires var tokens := SplitKeepingWhitespace(lesson.text);
      0 <= j < |tokens| && Trim(tokens[j]) != []
      && ToLower(words[i].word) == LookupKey(tokens[j])
      && forall k :: i < k < |words| ==> ToLower(words[k].word) != LookupKey(tokens[j])
    ensures var v := LessonTextView(lesson, ToFeedback(words));
      && v.WordView? && v.pieces[j].Highlighted?
      && (v.pieces[j].color == GREEN <==> words[i].status == Correct)
  {
    var fs := ToFeedback(words);
    var token := SplitKeepingWhitespace(lesson.text)[j];
    MatchedWordColour(token, fs, i);
  }

  const BLUE := "#007AFF"

  /** `getDifficultyColor`: one colour per difficulty name, blue for anything else. */
  function GetDifficultyColor(difficulty: string): (c: string)
    ensures difficulty == "beginner" ==> c == "#34c759"
    ensures difficulty == "intermediate" ==> c == "#ff9500"
    ensures difficulty == "advanced" ==> c == "#ff3b30"
    ensures c == BLUE <==> difficulty !in {"beginner", "intermediate", "advanced"}
  {
    if difficulty == "beginner" then "#34c759"
    else if difficulty == "intermediate" then "#ff9500"
    else if difficulty == "advanced" then "#ff3b30"
    else BLUE
  }

  /** The string value of a difficulty. */
  function DifficultyName(d: Difficulty): string {
    match d
    case Beginner => "beginner"
    case Intermediate => "intermediate"
    case Advanced => "advanced"
  }

  /** The badge colour of a lesson: its difficulty, read as "beginner" when missing. */
  function BadgeColor(lesson: Lesson): (c: string)
    ensures lesson.difficulty.None? ==> c == GetDifficultyColor("beginner")
    ensures lesson.difficulty.Some? ==> c == GetDifficultyColor(DifficultyName(lesson.difficulty.value))
  {
    GetDifficultyColor(if lesson.difficulty.Some? then DifficultyName(lesson.difficulty.value) else "beginner")
  }

  /** The three difficulties get three different colours, none of them the default, so a badge is never blue. */
  lemma DifficultyColorsDistinct(lesson: Lesson)
    ensures GetDifficultyColor("beginner") != GetDifficultyColor("intermediate")
    ensures GetDifficultyColor("intermediate") != GetDifficultyColor("advanced")
    ensures GetDifficultyColor("beginner") != GetDifficultyColor("advanced")
    ensures BadgeColor(lesson) != BLUE
  {
  }

  /** The replies behind one `analyzePronunciation` call. */
  datatype AnalysisReplies = AnalysisReplies(
    postStamp: string, cloudStamp: string, tmpStamp: string,
    post: TheFluent.PostReply, config: TheFluent.CloudConfig,
    cloudReply: TheFluent.CloudReply, tmpReply: TheFluent.TmpReply, score: TheFluent.ScoreOutcome)

  // ---------------------------------------------------------------------
  // Screen state
  // ---------------------------------------------------------------------

  class LessonScreenState {
    var currentLessonIndex: int
    var currentLesson: Lesson
    var wordFeedback: seq<WordFeedback>
    var isAnalyzing: bool
    var isAvatarSpeaking: bool
    var recordedAudioUri: Option<string>
    var overallScore: Option<int>

    /** The index is in range and the lesson shown is the one it names. */
    predicate Valid()
      reads this
    {
      0 <= currentLessonIndex < |LESSONS| && currentLesson == LESSONS[currentLessonIndex]
    }

    /** What the lesson text area shows. */
    function TextView(): View
      reads this
    {
      LessonTextView(currentLesson, wordFeedback)
    }

    /** The result panel is shown once there is a score and no analysis is running. */
    predicate ShowsResult()
      reads this
    {
      overallScore.Some? && !isAnalyzing
    }

    /** The initial state: first lesson, nothing recorded or analysed. */
    constructor()
      ensures Valid() && currentLessonIndex == 0
      ensures wordFeedback == [] && overallScore == None && recordedAudioUri == None
      ensures !isAnalyzing && !isAvatarSpeaking
    {
      LessonIds();
      currentLessonIndex := 0;
      currentLesson := LESSONS[0];
      wordFeedback := [];
      isAnalyzing := false;
      isAvatarSpeaking := false;
      recordedAudioUri := None;
      overallScore := None;
    }

    /** A new index and the effect it triggers: the lesson follows and the old results are cleared. */
    method SetLessonIndex(index: int)
      requires 0 <= index < |LESSONS|
      modifies this
      ensures Valid() && currentLessonIndex == index
      ensures wordFeedback == [] && overallScore == None && recordedAudioUri == None
      ensures isAnalyzing == old(isAnalyzing) && isAvatarSpeaking == old(isAvatarSpeaking)
    {
      currentLessonIndex := index;
      currentLesson := LESSONS[index];
      wordFeedback := [];
      overallScore := None;
      recordedAudioUri := None;
    }

    /** `handleNextLesson`: moves forward unless the last lesson is shown. */
    method HandleNextLesson()
      requires Valid()
      modifies this
      ensures Valid()
      ensures old(currentLessonIndex) < |LESSONS| - 1 ==>
        currentLessonIndex == old(currentLessonIndex) + 1
        && wordFeedback == [] && overallScore == None && recordedAudioUri == None
      ensures old(currentLessonIndex) == |LESSONS| - 1 ==> unchanged(this)
      ensures isAnalyzing == old(isAnalyzing) && isAvatarSpeaking == old(isAvatarSpeaking)
    {
      if currentLessonIndex < |LESSONS| - 1 {
        SetLessonIndex(currentLessonIndex + 1);
      }
    }

    /** `handlePreviousLesson`: moves back unless the first lesson is shown. */
    method HandlePreviousLesson()
      requires Valid()
      modifies this
      ensures Valid()
      ensures old(currentLessonIndex) > 0 ==>
        currentLessonIndex == old(currentLessonIndex) - 1
        && wordFeedback == [] && overallScore == None && recordedAudioUri == None
      ensures old(currentLessonIndex) == 0 ==> unchanged(this)
      ensures isAnalyzing == old(isAnalyzing) && isAvatarSpeaking == old(isAvatarSpeaking)
    {
      if currentLessonIndex > 0 {
        SetLessonIndex(currentLessonIndex - 1);
      }
    }

    /** The first half of `analyzePronunciationFromRecording`: an empty URI does nothing, otherwise analysis starts. */
    method BeginAnalysis(audioUri: string) returns (started: bool)
      modifies this
      ensures started <==> audioUri != ""
      ensures !started ==> unchanged(this)
      ensures started ==> isAnalyzing && wordFeedback == [] && overallScore == None
      ensures started ==>
        (currentLessonIndex == old(currentLessonIndex) && currentLesson == old(currentLesson)
         && recordedAudioUri == old(recordedAudioUri) && isAvatarSpeaking == old(isAvatarSpeaking))
    {
      if audioUri == "" {
        return false;
      }
      isAnalyzing := true;
      wordFeedback := [];
      overallScore := None;
      started := true;
    }

    /** The second half: a successful result fills feedback and score; analysis ends on every outcome. */
    method FinishAnalysis(result: PronunciationResponse)
      modifies this
      ensures !isAnalyzing
      ensures result.success ==> wordFeedback == ToFeedback(result.words) && overallScore == Some(result.overallScore)
      ensures !result.success ==> wordFeedback == old(wordFeedback) && overallScore == old(overallScore)
      ensures currentLessonIndex == old(currentLessonIndex) && currentLesson == old(currentLesson)
      ensures recordedAudioUri == old(recordedAudioUri) && isAvatarSpeaking == old(isAvatarSpeaking)
    {
      if result.success {
        wordFeedback := ToFeedback(result.words);
        overallScore := Some(result.overallScore);
      }
      isAnalyzing := false;
    }

    /**
     * `analyzePronunciationFromRecording`: the recording is scored against
     * the text of the lesson shown. The result panel appears exactly when
     * the analysis succeeded; a failed analysis leaves no feedback behind.
     */
    method AnalyzeFromRecording(audioUri: string, replies: AnalysisReplies)
      returns (result: Option<PronunciationResponse>, postRequest: Option<TheFluent.PostRequest>)
      modifies this
      ensures audioUri == "" ==> unchanged(this) && result.None? && postRequest.None?
      ensures audioUri != "" ==>
        && result.Some? && !isAnalyzing
        && postRequest == Some(TheFluent.BuildPostRequest(old(currentLesson).text, None, replies.postStamp, TheFluent.DEFAULT_LANGUAGE_ID))
        && (ShowsResult() <==> result.value.success)
        && (result.value.success ==> overallScore == Some(result.value.overallScore))
        && wordFeedback == (if result.value.success then ToFeedback(result.value.words) else [])
      ensures currentLessonIndex == old(currentLessonIndex) && currentLesson == old(currentLesson)
      ensures recordedAudioUri == old(recordedAudioUri) && isAvatarSpeaking == old(isAvatarSpeaking)
    {
      result, postRequest := None, None;
      var started := BeginAnalysis(audioUri);
      if !started {
        return;
      }
      var response, request, _, _ := TheFluent.AnalyzePronunciation(
        audioUri, currentLesson.text, replies.postStamp, replies.cloudStamp, replies.tmpStamp,
        replies.post, replies.config, replies.cloudReply, replies.tmpReply, replies.score);
      result, postRequest := Some(response), Some(request);
      FinishAnalysis(response);
    }

    /**
     * `handleRecordingComplete`: remember the recording, then analyse it.
     * `result` is what the analysis answered, absent for an empty URI.
     */
    method HandleRecordingComplete(audioUri: string, replies: AnalysisReplies)
      returns (result: Option<PronunciationResponse>)
      modifies this
      ensures recordedAudioUri == Some(audioUri)
      ensures currentLessonIndex == old(currentLessonIndex) && currentLesson == old(currentLesson)
      ensures isAvatarSpeaking == old(isAvatarSpeaking)
      ensures audioUri == "" ==>
        && result.None?
        && wordFeedback == old(wordFeedback) && overallScore == old(overallScore)
        && isAnalyzing == old(isAnalyzing)
      ensures audioUri != "" ==>
        && result.Some? && !isAnalyzing
        && (ShowsResult() <==> result.value.success)
        && (result.value.success ==> overallScore == Some(result.value.overallScore))
        && wordFeedback == (if result.value.success then ToFeedback(result.value.words) else [])
    {
      recordedAudioUri := Some(audioUri);
      var postRequest;
      result, postRequest := AnalyzeFromRecording(audioUri, replies);
    }

    /** `handleAvatarSpeak`: play or pause the lesson video. */
    method HandleAvatarSpeak()
      modifies this
      ensures isAvatarSpeaking == !old(isAvatarSpeaking)
      ensures currentLessonIndex == old(currentLessonIndex) && currentLesson == old(currentLesson)
      ensures wordFeedback == old(wordFeedback) && overallScore == old(overallScore) && isAnalyzing == old(isAnalyzing)
      ensures recordedAudioUri == old(recordedAudioUri)
    {
      isAvatarSpeaking := !isAvatarSpeaking;
    }

    /** `handleVideoFinished`. */
    method HandleVideoFinished()
      modifies this
      ensures !isAvatarSpeaking
      ensures currentLessonIndex == old(currentLessonIndex) && currentLesson == old(currentLesson)
      ensures wordFeedback == old(wordFeedback) && overallScore == old(overallScore) && isAnalyzing == old(isAnalyzing)
      ensures recordedAudioUri == old(recordedAudioUri)
    {
      isAvatarSpeaking := false;
    }
  }
}
