# Suolingo decision logic in Dafny

Suolingo is a React Native app for practising English pronunciation. A
lesson text is shown next to a talking avatar video. The learner records
themselves reading the text. The recording is scored by TheFluent's
pronunciation service, and the avatar videos come from HeyGen. All the
real work happens at those vendors. What the app itself decides is
modelled here as Dafny datatypes, functions, methods and classes, with
their properties proved:

- **HeyGen client** (`src/api/heygenClient.ts`):
  - the `speakAvatar` request settings and error choice;
  - the three status normalisers (`checkVideoStatus`, `checkPhotoAvatarStatus`, `checkTrainingStatus`);
  - the three bounded pollers (`waitFor*Completion`), as loops against a reference function;
  - the test-mode branch of `uploadImageAndCreateAvatar`, with its motion and probe loops.
- **TheFluent client** (`src/api/theFluentClient.ts`):
  - the word-status bands;
  - `createPost` truncation;
  - the Google Cloud then tmpfiles upload fallback, and the tmpfiles URL rewrite;
  - the normalisation of both score-response shapes;
  - the whole `analyzePronunciation` pipeline and its failure shape.
- **Avatar agent** (`src/utils/codeAgent.ts`):
  - config defaults, `validateInput` and `optimizeText`;
  - the `executeWithRetry` recursion, proved against a reference function;
  - the FIFO request queue with its busy flag;
  - the `getAvatarAgent` singleton.
- **Lessons** (`src/utils/lessonData.ts`): the constant lesson list and the id lookups.
- **Lesson text** (`src/components/TextArea.tsx`): the whitespace-keeping split, the feedback map and the per-token highlight decision.
- **Lesson screen** (`src/screens/LessonScreen.tsx`): index navigation with its reset effect, the analysis flow, the feedback mapping, score bands and difficulty colours.
- **Recorder** (`src/components/VoiceRecorder.tsx`): `formatDuration` and the idle / recording / processing state machine.
- **`useAvatarSpeech`** (`src/hooks/useAvatarSpeech.ts`): the `speak` and `reset` state transitions.

Every vendor call becomes a parameter: the reply it got, or, for a
poller, a function from the attempt number to the reply. Time is replaced
by attempt counts. Each `Date.now()` is a digit-string parameter. Two
helper modules hold the JavaScript semantics the code relies on:

- `JsValues`: truthiness of optional strings, `||` and `String(undefined)`.
- `Strings`: the `trim`/`\s` whitespace set, first-occurrence `replace`, `substring`, `toString`, `padStart` and ASCII `toLowerCase`.

Where an await splits a handler, the screen and hook classes get a
Begin/Finish pair of methods plus one method doing both. That way the
intermediate "loading" state is part of the model.

## Model

| member | source | states |
|---|---|---|
| HeyGenStatus.BuildVideoRequest | src/api/heygenClient.ts:54-80 | talking photo with `expressive` style iff `isPhotoAvatar`, otherwise avatar with `normal` style; the default voice id when `voice` is falsy; text, 1280x720 and test flag passed on |
| HeyGenStatus.SpeakErrorMessage | src/api/heygenClient.ts:99-105 | 401 gives the invalid-key text; otherwise the vendor's `error.message`, else the exception message, else "Bilinmeyen hata"; never empty |
| HeyGenStatus.SpeakAvatarResult | src/api/heygenClient.ts:82-111 | success iff the reply had `data`; a success carries the video id and no error; a failure carries no id and a non-empty error, the derived message when the request threw |
| HeyGenStatus.CheckVideoStatus | src/api/heygenClient.ts:134-155 | same id; status and URL passed on unchanged from a reply with data; `failed` without a URL when the data is missing or the request threw; terminal iff the reply is |
| HeyGenStatus.RawPhotoStatus | src/api/heygenClient.ts:854 | `data.status`, else `data.state`, else `pending`; never empty |
| HeyGenStatus.AsArray | src/api/heygenClient.ts:866-867 | an array field is kept, anything else becomes the empty list |
| HeyGenStatus.CheckPhotoAvatarStatus | src/api/heygenClient.ts:850-882 | `success` is reported as `completed`, never as `success`; photo URLs from the first truthy of three fields; keys always a list; `failed` for missing data, with the exception message when it threw |
| HeyGenStatus.CheckTrainingStatus | src/api/heygenClient.ts:1024-1045 | status and avatar id passed on from a reply with data; `failed` otherwise, with the exception message when it threw |
| HeyGenPolling.WaitForVideoCompletion | src/api/heygenClient.ts:178-204 | equals the reference poll `VideoPoll`; at most `maxAttempts` queries and none for a non-positive budget; every earlier reply non-terminal; returns the first terminal job unchanged, or a synthetic `failed` job with the same id after the whole budget |
| HeyGenPolling.VideoPollTimesOut | src/api/heygenClient.ts:185-203 | a vendor that never reports a terminal status ends the poll as `{id, failed}` |
| HeyGenPolling.VideoPollOnlyReadsBudget | src/api/heygenClient.ts:185-196 | replies after the budget cannot change the poll's result |
| HeyGenPolling.WaitForPhotoCompletion | src/api/heygenClient.ts:768-790 | equals the reference poll `PhotoPoll`; at most `maxAttempts` queries; first terminal status unchanged, or `failed` with error `Timeout` |
| HeyGenPolling.PhotoSuccessCompletes | src/api/heygenClient.ts:853-857 | a first reply `success` ends the poll as `completed` |
| HeyGenPolling.NormalizeReady | src/api/heygenClient.ts:1069-1075 | `ready` becomes `completed` with every other field kept; anything else is unchanged; the result is never `ready` |
| HeyGenPolling.WaitForTrainingCompletion | src/api/heygenClient.ts:1054-1090 | equals the reference poll `TrainingPoll`; at most `maxAttempts` queries; stops at `completed`, `ready` or `failed`, never returns `ready`; times out as `failed` with error `Training timeout` |
| HeyGenPolling.TrainingReadyKeepsAvatar | src/api/heygenClient.ts:1067-1075 | a first reply `ready` with avatar id ends the poll `completed` with that id |
| InstantAvatar.CaughtMessage | src/api/heygenClient.ts:716-721 | vendor message, else exception message, else `Unknown error` |
| InstantAvatar.FirstGroupAvatar | src/api/heygenClient.ts:281-291 | the first listed avatar's id when the list is non-empty; the current id otherwise, including when the request failed |
| InstantAvatar.MotionAvatarId | src/api/heygenClient.ts:313-315 | `data.avatar_id`, else `data.id`, else the avatar id; non-empty when the fallback is |
| InstantAvatar.TrainStartError | src/api/heygenClient.ts:985-1012 | training started iff the reply had data; otherwise a non-empty error |
| InstantAvatar.ProbeUntilUsable | src/api/heygenClient.ts:334-385 | between 1 and 12 probes, all but the last told `avatar_not_found`; the last waits only when all 12 are spent; a success for the motion avatar whose message the last reply picks: usable when accepted, created when rejected otherwise, pending in the video system after 12 waits |
| InstantAvatar.AwaitMotion | src/api/heygenClient.ts:323-400 | between 1 and 30 detail checks, all but the last without motion; the probe loop runs iff the last check saw motion, and its answer, message included, is returned; 30 checks without motion succeed with the motion-pending message |
| InstantAvatar.CreateAvatarTestMode | src/api/heygenClient.ts:262-480 | loop bounds 30/12/120; success carries a truthy avatar id and failure a truthy error. Already trained: no training query; no avatar id in the group fails with the no-avatar error; a thrown motion call fails with its caught message; otherwise the motion loop's outcome for the motion avatar id. Not trained: no motion check; a failed start fails with `Training başlatılamadı: ` and its error; a poll not ending `completed` fails with its status and error; then a missing avatar id, a thrown motion call or a motion reply without `avatar_id` fail with their messages, and a truthy `avatar_id` succeeds with the test-mode message |
| TheFluent.GetWordStatus | src/api/theFluentClient.ts:422-426 | `correct` iff score >= 80, `mispronounced` iff 50 <= score < 80, `incorrect` iff score < 50 |
| TheFluent.WordStatusEdges | src/api/theFluentClient.ts:422-426 | 80 correct, 79 and 50 mispronounced, 49 incorrect |
| TheFluent.WordStatusMonotone | src/api/theFluentClient.ts:422-426 | a higher score is never classified worse |
| TheFluent.FailureResponse | src/api/theFluentClient.ts:143-151 | success false, score 0, no words; error is the response message, else the exception message, else `Analysis failed`, and always truthy |
| TheFluent.BuildPostRequest | src/api/theFluentClient.ts:164-177 | title is `title` or `Lesson <stamp>` cut to a prefix of at most 100 characters; content is a prefix of the text of at most 1000; both kept whole when short enough; language id in decimal |
| TheFluent.PostLanguageIdRoundTrip | src/api/theFluentClient.ts:167-174 | the language id string is all digits and reads back as the id; the default gives "22" |
| TheFluent.AudioMimeType | src/api/theFluentClient.ts:275-279 | `audio/mpeg` iff the URI contains `.mp3`, `audio/wav` otherwise |
| TheFluent.UploadToGoogleCloud | src/api/theFluentClient.ts:330-378 | throws before any request when bucket or key is empty; succeeds iff configured and HTTP 200 with a body, answering `https://storage.googleapis.com/{bucket}/recordings/recording-<stamp>.wav` |
| TheFluent.UnconfiguredCloudIgnoresReply | src/api/theFluentClient.ts:334-336 | without configuration the reply plays no part and the upload throws |
| TheFluent.TmpFilesPart | src/api/theFluentClient.ts:275-281 | MIME type chosen by `.mp3` in the URI; file name `recording-<stamp>.mp3`, with the first `.wav` replaced when the URI has `.mp3`; for a digit stamp the name is always `recording-<stamp>.mp3` |
| TheFluent.TmpFileNameAlwaysMp3 | src/api/theFluentClient.ts:276-280 | for a digit stamp the `.wav` replacement changes nothing, so the name always ends `.mp3` |
| TheFluent.DirectDownloadUrl | src/api/theFluentClient.ts:315-317 | a url with neither `http://` nor `tmpfiles.org/` is answered unchanged; a share link becomes its download link by `DirectDownloadOfShareLink` |
| TheFluent.DirectDownloadOfShareLink | src/api/theFluentClient.ts:315-317 | `http://tmpfiles.org/<path>` becomes `https://tmpfiles.org/dl/<path>` |
| TheFluent.UploadToTmpFiles | src/api/theFluentClient.ts:310-323 | succeeds iff HTTP 200 with a body, status `success` and a truthy url, answering the rewritten url; otherwise throws `tmpfiles.org upload failed with status N` or the transport error |
| TheFluent.PointsOrZero | src/api/theFluentClient.ts:122-134 | `parseFloat` falling back to 0: an unparseable or zero value gives 0 |
| TheFluent.FindOverall | src/api/theFluentClient.ts:101 | the first item carrying `overall_result_data`, present iff some item does |
| TheFluent.FindWords | src/api/theFluentClient.ts:102 | the first item carrying `word_result_data`, present iff some item does |
| TheFluent.SelectScoreData | src/api/theFluentClient.ts:99-118 | array reply: both lists from the first items carrying them, else `Invalid score response format`; object reply: both fields required, else `Invalid score response` |
| TheFluent.ToFluentWord | src/api/theFluentClient.ts:120-126 | word kept, score from points or 0, status the band of that score, phonemes from `speed`, expected "" |
| TheFluent.ToFluentWords | src/api/theFluentClient.ts:120-126 | same length and order as the vendor's list, each word converted on its own |
| TheFluent.NormalizeScore | src/api/theFluentClient.ts:99-138 | ok iff the shape check passes and the overall list is non-empty; overall and pronunciation score both equal the first entry's points; fluency absent; words converted |
| TheFluent.ThreeObjectReplyExample | src/api/theFluentClient.ts:96-138 | overall 72 with Hello/90 and Sarah/40 gives 72 and `[correct, incorrect]` |
| TheFluent.UploadedAudioUrl | src/api/theFluentClient.ts:79-89 | the Google Cloud URL when it succeeded, the tmpfiles outcome only when it threw |
| TheFluent.AnalyzePronunciation | src/api/theFluentClient.ts:55-153 | the post request built from the reference text; tmpfiles tried iff the post succeeded and Google Cloud threw; scoring requested with the uploaded URL at scale 100; success iff scoring normalised; every failure has score 0, no words and a truthy error |
| CodeAgent.ResolveConfig | src/utils/codeAgent.ts:32-39 | each missing field defaults (true, 3, 2000, true); a present field is kept, including 0 and false |
| CodeAgent.RetryLimit | src/utils/codeAgent.ts:99 | a missing or zero `maxRetries` gives 3, anything else itself |
| CodeAgent.ValidateInput | src/utils/codeAgent.ts:116-126 | empty-text error iff the text is all whitespace; too-long error iff not blank and longer than 5000 untrimmed; accepted otherwise, 5000 included |
| CodeAgent.CollapseWhitespace | src/utils/codeAgent.ts:134 | never longer; empty iff input empty; first and last character keep their whitespace-ness; only single spaces remain |
| CodeAgent.OptimizeText | src/utils/codeAgent.ts:131-136 | trim, `CollapseWhitespace`, then `CapNewlineRuns` (line 135, which keeps text without line feeds as it is): no leading or trailing whitespace, no two adjacent whitespace characters, no newline; empty iff the text is blank |
| CodeAgent.CollapseFixpoint | src/utils/codeAgent.ts:134 | already single-spaced text is unchanged by the collapse |
| CodeAgent.OptimizeTextIdempotent | src/utils/codeAgent.ts:131-136 | optimising twice equals optimising once |
| CodeAgent.OptimizeTextKeepsText | src/utils/codeAgent.ts:131-136 | only whitespace changes: the non-whitespace characters are kept in order |
| CodeAgent.WordsAreWords | src/utils/codeAgent.ts:134 | the words of a text (its maximal runs without whitespace, `Words`) are non-empty and hold no whitespace |
| CodeAgent.CollapseWords | src/utils/codeAgent.ts:134 | every maximal whitespace run becomes exactly one space: a blank text gives one space (none when empty), any other gives its words joined by single spaces, with one space before or after when the text starts or ends with whitespace |
| CodeAgent.OptimizeTextJoinsWords | src/utils/codeAgent.ts:131-136 | the result is exactly the words of the text joined by single spaces (`JoinWords`) |
| CodeAgent.WordsOfJoin | src/utils/codeAgent.ts:134 | splitting words joined by single spaces gives the same words back |
| CodeAgent.OptimizeTextKeepsWords | src/utils/codeAgent.ts:131-136 | the result has the same words as the text, in the same order |
| CodeAgent.AttemptOutcome | src/utils/codeAgent.ts:76-94 | an attempt succeeds iff the submission gave a truthy video id and the poll ended `completed` with a URL; a failed submission's error is passed on; messages non-empty |
| CodeAgent.Retry | src/utils/codeAgent.ts:66-111 | attempts between the start and `LastAllowed` (the limit of line 99, `maxRetries` or 3 when that is missing or zero, when `autoRetry` holds and the start is below it; else the start), exactly one without autoRetry; every earlier attempt failed; success iff the last attempt succeeded, with its URL and attempt number; a failure carries the last attempt's message |
| CodeAgent.RetryReachesFirstSuccess | src/utils/codeAgent.ts:85-103 | with retries allowed, the result is the first successful attempt within the limit |
| CodeAgent.FailFailSucceed | src/utils/codeAgent.ts:99-103 | with defaults, fail, fail, succeed gives success with 3 attempts |
| CodeAgent.RetryExhausted | src/utils/codeAgent.ts:99-109 | when every attempt fails the result fails at the last allowed attempt with its message |
| CodeAgent.ProcessInput | src/utils/codeAgent.ts:44-61 | an invalid text is refused with its message before any call; a valid one is retried from attempt 1 |
| CodeAgent.AvatarCodeAgent.constructor | src/utils/codeAgent.ts:32-39 | config resolved with defaults; empty queue, not processing |
| CodeAgent.AvatarCodeAgent.ExecuteWithRetry | src/utils/codeAgent.ts:66-111 | equals the reference `Retry`; one request per attempt, each for the same avatar and text with the default voice |
| CodeAgent.AvatarCodeAgent.ProcessUserInput | src/utils/codeAgent.ts:44-61 | equals the reference; no request for an invalid text; otherwise every request carries the optimised text |
| CodeAgent.AvatarCodeAgent.ProcessQueue | src/utils/codeAgent.ts:150-165 | does nothing while busy or empty; otherwise drains the queue in FIFO order, answers each request, and ends with `GetQueueStatus` (`getQueueStatus`, lines 186-191) reporting size 0 and not processing |
| CodeAgent.AvatarCodeAgent.AddToQueue | src/utils/codeAgent.ts:141-145 | appends the request; when idle the whole queue, new request last, is then processed |
| CodeAgent.AgentRegistry.GetAvatarAgent | src/utils/codeAgent.ts:195-205 | the first call creates an agent from its config; every later call returns that same agent, ignoring its config |
| LessonData.LessonIds | src/utils/lessonData.ts:7-43 | five lessons with ids 1 to 5 in order |
| LessonData.LessonIdsDistinct | src/utils/lessonData.ts:7-43 | the ids are pairwise distinct |
| LessonData.FindIndex | src/utils/lessonData.ts:56-67 | `findIndex`: -1 iff no lesson has the id, otherwise the first position with it |
| LessonData.FindById | src/utils/lessonData.ts:49 | `find`: present iff some lesson has the id, and then the first such lesson |
| LessonData.NextIn | src/utils/lessonData.ts:55-61 | absent for an unknown id or the last lesson, otherwise the element right after |
| LessonData.PreviousIn | src/utils/lessonData.ts:66-72 | absent for an unknown id or the first lesson, otherwise the element right before |
| LessonData.NextThenPreviousIn | src/utils/lessonData.ts:55-72 | on a list with distinct ids, previous of next is the lesson itself |
| LessonData.PreviousThenNextIn | src/utils/lessonData.ts:55-72 | on a list with distinct ids, next of previous is the lesson itself |
| LessonData.LessonPosition | src/utils/lessonData.ts:7-43 | the lesson with id k sits at position k-1; other ids are not found |
| LessonData.GetLessonById | src/utils/lessonData.ts:48-50 | present iff 1 <= id <= 5, and then the lesson with that id |
| LessonData.GetNextLesson | src/utils/lessonData.ts:55-61 | present iff 1 <= id < 5, and then the lesson with id+1 |
| LessonData.GetPreviousLesson | src/utils/lessonData.ts:66-72 | present iff 1 < id <= 5, and then the lesson with id-1 |
| LessonData.NextThenPrevious | src/utils/lessonData.ts:55-72 | for a non-last lesson, previous of next is that lesson |
| LessonData.PreviousThenNext | src/utils/lessonData.ts:55-72 | for a non-first lesson, next of previous is that lesson |
| TextArea.SplitKeepingWhitespace | src/components/TextArea.tsx:22 | an odd number of tokens alternating between runs without whitespace and non-empty whitespace runs; only the first and the last word run may be empty, the first exactly when the text is empty or starts with whitespace |
| TextArea.SplitConcat | src/components/TextArea.tsx:22 | joining the tokens gives back the text exactly |
| TextArea.RemovePunctuation | src/components/TextArea.tsx:36 | no `. , ! ? ; :` remains, never longer, and text without them is unchanged |
| TextArea.LastIndexOfKey | src/components/TextArea.tsx:23 | -1 iff no entry's lower-cased word is the key, otherwise the last such entry |
| TextArea.FeedbackMap | src/components/TextArea.tsx:23 | a key is present iff some entry has it, and maps to the last such entry |
| TextArea.RenderToken | src/components/TextArea.tsx:29-66 | the token's own text in every case; as-is iff it trims to empty; highlighted iff its lookup key is in the map; green with green background iff correct, red otherwise |
| TextArea.TextAreaView | src/components/TextArea.tsx:9-72 | plain text iff the feedback is missing or empty; otherwise one piece per token, with the legend |
| TextArea.WordViewKeepsText | src/components/TextArea.tsx:22-66 | the pieces spell out the original text |
| TextArea.SeparatorsShownAsIs | src/components/TextArea.tsx:31-33 | every whitespace token is shown as it is |
| TextArea.MatchedWordColour | src/components/TextArea.tsx:36-40 | a word matching an entry (and no later one) is highlighted in that entry's colour |
| TextArea.UnmatchedWordNormal | src/components/TextArea.tsx:61-66 | a word matching no entry is shown as a normal word |
| LessonScreen.ToFeedback | src/screens/LessonScreen.tsx:79-83 | same length and order; word and score copied; `isCorrect` iff status is `correct` |
| LessonScreen.GetScoreBand | src/screens/LessonScreen.tsx:303-305 | bands >= 80, 60 to 79, below 60 |
| LessonScreen.ScoreColor | src/screens/LessonScreen.tsx:305-313 | green, orange and red for the three bands |
| LessonScreen.ScoreMessage | src/screens/LessonScreen.tsx:319-323 | the praise message iff score >= 80, the practise-more message iff 60 to 79, the keep-going message iff below 60 |
| LessonScreen.ScoreBandMonotone | src/screens/LessonScreen.tsx:303 | a higher score is never in a lower band |
| LessonScreen.GetDifficultyColor | src/screens/LessonScreen.tsx:188-199 | green, orange and red for the three difficulties; blue iff the name is none of them |
| LessonScreen.BadgeColor | src/screens/LessonScreen.tsx:209 | the difficulty's colour, read as `beginner` when missing |
| LessonScreen.DifficultyColorsDistinct | src/screens/LessonScreen.tsx:188-209 | the three colours differ and no lesson's badge is blue |
| LessonScreen.LessonTextViewAsWritten | src/screens/LessonScreen.tsx:246 | the lesson text is always shown plain, whatever the feedback |
| LessonScreen.AsWrittenDropsFeedback | src/screens/LessonScreen.tsx:246 | after an analysis with words the text stays plain, though the same feedback would give a highlighted view |
| LessonScreen.LessonTextView | src/screens/LessonScreen.tsx:246 | with the feedback passed on: plain iff there is none, otherwise a highlighted view with legend that spells out the text |
| LessonScreen.AnalysedWordHighlighted | src/screens/LessonScreen.tsx:246 | an analysed word found in the text is highlighted green iff the analysis judged it correct |
| LessonScreen.LessonScreenState.constructor | src/screens/LessonScreen.tsx:32-47 | first lesson, nothing recorded, analysed or playing |
| LessonScreen.LessonScreenState.SetLessonIndex | src/screens/LessonScreen.tsx:41-47 | the lesson follows the index; feedback, score and recording cleared |
| LessonScreen.LessonScreenState.HandleNextLesson | src/screens/LessonScreen.tsx:124-130 | moves forward and resets only below the last index; otherwise nothing changes; the index stays in range |
| LessonScreen.LessonScreenState.HandlePreviousLesson | src/screens/LessonScreen.tsx:135-141 | moves back and resets only above 0; otherwise nothing changes; the index stays in range |
| LessonScreen.LessonScreenState.BeginAnalysis | src/screens/LessonScreen.tsx:65-72 | an empty URI changes nothing; otherwise analysing starts with feedback and score cleared |
| LessonScreen.LessonScreenState.FinishAnalysis | src/screens/LessonScreen.tsx:77-104 | a success stores the mapped feedback and the score; analysing ends on every path |
| LessonScreen.LessonScreenState.AnalyzeFromRecording | src/screens/LessonScreen.tsx:64-105 | the current lesson's text is submitted; the result panel shows iff the analysis succeeded; a failure leaves no feedback |
| LessonScreen.LessonScreenState.HandleRecordingComplete | src/screens/LessonScreen.tsx:53-59 | the recording is remembered, even an empty one; an empty one changes nothing else; otherwise the analysis result is returned, the result panel shows iff it succeeded, and the feedback is the mapped words on success and empty on failure; lesson and video state kept |
| LessonScreen.LessonScreenState.HandleAvatarSpeak | src/screens/LessonScreen.tsx:110-112 | flips whether the avatar video plays; lesson, feedback, score, analysis flag and recording kept |
| LessonScreen.LessonScreenState.HandleVideoFinished | src/screens/LessonScreen.tsx:117-119 | the avatar video stops; lesson, feedback, score, analysis flag and recording kept |
| VoiceRecorder.TwoDigitsValue | src/components/VoiceRecorder.tsx:154 | below 100 the padded form is two digits reading back as the number |
| VoiceRecorder.FormatDuration | src/components/VoiceRecorder.tsx:151-155 | below 6000 s: five characters, two digits of minutes, a colon, two digits of seconds |
| VoiceRecorder.FormatDurationRoundTrip | src/components/VoiceRecorder.tsx:151-155 | 60 times the minutes plus the seconds read back is the duration |
| VoiceRecorder.FormatDurationInjective | src/components/VoiceRecorder.tsx:151-155 | two durations below 6000 s never display alike |
| VoiceRecorder.FinalUri | src/components/VoiceRecorder.tsx:95-96 | the document directory followed by `recording-<stamp>.wav` |
| VoiceRecorder.VoiceRecorderState.constructor | src/components/VoiceRecorder.tsx:9-15 | idle, no recording, duration 0 |
| VoiceRecorder.VoiceRecorderState.StartRecording | src/components/VoiceRecorder.tsx:17-69 | denied permission or a failing call changes nothing; a start records from duration 0 with the timer on |
| VoiceRecorder.VoiceRecorderState.Tick | src/components/VoiceRecorder.tsx:60-62 | while the timer runs the duration grows by exactly 1 |
| VoiceRecorder.VoiceRecorderState.BeginStop | src/components/VoiceRecorder.tsx:72-81 | without a recording nothing changes; otherwise recording ends, processing starts, the timer stops |
| VoiceRecorder.VoiceRecorderState.FinishStop | src/components/VoiceRecorder.tsx:83-111 | processing ends on every outcome; on success the copied file's URI is stored and handed on; a failing unload keeps the recording object |
| VoiceRecorder.VoiceRecorderState.StopRecording | src/components/VoiceRecorder.tsx:71-112 | a no-op without a recording; otherwise as the two halves together |
| VoiceRecorder.VoiceRecorderState.HandlePress | src/components/VoiceRecorder.tsx:143-149 | while recording: stops, and on success hands on and stores the same `recording-<stamp>.wav` URI, otherwise keeps the stored one; when idle: a denied or failing start changes nothing, a start records from 0 with the timer on, and the stored URI is kept |
| AvatarSpeech.SpeechOutcome | src/hooks/useAvatarSpeech.ts:33-51 | a URL iff the submission gave a truthy video id and the poll ended `completed` with a URL; the submission's error, the fixed fallback or the not-created message otherwise |
| AvatarSpeech.ThrownSubmissionMessage | src/hooks/useAvatarSpeech.ts:47-50 | a submission that threw ends with `speakAvatar`'s derived message |
| AvatarSpeech.TimedOutVideoNotCreated | src/hooks/useAvatarSpeech.ts:37-45 | a video never finishing is reported as not created |
| AvatarSpeech.AvatarSpeechState.BeginSpeak | src/hooks/useAvatarSpeech.ts:22-29 | blank text changes nothing; otherwise loading starts with URL and error cleared |
| AvatarSpeech.AvatarSpeechState.FinishSpeak | src/hooks/useAvatarSpeech.ts:39-59 | the URL or the error is stored, never both, and loading stops |
| AvatarSpeech.AvatarSpeechState.Speak | src/hooks/useAvatarSpeech.ts:21-60 | the trimmed text is submitted; at most 60 status queries; state ends as the reference outcome says |
| AvatarSpeech.AvatarSpeechState.Reset | src/hooks/useAvatarSpeech.ts:62-66 | URL and error cleared, not loading |

## Findings

| source | as written | input that shows it | evidently intended | confidence | as-written member | corrected member |
|---|---|---|---|---|---|---|
| src/screens/LessonScreen.tsx:246 | `<TextArea text={currentLesson.text} />`: the `wordFeedback` state set at line 85 is never read, so the lesson text is never highlighted | any successful analysis that scores at least one word; the alert at line 93 then says correct words are green and wrong ones red, but the text stays plain | pass `feedback={wordFeedback}` so `TextArea` highlights each analysed word | high, not executed | LessonScreen.AsWrittenDropsFeedback | LessonScreen.AnalysedWordHighlighted |

`LessonScreenState.TextView` uses the corrected `LessonTextView`.

## Left out

- HTTP transport, API keys, environment variables, headers and timeouts. Each vendor call is a reply parameter.
- Real time: sleeps between polls, retry delays and the recorder's `setInterval`. Attempts and ticks are counted instead.
- Logging, `Alert` dialogs, styles and JSX layout beyond the pieces listed above.
- `parseFloat`: points are optional integers, absent for an unparseable value. Fractional scores are not modelled.
- Strings are sequences of characters. JavaScript counts UTF-16 code units, so `substring(0, 100)` and `text.length > 5000` can differ from the model for text outside the Basic Multilingual Plane.
- `toLowerCase` is modelled for ASCII letters only.
- `encodeURIComponent` in the Google Cloud upload URL. Only the public URL the upload returns is modelled.
- A vendor status field that is absent is represented by the string "undefined".
- A `word_result_data` that is present but not an array, and the exact text of the TypeError thrown for an empty `overall_result_data` list, which depends on the JavaScript engine.
- The normal-mode half of `uploadImageAndCreateAvatar`, `uploadImageAsset`, `generatePhotoAvatar`, `createPhotoAvatarGroup` and `addPhotosToGroup`. That code is unreachable because `TEST_MODE` is the constant `true`.
- `getAvailableAvatars`, `generateTTS` and `getSupportedLanguages`, which are thin vendor wrappers.
- `uploadAudioToPublicUrl` and `generateMockPronunciationResponse`, which are never called.
- `testUploadWithMP3` in the lesson screen, which is a developer test button.
- `playRecording` in the recorder, which is playback only.
- `HomeScreen`, `AvatarPlayer`, `AvatarVideo` and `App`, which are screen glue and video widgets.
- AvatarSpeech.AvatarSpeechState.Speak: the `catch` branch is not modelled. `speakAvatar` and `waitForVideoCompletion` catch every error themselves, so it cannot be reached.
- LessonScreen.LessonScreenState.AnalyzeFromRecording: the `catch` branch is not modelled, for the same reason: `analyzePronunciation` never throws.
- CodeAgent.AvatarCodeAgent.ProcessQueue: requests run one after another. The interleaving of awaited calls with new `addToQueue` calls is not modelled; each request's replies are parameters indexed by its position.
- VoiceRecorder.VoiceRecorderState.StartRecording: the failing audio calls are folded into one outcome, and the recording configuration is not modelled.
- VoiceRecorder.VoiceRecorderState.FinishStop: the failing audio-mode, copy and file-info calls are folded into one outcome.
- React's batching of state updates is not modelled. Each handler's updates take effect in program order, and the index-change effect runs inside the navigation methods.
