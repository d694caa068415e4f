/**
 * The records shared by the client code and the screens
 * (src/utils/types.ts). Optional TypeScript properties become `Option`s.
 */
module Types {
  import opened JsValues

  /** The three-level correctness of one spoken word. */
  datatype WordStatus = Correct | Incorrect | Mispronounced

  /** `TheFluentWord`: one scored word of a pronunciation analysis. */
  datatype TheFluentWord = TheFluentWord(
    word: string,
    score: int,
    status: WordStatus,
    phonemes: Option<string>,
    expected: Option<string>)

  /** `TheFluentPronunciationResponse`. */
  datatype PronunciationResponse = PronunciationResponse(
    success: bool,
    overallScore: int,
    words: seq<TheFluentWord>,
    fluencyScore: Option<int>,
    pronunciationScore: Option<int>,
    error: Option<string>)

  datatype Difficulty = Beginner | Intermediate | Advanced

  /** `Lesson`: an immutable entry of the built-in lesson list. */
  datatype Lesson = Lesson(
    id: int,
    title: string,
    text: string,
    avatarVideoUrl: string,
    difficulty: Option<Difficulty>)

  /** `WordFeedback`: what the text view needs to colour one word. */
  datatype WordFeedback = WordFeedback(word: string, isCorrect: bool, score: Option<int>)
}
