/**
 * The word-highlighting decision of the lesson text view
 * (src/components/TextArea.tsx): how the text is cut into tokens, how
 * feedback is looked up for each word, and which colour each token gets.
 * Layout and styling are not modelled; a token's rendering is reduced to
 * its text and the kind of `<Text>` it becomes.
 */
module TextArea {
  import opened JsValues
  import opened Strings
  import opened Types

  // ---------------------------------------------------------------------
  // text.split(/(\s+)/)
  // ---------------------------------------------------------------------

  /** Even positions hold runs without whitespace, odd positions non-empty whitespace runs. */
  predicate Alternating(tokens: seq<string>) {
    forall i :: 0 <= i < |tokens| ==>
      if i % 2 == 0 then NoWhitespace(tokens[i]) else tokens[i] != [] && AllWhitespace(tokens[i])
  }

  /**
   * `text.split(/(\s+)/)`: the separators are captured, so the tokens
   * alternate between a (possibly empty) run without whitespace and a
   * non-empty whitespace run, beginning and ending with the first kind.
   */
  function SplitKeepingWhitespace(s: string): (tokens: seq<string>)
    decreases |s|
    ensures |tokens| % 2 == 1
    ensures Alternating(tokens)
    ensures tokens[0] == [] <==> s == [] || IsWhitespace(s[0])
    ensures InnerWordsNonEmpty(tokens)
    ensures s == [] ==> tokens == [[]]
  {
    var w := WordPrefix(s);
    if w == |s| then
      assert s[..w] == s;
      [s]
    else
      var rest := s[w..];
      var sp := SpacePrefix(rest);
      var tail := SplitKeepingWhitespace(rest[sp..]);
      AlternatingCons(s[..w], rest[..sp], tail);
      InnerWordsCons(s[..w], rest[..sp], tail);
      [s[..w], rest[..sp]] + tail
  }

  /** Only the first and the last token may be an empty word: two whitespace runs are never adjacent. */
  predicate InnerWordsNonEmpty(tokens: seq<string>) {
    forall i :: 0 < i < |tokens| - 1 && i % 2 == 0 ==> tokens[i] != []
  }

  /** Two tokens in front keep the inner words non-empty when the old first token is the last one or is non-empty. */
  lemma InnerWordsCons(word: string, space: string, tail: seq<string>)
    requires InnerWordsNonEmpty(tail) && tail != []
    requires |tail| == 1 || tail[0] != []
    ensures InnerWordsNonEmpty([word, space] + tail)
  {
    var tokens := [word, space] + tail;
    forall i | 2 <= i < |tokens|
      ensures tokens[i] == tail[i - 2]
    {
    }
  }

  /** A word run and a whitespace run in front of alternating tokens keep them alternating. */
  lemma AlternatingCons(word: string, space: string, tail: seq<string>)
    requires NoWhitespace(word) && space != [] && AllWhitespace(space)
    requires Alternating(tail)
    ensures Alternating([word, space] + tail)
  {
    var tokens := [word, space] + tail;
    forall i | 2 <= i < |tokens|
      ensures if i % 2 == 0 then NoWhitespace(tokens[i]) else tokens[i] != [] && AllWhitespace(tokens[i])
    {
      assert tokens[i] == tail[i - 2];
    }
  }

  lemma ConcatCons2(a: string, b: string, tail: seq<string>)
    ensures Concat([a, b] + tail) == a + b + Concat(tail)
  {
    var tokens := [a, b] + tail;
    assert tokens[1..] == [b] + tail;
    assert tokens[1..][1..] == tail;
  }

  /** Joining the tokens gives back the text exactly. */
  lemma {:induction false} SplitConcat(s: string)
    ensures Concat(SplitKeepingWhitespace(s)) == s
    decreases |s|
  {
    var w := WordPrefix(s);
    if w == |s| {
      assert s[..w] == s;
    } else {
      var rest := s[w..];
      var sp := SpacePrefix(rest);
      assert s[..w] + rest[..sp] + rest[sp..] == s;
      var tail := SplitKeepingWhitespace(rest[sp..]);
      SplitConcat(rest[sp..]);
      ConcatCons2(s[..w], rest[..sp], tail);
    }
  }

  // ---------------------------------------------------------------------
  // Feedback lookup
  // ---------------------------------------------------------------------

  /** The punctuation dropped before lookup: `. , ! ? ; :`. */
  predicate IsPunctuation(c: char) {
    c == '.' || c == ',' || c == '!' || c == '?' || c == ';' || c == ':'
  }

  /** `s.replace(/[.,!?;:]/g, '')`. */
  function RemovePunctuation(s: string): (r: string)
    ensures |r| <= |s|
    ensures forall i :: 0 <= i < |r| ==> !IsPunctuation(r[i])
    ensures (forall i :: 0 <= i < |s| ==> !IsPunctuation(s[i])) ==> r == s
  {
    if s == [] then []
    else (if IsPunctuation(s[0]) then [] else [s[0]]) + RemovePunctuation(s[1..])
  }

  /** The key a word token is looked up with: lower case, punctuation removed. */
  function LookupKey(token: string): string {
    RemovePunctuation(ToLower(token))
  }

  /** The position of the last feedback entry whose lower-cased word is `key`, or -1. */
  function LastIndexOfKey(feedback: seq<WordFeedback>, key: string): (r: int)
    ensures -1 <= r < |feedback|
    ensures r == -1 <==> forall j :: 0 <= j < |feedback| ==> ToLower(feedback[j].word) != key
    ensures r != -1 ==>
      (ToLower(feedback[r].word) == key && forall j :: r < j < |feedback| ==> ToLower(feedback[j].word) != key)
  {
    if feedback == [] then -1
    else if ToLower(feedback[|feedback| - 1].word) == key then |feedback| - 1
    else LastIndexOfKey(feedback[..|feedback| - 1], key)
  }

  /**
   * `new Map(feedback.map(f => [f.word.toLowerCase(), f]))`: keyed by the
   * lower-cased word; of several entries with the same key the last wins.
   */
  function FeedbackMap(feedback: seq<WordFeedback>): (m: map<string, WordFeedback>)
    ensures forall k :: k in m <==> LastIndexOfKey(feedback, k) != -1
    ensures forall k :: k in m ==> m[k] == feedback[LastIndexOfKey(feedback, k)]
  {
    if feedback == [] then map[]
    else
      var init := feedback[..|feedback| - 1];
      var last := feedback[|feedback| - 1];
      FeedbackMap(init)[ToLower(last.word) := last]
  }

  // ---------------------------------------------------------------------
  // Rendering decision
  // ---------------------------------------------------------------------

  const GREEN := "#34c759"
  const RED := "#ff3b30"
  const GREEN_BACKGROUND := "rgba(52, 199, 89, 0.1)"
  const RED_BACKGROUND := "rgba(255, 59, 48, 0.1)"

  /** How one token is shown: as it is, as a normal word, or highlighted. */
  datatype Piece =
    | AsIs(text: string)
    | NormalWord(text: string)
    | Highlighted(text: string, color: string, background: string)

  /** The decision for one token. */
  function RenderToken(token: string, feedbackMap: map<string, WordFeedback>): (p: Piece)
    ensures p.text == token
    ensures p.AsIs? <==> Trim(token) == []
    ensures p.Highlighted? <==> Trim(token) != [] && LookupKey(token) in feedbackMap
    ensures p.Highlighted? ==>
      var correct := feedbackMap[LookupKey(token)].isCorrect;
      && (p.color == GREEN <==> correct)
      && (p.color == RED <==> !correct)
      && p.background == (if correct then GREEN_BACKGROUND else RED_BACKGROUND)
  {
    if Trim(token) == [] then AsIs(token)
    else
      var key := LookupKey(token);
      if key in feedbackMap then
        var f := feedbackMap[key];
        Highlighted(token, if f.isCorrect then GREEN else RED, if f.isCorrect then GREEN_BACKGROUND else RED_BACKGROUND)
      else NormalWord(token)
  }

  /** What the component shows: the text alone, or the tokens with the legend. */
  datatype View = PlainText(text: string) | WordView(pieces: seq<Piece>, showLegend: bool)

  /** The texts of the pieces, in order. */
  function PieceTexts(pieces: seq<Piece>): seq<string> {
    seq(|pieces|, i requires 0 <= i < |pieces| => pieces[i].text)
  }

  /** `TextArea`: plain text without feedback, otherwise one piece per token. */
  function TextAreaView(text: string, feedback: Option<seq<WordFeedback>>): (v: View)
    ensures feedback.None? || feedback.value == [] <==> v == PlainText(text)
    ensures v.WordView? ==>
      var tokens := SplitKeepingWhitespace(text);
      var m := FeedbackMap(feedback.value);
      && v.showLegend
      && |v.pieces| == |tokens|
      && forall i :: 0 <= i < |tokens| ==> v.pieces[i] == RenderToken(tokens[i], m)
  {
    if feedback.None? || feedback.value == [] then PlainText(text)
    else
      var tokens := SplitKeepingWhitespace(text);
      var m := FeedbackMap(feedback.value);
      WordView(seq(|tokens|, i requires 0 <= i < |tokens| => RenderToken(tokens[i], m)), |feedback.value| > 0)
  }

  /** Highlighting never changes the text: the pieces spell out the original text. */
  lemma WordViewKeepsText(text: string, feedback: Option<seq<WordFeedback>>)
    requires TextAreaView(text, feedback).WordView?
    ensures Concat(PieceTexts(TextAreaView(text, feedback).pieces)) == text
  {
    var v := TextAreaView(text, feedback);
    var tokens := SplitKeepingWhitespace(text);
    var m := FeedbackMap(feedback.value);
    assert forall i :: 0 <= i < |tokens| ==> v.pieces[i] == RenderToken(tokens[i], m);
    PieceTextsOf(v.pieces, tokens);
    SplitConcat(text);
  }

  lemma PieceTextsOf(pieces: seq<Piece>, tokens: seq<string>)
    requires |pieces| == |tokens|
    requires forall i :: 0 <= i < |tokens| ==> pieces[i].text == tokens[i]
    ensures PieceTexts(pieces) == tokens
  {
  }

  /** The separators between words are shown as they are. */
  lemma SeparatorsShownAsIs(text: string, feedback: Option<seq<WordFeedback>>, i: int)
    requires TextAreaView(text, feedback).WordView?
    requires 0 <= i < |SplitKeepingWhitespace(text)| && i % 2 == 1
    ensures TextAreaView(text, feedback).pieces[i] == AsIs(SplitKeepingWhitespace(text)[i])
  {
    TrimEmptyIffBlank(SplitKeepingWhitespace(text)[i]);
  }

  /**
   * A word whose lower-cased, punctuation-free form matches a feedback
   * entry's lower-cased word is coloured by the last such entry.
   */
  lemma MatchedWordColour(token: string, feedback: seq<WordFeedback>, i: int)
    requires Trim(token) != []
    requires 0 <= i < |feedback| && ToLower(feedback[i].word) == LookupKey(token)
    requires forall j :: i < j < |feedback| ==> ToLower(feedback[j].word) != LookupKey(token)
    ensures RenderToken(token, FeedbackMap(feedback)).Highlighted?
    ensures RenderToken(token, FeedbackMap(feedback)).color == if feedback[i].isCorrect then GREEN else RED
  {
    assert LastIndexOfKey(feedback, LookupKey(token)) == i;
  }

  /** A word that matches no feedback entry is shown as a normal word. */
  lemma UnmatchedWordNormal(token: string, feedback: seq<WordFeedback>)
    requires Trim(token) != []
    requires forall j :: 0 <= j < |feedback| ==> ToLower(feedback[j].word) != LookupKey(token)
    ensures RenderToken(token, FeedbackMap(feedback)) == NormalWord(token)
  {
  }
}
