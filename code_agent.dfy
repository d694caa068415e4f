/**
 * The avatar "code agent" (src/utils/codeAgent.ts): it validates and
 * normalises the user's text, submits it through the video client with a
 * bounded retry, keeps a FIFO queue of pending requests guarded by a busy
 * flag, and is shared through a lazily created single instance.
 *
 * The vendor is an oracle: `speak(k)` is the reply to the generation
 * request of attempt `k` (counting from 1), and `polls(k)` the status
 * replies seen while waiting for that attempt's video.
 */
module CodeAgent {
  import opened JsValues
  import opened Strings
  import opened HeyGenStatus
  import opened HeyGenPolling

  // ---------------------------------------------------------------------
  // Configuration
  // ---------------------------------------------------------------------

  /** `AgentConfig`: every field optional. */
  datatype AgentConfig = AgentConfig(
    autoRetry: Option<bool>,
    maxRetries: Option<int>,
    retryDelay: Option<int>,
    enableLogging: Option<bool>)

  /** The configuration the constructor stores, with every field present. */
  datatype Settings = Settings(autoRetry: bool, maxRetries: int, retryDelay: int, enableLogging: bool)

  const DEFAULT_MAX_RETRIES := 3
  const DEFAULT_RETRY_DELAY := 2000

  /** The constructor's `??` defaults: a given value is kept, even `false` or 0. */
  function ResolveConfig(c: AgentConfig): (s: Settings)
    ensures c.autoRetry.Some? ==> s.autoRetry == c.autoRetry.value
    ensures c.autoRetry.None? ==> s.autoRetry
    ensures c.maxRetries.Some? ==> s.maxRetries == c.maxRetries.value
    ensures c.maxRetries.None? ==> s.maxRetries == DEFAULT_MAX_RETRIES
    ensures c.retryDelay.Some? ==> s.retryDelay == c.retryDelay.value
    ensures c.retryDelay.None? ==> s.retryDelay == DEFAULT_RETRY_DELAY
    ensures c.enableLogging.Some? ==> s.enableLogging == c.enableLogging.value
    ensures c.enableLogging.None? ==> s.enableLogging
  {
    Settings(
      if c.autoRetry.Some? then c.autoRetry.value else true,
      if c.maxRetries.Some? then c.maxRetries.value else DEFAULT_MAX_RETRIES,
      if c.retryDelay.Some? then c.retryDelay.value else DEFAULT_RETRY_DELAY,
      if c.enableLogging.Some? then c.enableLogging.value else true)
  }

  /**
   * `maxRetries || 3`: the retry test reads the stored value through `||`,
   * so a stored 0 (which `??` kept) still allows three attempts.
   */
  function RetryLimit(maxRetries: int): (n: int)
    ensures maxRetries != 0 ==> n == maxRetries
    ensures maxRetries == 0 ==> n == DEFAULT_MAX_RETRIES
  {
    if maxRetries == 0 then DEFAULT_MAX_RETRIES else maxRetries
  }

  // ---------------------------------------------------------------------
  // validateInput
  // ---------------------------------------------------------------------

  const EMPTY_TEXT := "Metin boş olamaz"
  const TEXT_TOO_LONG := "Metin çok uzun (maksimum 5000 karakter)"
  const MAX_TEXT_LENGTH := 5000

  /** `validateInput`: blank text first, then text over 5000 characters (counted before trimming). */
  function ValidateInput(text: string): (r: Option<string>)
    ensures r == Some(EMPTY_TEXT) <==> AllWhitespace(text)
    ensures r == Some(TEXT_TOO_LONG) <==> !AllWhitespace(text) && |text| > MAX_TEXT_LENGTH
    ensures r == None <==> !AllWhitespace(text) && |text| <= MAX_TEXT_LENGTH
  {
    TrimEmptyIffBlank(text);
    if text == [] || Trim(text) == [] then Some(EMPTY_TEXT)
    else if |text| > MAX_TEXT_LENGTH then Some(TEXT_TOO_LONG)
    else None
  }

  // ---------------------------------------------------------------------
  // optimizeText
  // ---------------------------------------------------------------------

  /** Every whitespace character is a plain space and no two whitespace characters are adjacent. */
  predicate SingleSpaced(s: string) {
    && (forall i :: 0 <= i < |s| && IsWhitespace(s[i]) ==> s[i] == ' ')
    && (forall i :: 0 <= i < |s| - 1 ==> !IsWhitespace(s[i]) || !IsWhitespace(s[i + 1]))
  }

  /** `s.replace(/\s+/g, ' ')`: every maximal run of whitespace becomes one space. */
  function CollapseWhitespace(s: string): (r: string)
    decreases |s|
    ensures |r| <= |s|
    ensures r == [] <==> s == []
    ensures s != [] ==> (IsWhitespace(r[0]) <==> IsWhitespace(s[0]))
    ensures s != [] ==> (IsWhitespace(r[|r| - 1]) <==> IsWhitespace(s[|s| - 1]))
    ensures SingleSpaced(r)
  {
    if s == [] then []
    else if IsWhitespace(s[0]) then
      var t := TrimStart(s[1..]);
      var rest := CollapseWhitespace(t);
      assert t != [] ==> t[|t| - 1] == s[|s| - 1];
      assert t == [] && |s| > 1 ==> IsWhitespace(s[1..][|s| - 2]);
      SingleSpacedCons(' ', rest);
      var r := [' '] + rest;
      assert rest != [] ==> r[|r| - 1] == rest[|rest| - 1];
      r
    else
      var rest := CollapseWhitespace(s[1..]);
      SingleSpacedCons(s[0], rest);
      var r := [s[0]] + rest;
      assert rest != [] ==> r[|r| - 1] == rest[|rest| - 1];
      assert s[1..] != [] ==> s[1..][|s| - 2] == s[|s| - 1];
      r
  }

  /** One character in front of single-spaced text keeps it single-spaced when it does not start a second whitespace. */
  lemma SingleSpacedCons(c: char, rest: string)
    requires SingleSpaced(rest)
    requires IsWhitespace(c) ==> c == ' ' && (rest == [] || !IsWhitespace(rest[0]))
    ensures SingleSpaced([c] + rest)
  {
    var r := [c] + rest;
    forall i | 1 <= i < |r|
      ensures r[i] == rest[i - 1]
    {
    }
  }

  /** The number of line feeds `s` starts with. */
  function LeadingNewlines(s: string): (n: nat)
    ensures n <= |s|
    ensures forall i :: 0 <= i < n ==> s[i] == '\n'
    ensures n < |s| ==> s[n] != '\n'
  {
    if s != [] && s[0] == '\n' then 1 + LeadingNewlines(s[1..]) else 0
  }

  /** `s.replace(/\n{3,}/g, '\n\n')`: every run of three or more line feeds becomes two. */
  function CapNewlineRuns(s: string): (r: string)
    decreases |s|
    ensures |r| <= |s|
    ensures (forall i :: 0 <= i < |s| ==> s[i] != '\n') ==> r == s
  {
    if s == [] then []
    else
      var n := LeadingNewlines(s);
      if n >= 3 then "\n\n" + CapNewlineRuns(s[n..])
      else if n == 0 then [s[0]] + CapNewlineRuns(s[1..])
      else s[..n] + CapNewlineRuns(s[n..])
  }

  /** `optimizeText`: trim, collapse whitespace runs to one space, cap line-feed runs. */
  function OptimizeText(text: string): (r: string)
    ensures r == [] || (!IsWhitespace(r[0]) && !IsWhitespace(r[|r| - 1]))
    ensures SingleSpaced(r)
    ensures forall i :: 0 <= i < |r| ==> r[i] != '\n'
    ensures r == [] <==> AllWhitespace(text)
  {
    var trimmed := Trim(text);
    TrimEnds(text);
    TrimEmptyIffBlank(text);
    var collapsed := CollapseWhitespace(trimmed);
    assert forall i :: 0 <= i < |collapsed| ==> collapsed[i] != '\n';
    CapNewlineRuns(collapsed)
  }

  /** A single-spaced string is left as it is by the collapse. */
  lemma {:induction false} CollapseFixpoint(s: string)
    requires SingleSpaced(s)
    ensures CollapseWhitespace(s) == s
    decreases |s|
  {
    if s != [] {
      var t := s[1..];
      assert SingleSpaced(t) by {
        forall i | 0 <= i < |t| - 1
          ensures !IsWhitespace(t[i]) || !IsWhitespace(t[i + 1])
        {
          assert t[i] == s[i + 1] && t[i + 1] == s[i + 2];
        }
      }
      if IsWhitespace(s[0]) {
        assert s[0] == ' ';
        assert t == [] || !IsWhitespace(t[0]) by {
          if t != [] {
            assert t[0] == s[1];
          }
        }
        assert TrimStart(t) == t;
      }
      CollapseFixpoint(t);
    }
  }

  // ---------------------------------------------------------------------
  // What optimizeText means: the words, joined by single spaces
  // ---------------------------------------------------------------------

  /** The words of `s`: its maximal runs without whitespace, in order. */
  function Words(s: string): seq<string>
    decreases |s|
  {
    var t := TrimStart(s);
    if t == [] then []
    else
      var n := WordPrefix(t);
      [t[..n]] + Words(t[n..])
  }

  /** Each word is non-empty and holds no whitespace. */
  lemma {:induction false} WordsAreWords(s: string)
    ensures forall i :: 0 <= i < |Words(s)| ==> Words(s)[i] != [] && NoWhitespace(Words(s)[i])
    decreases |s|
  {
    var t := TrimStart(s);
    if t != [] {
      var n := WordPrefix(t);
      WordsAreWords(t[n..]);
    }
  }

  /** The words with exactly one space between neighbours. */
  function JoinWords(ws: seq<string>): (r: string)
    ensures ws != [] && ws[0] != [] ==> r != [] && r[0] == ws[0][0]
  {
    if ws == [] then [] else if |ws| == 1 then ws[0] else ws[0] + " " + JoinWords(ws[1..])
  }

  lemma JoinWordsCons(w: string, ws: seq<string>)
    requires ws != []
    ensures JoinWords([w] + ws) == w + " " + JoinWords(ws)
  {
    assert ([w] + ws)[1..] == ws;
  }

  /** What a whitespace run at an end of the text collapses to: one space, or nothing when there is none. */
  function Edge(c: char): string {
    if IsWhitespace(c) then " " else ""
  }

  /** Blank text has no leading non-whitespace part. */
  lemma BlankTrimStart(s: string)
    requires AllWhitespace(s)
    ensures TrimStart(s) == []
  {
  }

  /** Trailing whitespace survives `trimStart` when something precedes it. */
  lemma {:induction false} TrimStartAppend(x: string, blank: string)
    requires TrimStart(x) != []
    ensures TrimStart(x + blank) == TrimStart(x) + blank
    decreases |x|
  {
    assert (x + blank)[0] == x[0];
    if IsWhitespace(x[0]) {
      assert (x + blank)[1..] == x[1..] + blank;
      TrimStartAppend(x[1..], blank);
    }
  }

  /** Trailing whitespace adds no word. */
  lemma {:induction false} WordsAppendBlank(x: string, blank: string)
    requires AllWhitespace(blank)
    ensures Words(x + blank) == Words(x)
    decreases |x|
  {
    var t := TrimStart(x);
    if t == [] {
      assert AllWhitespace(x + blank) by {
        forall i | 0 <= i < |x + blank|
          ensures IsWhitespace((x + blank)[i])
        {
          if i >= |x| {
            assert (x + blank)[i] == blank[i - |x|];
          }
        }
      }
      BlankTrimStart(x + blank);
    } else {
      TrimStartAppend(x, blank);
      var n := WordPrefix(t);
      assert (t + blank)[..n] == t[..n];
      assert n < |t + blank| ==> IsWhitespace((t + blank)[n]) by {
        if n >= |t| && n < |t + blank| {
          assert (t + blank)[n] == blank[n - |t|];
        }
      }
      WordPrefixIs(t + blank, n);
      assert (t + blank)[n..] == t[n..] + blank;
      WordsAppendBlank(t[n..], blank);
    }
  }

  /** Trimming adds or removes no word. */
  lemma WordsTrim(text: string)
    ensures Words(Trim(text)) == Words(text)
  {
    var y := TrimStart(text);
    var u := TrimEnd(y);
    var blank := y[|u|..];
    assert y == u + blank;
    WordsTrimStart(text);
    assert AllWhitespace(blank) by {
      forall j | 0 <= j < |blank|
        ensures IsWhitespace(blank[j])
      {
        assert blank[j] == y[|u| + j];
      }
    }
    WordsAppendBlank(u, blank);
  }

  /** Leading whitespace adds no word. */
  lemma WordsTrimStart(s: string)
    ensures Words(TrimStart(s)) == Words(s)
  {
    var t := TrimStart(s);
    assert TrimStart(t) == t;
  }

  /** Text starting with a word collapses to its words joined by single spaces, plus a trailing space when it ends in whitespace. */
  lemma {:induction false} CollapseFromWord(s: string)
    requires s != [] && !IsWhitespace(s[0])
    ensures CollapseWhitespace(s) == JoinWords(Words(s)) + Edge(s[|s| - 1])
    decreases |s|
  {
    var n := WordPrefix(s);
    var w := s[..n];
    if n == |s| {
      LoneWord(s);
    } else {
      var u := SplitAfterWord(s, n);
      var e := Edge(s[|s| - 1]);
      if u != [] {
        var ju := JoinWords(Words(u));
        CollapseFromWord(u);
        WordsStep(u);
        JoinWordsCons(w, Words(u));
        Regroup(w, " ", ju, e);
      }
    }
  }

  /** Text that is a single word collapses to itself and has itself as its one word. */
  lemma LoneWord(s: string)
    requires s != [] && WordPrefix(s) == |s|
    ensures CollapseWhitespace(s) == JoinWords(Words(s)) + Edge(s[|s| - 1])
  {
    assert s[..|s|] == s;
    CollapseWord(s, []);
    assert s + [] == s;
    WordsStep(s);
  }

  /**
   * Text that starts with the word `s[..n]` followed by whitespace: `u` is
   * what follows that whitespace run, and the collapse and the words both
   * step from `s` to `u`.
   */
  lemma SplitAfterWord(s: string, n: nat) returns (u: string)
    requires s != [] && !IsWhitespace(s[0]) && n == WordPrefix(s) && n < |s|
    ensures |u| < |s| && (u == [] || !IsWhitespace(u[0]))
    ensures CollapseWhitespace(s) == s[..n] + (" " + CollapseWhitespace(u))
    ensures Words(s) == [s[..n]] + Words(u)
    ensures u == [] ==> IsWhitespace(s[|s| - 1]) && CollapseWhitespace(u) == [] && Words(u) == []
    ensures u != [] ==> u[|u| - 1] == s[|s| - 1]
  {
    u := TrimStart(s[n + 1..]);
    assert u == [] ==> IsWhitespace(s[|s| - 1]) by {
      if u == [] && n + 1 < |s| {
        assert s[|s| - 1] == s[n + 1..][|s| - n - 2];
      }
    }
    assert u != [] ==> u[|u| - 1] == s[|s| - 1];
    CollapseAfterWord(s, n);
    WordsAfterWord(s, n);
  }

  lemma CollapseAfterWord(s: string, n: nat)
    requires s != [] && !IsWhitespace(s[0]) && n == WordPrefix(s) && n < |s|
    ensures CollapseWhitespace(s) == s[..n] + (" " + CollapseWhitespace(TrimStart(s[n + 1..])))
  {
    var w, rest := s[..n], s[n..];
    assert s == w + rest;
    assert rest[1..] == s[n + 1..];
    CollapseWord(w, rest);
    CollapseSpace(rest);
  }

  lemma WordsAfterWord(s: string, n: nat)
    requires s != [] && !IsWhitespace(s[0]) && n == WordPrefix(s) && n < |s|
    ensures Words(s) == [s[..n]] + Words(TrimStart(s[n + 1..]))
  {
    WordsStep(s);
    WordsSkipSpaceAt(s, n);
  }

  lemma Associate(a: string, b: string, c: string)
    ensures a + (b + c) == a + b + c
  {
  }

  lemma Regroup(a: string, b: string, c: string, d: string)
    ensures a + (b + (c + d)) == (a + b + c) + d
  {
  }

  /** The first word of text that starts with one. */
  lemma WordsStep(s: string)
    requires s != [] && !IsWhitespace(s[0])
    ensures Words(s) == [s[..WordPrefix(s)]] + Words(s[WordPrefix(s)..])
  {
    assert TrimStart(s) == s;
  }

  /** A whitespace character adds no word. */
  lemma WordsSkipSpaceAt(s: string, k: nat)
    requires k < |s| && IsWhitespace(s[k])
    ensures Words(s[k..]) == Words(TrimStart(s[k + 1..]))
  {
    var rest := s[k..];
    assert rest[1..] == s[k + 1..];
    WordsTrimStart(rest);
  }

  /** A leading whitespace run becomes one space. */
  lemma CollapseSpace(s: string)
    requires s != [] && IsWhitespace(s[0])
    ensures CollapseWhitespace(s) == " " + CollapseWhitespace(TrimStart(s[1..]))
  {
  }

  /** A word in front is kept as it is by the collapse. */
  lemma {:induction false} CollapseWord(w: string, rest: string)
    requires NoWhitespace(w)
    ensures CollapseWhitespace(w + rest) == w + CollapseWhitespace(rest)
    decreases |w|
  {
    if w == [] {
      assert w + rest == rest;
    } else {
      assert w + rest == [w[0]] + (w[1..] + rest);
      CollapseCons(w[0], w[1..] + rest);
      CollapseWord(w[1..], rest);
      assert w == [w[0]] + w[1..];
    }
  }

  /** A character other than whitespace in front is kept as it is by the collapse. */
  lemma CollapseCons(c: char, s: string)
    requires !IsWhitespace(c)
    ensures CollapseWhitespace([c] + s) == [c] + CollapseWhitespace(s)
  {
    assert ([c] + s)[1..] == s;
  }

  /**
   * `replace(/\s+/g, ' ')` in full: every maximal whitespace run, inside or
   * at an end, becomes exactly one space and the words are kept as they
   * are.
   */
  lemma CollapseWords(s: string)
    ensures AllWhitespace(s) ==> CollapseWhitespace(s) == (if s == [] then [] else " ")
    ensures !AllWhitespace(s) ==> CollapseWhitespace(s) == Edge(s[0]) + JoinWords(Words(s)) + Edge(s[|s| - 1])
  {
    if s != [] {
      if !IsWhitespace(s[0]) {
        assert !AllWhitespace(s);
        var j := JoinWords(Words(s));
        assert Edge(s[0]) + j == j;
        CollapseFromWord(s);
      } else {
        CollapseFromSpace(s);
      }
    }
  }

  /** Text that starts with whitespace collapses to one space, then its words joined by single spaces, then a trailing space when it has one. */
  lemma CollapseFromSpace(s: string)
    requires s != [] && IsWhitespace(s[0])
    ensures AllWhitespace(s) ==> CollapseWhitespace(s) == " "
    ensures !AllWhitespace(s) ==> CollapseWhitespace(s) == " " + JoinWords(Words(s)) + Edge(s[|s| - 1])
  {
    var u := LeadingRun(s);
    CollapseSpace(s);
    WordsTrimStart(s);
    if u != [] {
      CollapseFromWord(u);
      Associate(" ", JoinWords(Words(u)), Edge(u[|u| - 1]));
    }
  }

  /** What follows the leading whitespace run of `s`: nothing exactly when `s` is blank. */
  lemma LeadingRun(s: string) returns (u: string)
    requires s != [] && IsWhitespace(s[0])
    ensures u == TrimStart(s[1..]) && u == TrimStart(s)
    ensures u == [] <==> AllWhitespace(s)
    ensures u != [] ==> u[|u| - 1] == s[|s| - 1]
  {
    u := TrimStart(s[1..]);
    if u == [] {
      forall i | 1 <= i < |s|
        ensures IsWhitespace(s[i])
      {
        assert s[i] == s[1..][i - 1];
      }
    } else {
      assert u[0] == s[|s| - |u|];
    }
  }

  /** `optimizeText` is the words of the text with exactly one space between neighbours. */
  lemma OptimizeTextJoinsWords(text: string)
    ensures OptimizeText(text) == JoinWords(Words(text))
  {
    var trimmed := Trim(text);
    OptimizeTextCollapses(text);
    TrimEnds(text);
    WordsTrim(text);
    if trimmed != [] {
      CollapseFromWord(trimmed);
      assert Edge(trimmed[|trimmed| - 1]) == [];
      assert JoinWords(Words(trimmed)) + [] == JoinWords(Words(trimmed));
    }
  }

  /** On trimmed, collapsed text no line feed is left for the last step to cap. */
  lemma OptimizeTextCollapses(text: string)
    ensures OptimizeText(text) == CollapseWhitespace(Trim(text))
  {
    var collapsed := CollapseWhitespace(Trim(text));
    assert forall i :: 0 <= i < |collapsed| ==> collapsed[i] != '\n';
  }

  /** Splitting joined words gives them back. */
  lemma {:induction false} WordsOfJoin(ws: seq<string>)
    requires forall i :: 0 <= i < |ws| ==> ws[i] != [] && NoWhitespace(ws[i])
    ensures Words(JoinWords(ws)) == ws
    decreases |ws|
  {
    if |ws| == 1 {
      WordsOfWord(ws[0]);
    } else if |ws| > 1 {
      var tail := ws[1..];
      assert ws == [ws[0]] + tail;
      assert forall i :: 0 <= i < |tail| ==> tail[i] == ws[i + 1];
      var j := JoinWords(tail);
      assert JoinWords(ws) == ws[0] + " " + j;
      WordsOfWordThen(ws[0], j);
      WordsOfJoin(tail);
    }
  }

  /** A single word is its own only word. */
  lemma WordsOfWord(w: string)
    requires w != [] && NoWhitespace(w)
    ensures Words(w) == [w]
  {
    assert w[..|w|] == w;
    WordPrefixIs(w, |w|);
    WordsStep(w);
    assert w[|w|..] == [];
  }

  /** A word, one space, then text starting with a word: the first word, then the words of the rest. */
  lemma WordsOfWordThen(w: string, j: string)
    requires w != [] && NoWhitespace(w)
    requires j == [] || !IsWhitespace(j[0])
    ensures Words(w + " " + j) == [w] + Words(j)
  {
    var s := w + " " + j;
    assert s[..|w|] == w;
    assert s[|w|] == ' ';
    assert s[|w| + 1..] == j;
    WordPrefixIs(s, |w|);
    WordsAfterWord(s, |w|);
    assert TrimStart(j) == j;
  }

  /** Normalising keeps the words of the text, in order. */
  lemma OptimizeTextKeepsWords(text: string)
    ensures Words(OptimizeText(text)) == Words(text)
  {
    OptimizeTextJoinsWords(text);
    WordsAreWords(text);
    WordsOfJoin(Words(text));
  }

  /** Normalising normalised text changes nothing. */
  lemma OptimizeTextIdempotent(text: string)
    ensures OptimizeText(OptimizeText(text)) == OptimizeText(text)
  {
    var r := OptimizeText(text);
    TrimIdentity(r);
    CollapseFixpoint(r);
  }

  /** The non-whitespace characters of `s`, in order. */
  function StripWhitespace(s: string): string {
    if s == [] then [] else (if IsWhitespace(s[0]) then [] else [s[0]]) + StripWhitespace(s[1..])
  }

  lemma {:induction false} StripConcat(a: string, b: string)
    ensures StripWhitespace(a + b) == StripWhitespace(a) + StripWhitespace(b)
  {
    if a == [] {
      assert a + b == b;
    } else {
      var h := if IsWhitespace(a[0]) then [] else [a[0]];
      assert (a + b)[0] == a[0] && (a + b)[1..] == a[1..] + b;
      StripConcat(a[1..], b);
      assert StripWhitespace(a + b) == h + StripWhitespace(a[1..] + b);
      assert StripWhitespace(a) == h + StripWhitespace(a[1..]);
    }
  }

  lemma {:induction false} StripBlank(s: string)
    requires AllWhitespace(s)
    ensures StripWhitespace(s) == []
  {
    if s != [] {
      StripBlank(s[1..]);
    }
  }

  /** Dropping leading whitespace removes whitespace only. */
  lemma StripTrimStart(s: string)
    ensures StripWhitespace(TrimStart(s)) == StripWhitespace(s)
  {
    var t := TrimStart(s);
    var blank := s[..|s| - |t|];
    assert s == blank + t;
    StripBlank(blank);
    StripConcat(blank, t);
  }

  /** Dropping trailing whitespace removes whitespace only. */
  lemma StripTrimEnd(s: string)
    ensures StripWhitespace(TrimEnd(s)) == StripWhitespace(s)
  {
    var u := TrimEnd(s);
    var blank := s[|u|..];
    assert s == u + blank;
    StripBlank(blank);
    StripConcat(u, blank);
  }

  /** Trimming removes whitespace only. */
  lemma StripTrim(s: string)
    ensures StripWhitespace(Trim(s)) == StripWhitespace(s)
  {
    StripTrimStart(s);
    StripTrimEnd(TrimStart(s));
  }

  /** Collapsing whitespace keeps every other character, in order. */
  lemma {:induction false} CollapseKeepsText(s: string)
    ensures StripWhitespace(CollapseWhitespace(s)) == StripWhitespace(s)
    decreases |s|
  {
    if s != [] {
      if IsWhitespace(s[0]) {
        var t := TrimStart(s[1..]);
        CollapseKeepsText(t);
        StripConcat([' '], CollapseWhitespace(t));
        var u := s[1..];
        assert u == u[..|u| - |t|] + t;
        StripBlank(u[..|u| - |t|]);
        StripConcat(u[..|u| - |t|], t);
      } else {
        CollapseKeepsText(s[1..]);
        StripConcat([s[0]], CollapseWhitespace(s[1..]));
      }
    }
  }

  /** Normalisation changes whitespace only: the other characters are kept, in order. */
  lemma OptimizeTextKeepsText(text: string)
    ensures StripWhitespace(OptimizeText(text)) == StripWhitespace(text)
  {
    StripTrim(text);
    CollapseKeepsText(Trim(text));
  }

  // ---------------------------------------------------------------------
  // executeWithRetry
  // ---------------------------------------------------------------------

  /** `AgentResponse`. */
  datatype AgentResponse = AgentResponse(
    success: bool,
    videoUrl: Option<string>,
    error: Option<string>,
    attempts: Option<int>)

  const GENERATION_FAILED := "Video generation failed"
  const PROCESSING_FAILED := "Video processing failed"

  /**
   * One attempt: submit, then wait for the video. It succeeds with the
   * video URL when the submission gave a video id and the wait ended
   * `completed` with a URL; otherwise it fails with the message it threw.
   */
  function AttemptOutcome(reply: GenerateReply, poll: nat -> VideoStatusReply): (r: Result<string>)
    ensures var response := SpeakAvatarResult(reply);
      r.Ok? <==>
        && response.success && Truthy(response.videoId)
        && var job := VideoPoll(response.videoId.value, poll, VIDEO_MAX_ATTEMPTS, 0);
           job.status == COMPLETED && Truthy(job.videoUrl)
    ensures r.Ok? ==> r.value != ""
    ensures r.Err? ==> r.message != ""
    ensures !SpeakAvatarResult(reply).success ==> r == Err(SpeakAvatarResult(reply).error.value)
  {
    var response := SpeakAvatarResult(reply);
    if !response.success || !Truthy(response.videoId) then Err(OrDefault(response.error, GENERATION_FAILED))
    else
      var job := VideoPoll(response.videoId.value, poll, VIDEO_MAX_ATTEMPTS, 0);
      if job.status == COMPLETED && Truthy(job.videoUrl) then Ok(job.videoUrl.value)
      else Err(PROCESSING_FAILED)
  }

  /** The largest attempt number a retry starting at `attempt` can reach. */
  function LastAllowed(s: Settings, attempt: nat): nat {
    if s.autoRetry && attempt < RetryLimit(s.maxRetries) then RetryLimit(s.maxRetries) else attempt
  }

  /**
   * Reference definition of `executeWithRetry` from attempt `attempt` on: a
   * failed attempt is retried iff `autoRetry` holds and the attempt number
   * is below `maxRetries || 3`.
   */
  function Retry(s: Settings, speak: nat -> GenerateReply, polls: nat -> nat -> VideoStatusReply, attempt: nat): (r: AgentResponse)
    requires attempt >= 1
    decreases if attempt < RetryLimit(s.maxRetries) then RetryLimit(s.maxRetries) - attempt else 0
    ensures r.attempts.Some? && attempt <= r.attempts.value <= LastAllowed(s, attempt)
    ensures !s.autoRetry ==> r.attempts == Some(attempt)
    ensures forall j :: attempt <= j < r.attempts.value ==> AttemptOutcome(speak(j), polls(j)).Err?
    ensures var last := AttemptOutcome(speak(r.attempts.value), polls(r.attempts.value));
      && (r.success <==> last.Ok?)
      && (r.success ==> r.videoUrl == Some(last.value) && r.error == None)
      && (!r.success ==> r.videoUrl == None && r.error == Some(last.message))
      && (!r.success ==> !s.autoRetry || r.attempts.value >= RetryLimit(s.maxRetries))
  {
    match AttemptOutcome(speak(attempt), polls(attempt))
    case Ok(url) => AgentResponse(true, Some(url), None, Some(attempt))
    case Err(msg) =>
      if s.autoRetry && attempt < RetryLimit(s.maxRetries) then Retry(s, speak, polls, attempt + 1)
      else AgentResponse(false, None, Some(msg), Some(attempt))
  }

  /**
   * With retries on, attempts that fail before the first one that succeeds,
   * within the limit, end in success reported on that attempt.
   */
  lemma {:induction false} RetryReachesFirstSuccess(
    s: Settings, speak: nat -> GenerateReply, polls: nat -> nat -> VideoStatusReply, attempt: nat, k: nat)
    requires 1 <= attempt <= k
    requires s.autoRetry && k <= RetryLimit(s.maxRetries)
    requires forall j :: attempt <= j < k ==> AttemptOutcome(speak(j), polls(j)).Err?
    requires AttemptOutcome(speak(k), polls(k)).Ok?
    ensures Retry(s, speak, polls, attempt).success
    ensures Retry(s, speak, polls, attempt).attempts == Some(k)
    decreases k - attempt
  {
    if attempt < k {
      RetryReachesFirstSuccess(s, speak, polls, attempt + 1, k);
    }
  }

  /** Fail, fail, succeed with the default limit: success reported on attempt 3. */
  lemma FailFailSucceed(speak: nat -> GenerateReply, polls: nat -> nat -> VideoStatusReply)
    requires AttemptOutcome(speak(1), polls(1)).Err? && AttemptOutcome(speak(2), polls(2)).Err?
    requires AttemptOutcome(speak(3), polls(3)).Ok?
    ensures var r := Retry(ResolveConfig(AgentConfig(None, None, None, None)), speak, polls, 1);
      r.success && r.attempts == Some(3)
  {
    RetryReachesFirstSuccess(ResolveConfig(AgentConfig(None, None, None, None)), speak, polls, 1, 3);
  }

  /** Every attempt failing ends in failure on the last allowed attempt, with that attempt's error. */
  lemma {:induction false} RetryExhausted(
    s: Settings, speak: nat -> GenerateReply, polls: nat -> nat -> VideoStatusReply, attempt: nat)
    requires attempt >= 1
    requires forall j :: attempt <= j ==> AttemptOutcome(speak(j), polls(j)).Err?
    ensures var r := Retry(s, speak, polls, attempt);
      && !r.success && r.attempts == Some(LastAllowed(s, attempt))
      && r.error == Some(AttemptOutcome(speak(LastAllowed(s, attempt)), polls(LastAllowed(s, attempt))).message)
    decreases if attempt < RetryLimit(s.maxRetries) then RetryLimit(s.maxRetries) - attempt else 0
  {
    if s.autoRetry && attempt < RetryLimit(s.maxRetries) {
      RetryExhausted(s, speak, polls, attempt + 1);
    }
  }

  /** `processUserInput` as a value: a validation error makes no attempt at all. */
  function ProcessInput(s: Settings, text: string, speak: nat -> GenerateReply, polls: nat -> nat -> VideoStatusReply): (r: AgentResponse)
    ensures ValidateInput(text).Some? ==> r == AgentResponse(false, None, ValidateInput(text), None)
    ensures ValidateInput(text).None? ==> r == Retry(s, speak, polls, 1)
  {
    match ValidateInput(text)
    case Some(err) => AgentResponse(false, None, Some(err), None)
    case None => Retry(s, speak, polls, 1)
  }

  // ---------------------------------------------------------------------
  // The agent object
  // ---------------------------------------------------------------------

  /** A queued `{ avatarId, text }` request. */
  datatype QueuedRequest = QueuedRequest(avatarId: string, text: string)

  /** What `getQueueStatus` reports. */
  datatype QueueStatus = QueueStatus(size: nat, isProcessing: bool)

  class AvatarCodeAgent {
    var config: Settings
    var requestQueue: seq<QueuedRequest>
    var isProcessing: bool

    constructor(c: AgentConfig)
      ensures config == ResolveConfig(c)
      ensures requestQueue == [] && !isProcessing
    {
      config := ResolveConfig(c);
      requestQueue := [];
      isProcessing := false;
    }

    /**
     * `executeWithRetry`: one generation request per attempt, each for the
     * same text with the default voice, until an attempt succeeds or the
     * retry rule stops.
     */
    method ExecuteWithRetry(
      avatarId: string, text: string, isPhotoAvatar: bool, attempt: nat,
      speak: nat -> GenerateReply, polls: nat -> nat -> VideoStatusReply)
      returns (r: AgentResponse, requests: seq<VideoRequest>)
      requires attempt >= 1
      ensures r == Retry(config, speak, polls, attempt)
      ensures |requests| == r.attempts.value - attempt + 1
      ensures forall i :: 0 <= i < |requests| ==> requests[i] == BuildVideoRequest(avatarId, text, None, isPhotoAvatar)
      decreases if attempt < RetryLimit(config.maxRetries) then RetryLimit(config.maxRetries) - attempt else 0
    {
      requests := [BuildVideoRequest(avatarId, text, None, isPhotoAvatar)];
      var response := SpeakAvatarResult(speak(attempt));
      var message: string;
      if !response.success || !Truthy(response.videoId) {
        message := OrDefault(response.error, GENERATION_FAILED);
      } else {
        var job, _ := WaitForVideoCompletion(response.videoId.value, polls(attempt), VIDEO_MAX_ATTEMPTS);
        if job.status == COMPLETED && Truthy(job.videoUrl) {
          r := AgentResponse(true, job.videoUrl, None, Some(attempt));
          return;
        }
        message := PROCESSING_FAILED;
      }
      if config.autoRetry && attempt < RetryLimit(config.maxRetries) {
        var more;
        r, more := ExecuteWithRetry(avatarId, text, isPhotoAvatar, attempt + 1, speak, polls);
        requests := requests + more;
      } else {
        r := AgentResponse(false, None, Some(message), Some(attempt));
      }
    }

    /**
     * `processUserInput`: validate, normalise, then submit with retry. A
     * rejected text sends no request; an accepted one sends its normalised
     * form once per attempt.
     */
    method ProcessUserInput(
      avatarId: string, text: string, isPhotoAvatar: bool,
      speak: nat -> GenerateReply, polls: nat -> nat -> VideoStatusReply)
      returns (r: AgentResponse, requests: seq<VideoRequest>)
      ensures r == ProcessInput(config, text, speak, polls)
      ensures ValidateInput(text).Some? ==> requests == []
      ensures ValidateInput(text).None? ==>
        |requests| == r.attempts.value
        && forall i :: 0 <= i < |requests| ==>
             requests[i] == BuildVideoRequest(avatarId, OptimizeText(text), None, isPhotoAvatar)
    {
      var validationError := ValidateInput(text);
      if validationError.Some? {
        r, requests := AgentResponse(false, None, validationError, None), [];
        return;
      }
      var optimizedText := OptimizeText(text);
      r, requests := ExecuteWithRetry(avatarId, optimizedText, isPhotoAvatar, 1, speak, polls);
    }

    /** `getQueueStatus`. */
    function GetQueueStatus(): QueueStatus
      reads this
    {
      QueueStatus(|requestQueue|, isProcessing)
    }

    /**
     * `processQueue`: nothing while busy or empty; otherwise drains the
     * queue front first, processing each request in turn (`speak(k)` and
     * `polls(k)` serve the k-th), and ends empty and idle.
     */
    method ProcessQueue(speak: nat -> nat -> GenerateReply, polls: nat -> nat -> nat -> VideoStatusReply)
      returns (processed: seq<QueuedRequest>, responses: seq<AgentResponse>)
      modifies this
      ensures config == old(config)
      ensures old(isProcessing) || old(requestQueue) == [] ==>
        processed == [] && requestQueue == old(requestQueue) && isProcessing == old(isProcessing)
      ensures !old(isProcessing) ==> processed == old(requestQueue) && GetQueueStatus() == QueueStatus(0, false)
      ensures |responses| == |processed|
      ensures forall k :: 0 <= k < |processed| ==>
        responses[k] == ProcessInput(config, processed[k].text, speak(k), polls(k))
    {
      processed, responses := [], [];
      if isProcessing || |requestQueue| == 0 {
        return;
      }
      isProcessing := true;
      while |requestQueue| > 0
        invariant config == old(config) && isProcessing
        invariant processed + requestQueue == old(requestQueue)
        invariant |responses| == |processed|
        invariant forall k :: 0 <= k < |processed| ==>
          responses[k] == ProcessInput(config, processed[k].text, speak(k), polls(k))
        decreases |requestQueue|
      {
        var request := requestQueue[0];
        requestQueue := requestQueue[1..];
        var k := |processed|;
        var response, _ := ProcessUserInput(request.avatarId, request.text, false, speak(k), polls(k));
        assert processed + [request] + requestQueue == old(requestQueue);
        processed := processed + [request];
        responses := responses + [response];
        assert responses[k] == ProcessInput(config, processed[k].text, speak(k), polls(k));
      }
      isProcessing := false;
    }

    /**
     * `addToQueue`: append, then process the queue. While the agent is busy
     * the request waits at the back of the queue.
     */
    method AddToQueue(avatarId: string, text: string,
                      speak: nat -> nat -> GenerateReply, polls: nat -> nat -> nat -> VideoStatusReply)
      returns (processed: seq<QueuedRequest>, responses: seq<AgentResponse>)
      modifies this
      ensures config == old(config)
      ensures old(isProcessing) ==>
        requestQueue == old(requestQueue) + [QueuedRequest(avatarId, text)] && isProcessing && processed == []
      ensures !old(isProcessing) ==>
        processed == old(requestQueue) + [QueuedRequest(avatarId, text)] && GetQueueStatus() == QueueStatus(0, false)
      ensures |responses| == |processed|
      ensures forall k :: 0 <= k < |processed| ==>
        responses[k] == ProcessInput(config, processed[k].text, speak(k), polls(k))
    {
      requestQueue := requestQueue + [QueuedRequest(avatarId, text)];
      processed, responses := ProcessQueue(speak, polls);
    }
  }

  /** The module-level `agentInstance` slot behind `getAvatarAgent`. */
  class AgentRegistry {
    var agentInstance: AvatarCodeAgent?

    constructor()
      ensures agentInstance == null
    {
      agentInstance := null;
    }

    /** `getAvatarAgent`: the first call creates the agent from its config; later calls return it and ignore theirs. */
    method GetAvatarAgent(c: AgentConfig) returns (agent: AvatarCodeAgent)
      modifies this
      ensures old(agentInstance) != null ==> agent == old(agentInstance) && agentInstance == old(agentInstance)
      ensures old(agentInstance) == null ==>
        (fresh(agent) && agent.config == ResolveConfig(c)
         && agent.requestQueue == [] && !agent.isProcessing && agentInstance == agent)
    {
      if agentInstance == null {
        agentInstance := new AvatarCodeAgent(c);
      }
      agent := agentInstance;
    }
  }
}
