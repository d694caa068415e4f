/**
 * The pronunciation-analysis client (src/api/theFluentClient.ts): the
 * three-band word classifier, the post request, the two audio hosts and
 * the order in which they are tried, the normalisation of the two shapes
 * of scoring reply, and `analyzePronunciation`, which strings these
 * together. Every HTTP call is replaced by the reply it produced.
 */
module TheFluent {
  import opened JsValues
  import opened Strings
  import opened Types

  // ---------------------------------------------------------------------
  // getWordStatus
  // ---------------------------------------------------------------------

  const CORRECT_THRESHOLD := 80
  const MISPRONOUNCED_THRESHOLD := 50

  /** `getWordStatus`: three bands, 80 and above, 50 to 79, below 50. */
  function GetWordStatus(score: int): (s: WordStatus)
    ensures s == Correct <==> score >= CORRECT_THRESHOLD
    ensures s == Mispronounced <==> MISPRONOUNCED_THRESHOLD <= score < CORRECT_THRESHOLD
    ensures s == Incorrect <==> score < MISPRONOUNCED_THRESHOLD
  {
    if score >= CORRECT_THRESHOLD then Correct
    else if score >= MISPRONOUNCED_THRESHOLD then Mispronounced
    else Incorrect
  }

  /** The band edges. */
  lemma WordStatusEdges()
    ensures GetWordStatus(80) == Correct
    ensures GetWordStatus(79) == Mispronounced
    ensures GetWordStatus(50) == Mispronounced
    ensures GetWordStatus(49) == Incorrect
  {
  }

  /** A higher score never gets a worse band. */
  lemma WordStatusMonotone(a: int, b: int)
    requires a <= b
    ensures GetWordStatus(a) == Correct ==> GetWordStatus(b) == Correct
    ensures GetWordStatus(b) == Incorrect ==> GetWordStatus(a) == Incorrect
  {
  }

  // ---------------------------------------------------------------------
  // Errors
  // ---------------------------------------------------------------------

  /**
   * What a thrown error carries for the final `catch`: `error.message` and
   * `error.response?.data?.message`. Errors the client raises itself have
   * no response.
   */
  datatype Thrown = Thrown(message: Option<string>, responseMessage: Option<string>)

  /** `throw new Error(msg)`. */
  function Raised(msg: string): Thrown {
    Thrown(Some(msg), None)
  }

  /** A step that returned a value or threw. */
  datatype Step<+T> = Done(value: T) | Threw(err: Thrown)

  const ANALYSIS_FAILED := "Analysis failed"
  const POST_FAILED := "Failed to create post"
  const INVALID_ARRAY_REPLY := "Invalid score response format"
  const INVALID_OBJECT_REPLY := "Invalid score response"
  /** The TypeError raised by reading `overall_points` of a missing first entry. */
  const MISSING_OVERALL_ENTRY := "Cannot read property 'overall_points' of undefined"

  /** The failure `analyzePronunciation` returns for any error it caught. */
  function FailureResponse(e: Thrown): (r: PronunciationResponse)
    ensures !r.success && r.overallScore == 0 && r.words == []
    ensures r.fluencyScore == None && r.pronunciationScore == None
    ensures Truthy(e.responseMessage) ==> r.error == e.responseMessage
    ensures !Truthy(e.responseMessage) && Truthy(e.message) ==> r.error == e.message
    ensures !Truthy(e.responseMessage) && !Truthy(e.message) ==> r.error == Some(ANALYSIS_FAILED)
    ensures Truthy(r.error)
  {
    PronunciationResponse(false, 0, [], None, None, Some(OrDefault(Or(e.responseMessage, e.message), ANALYSIS_FAILED)))
  }

  // ---------------------------------------------------------------------
  // createPost
  // ---------------------------------------------------------------------

  const DEFAULT_LANGUAGE_ID := 22
  const MAX_TITLE_LENGTH := 100
  const MAX_CONTENT_LENGTH := 1000

  /** The body of `POST /post`. */
  datatype PostRequest = PostRequest(languageId: string, title: string, content: string)

  /**
   * `createPost`'s request: the title (or "Lesson <stamp>") cut to 100
   * characters, the text cut to 1000, the language id in decimal.
   */
  function BuildPostRequest(text: string, title: Option<string>, stamp: string, languageId: int): (req: PostRequest)
    ensures var t := OrDefault(title, "Lesson " + stamp);
      |req.title| <= MAX_TITLE_LENGTH && req.title <= t
      && (|t| <= MAX_TITLE_LENGTH ==> req.title == t)
      && (|t| > MAX_TITLE_LENGTH ==> |req.title| == MAX_TITLE_LENGTH)
    ensures |req.content| <= MAX_CONTENT_LENGTH && req.content <= text
    ensures |text| <= MAX_CONTENT_LENGTH ==> req.content == text
    ensures |text| > MAX_CONTENT_LENGTH ==> |req.content| == MAX_CONTENT_LENGTH
    ensures req.languageId == IntToDecimal(languageId)
  {
    var postTitle := OrDefault(title, "Lesson " + stamp);
    PostRequest(IntToDecimal(languageId), Take(postTitle, MAX_TITLE_LENGTH), Take(text, MAX_CONTENT_LENGTH))
  }

  /** A non-negative language id is sent as digits that read back as that id; the default is "22". */
  lemma PostLanguageIdRoundTrip(text: string, title: Option<string>, stamp: string, languageId: nat)
    ensures AllDigits(BuildPostRequest(text, title, stamp, languageId).languageId)
    ensures DigitsValue(BuildPostRequest(text, title, stamp, languageId).languageId) == languageId
    ensures BuildPostRequest(text, title, stamp, DEFAULT_LANGUAGE_ID).languageId == "22"
  {
    NatToDecimalRoundTrip(languageId);
    DefaultLanguageIdText();
  }

  lemma DefaultLanguageIdText()
    ensures IntToDecimal(DEFAULT_LANGUAGE_ID) == "22"
  {
    assert DigitChar(2) == '2';
    assert NatToDecimal(2) == "2";
    assert NatToDecimal(22) == NatToDecimal(2) + [DigitChar(2)];
  }

  // ---------------------------------------------------------------------
  // Audio hosts
  // ---------------------------------------------------------------------

  const MPEG := "audio/mpeg"
  const WAV := "audio/wav"
  const GCS_NOT_CONFIGURED :=
    "Google Cloud Storage not configured. Set EXPO_PUBLIC_GCS_BUCKET and EXPO_PUBLIC_GCS_API_KEY in .env"

  /** The MIME type both hosts send: `audio/mpeg` iff the local URI mentions ".mp3". */
  function AudioMimeType(audioUri: string): (m: string)
    ensures m == MPEG <==> Contains(audioUri, ".mp3")
    ensures m == WAV <==> !Contains(audioUri, ".mp3")
  {
    if Contains(audioUri, ".mp3") then MPEG else WAV
  }

  /** The bucket and key read from the environment; a missing variable is "". */
  datatype CloudConfig = CloudConfig(bucket: string, apiKey: string)

  /** How the cloud-storage upload request ended. */
  datatype CloudReply = CloudThrew(err: Thrown) | CloudResponse(httpStatus: int, hasBody: bool)

  /** The object name of a cloud upload. */
  function CloudFileName(stamp: string): string {
    "recordings/recording-" + stamp + ".wav"
  }

  /** The public URL of an uploaded object. */
  function CloudPublicUrl(bucket: string, fileName: string): string {
    "https://storage.googleapis.com/" + bucket + "/" + fileName
  }

  /**
   * `uploadToGoogleCloud`: refuses before any request when the bucket or
   * the key is empty; accepts HTTP 200 with a body and answers the
   * object's public URL; anything else throws.
   */
  function UploadToGoogleCloud(config: CloudConfig, stamp: string, reply: CloudReply): (r: Step<string>)
    ensures config.bucket == "" || config.apiKey == "" ==> r == Threw(Raised(GCS_NOT_CONFIGURED))
    ensures r.Done? <==>
      config.bucket != "" && config.apiKey != "" && reply.CloudResponse? && reply.httpStatus == 200 && reply.hasBody
    ensures r.Done? ==> r.value == CloudPublicUrl(config.bucket, CloudFileName(stamp))
    ensures config.bucket != "" && config.apiKey != "" && reply.CloudThrew? ==> r == Threw(reply.err)
  {
    if config.bucket == "" || config.apiKey == "" then Threw(Raised(GCS_NOT_CONFIGURED))
    else match reply
      case CloudThrew(err) => Threw(err)
      case CloudResponse(httpStatus, hasBody) =>
        if httpStatus == 200 && hasBody then Done(CloudPublicUrl(config.bucket, CloudFileName(stamp)))
        else Threw(Raised("Google Cloud Storage upload failed: " + IntToDecimal(httpStatus)))
  }

  /** An unconfigured bucket fails the same way whatever the network would have answered. */
  lemma UnconfiguredCloudIgnoresReply(config: CloudConfig, stamp: string, r1: CloudReply, r2: CloudReply)
    requires config.bucket == "" || config.apiKey == ""
    ensures UploadToGoogleCloud(config, stamp, r1) == UploadToGoogleCloud(config, stamp, r2)
    ensures UploadToGoogleCloud(config, stamp, r1).Threw?
  {
  }

  /** The file part `uploadToTmpFiles` sends. */
  datatype TmpFilePart = TmpFilePart(mimeType: string, fileName: string)

  /**
   * `uploadToTmpFiles`'s file part. The name starts as
   * "recording-<stamp>.mp3"; for an ".mp3" URI the type becomes
   * `audio/mpeg` and the first ".wav" of the name, if any, becomes ".mp3".
   */
  method TmpFilesPart(audioUri: string, stamp: string) returns (part: TmpFilePart)
    ensures part.mimeType == AudioMimeType(audioUri)
    ensures !Contains(audioUri, ".mp3") ==> part.fileName == TmpFileName(stamp)
    ensures Contains(audioUri, ".mp3") ==> part.fileName == ReplaceFirst(TmpFileName(stamp), ".wav", ".mp3")
    ensures AllDigits(stamp) ==> part.fileName == "recording-" + stamp + ".mp3"
  {
    if AllDigits(stamp) {
      TmpFileNameAlwaysMp3(stamp);
    }
    var mimeType := WAV;
    var fileName := TmpFileName(stamp);
    if Contains(audioUri, ".mp3") {
      mimeType := MPEG;
      fileName := ReplaceFirst(fileName, ".wav", ".mp3");
    }
    part := TmpFilePart(mimeType, fileName);
  }

  /** The name given to a tmpfiles upload before the rename. */
  function TmpFileName(stamp: string): string {
    "recording-" + stamp + ".mp3"
  }

  /** Before its extension, the name has no dot. */
  lemma TmpFileNameDots(stamp: string, j: int)
    requires AllDigits(stamp)
    requires 0 <= j < 10 + |stamp|
    ensures TmpFileName(stamp)[j] != '.'
  {
    var name := TmpFileName(stamp);
    if j < 10 {
      assert name[j] == "recording-"[j];
    } else {
      assert name[j] == stamp[j - 10];
    }
  }

  /** With a digits-only stamp the name never contains ".wav", so the rename changes nothing. */
  lemma TmpFileNameAlwaysMp3(stamp: string)
    requires AllDigits(stamp)
    ensures ReplaceFirst(TmpFileName(stamp), ".wav", ".mp3") == TmpFileName(stamp)
  {
    var name := TmpFileName(stamp);
    var dot := 10 + |stamp|;
    forall j | 0 <= j
      ensures !OccursAt(name, ".wav", j)
    {
      if j + 4 <= |name| {
        if j < dot {
          TmpFileNameDots(stamp, j);
          assert name[j..j + 4][0] == name[j];
        } else {
          assert name[j + 1] == 'm';
          assert name[j..j + 4][1] == name[j + 1];
        }
      }
    }
  }

  /** How the tmpfiles upload request ended: thrown, or a response with its JSON fields. */
  datatype TmpReply =
    | TmpThrew(err: Thrown)
    | TmpResponse(httpStatus: int, hasBody: bool, status: Option<string>, url: Option<string>)

  /**
   * The share link turned into a direct-download link: the first "http://"
   * becomes "https://", then the first "tmpfiles.org/" gains "dl/"
   * (`DirectDownloadOfShareLink` below). A url with neither is answered
   * unchanged.
   */
  function DirectDownloadUrl(url: string): (r: string)
    ensures !Contains(url, "http://") && !Contains(url, "tmpfiles.org/") ==> r == url
  {
    ReplaceFirst(ReplaceFirst(url, "http://", "https://"), "tmpfiles.org/", "tmpfiles.org/dl/")
  }

  /** The first rewrite turns the share link's scheme into https. */
  lemma ShareLinkToHttps(path: string)
    ensures ReplaceFirst("http://tmpfiles.org/" + path, "http://", "https://") == "https://tmpfiles.org/" + path
  {
    var url := "http://tmpfiles.org/" + path;
    assert url[0..7] == "http://";
    IndexOfFirst(url, "http://", 0);
    assert url[7..] == "tmpfiles.org/" + path;
  }

  /** The second rewrite inserts "dl/" after the host of an https share link. */
  lemma HttpsLinkToDownload(path: string)
    ensures ReplaceFirst("https://tmpfiles.org/" + path, "tmpfiles.org/", "tmpfiles.org/dl/")
         == "https://tmpfiles.org/dl/" + path
  {
    var s := "https://tmpfiles.org/" + path;
    var pat := "tmpfiles.org/";
    assert s[8..21] == pat;
    forall j | 0 <= j < 8
      ensures !OccursAt(s, pat, j)
    {
      assert s[j] == "https://"[j];
      if j == 1 || j == 2 {
        assert s[j..j + |pat|][1] == s[j + 1];
      } else {
        assert s[j..j + |pat|][0] == s[j];
      }
    }
    IndexOfFirst(s, pat, 8);
    assert s[..8] == "https://";
    assert s[21..] == path;
  }

  /** The share links tmpfiles answers become https direct-download links, whatever the path. */
  lemma {:induction false} DirectDownloadOfShareLink(path: string)
    ensures DirectDownloadUrl("http://tmpfiles.org/" + path) == "https://tmpfiles.org/dl/" + path
  {
    ShareLinkToHttps(path);
    HttpsLinkToDownload(path);
  }

  /**
   * `uploadToTmpFiles`: accepted only with HTTP 200, a body, `status`
   * "success" and a url, which is answered as its direct-download form;
   * any other response throws with the HTTP status in the message.
   */
  function UploadToTmpFiles(reply: TmpReply): (r: Step<string>)
    ensures r.Done? <==>
      reply.TmpResponse? && reply.httpStatus == 200 && reply.hasBody
      && reply.status == Some("success") && Truthy(reply.url)
    ensures r.Done? ==> r.value == DirectDownloadUrl(reply.url.value)
    ensures reply.TmpThrew? ==> r == Threw(reply.err)
    ensures reply.TmpResponse? && !r.Done? ==>
      r == Threw(Raised("tmpfiles.org upload failed with status " + IntToDecimal(reply.httpStatus)))
  {
    match reply
    case TmpThrew(err) => Threw(err)
    case TmpResponse(httpStatus, hasBody, status, url) =>
      if httpStatus == 200 && hasBody && status == Some("success") && Truthy(url) then
        Done(DirectDownloadUrl(url.value))
      else
        Threw(Raised("tmpfiles.org upload failed with status " + IntToDecimal(httpStatus)))
  }

  // ---------------------------------------------------------------------
  // Score-reply normalisation
  // ---------------------------------------------------------------------

  /** One `overall_result_data` entry; `overallPoints` is the parsed number, `None` for NaN. */
  datatype OverallEntry = OverallEntry(overallPoints: Option<int>)

  /** One `word_result_data` entry; `points` parsed as above, `speed` passed through. */
  datatype WordEntry = WordEntry(word: string, points: Option<int>, speed: Option<string>)

  /** An object of the reply with its two optional array fields. */
  datatype ScoreItem = ScoreItem(overallResultData: Option<seq<OverallEntry>>, wordResultData: Option<seq<WordEntry>>)

  /** The scoring reply: an array of objects, or one object (the older shape). */
  datatype ScoreReply = ArrayReply(items: seq<ScoreItem>) | ObjectReply(item: ScoreItem)

  /** `parseFloat(x) || 0`. */
  function PointsOrZero(p: Option<int>): (v: int)
    ensures p.Some? && p.value != 0 ==> v == p.value
    ensures p.None? || p.value == 0 ==> v == 0
  {
    match p
    case Some(x) => x
    case None => 0
  }

  /** `items.find(item => item.overall_result_data)`. */
  function FindOverall(items: seq<ScoreItem>): (r: Option<ScoreItem>)
    ensures r.Some? <==> exists i :: 0 <= i < |items| && items[i].overallResultData.Some?
    ensures r.Some? ==> exists i :: (0 <= i < |items| && items[i] == r.value
      && r.value.overallResultData.Some?
      && forall j :: 0 <= j < i ==> items[j].overallResultData.None?)
  {
    if items == [] then None
    else if items[0].overallResultData.Some? then Some(items[0])
    else
      var r := FindOverall(items[1..]);
      assert r.Some? ==> exists i :: 0 <= i < |items| && items[i] == r.value by {
        if r.Some? {
          var i :| 0 <= i < |items[1..]| && items[1..][i] == r.value
            && forall j :: 0 <= j < i ==> items[1..][j].overallResultData.None?;
          assert items[i + 1] == r.value;
          assert forall j :: 0 <= j < i + 1 ==> items[j].overallResultData.None? by {
            forall j | 0 <= j < i + 1 ensures items[j].overallResultData.None? {
              if j > 0 { assert items[j] == items[1..][j - 1]; }
            }
          }
        }
      }
      assert (exists i :: 0 <= i < |items| && items[i].overallResultData.Some?) ==>
        exists i :: 0 <= i < |items[1..]| && items[1..][i].overallResultData.Some? by {
        if exists i :: 0 <= i < |items| && items[i].overallResultData.Some? {
          var i :| 0 <= i < |items| && items[i].overallResultData.Some?;
          assert items[1..][i - 1] == items[i];
        }
      }
      r
  }

  /** `items.find(item => item.word_result_data)`. */
  function FindWords(items: seq<ScoreItem>): (r: Option<ScoreItem>)
    ensures r.Some? <==> exists i :: 0 <= i < |items| && items[i].wordResultData.Some?
    ensures r.Some? ==> exists i :: (0 <= i < |items| && items[i] == r.value
      && r.value.wordResultData.Some?
      && forall j :: 0 <= j < i ==> items[j].wordResultData.None?)
  {
    if items == [] then None
    else if items[0].wordResultData.Some? then Some(items[0])
    else
      var r := FindWords(items[1..]);
      assert r.Some? ==> exists i :: 0 <= i < |items| && items[i] == r.value by {
        if r.Some? {
          var i :| 0 <= i < |items[1..]| && items[1..][i] == r.value
            && forall j :: 0 <= j < i ==> items[1..][j].wordResultData.None?;
          assert items[i + 1] == r.value;
          assert forall j :: 0 <= j < i + 1 ==> items[j].wordResultData.None? by {
            forall j | 0 <= j < i + 1 ensures items[j].wordResultData.None? {
              if j > 0 { assert items[j] == items[1..][j - 1]; }
            }
          }
        }
      }
      assert (exists i :: 0 <= i < |items| && items[i].wordResultData.Some?) ==>
        exists i :: 0 <= i < |items[1..]| && items[1..][i].wordResultData.Some? by {
        if exists i :: 0 <= i < |items| && items[i].wordResultData.Some? {
          var i :| 0 <= i < |items| && items[i].wordResultData.Some?;
          assert items[1..][i - 1] == items[i];
        }
      }
      r
  }

  /** The overall entries and the word entries a reply offers, or the error for a malformed one. */
  function SelectScoreData(reply: ScoreReply): (r: Result<(seq<OverallEntry>, seq<WordEntry>)>)
    ensures reply.ArrayReply? ==>
      (r.Ok? <==> FindOverall(reply.items).Some? && FindWords(reply.items).Some?)
    ensures reply.ArrayReply? && r.Ok? ==>
      r.value == (FindOverall(reply.items).value.overallResultData.value,
                  FindWords(reply.items).value.wordResultData.value)
    ensures reply.ArrayReply? && r.Err? ==> r.message == INVALID_ARRAY_REPLY
    ensures reply.ObjectReply? ==>
      (r.Ok? <==> reply.item.overallResultData.Some? && reply.item.wordResultData.Some?)
    ensures reply.ObjectReply? && r.Ok? ==>
      r.value == (reply.item.overallResultData.value, reply.item.wordResultData.value)
    ensures reply.ObjectReply? && r.Err? ==> r.message == INVALID_OBJECT_REPLY
  {
    match reply
    case ArrayReply(items) =>
      var overall := FindOverall(items);
      var words := FindWords(items);
      if overall.None? || words.None? then Err(INVALID_ARRAY_REPLY)
      else Ok((overall.value.overallResultData.value, words.value.wordResultData.value))
    case ObjectReply(item) =>
      if item.overallResultData.None? || item.wordResultData.None? then Err(INVALID_OBJECT_REPLY)
      else Ok((item.overallResultData.value, item.wordResultData.value))
  }

  /** One vendor word as a `TheFluentWord`. */
  function ToFluentWord(w: WordEntry): (r: TheFluentWord)
    ensures r.word == w.word && r.score == PointsOrZero(w.points)
    ensures r.status == GetWordStatus(r.score)
    ensures r.phonemes == w.speed && r.expected == Some("")
  {
    var score := PointsOrZero(w.points);
    TheFluentWord(w.word, score, GetWordStatus(score), w.speed, Some(""))
  }

  /** `wordData.map(...)`: order and length kept, each word classified by its own score. */
  function ToFluentWords(ws: seq<WordEntry>): (r: seq<TheFluentWord>)
    ensures |r| == |ws|
    ensures forall i :: 0 <= i < |ws| ==>
      r[i].word == ws[i].word && r[i].score == PointsOrZero(ws[i].points)
      && r[i].status == GetWordStatus(r[i].score) && r[i].phonemes == ws[i].speed
  {
    seq(|ws|, i requires 0 <= i < |ws| => ToFluentWord(ws[i]))
  }

  /**
   * The normalised result of a scoring reply, or the message of the error
   * raised while reading it. An empty `overall_result_data` array leaves
   * the first entry undefined, and reading its points throws.
   */
  function NormalizeScore(reply: ScoreReply): (r: Result<PronunciationResponse>)
    ensures SelectScoreData(reply).Err? ==> r == Err(SelectScoreData(reply).message)
    ensures SelectScoreData(reply).Ok? && SelectScoreData(reply).value.0 == [] ==> r == Err(MISSING_OVERALL_ENTRY)
    ensures r.Ok? <==> SelectScoreData(reply).Ok? && SelectScoreData(reply).value.0 != []
    ensures r.Ok? ==>
      var (overall, words) := SelectScoreData(reply).value;
      var score := PointsOrZero(overall[0].overallPoints);
      && r.value.success
      && r.value.overallScore == score
      && r.value.pronunciationScore == Some(score)
      && r.value.fluencyScore == None && r.value.error == None
      && r.value.words == ToFluentWords(words)
  {
    match SelectScoreData(reply)
    case Err(msg) => Err(msg)
    case Ok((overall, words)) =>
      var fluentWords := ToFluentWords(words);
      if overall == [] then Err(MISSING_OVERALL_ENTRY)
      else
        var score := PointsOrZero(overall[0].overallPoints);
        Ok(PronunciationResponse(true, score, fluentWords, None, Some(score), None))
  }

  /**
   * The usual three-object array reply: overall 72 with Hello at 90 and
   * Sarah at 40 gives 72 and the statuses correct, incorrect.
   */
  lemma ThreeObjectReplyExample()
    ensures var reply := ArrayReply([
        ScoreItem(None, None),
        ScoreItem(Some([OverallEntry(Some(72))]), None),
        ScoreItem(None, Some([WordEntry("Hello", Some(90), None), WordEntry("Sarah", Some(40), None)]))]);
      var r := NormalizeScore(reply);
      && r.Ok? && r.value.overallScore == 72 && r.value.pronunciationScore == Some(72)
      && |r.value.words| == 2
      && r.value.words[0].word == "Hello" && r.value.words[0].status == Correct
      && r.value.words[1].word == "Sarah" && r.value.words[1].status == Incorrect
  {
    var items := [
        ScoreItem(None, None),
        ScoreItem(Some([OverallEntry(Some(72))]), None),
        ScoreItem(None, Some([WordEntry("Hello", Some(90), None), WordEntry("Sarah", Some(40), None)]))];
    assert items[1..][1..] == [items[2]];
    assert FindOverall(items) == Some(items[1]);
    assert FindWords(items) == Some(items[2]);
  }

  // ---------------------------------------------------------------------
  // analyzePronunciation
  // ---------------------------------------------------------------------

  /** How the post request ended: thrown, or the reply's `post_id`. */
  datatype PostReply = PostThrew(err: Thrown) | PostReplied(postId: Option<string>)

  /** How the scoring request ended. */
  datatype ScoreOutcome = ScoreThrew(err: Thrown) | Scored(reply: ScoreReply)

  const SCORE_SCALE := 100

  /** The scoring request `POST /score/{postId}?scale=100` with the audio URL. */
  datatype ScoreRequest = ScoreRequest(postId: string, audioUrl: string, scale: int)

  /** The audio URL of the upload step: the cloud URL, or the tmpfiles one once the cloud upload threw. */
  function UploadedAudioUrl(cloud: Step<string>, tmp: Step<string>): (r: Step<string>)
    ensures cloud.Done? ==> r == cloud
    ensures cloud.Threw? ==> r == tmp
  {
    if cloud.Done? then cloud else tmp
  }

  /**
   * `analyzePronunciation`: create the post, upload the audio to the
   * cloud bucket and, only if that throws, to tmpfiles, score the
   * recording and normalise the reply. Every error ends as a failure
   * response. `postStamp`, `cloudStamp` and `tmpStamp` are the clock
   * readings used in the generated names.
   */
  method AnalyzePronunciation(
    audioUri: string, referenceText: string,
    postStamp: string, cloudStamp: string, tmpStamp: string,
    post: PostReply, config: CloudConfig, cloudReply: CloudReply, tmpReply: TmpReply, score: ScoreOutcome)
    returns (r: PronunciationResponse, postRequest: PostRequest, tmpPart: Option<TmpFilePart>, scoreRequest: Option<ScoreRequest>)
    ensures postRequest == BuildPostRequest(referenceText, None, postStamp, DEFAULT_LANGUAGE_ID)
    ensures var cloud := UploadToGoogleCloud(config, cloudStamp, cloudReply);
      tmpPart.Some? <==> post.PostReplied? && Truthy(post.postId) && cloud.Threw?
    ensures tmpPart.Some? ==> tmpPart.value.mimeType == AudioMimeType(audioUri)
    ensures var cloud := UploadToGoogleCloud(config, cloudStamp, cloudReply);
      var audio := UploadedAudioUrl(cloud, UploadToTmpFiles(tmpReply));
      scoreRequest.Some? <==> post.PostReplied? && Truthy(post.postId) && audio.Done?
    ensures scoreRequest.Some? ==>
      var audio := UploadedAudioUrl(UploadToGoogleCloud(config, cloudStamp, cloudReply), UploadToTmpFiles(tmpReply));
      scoreRequest.value == ScoreRequest(post.postId.value, audio.value, SCORE_SCALE)
    ensures r.success <==> scoreRequest.Some? && score.Scored? && NormalizeScore(score.reply).Ok?
    ensures r.success ==> r == NormalizeScore(score.reply).value
    ensures !r.success ==> r.overallScore == 0 && r.words == [] && Truthy(r.error)
    ensures post.PostThrew? ==> r == FailureResponse(post.err)
    ensures post.PostReplied? && !Truthy(post.postId) ==> r == FailureResponse(Raised(POST_FAILED))
  {
    postRequest := BuildPostRequest(referenceText, None, postStamp, DEFAULT_LANGUAGE_ID);
    tmpPart, scoreRequest := None, None;
    if post.PostThrew? {
      r := FailureResponse(post.err);
      return;
    }
    if !Truthy(post.postId) {
      r := FailureResponse(Raised(POST_FAILED));
      return;
    }
    var postId := post.postId.value;

    var audioUrl: string;
    var cloud := UploadToGoogleCloud(config, cloudStamp, cloudReply);
    if cloud.Done? {
      audioUrl := cloud.value;
    } else {
      var part := TmpFilesPart(audioUri, tmpStamp);
      tmpPart := Some(part);
      var tmp := UploadToTmpFiles(tmpReply);
      if tmp.Threw? {
        r := FailureResponse(tmp.err);
        return;
      }
      audioUrl := tmp.value;
    }

    scoreRequest := Some(ScoreRequest(postId, audioUrl, SCORE_SCALE));
    match score {
      case ScoreThrew(err) =>
        r := FailureResponse(err);
      case Scored(reply) =>
        var normalized := NormalizeScore(reply);
        if normalized.Ok? {
          r := normalized.value;
        } else {
          r := FailureResponse(Raised(normalized.message));
        }
    }
  }
}
