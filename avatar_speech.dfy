/**
 * The `useAvatarSpeech` hook (src/hooks/useAvatarSpeech.ts): submit a
 * text for the avatar to speak, wait for the video, and keep the video
 * URL, a loading flag and an error message as state. The vendor calls are
 * the ones modelled in HeyGenStatus and HeyGenPolling; neither of them
 * throws, so the hook's `catch` branch is never taken.
 */
module AvatarSpeech {
  import opened JsValues
  import opened Strings
  import opened HeyGenStatus
  import opened HeyGenPolling

  const VIDEO_NOT_CREATED := "Video oluşturulamadı. Lütfen tekrar deneyin."
  const REQUEST_FAILED := "Video oluşturma isteği başarısız oldu."

  /**
   * Reference definition of how one `speak` ends once it has started: the
   * video URL, or the message it stores as `error`.
   */
  function SpeechOutcome(reply: GenerateReply, poll: nat -> VideoStatusReply): (r: Result<string>)
    ensures var response := SpeakAvatarResult(reply);
      r.Ok? <==>
        && response.success && Truthy(response.videoId)
        && var job := VideoPoll(response.videoId.value, poll, VIDEO_MAX_ATTEMPTS, 0);
           job.status == COMPLETED && Truthy(job.videoUrl)
    ensures r.Ok? ==> r.value != ""
    ensures r.Err? ==> r.message != ""
    ensures var response := SpeakAvatarResult(reply);
      !response.success ==> r == Err(response.error.value)
    ensures var response := SpeakAvatarResult(reply);
      response.success && Truthy(response.videoId) && r.Err? ==> r.message == VIDEO_NOT_CREATED
  {
    var response := SpeakAvatarResult(reply);
    if response.success && Truthy(response.videoId) then
      var job := VideoPoll(response.videoId.value, poll, VIDEO_MAX_ATTEMPTS, 0);
      if job.status == COMPLETED && Truthy(job.videoUrl) then Ok(job.videoUrl.value)
      else Err(VIDEO_NOT_CREATED)
    else Err(OrDefault(response.error, REQUEST_FAILED))
  }

  /** A submission that threw ends with the message `speakAvatar` derived from the error. */
  lemma ThrownSubmissionMessage(e: HttpError, poll: nat -> VideoStatusReply)
    ensures SpeechOutcome(GenerateThrew(e), poll) == Err(SpeakErrorMessage(e))
  {
  }

  /** A video whose status never becomes terminal is reported as not created. */
  lemma {:induction false} TimedOutVideoNotCreated(videoId: string, poll: nat -> VideoStatusReply)
    requires videoId != ""
    requires forall k :: !IsTerminal(CheckVideoStatus(videoId, poll(k)).status)
    ensures SpeechOutcome(GenerateReplied(true, Some(videoId)), poll) == Err(VIDEO_NOT_CREATED)
  {
    VideoPollTimesOut(videoId, poll, VIDEO_MAX_ATTEMPTS, 0);
  }

  class AvatarSpeechState {
    var videoUrl: Option<string>
    var isLoading: bool
    var error: Option<string>

    /** Between calls nothing is loading, and a video and an error are never shown together. */
    predicate Valid()
      reads this
    {
      !isLoading && (videoUrl.None? || error.None?)
    }

    constructor()
      ensures Valid() && videoUrl == None && error == None
    {
      videoUrl := None;
      isLoading := false;
      error := None;
    }

    /** The synchronous start of `speak`: blank text changes nothing; otherwise the old video and error are cleared. */
    method BeginSpeak(text: string) returns (started: bool)
      modifies this
      ensures started <==> Trim(text) != ""
      ensures !started ==> unchanged(this)
      ensures started ==> isLoading && videoUrl == None && error == None
    {
      if Trim(text) == "" {
        return false;
      }
      isLoading := true;
      error := None;
      videoUrl := None;
      started := true;
    }

    /** The end of `speak`: the URL or the error is stored, and loading stops. */
    method FinishSpeak(outcome: Result<string>)
      requires videoUrl == None && error == None
      modifies this
      ensures Valid()
      ensures outcome.Ok? ==> videoUrl == Some(outcome.value) && error == None
      ensures outcome.Err? ==> videoUrl == None && error == Some(outcome.message)
    {
      match outcome {
        case Ok(url) => videoUrl := Some(url);
        case Err(message) => error := Some(message);
      }
      isLoading := false;
    }

    /**
     * `speak`: submits the trimmed text, waits for the video when the
     * submission gave an id, and stores the outcome. `request` is what was
     * submitted, `queries` how many status queries were made.
     */
    method Speak(avatarId: string, text: string, reply: GenerateReply, poll: nat -> VideoStatusReply)
      returns (request: Option<VideoRequest>, queries: nat)
      requires Valid()
      modifies this
      ensures Valid()
      ensures Trim(text) == "" ==> unchanged(this) && request == None && queries == 0
      ensures Trim(text) != "" ==>
        && request == Some(BuildVideoRequest(avatarId, Trim(text), None, false))
        && queries <= VIDEO_MAX_ATTEMPTS
        && var outcome := SpeechOutcome(reply, poll);
           (outcome.Ok? ==> videoUrl == Some(outcome.value) && error == None)
           && (outcome.Err? ==> videoUrl == None && error == Some(outcome.message))
    {
      request, queries := None, 0;
      var started := BeginSpeak(text);
      if !started {
        return;
      }
      request := Some(BuildVideoRequest(avatarId, Trim(text), None, false));
      var response := SpeakAvatarResult(reply);
      var outcome: Result<string>;
      if response.success && Truthy(response.videoId) {
        var job;
        job, queries := WaitForVideoCompletion(response.videoId.value, poll, VIDEO_MAX_ATTEMPTS);
        if job.status == COMPLETED && Truthy(job.videoUrl) {
          outcome := Ok(job.videoUrl.value);
        } else {
          outcome := Err(VIDEO_NOT_CREATED);
        }
      } else {
        outcome := Err(OrDefault(response.error, REQUEST_FAILED));
      }
      FinishSpeak(outcome);
    }

    /** `reset`: back to the initial state. */
    method Reset()
      modifies this
      ensures Valid() && videoUrl == None && error == None
    {
      videoUrl := None;
      error := None;
      isLoading := false;
    }
  }
}
