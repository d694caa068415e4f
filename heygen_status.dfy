/**
 * The single-request operations of the avatar-video vendor client
 * (src/api/heygenClient.ts): building and submitting a video-generation
 * request (`speakAvatar`) and turning one raw status reply into the
 * client's job records (`checkVideoStatus`, `checkPhotoAvatarStatus`,
 * `checkTrainingStatus`). Every HTTP call is replaced by the reply it
 * produced, given as a parameter.
 */
module HeyGenStatus {
  import opened JsValues

  const COMPLETED := "completed"
  const FAILED := "failed"
  const READY := "ready"
  const PENDING := "pending"
  const SUCCESS := "success"

  /** The voice used when the caller names none. */
  const DEFAULT_VOICE_ID := "1bd001e7e50f421d891986aad5158bc8"

  const VIDEO_WIDTH := 1280
  const VIDEO_HEIGHT := 720

  const INVALID_KEY_MESSAGE := "API anahtarı geçersiz veya eksik. Lütfen .env dosyanızı kontrol edin."
  const UNKNOWN_ERROR_MESSAGE := "Bilinmeyen hata"
  const UNEXPECTED_REPLY_MESSAGE := "Beklenmeyen API yanıtı"
  const GENERATION_STARTED_MESSAGE := "Video oluşturma işlemi başlatıldı"

  /**
   * What an axios call that threw carries: `error.message`,
   * `error.response?.status` and `error.response?.data?.error?.message`.
   */
  datatype HttpError = HttpError(message: Option<string>, status: Option<int>, vendorMessage: Option<string>)

  // ---------------------------------------------------------------------
  // speakAvatar
  // ---------------------------------------------------------------------

  /** The `character` object of a generation request. */
  datatype Character =
    | TalkingPhoto(talkingPhotoId: string, talkingStyle: string)
    | AvatarCharacter(avatarId: string, avatarStyle: string)

  /** The body of `POST /video/generate`, with its single video input. */
  datatype VideoRequest = VideoRequest(
    character: Character,
    inputText: string,
    voiceId: string,
    width: int,
    height: int,
    test: bool)

  /** The request `speakAvatar` submits. */
  function BuildVideoRequest(avatarId: string, text: string, voice: Option<string>, isPhotoAvatar: bool): (req: VideoRequest)
    ensures req.character.TalkingPhoto? <==> isPhotoAvatar
    ensures isPhotoAvatar ==> req.character == TalkingPhoto(avatarId, "expressive")
    ensures !isPhotoAvatar ==> req.character == AvatarCharacter(avatarId, "normal")
    ensures Truthy(voice) ==> req.voiceId == voice.value
    ensures !Truthy(voice) ==> req.voiceId == DEFAULT_VOICE_ID
    ensures req.inputText == text && req.width == VIDEO_WIDTH && req.height == VIDEO_HEIGHT && req.test
  {
    var character :=
      if isPhotoAvatar then TalkingPhoto(avatarId, "expressive") else AvatarCharacter(avatarId, "normal");
    VideoRequest(character, text, OrDefault(voice, DEFAULT_VOICE_ID), VIDEO_WIDTH, VIDEO_HEIGHT, true)
  }

  /** How the generation request ended: it threw, or it answered with or without a `data` object. */
  datatype GenerateReply =
    | GenerateThrew(err: HttpError)
    | GenerateReplied(hasData: bool, videoId: Option<string>)

  datatype SpeakAvatarResponse = SpeakAvatarResponse(
    success: bool,
    videoId: Option<string>,
    message: Option<string>,
    error: Option<string>)

  /** The error text `speakAvatar` reports for a request that threw. */
  function SpeakErrorMessage(e: HttpError): (msg: string)
    ensures e.status == Some(401) ==> msg == INVALID_KEY_MESSAGE
    ensures e.status != Some(401) && Truthy(e.vendorMessage) ==> msg == e.vendorMessage.value
    ensures e.status != Some(401) && !Truthy(e.vendorMessage) && Truthy(e.message) ==> msg == e.message.value
    ensures e.status != Some(401) && !Truthy(e.vendorMessage) && !Truthy(e.message) ==> msg == UNKNOWN_ERROR_MESSAGE
    ensures msg != ""
  {
    var fallback := OrDefault(e.message, UNKNOWN_ERROR_MESSAGE);
    if e.status == Some(401) then INVALID_KEY_MESSAGE
    else if Truthy(e.vendorMessage) then e.vendorMessage.value
    else fallback
  }

  /** The result `speakAvatar` returns once its request has ended as `reply`. */
  function SpeakAvatarResult(reply: GenerateReply): (r: SpeakAvatarResponse)
    ensures r.success <==> reply.GenerateReplied? && reply.hasData
    ensures r.success ==> r.videoId == reply.videoId && r.error == None
    ensures !r.success ==> r.videoId == None && Truthy(r.error)
    ensures reply.GenerateThrew? ==> r.error == Some(SpeakErrorMessage(reply.err))
  {
    match reply
    case GenerateReplied(hasData, videoId) =>
      if hasData then SpeakAvatarResponse(true, videoId, Some(GENERATION_STARTED_MESSAGE), None)
      else SpeakAvatarResponse(false, None, None, Some(UNEXPECTED_REPLY_MESSAGE))
    case GenerateThrew(err) =>
      SpeakAvatarResponse(false, None, None, Some(SpeakErrorMessage(err)))
  }

  // ---------------------------------------------------------------------
  // checkVideoStatus
  // ---------------------------------------------------------------------

  /**
   * `AvatarJob`. The status is the vendor's string, passed on unchecked; a
   * reply without a `status` field is represented by the string "undefined".
   */
  datatype AvatarJob = AvatarJob(id: string, status: string, videoUrl: Option<string>)

  /** One reply of `GET /v1/video_status.get`. */
  datatype VideoStatusReply =
    | VideoStatusThrew
    | VideoStatusNoData
    | VideoStatusData(status: string, videoUrl: Option<string>)

  /** A status that ends a video poll. */
  predicate IsTerminal(status: string) {
    status == COMPLETED || status == FAILED
  }

  /** `checkVideoStatus`: a reply with data is passed on, anything else is a failed job. */
  function CheckVideoStatus(videoId: string, reply: VideoStatusReply): (job: AvatarJob)
    ensures job.id == videoId
    ensures reply.VideoStatusData? ==> job.status == reply.status && job.videoUrl == reply.videoUrl
    ensures !reply.VideoStatusData? ==> job.status == FAILED && job.videoUrl == None
    ensures IsTerminal(job.status) <==> !reply.VideoStatusData? || IsTerminal(reply.status)
  {
    match reply
    case VideoStatusData(status, url) => AvatarJob(videoId, status, url)
    case _ => AvatarJob(videoId, FAILED, None)
  }

  // ---------------------------------------------------------------------
  // checkPhotoAvatarStatus
  // ---------------------------------------------------------------------

  /** A reply field the code expects to be an array: missing, an array, or some other value. */
  datatype ArrayField = Missing | Items(items: seq<string>) | NonArray(truthy: bool)

  /** JavaScript truthiness of such a field: every array, even an empty one, is truthy. */
  predicate FieldTruthy(f: ArrayField) {
    f.Items? || (f.NonArray? && f.truthy)
  }

  /** `a || b`. */
  function FieldOr(a: ArrayField, b: ArrayField): ArrayField {
    if FieldTruthy(a) then a else b
  }

  /** `Array.isArray(f) ? f : []`. */
  function AsArray(f: ArrayField): (r: seq<string>)
    ensures f.Items? ==> r == f.items
    ensures !f.Items? ==> r == []
  {
    if f.Items? then f.items else []
  }

  /** One reply of `GET /photo_avatar/generation/{id}`. */
  datatype PhotoStatusReply =
    | PhotoStatusThrew(message: Option<string>)
    | PhotoStatusNoData
    | PhotoStatusData(
        status: Option<string>,
        state: Option<string>,
        imageUrlList: ArrayField,
        photos: ArrayField,
        photoUrls: ArrayField,
        imageKeyList: ArrayField)

  /** `PhotoJobStatus`. */
  datatype PhotoJobStatus = PhotoJobStatus(
    jobId: string,
    status: string,
    photoUrls: Option<seq<string>>,
    photoKeys: Option<seq<string>>,
    error: Option<string>)

  /** The raw photo status: `data.status || data.state || 'pending'`. */
  function RawPhotoStatus(status: Option<string>, state: Option<string>): (s: string)
    ensures Truthy(status) ==> s == status.value
    ensures !Truthy(status) && Truthy(state) ==> s == state.value
    ensures !Truthy(status) && !Truthy(state) ==> s == PENDING
    ensures s != ""
  {
    OrDefault(Or(status, state), PENDING)
  }

  /** `checkPhotoAvatarStatus`. */
  function CheckPhotoAvatarStatus(jobId: string, reply: PhotoStatusReply): (r: PhotoJobStatus)
    ensures r.jobId == jobId
    ensures reply.PhotoStatusData? ==>
      var raw := RawPhotoStatus(reply.status, reply.state);
      && r.status == (if raw == SUCCESS then COMPLETED else raw)
      && r.photoUrls == Some(AsArray(FieldOr(reply.imageUrlList, FieldOr(reply.photos, reply.photoUrls))))
      && r.photoKeys == Some(AsArray(reply.imageKeyList))
      && r.error == None
    ensures reply.PhotoStatusData? ==> r.status != SUCCESS && r.status != ""
    ensures reply.PhotoStatusNoData? ==> r == PhotoJobStatus(jobId, FAILED, None, None, None)
    ensures reply.PhotoStatusThrew? ==> r == PhotoJobStatus(jobId, FAILED, None, None, reply.message)
  {
    match reply
    case PhotoStatusData(status, state, imageUrlList, photos, photoUrls, imageKeyList) =>
      var raw := RawPhotoStatus(status, state);
      var mapped := if raw == SUCCESS then COMPLETED else raw;
      var urls := FieldOr(imageUrlList, FieldOr(photos, photoUrls));
      PhotoJobStatus(jobId, mapped, Some(AsArray(urls)), Some(AsArray(imageKeyList)), None)
    case PhotoStatusNoData =>
      PhotoJobStatus(jobId, FAILED, None, None, None)
    case PhotoStatusThrew(message) =>
      PhotoJobStatus(jobId, FAILED, None, None, message)
  }

  // ---------------------------------------------------------------------
  // checkTrainingStatus
  // ---------------------------------------------------------------------

  /** One reply of `GET /photo_avatar/train/status/{group}`. */
  datatype TrainingStatusReply =
    | TrainingStatusThrew(message: Option<string>)
    | TrainingStatusNoData
    | TrainingStatusData(status: string, avatarId: Option<string>)

  /** `TrainingJobStatus`. */
  datatype TrainingJobStatus = TrainingJobStatus(
    jobId: string,
    status: string,
    avatarId: Option<string>,
    error: Option<string>)

  /** `checkTrainingStatus`: a reply with data is passed on, anything else is a failed job. */
  function CheckTrainingStatus(groupId: string, reply: TrainingStatusReply): (r: TrainingJobStatus)
    ensures r.jobId == groupId
    ensures reply.TrainingStatusData? ==> r == TrainingJobStatus(groupId, reply.status, reply.avatarId, None)
    ensures reply.TrainingStatusNoData? ==> r == TrainingJobStatus(groupId, FAILED, None, None)
    ensures reply.TrainingStatusThrew? ==> r == TrainingJobStatus(groupId, FAILED, None, reply.message)
  {
    match reply
    case TrainingStatusData(status, avatarId) => TrainingJobStatus(groupId, status, avatarId, None)
    case TrainingStatusNoData => TrainingJobStatus(groupId, FAILED, None, None)
    case TrainingStatusThrew(message) => TrainingJobStatus(groupId, FAILED, None, message)
  }
}
