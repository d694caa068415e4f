/**
 * The test-mode branch of `uploadImageAndCreateAvatar`
 * (src/api/heygenClient.ts), the only branch that runs because its
 * `TEST_MODE` switch is the constant `true`. It reuses a fixed avatar
 * group: if the group's training is already done it attaches motion,
 * waits (at most 30 detail checks) for the motion flag and then probes the
 * video endpoint (at most 12 probes) until the avatar is accepted; if not,
 * it starts training, polls it, and attaches motion once. Every vendor
 * call is an oracle parameter.
 */
module InstantAvatar {
  import opened JsValues
  import opened HeyGenStatus
  import opened HeyGenPolling

  const TEST_GROUP_ID := "287c77273d72408b96674909e494717b"
  const MAX_MOTION_CHECKS := 30
  const MAX_PROBES := 12
  const AVATAR_NOT_FOUND := "avatar_not_found"

  const READY_AND_USABLE_MESSAGE := "Avatar başarıyla oluşturuldu ve kullanıma hazır!"
  const READY_MESSAGE := "Avatar başarıyla oluşturuldu!"
  const VIDEO_SYSTEM_PENDING_MESSAGE := "Avatar oluşturuldu ama video sisteminde aktif olması 5-10 dakika sürebilir"
  const MOTION_PENDING_MESSAGE := "Avatar oluşturuldu ama motion işlemi devam ediyor"
  const TEST_MODE_READY_MESSAGE := "Test mode: Avatar başarıyla oluşturuldu!"
  const NO_AVATAR_IN_GROUP_ERROR := "Avatar ID bulunamadı. Training tamamlanmış ama group'ta avatar yok."
  const NO_AVATAR_AFTER_TRAINING_ERROR := "Avatar ID bulunamadı. Training tamamlandı ama avatar oluşturulmadı."
  const MOTION_FAILED_ERROR := "Avatar'a hareket eklenemedi"
  const UNKNOWN_ERROR := "Unknown error"
  const UNEXPECTED_RESPONSE_ERROR := "Unexpected API response"

  /** `InstantAvatarResponse`. */
  datatype InstantAvatarResponse = InstantAvatarResponse(
    success: bool,
    avatarId: Option<string>,
    message: Option<string>,
    error: Option<string>)

  function Succeeded(avatarId: string, message: string): InstantAvatarResponse {
    InstantAvatarResponse(true, Some(avatarId), Some(message), None)
  }

  function Failed(error: string): InstantAvatarResponse {
    InstantAvatarResponse(false, None, None, Some(error))
  }

  /** The message an error escaping to the function's outer `catch` becomes. */
  function CaughtMessage(e: HttpError): (msg: string)
    ensures Truthy(e.vendorMessage) ==> msg == e.vendorMessage.value
    ensures !Truthy(e.vendorMessage) && Truthy(e.message) ==> msg == e.message.value
    ensures !Truthy(e.vendorMessage) && !Truthy(e.message) ==> msg == UNKNOWN_ERROR
  {
    OrDefault(Or(e.vendorMessage, e.message), UNKNOWN_ERROR)
  }

  // ---------------------------------------------------------------------
  // Vendor replies
  // ---------------------------------------------------------------------

  /** `GET /avatar_group/{group}/avatars`: failed, or the ids of its `avatar_list` (each maybe missing). */
  datatype GroupAvatarsReply = GroupAvatarsThrew | GroupAvatars(avatarList: Option<seq<Option<string>>>)

  /** `POST /photo_avatar/add_motion`: threw, or answered with `data.avatar_id` and `data.id`. */
  datatype MotionReply = MotionThrew(err: HttpError) | MotionReplied(avatarId: Option<string>, id: Option<string>)

  /** `GET /photo_avatar/{id}`: failed, or answered; `isMotion` is `data.is_motion === true`. */
  datatype DetailsReply = DetailsThrew | Details(isMotion: bool)

  /** A probe `POST /video/generate`: accepted, or rejected with `error.code`. */
  datatype ProbeReply = ProbeAccepted | ProbeRejected(errorCode: Option<string>)

  /** `POST /photo_avatar/train`. */
  datatype TrainStartReply = TrainStartThrew(err: HttpError) | TrainStartReplied(hasData: bool, jobId: Option<string>)

  predicate MotionDone(d: DetailsReply) {
    d.Details? && d.isMotion
  }

  /** A probe rejection that means "not registered yet, wait and probe again". */
  predicate ProbeWaits(p: ProbeReply) {
    p.ProbeRejected? && p.errorCode == Some(AVATAR_NOT_FOUND)
  }

  /** The avatar id taken from a group listing: `avatar_list[0].id` when the list is non-empty. */
  function FirstGroupAvatar(current: Option<string>, reply: GroupAvatarsReply): (r: Option<string>)
    ensures reply.GroupAvatars? && reply.avatarList.Some? && |reply.avatarList.value| > 0 ==>
      r == reply.avatarList.value[0]
    ensures !(reply.GroupAvatars? && reply.avatarList.Some? && |reply.avatarList.value| > 0) ==> r == current
  {
    match reply
    case GroupAvatars(Some(list)) => if |list| > 0 then list[0] else current
    case _ => current
  }

  /** The id motion is checked on: `data.avatar_id || data.id || avatarId`. */
  function MotionAvatarId(avatarId: Option<string>, id: Option<string>, fallback: string): (r: string)
    ensures Truthy(avatarId) ==> r == avatarId.value
    ensures !Truthy(avatarId) && Truthy(id) ==> r == id.value
    ensures !Truthy(avatarId) && !Truthy(id) ==> r == fallback
    ensures fallback != "" ==> r != ""
  {
    OrDefault(Or(avatarId, id), fallback)
  }

  /** `trainPhotoAvatarGroup`: whether training started, and the error text when it did not. */
  function TrainStartError(reply: TrainStartReply): (e: Option<string>)
    ensures reply.TrainStartReplied? && reply.hasData <==> e.None?
    ensures e.Some? ==> e.value != ""
  {
    match reply
    case TrainStartReplied(hasData, _) => if hasData then None else Some(UNEXPECTED_RESPONSE_ERROR)
    case TrainStartThrew(err) => Some(CaughtMessage(err))
  }

  // ---------------------------------------------------------------------
  // The two loops
  // ---------------------------------------------------------------------

  /** The message the probe loop ends with, decided by the last probe's reply. */
  function ProbeEndMessage(last: ProbeReply): string {
    if ProbeWaits(last) then VIDEO_SYSTEM_PENDING_MESSAGE
    else if last.ProbeAccepted? then READY_AND_USABLE_MESSAGE
    else READY_MESSAGE
  }

  /**
   * How the probe loop ends after `made` probes: every probe before the
   * last was told to wait, the last one only waits when the budget is
   * spent, and the answer is a success whose message the last reply picks.
   */
  predicate ProbeLoopEnded(avatarId: string, probes: nat -> ProbeReply, made: nat, r: InstantAvatarResponse) {
    && 1 <= made <= MAX_PROBES
    && (forall j :: 0 <= j < made - 1 ==> ProbeWaits(probes(j)))
    && (ProbeWaits(probes(made - 1)) ==> made == MAX_PROBES)
    && r == Succeeded(avatarId, ProbeEndMessage(probes(made - 1)))
  }

  /**
   * The probe loop (`for j < 12`): a probe that is accepted or rejected for
   * any reason other than `avatar_not_found` ends it with success; twelve
   * `avatar_not_found` rejections end it with success and a warning.
   */
  method ProbeUntilUsable(avatarId: string, probes: nat -> ProbeReply)
    returns (r: InstantAvatarResponse, made: nat)
    ensures ProbeLoopEnded(avatarId, probes, made, r)
  {
    var j := 0;
    while j < MAX_PROBES
      invariant 0 <= j <= MAX_PROBES
      invariant forall k :: 0 <= k < j ==> ProbeWaits(probes(k))
    {
      match probes(j)
      case ProbeAccepted =>
        return Succeeded(avatarId, READY_AND_USABLE_MESSAGE), j + 1;
      case ProbeRejected(code) =>
        if code != Some(AVATAR_NOT_FOUND) {
          return Succeeded(avatarId, READY_MESSAGE), j + 1;
        }
      j := j + 1;
    }
    r, made := Succeeded(avatarId, VIDEO_SYSTEM_PENDING_MESSAGE), MAX_PROBES;
  }

  /**
   * How the motion loop ends after `checks` detail checks: every check
   * before the last saw no motion; the probe loop ran iff the last one saw
   * motion, and then its answer is the loop's; otherwise all thirty checks
   * were spent and the answer is a success with the pending message.
   */
  predicate MotionWaitEnded(
    avatarId: string, details: nat -> DetailsReply, probes: nat -> ProbeReply,
    checks: nat, probesMade: nat, r: InstantAvatarResponse)
  {
    && 1 <= checks <= MAX_MOTION_CHECKS
    && (forall i :: 0 <= i < checks - 1 ==> !MotionDone(details(i)))
    && (MotionDone(details(checks - 1)) <==> probesMade > 0)
    && (probesMade > 0 ==> ProbeLoopEnded(avatarId, probes, probesMade, r))
    && (probesMade == 0 ==> checks == MAX_MOTION_CHECKS && r == Succeeded(avatarId, MOTION_PENDING_MESSAGE))
  }

  /**
   * The motion loop (`for i < 30`): the first check that reports
   * `is_motion` starts the probe loop, whose answer is returned; a failed
   * check counts as "not yet". Thirty checks without motion still succeed,
   * with a warning.
   */
  method AwaitMotion(avatarId: string, details: nat -> DetailsReply, probes: nat -> ProbeReply)
    returns (r: InstantAvatarResponse, checks: nat, probesMade: nat)
    ensures MotionWaitEnded(avatarId, details, probes, checks, probesMade, r)
    ensures r.success && r.avatarId == Some(avatarId) && r.error == None
  {
    var i := 0;
    while i < MAX_MOTION_CHECKS
      invariant 0 <= i <= MAX_MOTION_CHECKS
      invariant forall k :: 0 <= k < i ==> !MotionDone(details(k))
    {
      if details(i).Details? && details(i).isMotion {
        r, probesMade := ProbeUntilUsable(avatarId, probes);
        checks := i + 1;
        return;
      }
      i := i + 1;
    }
    r, checks, probesMade := Succeeded(avatarId, MOTION_PENDING_MESSAGE), MAX_MOTION_CHECKS, 0;
  }

  // ---------------------------------------------------------------------
  // The whole test-mode branch
  // ---------------------------------------------------------------------

  /** The replies the training poll sees: those after the first status check. */
  function TrainingReplies(training: nat -> TrainingStatusReply): nat -> TrainingStatusReply {
    (k: nat) => training(k + 1)
  }

  /** The avatar id used: the one reported, else the first of the group's listing. */
  function ResolvedAvatarId(reported: Option<string>, groupAvatars: GroupAvatarsReply): Option<string> {
    if Truthy(reported) then reported else FirstGroupAvatar(reported, groupAvatars)
  }

  /** Whether the group's first status check found its training already done. */
  predicate AlreadyTrained(current: TrainingJobStatus) {
    current.status == READY || current.status == COMPLETED
  }

  /** The training-failure message: status and error, with a missing error shown as "undefined". */
  function TrainingFailedMessage(t: TrainingJobStatus): string {
    "Training tamamlanamadı. Status: " + t.status + ", Error: " + JsString(t.error)
  }

  /**
   * The test-mode branch of `uploadImageAndCreateAvatar`. `training(0)` is
   * the reply to the first status check and `training(k + 1)` the reply to
   * the k-th query of the training poll; the group listing is asked at
   * most once per run, so one reply stands for it.
   */
  method CreateAvatarTestMode(
    training: nat -> TrainingStatusReply,
    groupAvatars: GroupAvatarsReply,
    motion: MotionReply,
    details: nat -> DetailsReply,
    probes: nat -> ProbeReply,
    trainStart: TrainStartReply)
    returns (r: InstantAvatarResponse, motionChecks: nat, probesMade: nat, trainingQueries: nat)
    ensures motionChecks <= MAX_MOTION_CHECKS && probesMade <= MAX_PROBES
    ensures trainingQueries <= TRAINING_MAX_ATTEMPTS
    ensures r.success ==> Truthy(r.avatarId)
    ensures !r.success ==> r.avatarId == None && Truthy(r.error)
    // Training already done: the group must yield an avatar id, then motion is attached and awaited.
    ensures var current := CheckTrainingStatus(TEST_GROUP_ID, training(0));
      var id := ResolvedAvatarId(current.avatarId, groupAvatars);
      AlreadyTrained(current) ==>
        && trainingQueries == 0
        && (!Truthy(id) ==> r == Failed(NO_AVATAR_IN_GROUP_ERROR) && motionChecks == 0)
        && (Truthy(id) && motion.MotionThrew? ==> r == Failed(CaughtMessage(motion.err)) && motionChecks == 0)
        && (Truthy(id) && motion.MotionReplied? ==>
              MotionWaitEnded(MotionAvatarId(motion.avatarId, motion.id, id.value), details, probes, motionChecks, probesMade, r))
    // Training not done: no motion check and no probe is made.
    ensures var current := CheckTrainingStatus(TEST_GROUP_ID, training(0));
      !AlreadyTrained(current) ==> motionChecks == 0 && probesMade == 0
    ensures var current := CheckTrainingStatus(TEST_GROUP_ID, training(0));
      !AlreadyTrained(current) && TrainStartError(trainStart).Some? ==>
        r == Failed("Training başlatılamadı: " + TrainStartError(trainStart).value) && trainingQueries == 0
    // Training started: the poll's outcome, then the avatar id, then the motion reply decide.
    ensures var current := CheckTrainingStatus(TEST_GROUP_ID, training(0));
      var t := TrainingPoll(TEST_GROUP_ID, TrainingReplies(training), TRAINING_MAX_ATTEMPTS, 0);
      var id := ResolvedAvatarId(t.avatarId, groupAvatars);
      !AlreadyTrained(current) && TrainStartError(trainStart).None? ==>
        && (t.status != COMPLETED ==> r == Failed(TrainingFailedMessage(t)))
        && (t.status == COMPLETED && !Truthy(id) ==> r == Failed(NO_AVATAR_AFTER_TRAINING_ERROR))
        && (t.status == COMPLETED && Truthy(id) && motion.MotionThrew? ==> r == Failed(CaughtMessage(motion.err)))
        && (t.status == COMPLETED && Truthy(id) && motion.MotionReplied? && Truthy(motion.avatarId) ==>
              r == Succeeded(motion.avatarId.value, TEST_MODE_READY_MESSAGE))
        && (t.status == COMPLETED && Truthy(id) && motion.MotionReplied? && !Truthy(motion.avatarId) ==>
              r == Failed(MOTION_FAILED_ERROR))
  {
    motionChecks, probesMade, trainingQueries := 0, 0, 0;
    var current := CheckTrainingStatus(TEST_GROUP_ID, training(0));

    if AlreadyTrained(current) {
      var avatarId := ResolvedAvatarId(current.avatarId, groupAvatars);
      if !Truthy(avatarId) {
        return Failed(NO_AVATAR_IN_GROUP_ERROR), 0, 0, 0;
      }
      match motion
      case MotionThrew(err) =>
        return Failed(CaughtMessage(err)), 0, 0, 0;
      case MotionReplied(motionId, id) =>
        var motionAvatarId := MotionAvatarId(motionId, id, avatarId.value);
        r, motionChecks, probesMade := AwaitMotion(motionAvatarId, details, probes);
        return;
    }

    var startError := TrainStartError(trainStart);
    if startError.Some? {
      return Failed("Training başlatılamadı: " + startError.value), 0, 0, 0;
    }

    var trainingStatus;
    trainingStatus, trainingQueries := WaitForTrainingCompletion(TEST_GROUP_ID, TrainingReplies(training), TRAINING_MAX_ATTEMPTS);
    if trainingStatus.status != COMPLETED {
      r := Failed(TrainingFailedMessage(trainingStatus));
      return;
    }

    var finalAvatarId := ResolvedAvatarId(trainingStatus.avatarId, groupAvatars);
    if !Truthy(finalAvatarId) {
      r := Failed(NO_AVATAR_AFTER_TRAINING_ERROR);
      return;
    }

    match motion
    case MotionThrew(err) =>
      r := Failed(CaughtMessage(err));
    case MotionReplied(motionId, _) =>
      if Truthy(motionId) {
        r := Succeeded(motionId.value, TEST_MODE_READY_MESSAGE);
      } else {
        r := Failed(MOTION_FAILED_ERROR);
      }
  }
}
