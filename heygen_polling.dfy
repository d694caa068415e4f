/**
 * The bounded job pollers of src/api/heygenClient.ts:
 * `waitForVideoCompletion`, `waitForPhotoCompletion` and
 * `waitForTrainingCompletion`. The vendor is an oracle `vendor(k)` giving
 * the raw reply to the k-th status query (counting from 0); the sleep
 * between queries is left out, so a poll is measured in queries.
 */
module HeyGenPolling {
  import opened JsValues
  import opened HeyGenStatus

  /** The default attempt budgets of the three pollers. */
  const VIDEO_MAX_ATTEMPTS := 60
  const PHOTO_MAX_ATTEMPTS := 60
  const TRAINING_MAX_ATTEMPTS := 120

  const PHOTO_TIMEOUT_ERROR := "Timeout"
  const TRAINING_TIMEOUT_ERROR := "Training timeout"

  /** The number of queries a `for (i = 0; i < maxAttempts; i++)` loop can make. */
  function Budget(maxAttempts: int): nat {
    if maxAttempts < 0 then 0 else maxAttempts
  }

  // ---------------------------------------------------------------------
  // Video
  // ---------------------------------------------------------------------

  /** Reference definition: the job `waitForVideoCompletion` returns when it is at query `i`. */
  function VideoPoll(videoId: string, vendor: nat -> VideoStatusReply, maxAttempts: int, i: nat): AvatarJob
    decreases maxAttempts - i
  {
    if i >= maxAttempts then AvatarJob(videoId, FAILED, None)
    else
      var job := CheckVideoStatus(videoId, vendor(i));
      if IsTerminal(job.status) then job else VideoPoll(videoId, vendor, maxAttempts, i + 1)
  }

  /**
   * `waitForVideoCompletion`: at most `maxAttempts` queries; the first
   * terminal job is returned unchanged, and a poll that finds none ends as
   * a synthetic failed job with the same id.
   */
  method WaitForVideoCompletion(videoId: string, vendor: nat -> VideoStatusReply, maxAttempts: int)
    returns (job: AvatarJob, queries: nat)
    ensures job == VideoPoll(videoId, vendor, maxAttempts, 0)
    ensures queries <= Budget(maxAttempts)
    ensures job.id == videoId && IsTerminal(job.status)
    ensures forall k :: 0 <= k < queries - 1 ==> !IsTerminal(CheckVideoStatus(videoId, vendor(k)).status)
    ensures || (queries >= 1 && job == CheckVideoStatus(videoId, vendor(queries - 1)))
            || (queries == Budget(maxAttempts) && job == AvatarJob(videoId, FAILED, None)
                && forall k :: 0 <= k < queries ==> !IsTerminal(CheckVideoStatus(videoId, vendor(k)).status))
  {
    var i := 0;
    while i < maxAttempts
      invariant i <= Budget(maxAttempts)
      invariant forall k :: 0 <= k < i ==> !IsTerminal(CheckVideoStatus(videoId, vendor(k)).status)
      invariant VideoPoll(videoId, vendor, maxAttempts, i) == VideoPoll(videoId, vendor, maxAttempts, 0)
      decreases maxAttempts - i
    {
      var status := CheckVideoStatus(videoId, vendor(i));
      if status.status == COMPLETED || status.status == FAILED {
        return status, i + 1;
      }
      i := i + 1;
    }
    job, queries := AvatarJob(videoId, FAILED, None), i;
  }

  /** A poll whose vendor never reports a terminal status makes every allowed query and then fails. */
  lemma {:induction false} VideoPollTimesOut(videoId: string, vendor: nat -> VideoStatusReply, maxAttempts: int, i: nat)
    requires forall k :: i <= k ==> !IsTerminal(CheckVideoStatus(videoId, vendor(k)).status)
    ensures VideoPoll(videoId, vendor, maxAttempts, i) == AvatarJob(videoId, FAILED, None)
    decreases maxAttempts - i
  {
    if i < maxAttempts {
      VideoPollTimesOut(videoId, vendor, maxAttempts, i + 1);
    }
  }

  /** The poll's outcome depends only on the replies to the queries it may make. */
  lemma {:induction false} VideoPollOnlyReadsBudget(
    videoId: string, v1: nat -> VideoStatusReply, v2: nat -> VideoStatusReply, maxAttempts: int, i: nat)
    requires forall k :: i <= k < maxAttempts ==> v1(k) == v2(k)
    ensures VideoPoll(videoId, v1, maxAttempts, i) == VideoPoll(videoId, v2, maxAttempts, i)
    decreases maxAttempts - i
  {
    if i < maxAttempts {
      VideoPollOnlyReadsBudget(videoId, v1, v2, maxAttempts, i + 1);
    }
  }

  // ---------------------------------------------------------------------
  // Photo generation
  // ---------------------------------------------------------------------

  /** Reference definition of `waitForPhotoCompletion` from query `i` on. */
  function PhotoPoll(generationId: string, vendor: nat -> PhotoStatusReply, maxAttempts: int, i: nat): PhotoJobStatus
    decreases maxAttempts - i
  {
    if i >= maxAttempts then PhotoJobStatus(generationId, FAILED, None, None, Some(PHOTO_TIMEOUT_ERROR))
    else
      var st := CheckPhotoAvatarStatus(generationId, vendor(i));
      if IsTerminal(st.status) then st else PhotoPoll(generationId, vendor, maxAttempts, i + 1)
  }

  /**
   * `waitForPhotoCompletion`: as the video poller, with a vendor `success`
   * already read as `completed` and a timeout reported as a failed job
   * with error "Timeout".
   */
  method WaitForPhotoCompletion(generationId: string, vendor: nat -> PhotoStatusReply, maxAttempts: int)
    returns (st: PhotoJobStatus, queries: nat)
    ensures st == PhotoPoll(generationId, vendor, maxAttempts, 0)
    ensures queries <= Budget(maxAttempts)
    ensures st.jobId == generationId && IsTerminal(st.status)
    ensures forall k :: 0 <= k < queries - 1 ==>
      !IsTerminal(CheckPhotoAvatarStatus(generationId, vendor(k)).status)
    ensures || (queries >= 1 && st == CheckPhotoAvatarStatus(generationId, vendor(queries - 1)))
            || (queries == Budget(maxAttempts)
                && st == PhotoJobStatus(generationId, FAILED, None, None, Some(PHOTO_TIMEOUT_ERROR)))
  {
    var i := 0;
    while i < maxAttempts
      invariant i <= Budget(maxAttempts)
      invariant forall k :: 0 <= k < i ==> !IsTerminal(CheckPhotoAvatarStatus(generationId, vendor(k)).status)
      invariant PhotoPoll(generationId, vendor, maxAttempts, i) == PhotoPoll(generationId, vendor, maxAttempts, 0)
      decreases maxAttempts - i
    {
      var status := CheckPhotoAvatarStatus(generationId, vendor(i));
      if status.status == COMPLETED || status.status == FAILED {
        return status, i + 1;
      }
      i := i + 1;
    }
    st, queries := PhotoJobStatus(generationId, FAILED, None, None, Some(PHOTO_TIMEOUT_ERROR)), i;
  }

  /** A vendor that answers `success` on the first query completes the photo poll at once. */
  lemma PhotoSuccessCompletes(generationId: string, vendor: nat -> PhotoStatusReply, maxAttempts: int)
    requires maxAttempts >= 1
    requires vendor(0).PhotoStatusData? && vendor(0).status == Some(SUCCESS)
    ensures PhotoPoll(generationId, vendor, maxAttempts, 0).status == COMPLETED
  {
  }

  // ---------------------------------------------------------------------
  // Training
  // ---------------------------------------------------------------------

  /** The statuses that end a training poll. */
  predicate IsTrainingTerminal(status: string) {
    status == COMPLETED || status == READY || status == FAILED
  }

  /** `ready` is reported as `completed`, every other field kept. */
  function NormalizeReady(st: TrainingJobStatus): (r: TrainingJobStatus)
    ensures r.status != READY
    ensures r.jobId == st.jobId && r.avatarId == st.avatarId && r.error == st.error
    ensures st.status != READY ==> r == st
    ensures st.status == READY ==> r.status == COMPLETED
  {
    if st.status == READY then st.(status := COMPLETED) else st
  }

  /** Reference definition of `waitForTrainingCompletion` from query `i` on. */
  function TrainingPoll(groupId: string, vendor: nat -> TrainingStatusReply, maxAttempts: int, i: nat): TrainingJobStatus
    decreases maxAttempts - i
  {
    if i >= maxAttempts then TrainingJobStatus(groupId, FAILED, None, Some(TRAINING_TIMEOUT_ERROR))
    else
      var st := CheckTrainingStatus(groupId, vendor(i));
      if IsTrainingTerminal(st.status) then NormalizeReady(st)
      else TrainingPoll(groupId, vendor, maxAttempts, i + 1)
  }

  /**
   * `waitForTrainingCompletion`: stops at the first `completed`, `ready`
   * or `failed` status, never returns `ready`, and reports a timeout as a
   * failed job with error "Training timeout".
   */
  method WaitForTrainingCompletion(groupId: string, vendor: nat -> TrainingStatusReply, maxAttempts: int)
    returns (st: TrainingJobStatus, queries: nat)
    ensures st == TrainingPoll(groupId, vendor, maxAttempts, 0)
    ensures queries <= Budget(maxAttempts)
    ensures st.jobId == groupId && IsTerminal(st.status) && st.status != READY
    ensures forall k :: 0 <= k < queries - 1 ==>
      !IsTrainingTerminal(CheckTrainingStatus(groupId, vendor(k)).status)
    ensures || (queries >= 1 && st == NormalizeReady(CheckTrainingStatus(groupId, vendor(queries - 1))))
            || (queries == Budget(maxAttempts)
                && st == TrainingJobStatus(groupId, FAILED, None, Some(TRAINING_TIMEOUT_ERROR)))
  {
    var i := 0;
    while i < maxAttempts
      invariant i <= Budget(maxAttempts)
      invariant forall k :: 0 <= k < i ==> !IsTrainingTerminal(CheckTrainingStatus(groupId, vendor(k)).status)
      invariant TrainingPoll(groupId, vendor, maxAttempts, i) == TrainingPoll(groupId, vendor, maxAttempts, 0)
      decreases maxAttempts - i
    {
      var status := CheckTrainingStatus(groupId, vendor(i));
      if status.status == COMPLETED || status.status == READY || status.status == FAILED {
        if status.status == READY {
          return status.(status := COMPLETED), i + 1;
        }
        return status, i + 1;
      }
      i := i + 1;
    }
    st, queries := TrainingJobStatus(groupId, FAILED, None, Some(TRAINING_TIMEOUT_ERROR)), i;
  }

  /** A training reply of `ready` with an avatar id is reported as `completed` with that id. */
  lemma TrainingReadyKeepsAvatar(groupId: string, vendor: nat -> TrainingStatusReply, maxAttempts: int, id: string)
    requires maxAttempts >= 1
    requires vendor(0) == TrainingStatusData(READY, Some(id))
    ensures TrainingPoll(groupId, vendor, maxAttempts, 0) == TrainingJobStatus(groupId, COMPLETED, Some(id), None)
  {
  }
}
