/** The records of the four-step video pipeline screen and the pure rules
    that update and summarise them: step 2 the avatar render, step 3 the two
    background renders tagged A and B, step 4 one composite per slot and the
    chosen music track. */
module PipelineState {
  import opened Wrappers
  import opened Text
  import opened ProviderStatus

  datatype Slot = A | B

  function Other(s: Slot): Slot {
    if s == A then B else A
  }

  /** A stage's own status: 'idle', 'loading', 'done' or 'error'. */
  datatype Stage = StageIdle | StageLoading | StageDone | StageError

  /** A job record's status: 'loading' (set by the screen while a submit is
      in flight), a provider status reported by the server, or undefined
      (a reply that carried no status). */
  datatype JobStatus = JobLoading | Reported(status: Status) | NoStatus

  function ReplyStatus(s: Option<Status>): (j: JobStatus)
    ensures s.Some? <==> j.Reported?
    ensures s.Some? ==> j == Reported(s.value)
  {
    match s
    case Some(st) => Reported(st)
    case None => NoStatus
  }

  /** The avatar record `step2`. */
  datatype Step2 = Step2(status: Stage, videoId: Option<string>, videoUrl: Option<string>,
                         spokenScript: string, hasGenerated: bool, error: string)

  /** A background render `{task_id, slot, platform, model, prompt, status, video_url, error}`. */
  datatype Background = Background(taskId: Option<string>, slot: Slot, platform: string, model: string,
                                   prompt: string, status: JobStatus, videoUrl: Option<string>, error: Option<string>)

  /** The backgrounds record `step3`. */
  datatype Step3 = Step3(status: Stage, backgrounds: seq<Background>, hasGenerated: bool, error: string)

  /** A composite render `{slot, render_id, status, video_url, error}`. */
  datatype Composite = Composite(slot: Slot, renderId: Option<string>, status: JobStatus,
                                 videoUrl: Option<string>, error: Option<string>)

  /** The composite record `step4`. */
  datatype Step4 = Step4(selectedMusic: string, composites: seq<Composite>)

  const INITIAL_STEP2: Step2 := Step2(StageIdle, None, None, "", false, "")
  const INITIAL_STEP3: Step3 := Step3(StageIdle, [], false, "")
  const INITIAL_STEP4: Step4 := Step4("hype", [])

  /** A status poll's outcome: the fetch threw, or it gave a JSON body (the
      response's ok flag is not consulted). */
  datatype PollReply = PollThrown | PollBody(status: Option<Status>, videoUrl: Option<string>, error: Option<string>)

  /** A submit request's outcome: the fetch threw, the server answered with
      a non-ok code and an optional `detail`, or it answered ok with a body. */
  datatype Response<T> = Thrown(message: string) | NotOk(detail: Option<string>, code: nat) | OkBody(body: T)

  /** The message a failed request is reported with: the thrown text, else
      the server's detail, else `prefix` and the status code. */
  function FailureMessage<T>(r: Response<T>, prefix: string): (m: string)
    requires !r.OkBody?
    ensures r.Thrown? ==> m == r.message
    ensures r.NotOk? && Truthy(r.detail) ==> m == r.detail.value
    ensures r.NotOk? && !Truthy(r.detail) ==> m == prefix + NatToString(r.code)
  {
    match r
    case Thrown(msg) => msg
    case NotOk(detail, code) => OrDefault(detail, prefix + NatToString(code))
  }

  /** The pipeline handlers' wording: "Server error <code>". */
  function ErrorMessage<T>(r: Response<T>): string
    requires !r.OkBody?
  {
    FailureMessage(r, "Server error ")
  }

  /** The prompts route for the platform. */
  function ProposalsEndpoint(platform: string): (e: string)
    ensures platform == "tiktok" <==> e == "/tiktok/propose-prompts"
    ensures platform != "tiktok" <==> e == "/propose-prompts"
  {
    if platform == "tiktok" then "/tiktok/propose-prompts" else "/propose-prompts"
  }

  /** A generate button's label: generating, regenerate, or the first-run text. */
  datatype GenerateLabel = Generating | Regenerate | FirstRun

  // ---------------------------------------------------------------- step 2

  /** Polling of the avatar runs only while it is loading with a video id. */
  predicate AvatarPolling(s2: Step2) {
    s2.status == StageLoading && Truthy(s2.videoId)
  }

  /** One avatar poll: 'succeeded' gives 'done' with the reply's url;
      'failed' or 'error' gives 'error' with the reply's error text or
      "HeyGen generation failed"; anything else, and a thrown fetch, keeps
      the record. */
  function ApplyAvatarReply(s2: Step2, reply: PollReply): (r: Step2)
    ensures reply.PollBody? && reply.status == Some(Succeeded) ==>
              r == s2.(status := StageDone, videoUrl := reply.videoUrl)
    ensures reply.PollBody? && (reply.status == Some(Failed) || reply.status == Some(Error)) ==>
              r == s2.(status := StageError, error := OrDefault(reply.error, "HeyGen generation failed"))
    ensures r != s2 ==> reply.PollBody? && reply.status.Some? && reply.status.value in {Succeeded, Failed, Error}
    ensures r.videoId == s2.videoId && r.spokenScript == s2.spokenScript && r.hasGenerated == s2.hasGenerated
  {
    if reply.PollThrown? then s2
    else if reply.status == Some(Succeeded) then s2.(status := StageDone, videoUrl := reply.videoUrl)
    else if reply.status == Some(Failed) || reply.status == Some(Error) then
      s2.(status := StageError, error := OrDefault(reply.error, "HeyGen generation failed"))
    else s2
  }

  /** The avatar record while its submit is in flight. */
  const AVATAR_LOADING: Step2 := INITIAL_STEP2.(status := StageLoading, hasGenerated := true)

  /** The text of the `TypeError` reading `status` of a missing first video. */
  const NO_VIDEO_ERROR: string := "Cannot read properties of undefined (reading 'status')"

  /** Folding the avatar submit's outcome into the record: the first video
      card's id and spoken script, with the status left 'loading'; a failed
      request, a missing card or an 'error' card gives 'error' with its
      message. */
  function CompleteAvatar(s2: Step2, outcome: Response<seq<VideoRecord>>): (r: Step2)
    ensures r.hasGenerated == s2.hasGenerated && r.videoUrl == s2.videoUrl
    ensures r.status == StageLoading || r.status == StageError
    ensures !outcome.OkBody? ==> r == s2.(status := StageError, error := ErrorMessage(outcome))
    ensures outcome.OkBody? && outcome.body == [] ==> r == s2.(status := StageError, error := NO_VIDEO_ERROR)
    ensures outcome.OkBody? && outcome.body != [] && outcome.body[0].status == Error ==>
              r == s2.(status := StageError, error := OrDefault(outcome.body[0].error, "Submission failed"))
    ensures outcome.OkBody? && outcome.body != [] && outcome.body[0].status != Error ==>
              r == s2.(videoId := outcome.body[0].taskId, spokenScript := OrDefault(outcome.body[0].spokenScript, ""),
                       status := StageLoading)
  {
    if !outcome.OkBody? then s2.(status := StageError, error := ErrorMessage(outcome))
    else if outcome.body == [] then s2.(status := StageError, error := NO_VIDEO_ERROR)
    else
      var video := outcome.body[0];
      if video.status == Error then s2.(status := StageError, error := OrDefault(video.error, "Submission failed"))
      else s2.(videoId := video.taskId, spokenScript := OrDefault(video.spokenScript, ""), status := StageLoading)
  }

  /** A successful avatar submit leaves the record polling exactly when the
      card carries a task id. */
  lemma CompleteAvatarPolls(outcome: Response<seq<VideoRecord>>)
    requires outcome.OkBody? && outcome.body != [] && outcome.body[0].status != Error
    ensures AvatarPolling(CompleteAvatar(AVATAR_LOADING, outcome)) <==> Truthy(outcome.body[0].taskId)
  {
  }

  // ---------------------------------------------------------------- step 3

  predicate BgSucceeded(b: Background) {
    b.status == Reported(Succeeded)
  }

  /** `step3HasSuccess` (and the background step's `hasDone`): some
      background has succeeded. */
  predicate HasSucceeded(bgs: seq<Background>) {
    exists i :: 0 <= i < |bgs| && BgSucceeded(bgs[i])
  }

  /** The first succeeded background of the slot. */
  function FirstSucceeded(bgs: seq<Background>, slot: Slot): (r: Option<Background>)
    ensures r.Some? ==> r.value in bgs && r.value.slot == slot && BgSucceeded(r.value)
    ensures r.None? <==> forall i :: 0 <= i < |bgs| ==> !(bgs[i].slot == slot && BgSucceeded(bgs[i]))
    ensures r.Some? ==> exists i :: 0 <= i < |bgs| && bgs[i] == r.value
                          && forall j :: 0 <= j < i ==> !(bgs[j].slot == slot && BgSucceeded(bgs[j]))
  {
    if bgs == [] then None
    else if bgs[0].slot == slot && BgSucceeded(bgs[0]) then Some(bgs[0])
    else
      var r := FirstSucceeded(bgs[1..], slot);
      assert forall i :: 1 <= i < |bgs| ==> bgs[i] == bgs[1..][i - 1];
      if r.Some? then
        ghost var k :| 0 <= k < |bgs[1..]| && bgs[1..][k] == r.value
                       && forall j :: 0 <= j < k ==> !(bgs[1..][j].slot == slot && BgSucceeded(bgs[1..][j]));
        assert bgs[k + 1] == r.value;
        r
      else r
  }

  /** The backgrounds record while its submit is in flight. */
  const BACKGROUNDS_LOADING: Step3 := INITIAL_STEP3.(status := StageLoading, hasGenerated := true)

  /** Folding the backgrounds submit's outcome in: the returned list with the
      status still 'loading', or 'error' with the message. */
  function CompleteBackgrounds(s3: Step3, outcome: Response<seq<Background>>): (r: Step3)
    ensures r.hasGenerated == s3.hasGenerated
    ensures outcome.OkBody? ==> r == s3.(backgrounds := outcome.body, status := StageLoading)
    ensures !outcome.OkBody? ==> r == s3.(status := StageError, error := ErrorMessage(outcome))
  {
    if outcome.OkBody? then s3.(backgrounds := outcome.body, status := StageLoading)
    else s3.(status := StageError, error := ErrorMessage(outcome))
  }

  /** The corrected stage transition: a 'loading' stage with no background
      left to poll becomes 'done'; otherwise nothing changes. As written,
      no handler ever moves the stage out of 'loading' after a successful
      submit. */
  function SettleBackgrounds(s3: Step3): (r: Step3)
    ensures r.backgrounds == s3.backgrounds && r.hasGenerated == s3.hasGenerated && r.error == s3.error
    ensures r.status == StageLoading <==> s3.status == StageLoading && PendingTaskIds(s3.backgrounds) != []
    ensures s3.status == StageLoading && PendingTaskIds(s3.backgrounds) == [] ==> r.status == StageDone
    ensures s3.status != StageLoading ==> r == s3
  {
    if s3.status == StageLoading && PendingTaskIds(s3.backgrounds) == [] then s3.(status := StageDone) else s3
  }

  /** A background is polled while it is pending and has a task id; the
      request goes to the Runway route for Runway jobs and to the Kling
      route for every other platform. */
  predicate BackgroundPending(b: Background) {
    b.status == Reported(Pending) && Truthy(b.taskId)
  }

  function PollRoute(b: Background): (route: string)
    ensures b.platform == "runway" <==> route == "runway"
    ensures b.platform != "runway" <==> route == "kling"
  {
    if b.platform == "runway" then "runway" else "kling"
  }

  /** The task ids one background poll tick asks about, in list order. */
  function PendingTaskIds(bgs: seq<Background>): (ids: seq<string>)
    ensures |ids| <= |bgs|
    ensures forall id :: id in ids <==> exists i :: 0 <= i < |bgs| && BackgroundPending(bgs[i]) && bgs[i].taskId == Some(id)
  {
    if bgs == [] then []
    else
      var rest := PendingTaskIds(bgs[1..]);
      assert forall i :: 1 <= i < |bgs| ==> bgs[i] == bgs[1..][i - 1];
      if BackgroundPending(bgs[0]) then [bgs[0].taskId.value] + rest else rest
  }

  /** A status request of a background poll tick, `/video-status/<route>/<task id>`. */
  datatype PollRequest = PollRequest(route: string, taskId: string)

  /** The requests one background poll tick sends, in list order: one per
      pending background, with its task id, to its provider's route. */
  function PollRequests(bgs: seq<Background>): (reqs: seq<PollRequest>)
    ensures |reqs| == |PendingTaskIds(bgs)|
    ensures forall i :: 0 <= i < |reqs| ==> reqs[i].taskId == PendingTaskIds(bgs)[i]
    ensures forall q :: q in reqs <==>
              exists i :: 0 <= i < |bgs| && BackgroundPending(bgs[i]) && q == PollRequest(PollRoute(bgs[i]), bgs[i].taskId.value)
  {
    if bgs == [] then []
    else
      var rest := PollRequests(bgs[1..]);
      assert forall i :: 1 <= i < |bgs| ==> bgs[i] == bgs[1..][i - 1];
      if BackgroundPending(bgs[0]) then [PollRequest(PollRoute(bgs[0]), bgs[0].taskId.value)] + rest else rest
  }

  /** One reply of a background poll tick: unless the fetch threw or the
      status is still 'pending', every background with that task id takes
      the reply's status, url and error; nothing else changes. */
  function ApplyBackgroundReply(bgs: seq<Background>, taskId: string, reply: PollReply): (r: seq<Background>)
    ensures |r| == |bgs|
    ensures reply.PollThrown? || reply.status == Some(Pending) ==> r == bgs
    ensures forall i :: 0 <= i < |bgs| && bgs[i].taskId != Some(taskId) ==> r[i] == bgs[i]
    ensures reply.PollBody? && reply.status != Some(Pending) ==>
              forall i :: 0 <= i < |bgs| && bgs[i].taskId == Some(taskId) ==>
                r[i] == bgs[i].(status := ReplyStatus(reply.status), videoUrl := reply.videoUrl, error := reply.error)
    ensures forall i :: 0 <= i < |bgs| ==> r[i].slot == bgs[i].slot && r[i].taskId == bgs[i].taskId && r[i].prompt == bgs[i].prompt
  {
    if reply.PollThrown? || reply.status == Some(Pending) then bgs
    else
      seq(|bgs|, i requires 0 <= i < |bgs| =>
        if bgs[i].taskId == Some(taskId)
        then bgs[i].(status := ReplyStatus(reply.status), videoUrl := reply.videoUrl, error := reply.error)
        else bgs[i])
  }

  /** A whole tick: the replies folded in the order the requests were made. */
  function ApplyBackgroundReplies(bgs: seq<Background>, ids: seq<string>, replies: seq<PollReply>): seq<Background>
    requires |replies| == |ids|
  {
    if ids == [] then bgs
    else
      var n := |ids| - 1;
      ApplyBackgroundReply(ApplyBackgroundReplies(bgs, ids[..n], replies[..n]), ids[n], replies[n])
  }

  /** A tick keeps the list's length and slots, and changes no background
      whose task id was not asked about. */
  lemma {:induction false} BackgroundTickFrame(bgs: seq<Background>, ids: seq<string>, replies: seq<PollReply>)
    requires |replies| == |ids|
    ensures var r := ApplyBackgroundReplies(bgs, ids, replies);
            && |r| == |bgs|
            && (forall i :: 0 <= i < |bgs| ==> r[i].slot == bgs[i].slot && r[i].taskId == bgs[i].taskId)
            && (forall i :: 0 <= i < |bgs| && (bgs[i].taskId.None? || bgs[i].taskId.value !in ids) ==> r[i] == bgs[i])
  {
    if ids != [] {
      var n := |ids| - 1;
      BackgroundTickFrame(bgs, ids[..n], replies[..n]);
      assert forall id :: id in ids[..n] ==> id in ids;
    }
  }

  /** A tick in which every reply threw or was still pending changes nothing. */
  lemma {:induction false} BackgroundTickQuiet(bgs: seq<Background>, ids: seq<string>, replies: seq<PollReply>)
    requires |replies| == |ids|
    requires forall k :: 0 <= k < |replies| ==> replies[k].PollThrown? || replies[k].status == Some(Pending)
    ensures ApplyBackgroundReplies(bgs, ids, replies) == bgs
  {
    if ids != [] {
      var n := |ids| - 1;
      BackgroundTickQuiet(bgs, ids[..n], replies[..n]);
    }
  }

  // ---------------------------------------------------------------- step 4

  /** `step4Unlocked`: the avatar is done and some background succeeded. */
  predicate Step4Unlocked(s2: Step2, s3: Step3) {
    s2.status == StageDone && HasSucceeded(s3.backgrounds)
  }

  /** `handleComposite`'s guard: a succeeded background for the slot and an
      avatar url. */
  predicate CompositeAllowed(s2: Step2, s3: Step3, slot: Slot) {
    FirstSucceeded(s3.backgrounds, slot).Some? && Truthy(s2.videoUrl)
  }

  /** `compositeForSlot`: the first composite record of the slot. */
  function ForSlot(comps: seq<Composite>, slot: Slot): (r: Option<Composite>)
    ensures r.Some? ==> r.value in comps && r.value.slot == slot
    ensures r.None? <==> forall i :: 0 <= i < |comps| ==> comps[i].slot != slot
    ensures r.Some? ==> exists i :: 0 <= i < |comps| && comps[i] == r.value && forall j :: 0 <= j < i ==> comps[j].slot != slot
  {
    if comps == [] then None
    else if comps[0].slot == slot then Some(comps[0])
    else
      var r := ForSlot(comps[1..], slot);
      assert forall i :: 1 <= i < |comps| ==> comps[i] == comps[1..][i - 1];
      if r.Some? then
        ghost var k :| 0 <= k < |comps[1..]| && comps[1..][k] == r.value
                       && forall j :: 0 <= j < k ==> comps[1..][j].slot != slot;
        assert comps[k + 1] == r.value;
        r
      else r
  }

  /** The invariant of the composite list: at most one record per slot. */
  predicate AtMostOnePerSlot(comps: seq<Composite>) {
    forall i, j :: 0 <= i < j < |comps| ==> comps[i].slot != comps[j].slot
  }

  /** Words in the spoken script times 2/5, rounded up: `ceil(words / 2.5)`. */
  function SpokenSeconds(words: nat): (c: nat)
    ensures 5 * c - 5 < 2 * words <= 5 * c
  {
    (2 * words + 4) / 5
  }

  /** The composite duration: the spoken time clamped to [15, 60] seconds,
      or 30 when the script has no words. */
  function CompositeDuration(words: nat): (d: nat)
    ensures 15 <= d <= 60
    ensures words == 0 ==> d == 30
    ensures words > 0 && SpokenSeconds(words) <= 15 ==> d == 15
    ensures words > 0 && 15 <= SpokenSeconds(words) <= 60 ==> d == SpokenSeconds(words)
    ensures words > 0 && SpokenSeconds(words) >= 60 ==> d == 60
  {
    if words == 0 then 30
    else
      var c := SpokenSeconds(words);
      if c < 15 then 15 else if c > 60 then 60 else c
  }

  /** More words never give a shorter composite, once there are any. */
  lemma CompositeDurationMonotone(w1: nat, w2: nat)
    requires 0 < w1 <= w2
    ensures CompositeDuration(w1) <= CompositeDuration(w2)
  {
  }

  /** The record a composite gets while its submit is in flight. */
  function LoadingComposite(slot: Slot): Composite {
    Composite(slot, None, JobLoading, None, None)
  }

  function WithoutSlot(comps: seq<Composite>, slot: Slot): (r: seq<Composite>)
    ensures forall c :: c in r <==> c in comps && c.slot != slot
    ensures |r| <= |comps|
    ensures IsOrderedSub(r, comps)
  {
    if comps == [] then []
    else if comps[0].slot == slot then WithoutSlot(comps[1..], slot)
    else [comps[0]] + WithoutSlot(comps[1..], slot)
  }

  /** `r` is `s` with some records left out, in order. */
  predicate IsOrderedSub(r: seq<Composite>, s: seq<Composite>) {
    if r == [] then true
    else if s == [] then false
    else if r[0] == s[0] then IsOrderedSub(r[1..], s[1..])
    else IsOrderedSub(r, s[1..])
  }

  /** Marking a slot: its old records are dropped and a 'loading' record
      for it is appended. */
  function MarkComposite(comps: seq<Composite>, slot: Slot): (r: seq<Composite>)
    ensures r == WithoutSlot(comps, slot) + [LoadingComposite(slot)]
  {
    WithoutSlot(comps, slot) + [LoadingComposite(slot)]
  }

  /** Updating the records of one slot, leaving the others alone. */
  function UpdateSlot(comps: seq<Composite>, slot: Slot, renderId: Option<string>, status: JobStatus, error: Option<string>, setId: bool): (r: seq<Composite>)
    ensures |r| == |comps|
    ensures forall i :: 0 <= i < |comps| ==> r[i].slot == comps[i].slot
    ensures forall i :: 0 <= i < |comps| && comps[i].slot != slot ==> r[i] == comps[i]
    ensures forall i :: 0 <= i < |comps| && comps[i].slot == slot ==>
              r[i] == (if setId then comps[i].(renderId := renderId, status := status)
                       else comps[i].(status := status, error := error))
  {
    seq(|comps|, i requires 0 <= i < |comps| =>
      if comps[i].slot != slot then comps[i]
      else if setId then comps[i].(renderId := renderId, status := status)
      else comps[i].(status := status, error := error))
  }

  /** Folding the composite submit's outcome in: the slot's record takes the
      render id and 'pending', or 'error' with the message. */
  function CompleteComposite(comps: seq<Composite>, slot: Slot, outcome: Response<Option<string>>): (r: seq<Composite>)
    ensures |r| == |comps|
    ensures forall i :: 0 <= i < |comps| ==> r[i].slot == comps[i].slot
    ensures forall i :: 0 <= i < |comps| && comps[i].slot != slot ==> r[i] == comps[i]
    ensures outcome.OkBody? ==> forall i :: 0 <= i < |comps| && comps[i].slot == slot ==>
              r[i] == comps[i].(renderId := outcome.body, status := Reported(Pending))
    ensures !outcome.OkBody? ==> forall i :: 0 <= i < |comps| && comps[i].slot == slot ==>
              r[i] == comps[i].(status := Reported(Error), error := Some(ErrorMessage(outcome)))
  {
    if outcome.OkBody? then UpdateSlot(comps, slot, outcome.body, Reported(Pending), None, true)
    else UpdateSlot(comps, slot, None, Reported(Error), Some(ErrorMessage(outcome)), false)
  }

  predicate CompositePending(c: Composite) {
    c.status == Reported(Pending) && Truthy(c.renderId)
  }

  /** The render ids one composite poll tick asks about, in list order. */
  function PendingRenderIds(comps: seq<Composite>): (ids: seq<string>)
    ensures |ids| <= |comps|
    ensures forall id :: id in ids <==> exists i :: 0 <= i < |comps| && CompositePending(comps[i]) && comps[i].renderId == Some(id)
  {
    if comps == [] then []
    else
      var rest := PendingRenderIds(comps[1..]);
      assert forall i :: 1 <= i < |comps| ==> comps[i] == comps[1..][i - 1];
      if CompositePending(comps[0]) then [comps[0].renderId.value] + rest else rest
  }

  /** One reply of a composite poll tick: the records with that render id
      take the reply's status, url and error unless the fetch threw or the
      status is still 'pending'; slots never change. */
  function ApplyCompositeReply(comps: seq<Composite>, renderId: string, reply: PollReply): (r: seq<Composite>)
    ensures |r| == |comps|
    ensures reply.PollThrown? || reply.status == Some(Pending) ==> r == comps
    ensures forall i :: 0 <= i < |comps| ==> r[i].slot == comps[i].slot && r[i].renderId == comps[i].renderId
    ensures forall i :: 0 <= i < |comps| && comps[i].renderId != Some(renderId) ==> r[i] == comps[i]
    ensures reply.PollBody? && reply.status != Some(Pending) ==>
              forall i :: 0 <= i < |comps| && comps[i].renderId == Some(renderId) ==>
                r[i] == comps[i].(status := ReplyStatus(reply.status), videoUrl := reply.videoUrl, error := reply.error)
  {
    if reply.PollThrown? || reply.status == Some(Pending) then comps
    else
      seq(|comps|, i requires 0 <= i < |comps| =>
        if comps[i].renderId == Some(renderId)
        then comps[i].(status := ReplyStatus(reply.status), videoUrl := reply.videoUrl, error := reply.error)
        else comps[i])
  }

  function ApplyCompositeReplies(comps: seq<Composite>, ids: seq<string>, replies: seq<PollReply>): seq<Composite>
    requires |replies| == |ids|
  {
    if ids == [] then comps
    else
      var n := |ids| - 1;
      ApplyCompositeReply(ApplyCompositeReplies(comps, ids[..n], replies[..n]), ids[n], replies[n])
  }

  /** Lists with the same slots, position by position. */
  predicate SameSlots(r: seq<Composite>, comps: seq<Composite>) {
    |r| == |comps| && forall i :: 0 <= i < |comps| ==> r[i].slot == comps[i].slot
  }

  lemma SameSlotsKeepInvariant(r: seq<Composite>, comps: seq<Composite>)
    requires SameSlots(r, comps) && AtMostOnePerSlot(comps)
    ensures AtMostOnePerSlot(r)
  {
  }

  /** A composite poll tick keeps every slot, so it keeps the invariant. */
  lemma {:induction false} CompositeTickSlots(comps: seq<Composite>, ids: seq<string>, replies: seq<PollReply>)
    requires |replies| == |ids|
    ensures SameSlots(ApplyCompositeReplies(comps, ids, replies), comps)
  {
    if ids != [] {
      var n := |ids| - 1;
      CompositeTickSlots(comps, ids[..n], replies[..n]);
    }
  }

  /** Marking keeps at most one record per slot; afterwards the slot's
      record is the new 'loading' one and the other slot's record is the
      one it had. */
  lemma MarkCompositeSlots(comps: seq<Composite>, slot: Slot)
    requires AtMostOnePerSlot(comps)
    ensures AtMostOnePerSlot(MarkComposite(comps, slot))
    ensures ForSlot(MarkComposite(comps, slot), slot) == Some(LoadingComposite(slot))
    ensures ForSlot(MarkComposite(comps, slot), Other(slot)) == ForSlot(comps, Other(slot))
  {
    MarkUnique(comps, slot);
    MarkForSlot(comps, slot);
    MarkForOther(comps, slot);
  }

  lemma MarkUnique(comps: seq<Composite>, slot: Slot)
    requires AtMostOnePerSlot(comps)
    ensures AtMostOnePerSlot(WithoutSlot(comps, slot) + [LoadingComposite(slot)])
  {
    var rest := WithoutSlot(comps, slot);
    var r := rest + [LoadingComposite(slot)];
    OrderedSubUnique(rest, comps);
    forall i, j | 0 <= i < j < |r| ensures r[i].slot != r[j].slot {
      if j == |r| - 1 {
        assert r[i] == rest[i];
        assert r[i] in rest;
      } else {
        assert r[i] == rest[i] && r[j] == rest[j];
      }
    }
  }

  lemma MarkForSlot(comps: seq<Composite>, slot: Slot)
    ensures ForSlot(WithoutSlot(comps, slot) + [LoadingComposite(slot)], slot) == Some(LoadingComposite(slot))
  {
    var rest := WithoutSlot(comps, slot);
    var r := rest + [LoadingComposite(slot)];
    forall i | 0 <= i < |rest| ensures r[i].slot != slot {
      assert r[i] == rest[i];
      assert rest[i] in rest;
    }
    ForSlotLast(rest, LoadingComposite(slot));
  }

  lemma {:induction false} ForSlotLast(a: seq<Composite>, c: Composite)
    requires forall i :: 0 <= i < |a| ==> a[i].slot != c.slot
    ensures ForSlot(a + [c], c.slot) == Some(c)
  {
    if a != [] {
      assert (a + [c])[1..] == a[1..] + [c];
      ForSlotLast(a[1..], c);
    }
  }

  lemma MarkForOther(comps: seq<Composite>, slot: Slot)
    ensures ForSlot(WithoutSlot(comps, slot) + [LoadingComposite(slot)], Other(slot)) == ForSlot(comps, Other(slot))
  {
    var rest := WithoutSlot(comps, slot);
    ForSlotOther(comps, slot);
    var o := Other(slot);
    if ForSlot(rest, o).Some? {
      ForSlotPrefix(rest, [LoadingComposite(slot)], o);
    } else {
      ForSlotSkip(rest, LoadingComposite(slot), o);
    }
  }

  lemma {:induction false} OrderedSubUnique(r: seq<Composite>, s: seq<Composite>)
    requires IsOrderedSub(r, s) && AtMostOnePerSlot(s)
    ensures AtMostOnePerSlot(r)
    decreases |s|
  {
    if r != [] && s != [] {
      if r[0] == s[0] {
        OrderedSubUnique(r[1..], s[1..]);
        OrderedSubIn(r[1..], s[1..]);
        forall j | 0 < j < |r| ensures r[0].slot != r[j].slot {
          assert r[j] == r[1..][j - 1];
          assert r[j] in s[1..];
        }
        forall i, j | 0 <= i < j < |r| ensures r[i].slot != r[j].slot {
          if i > 0 {
            assert r[i] == r[1..][i - 1] && r[j] == r[1..][j - 1];
          }
        }
      } else {
        OrderedSubUnique(r, s[1..]);
      }
    }
  }

  lemma {:induction false} OrderedSubIn(r: seq<Composite>, s: seq<Composite>)
    requires IsOrderedSub(r, s)
    ensures forall c :: c in r ==> c in s
    decreases |s|
  {
    if r != [] && s != [] {
      if r[0] == s[0] {
        OrderedSubIn(r[1..], s[1..]);
        assert forall c :: c in r ==> c == r[0] || c in r[1..];
      } else {
        OrderedSubIn(r, s[1..]);
      }
    }
  }

  /** Dropping one slot's records does not change the other slot's first record. */
  lemma {:induction false} ForSlotOther(comps: seq<Composite>, slot: Slot)
    ensures ForSlot(WithoutSlot(comps, slot), Other(slot)) == ForSlot(comps, Other(slot))
  {
    if comps != [] && comps[0].slot == slot {
      ForSlotOther(comps[1..], slot);
    } else if comps != [] {
      ForSlotOther(comps[1..], slot);
      assert ([comps[0]] + WithoutSlot(comps[1..], slot))[1..] == WithoutSlot(comps[1..], slot);
    }
  }

  lemma {:induction false} ForSlotPrefix(a: seq<Composite>, b: seq<Composite>, slot: Slot)
    requires ForSlot(a, slot).Some?
    ensures ForSlot(a + b, slot) == ForSlot(a, slot)
  {
    if a[0].slot != slot {
      assert (a + b)[1..] == a[1..] + b;
      ForSlotPrefix(a[1..], b, slot);
    }
  }

  lemma {:induction false} ForSlotSkip(a: seq<Composite>, c: Composite, slot: Slot)
    requires ForSlot(a, slot).None? && c.slot != slot
    ensures ForSlot(a + [c], slot).None?
  {
    assert forall i :: 0 <= i < |a + [c]| ==> (a + [c])[i].slot != slot by {
      forall i | 0 <= i < |a + [c]| ensures (a + [c])[i].slot != slot {
        if i < |a| { assert (a + [c])[i] == a[i]; }
      }
    }
  }

  // ---------------------------------------------------------------- progress

  /** A step's dot in the progress bar. */
  datatype StepIndicator = StepDone | StepActive | StepError | StepIdle | StepLocked

  predicate AnyCompositeSucceeded(comps: seq<Composite>) {
    exists i :: 0 <= i < |comps| && comps[i].status == Reported(Succeeded)
  }

  predicate AnyCompositeBusy(comps: seq<Composite>) {
    exists i :: 0 <= i < |comps| && (comps[i].status == Reported(Pending) || comps[i].status == JobLoading)
  }

  /** `stepStatus(n)`; no indicator for a number outside 1..4. */
  function StepStatus(s2: Step2, s3: Step3, s4: Step4, n: int): (r: Option<StepIndicator>)
    ensures r.Some? <==> 1 <= n <= 4
    ensures n == 1 ==> r == Some(StepDone)
    ensures n == 2 ==> (r == Some(StepDone) <==> s2.status == StageDone)
    ensures n == 2 ==> (r == Some(StepActive) <==> s2.status == StageLoading)
    ensures n == 2 ==> (r == Some(StepError) <==> s2.status == StageError)
    ensures n == 2 ==> (r == Some(StepIdle) <==> s2.status == StageIdle)
    ensures n == 2 ==> r != Some(StepLocked)
    ensures n == 3 ==> (r == Some(StepDone) <==> HasSucceeded(s3.backgrounds))
    ensures n == 3 ==> (r == Some(StepActive) <==> !HasSucceeded(s3.backgrounds) && s3.status == StageLoading)
    ensures n == 3 ==> (r == Some(StepError) <==> !HasSucceeded(s3.backgrounds) && s3.status == StageError)
    ensures n == 3 ==> (r == Some(StepIdle) <==>
                          !HasSucceeded(s3.backgrounds) && (s3.status == StageIdle || s3.status == StageDone))
    ensures n == 3 ==> r != Some(StepLocked)
    ensures n == 4 ==> (r == Some(StepDone) <==> AnyCompositeSucceeded(s4.composites))
    ensures n == 4 ==> (r == Some(StepActive) <==>
                          !AnyCompositeSucceeded(s4.composites) && AnyCompositeBusy(s4.composites))
    ensures n == 4 ==> (r == Some(StepLocked) <==>
                          !AnyCompositeSucceeded(s4.composites) && !AnyCompositeBusy(s4.composites) && !Step4Unlocked(s2, s3))
    ensures n == 4 ==> (r == Some(StepIdle) <==>
                          !AnyCompositeSucceeded(s4.composites) && !AnyCompositeBusy(s4.composites) && Step4Unlocked(s2, s3))
    ensures n == 4 ==> r != Some(StepError)
  {
    if n == 1 then Some(StepDone)
    else if n == 2 then
      Some(match s2.status
           case StageDone => StepDone
           case StageLoading => StepActive
           case StageError => StepError
           case StageIdle => StepIdle)
    else if n == 3 then
      if HasSucceeded(s3.backgrounds) then Some(StepDone)
      else if s3.status == StageLoading then Some(StepActive)
      else if s3.status == StageError then Some(StepError)
      else
        assert s3.status.StageIdle? || s3.status.StageDone?;
        Some(StepIdle)
    else if n == 4 then
      if AnyCompositeSucceeded(s4.composites) then Some(StepDone)
      else if AnyCompositeBusy(s4.composites) then Some(StepActive)
      else if !Step4Unlocked(s2, s3) then Some(StepLocked)
      else Some(StepIdle)
    else None
  }

  /** Step 4 is unlocked exactly when steps 2 and 3 both show done. */
  lemma UnlockedIffEarlierDone(s2: Step2, s3: Step3, s4: Step4)
    ensures Step4Unlocked(s2, s3) <==>
              StepStatus(s2, s3, s4, 2) == Some(StepDone) && StepStatus(s2, s3, s4, 3) == Some(StepDone)
  {
  }

  /** A freshly reset pipeline shows step 1 done, steps 2 and 3 idle and
      step 4 locked. */
  lemma InitialProgress(n: int)
    requires 1 <= n <= 4
    ensures StepStatus(INITIAL_STEP2, INITIAL_STEP3, INITIAL_STEP4, n)
            == Some(if n == 1 then StepDone else if n == 4 then StepLocked else StepIdle)
  {
  }
}
