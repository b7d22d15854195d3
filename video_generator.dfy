/** The video fan-out: which provider jobs a concept is submitted to, the
    two RunwayML submitters and polling a RunwayML task. */
module VideoGenerator {
  import opened Wrappers
  import opened ProviderStatus
  import KlingClient
  import LumaClient

  /** A background-prompt proposal `{label, description, prompt}` (the label is `title` here). */
  datatype Proposal = Proposal(title: string, description: string, prompt: string)

  /** The platform label the generation prompts name. */
  function PlatformLabel(platform: string): (name: string)
    ensures name == "TikTok" <==> platform == "tiktok"
    ensures name == "TikTok" || name == "Instagram"
  {
    if platform == "tiktok" then "TikTok" else "Instagram"
  }

  datatype RunwayModel = Veo31 | Gen45

  function RunwayModelName(m: RunwayModel): string {
    match m
    case Veo31 => "veo3.1"
    case Gen45 => "gen4.5"
  }

  /** `_submit_runway_task` and `_submit_runway_task_gen4`. */
  function SubmitRunway(m: RunwayModel, concept: Concept, call: SubmitCall): (r: VideoRecord)
    ensures r.concept == concept && r.platform == "RunwayML" && r.model == RunwayModelName(m)
    ensures r.videoUrl == None
    ensures call.Submitted? ==> r.status == Pending && r.taskId == call.jobId
    ensures call.Raised? ==> r.status == Error && r.taskId == None && r.error == Some(call.message)
  {
    SubmitRecord(concept, "RunwayML", RunwayModelName(m), call)
  }

  /** A finished task's `output`: absent or empty, a list of URLs, or a single URL. */
  datatype RunwayOutput = NoOutput | OutputList(urls: seq<string>) | OutputUrl(url: string)

  /** A retrieved RunwayML task; `failure` is `None` when the task has no
      such attribute. Retrieval errors are not caught here. */
  datatype RunwayTask = RunwayTask(status: string, output: RunwayOutput, failure: Option<string>)

  /** `poll_runway_task`: "SUCCEEDED" is 'succeeded' with the first output
      URL, "FAILED" and "CANCELLED" are 'failed' and 'cancelled' with the
      failure (or "Generation failed"), anything else (PENDING, RUNNING) is
      'pending'. */
  function PollRunway(taskId: string, t: RunwayTask): (r: PollResult)
    ensures r.taskId == taskId
    ensures r.status != Error
    ensures r.status == Succeeded <==> t.status == "SUCCEEDED"
    ensures r.status == Failed <==> t.status == "FAILED"
    ensures r.status == Cancelled <==> t.status == "CANCELLED"
    ensures r.status == Succeeded ==> r.videoUrl == match t.output
                                                   case NoOutput => None
                                                   case OutputList(urls) => if urls == [] then None else Some(urls[0])
                                                   case OutputUrl(url) => if url == "" then None else Some(url)
    ensures r.status != Succeeded ==> r.videoUrl == None
    ensures r.status == Failed || r.status == Cancelled ==> r.error == Some(t.failure.GetOr("Generation failed"))
    ensures r.status == Succeeded || r.status == Pending ==> r.error == None
  {
    if t.status == "SUCCEEDED" then
      var url := match t.output
                 case NoOutput => None
                 case OutputList(urls) => if urls == [] then None else Some(urls[0])
                 case OutputUrl(url) => if url == "" then None else Some(url);
      PollResult(taskId, Succeeded, url, None)
    else if t.status == "FAILED" then PollResult(taskId, Failed, None, Some(t.failure.GetOr("Generation failed")))
    else if t.status == "CANCELLED" then PollResult(taskId, Cancelled, None, Some(t.failure.GetOr("Generation failed")))
    else PollResult(taskId, Pending, None, None)
  }

  /** The provider jobs of the fan-out. */
  datatype Job = RunwayJob(runway: RunwayModel) | FalJob(fal: KlingClient.FalModel) | LumaJob

  /** Runway jobs come first, then fal.ai, then Luma. */
  function Rank(j: Job): nat {
    match j
    case RunwayJob(_) => 0
    case FalJob(_) => 1
    case LumaJob => 2
  }

  /** Submitting one job. */
  function SubmitJob(j: Job, concept: Concept, call: SubmitCall): (r: VideoRecord)
    ensures r.concept == concept && r.videoUrl == None
    ensures r.status == (if call.Submitted? then Pending else Error)
  {
    match j
    case RunwayJob(m) => SubmitRunway(m, concept, call)
    case FalJob(m) => KlingClient.SubmitFal(m, concept, call)
    case LumaJob => LumaClient.SubmitLuma(concept, call)
  }

  function RunwayJobs(key: string): seq<Job> {
    if key != "" then [RunwayJob(Veo31), RunwayJob(Gen45)] else []
  }

  function FalJobs(key: string): seq<Job> {
    if key != "" then [FalJob(KlingClient.Kling), FalJob(KlingClient.Pika), FalJob(KlingClient.Hailuo)] else []
  }

  function LumaJobs(key: string): seq<Job> {
    if key != "" then [LumaJob] else []
  }

  /** The job list `generate_videos` builds, one provider group after another. */
  method PlanJobs(runwayKey: string, falKey: string, lumaKey: string) returns (jobs: seq<Job>)
    ensures jobs == RunwayJobs(runwayKey) + FalJobs(falKey) + LumaJobs(lumaKey)
  {
    jobs := [];
    if runwayKey != "" {
      jobs := jobs + [RunwayJob(Veo31), RunwayJob(Gen45)];
    }
    if falKey != "" {
      jobs := jobs + [FalJob(KlingClient.Kling), FalJob(KlingClient.Pika), FalJob(KlingClient.Hailuo)];
    }
    if lumaKey != "" {
      jobs := jobs + [LumaJob];
    }
  }

  /** The plan: both Runway models exactly when there is a Runway key, the
      three fal.ai models exactly when there is a fal.ai key, Luma exactly
      when there is a Luma key; no job twice, grouped by provider. */
  lemma PlanShape(runwayKey: string, falKey: string, lumaKey: string)
    ensures var jobs := RunwayJobs(runwayKey) + FalJobs(falKey) + LumaJobs(lumaKey);
      && |jobs| == (if runwayKey != "" then 2 else 0) + (if falKey != "" then 3 else 0) + (if lumaKey != "" then 1 else 0)
      && Grouped(jobs)
      && (forall m :: RunwayJob(m) in jobs <==> runwayKey != "")
      && (forall m :: FalJob(m) in jobs <==> falKey != "")
      && (LumaJob in jobs <==> lumaKey != "")
  {
    PlanGrouped(runwayKey, falKey, lumaKey);
    PlanMembers(runwayKey, falKey, lumaKey);
  }

  lemma PlanGrouped(runwayKey: string, falKey: string, lumaKey: string)
    ensures Grouped(RunwayJobs(runwayKey) + FalJobs(falKey) + LumaJobs(lumaKey))
  {
    var r, f, l := RunwayJobs(runwayKey), FalJobs(falKey), LumaJobs(lumaKey);
    assert forall x :: x in r ==> x.RunwayJob?;
    assert forall x :: x in f ==> x.FalJob?;
    assert forall x :: x in l ==> x.LumaJob?;
    GroupedConcat(r, f);
    assert forall x :: x in r + f ==> x in r || x in f;
    GroupedConcat(r + f, l);
  }

  lemma PlanMembers(runwayKey: string, falKey: string, lumaKey: string)
    ensures var jobs := RunwayJobs(runwayKey) + FalJobs(falKey) + LumaJobs(lumaKey);
      && (forall m :: RunwayJob(m) in jobs <==> runwayKey != "")
      && (forall m :: FalJob(m) in jobs <==> falKey != "")
      && (LumaJob in jobs <==> lumaKey != "")
  {
    var r, f, l := RunwayJobs(runwayKey), FalJobs(falKey), LumaJobs(lumaKey);
    var jobs := r + f + l;
    assert forall x :: x in jobs <==> x in r || x in f || x in l;
    forall m: RunwayModel
      ensures RunwayJob(m) in jobs <==> runwayKey != ""
    {
      assert m.Veo31? || m.Gen45?;
    }
    forall m: KlingClient.FalModel
      ensures FalJob(m) in jobs <==> falKey != ""
    {
      assert m.Kling? || m.Pika? || m.Hailuo?;
    }
  }

  /** Ranks never decrease and no job repeats. */
  predicate Grouped(jobs: seq<Job>) {
    forall i, j :: 0 <= i < j < |jobs| ==> Rank(jobs[i]) <= Rank(jobs[j]) && jobs[i] != jobs[j]
  }

  lemma GroupedConcat(a: seq<Job>, b: seq<Job>)
    requires Grouped(a) && Grouped(b)
    requires forall x, y :: x in a && y in b ==> Rank(x) < Rank(y)
    ensures Grouped(a + b)
  {
    var ab := a + b;
    forall i, j | 0 <= i < j < |ab|
      ensures Rank(ab[i]) <= Rank(ab[j]) && ab[i] != ab[j]
    {
      if j < |a| {
        assert ab[i] == a[i] && ab[j] == a[j];
      } else if i >= |a| {
        assert ab[i] == b[i - |a|] && ab[j] == b[j - |a|];
      } else {
        assert ab[i] == a[i] && ab[j] == b[j - |a|];
        assert a[i] in a && b[j - |a|] in b;
      }
    }
  }

  /** `generate_videos` after the concept is generated: one card per planned
      job, in plan order (`asyncio.gather` keeps the submission order), each
      job's card built from that job's own call outcome. */
  method GenerateVideos(runwayKey: string, falKey: string, lumaKey: string, concept: Concept, calls: seq<SubmitCall>)
    returns (jobs: seq<Job>, videos: seq<VideoRecord>)
    requires |calls| == (if runwayKey != "" then 2 else 0) + (if falKey != "" then 3 else 0) + (if lumaKey != "" then 1 else 0)
    ensures jobs == RunwayJobs(runwayKey) + FalJobs(falKey) + LumaJobs(lumaKey)
    ensures |videos| == |calls|
    ensures forall i :: 0 <= i < |videos| ==> videos[i] == SubmitJob(jobs[i], concept, calls[i])
    ensures forall i :: 0 <= i < |videos| ==> videos[i].concept == concept
  {
    jobs := PlanJobs(runwayKey, falKey, lumaKey);
    assert |jobs| == |calls|;
    videos := [];
    for i := 0 to |jobs|
      invariant |videos| == i
      invariant forall k :: 0 <= k < i ==> videos[k] == SubmitJob(jobs[k], concept, calls[k])
    {
      videos := videos + [SubmitJob(jobs[i], concept, calls[i])];
    }
    forall i | 0 <= i < |videos|
      ensures videos[i].concept == concept
    {
      var v := SubmitJob(jobs[i], concept, calls[i]);
      assert videos[i] == v;
    }
  }
}
