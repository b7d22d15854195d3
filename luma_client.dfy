/** Luma Dream Machine (ray-2): submitting a concept and polling a generation. */
module LumaClient {
  import opened Wrappers
  import opened Text
  import opened ProviderStatus

  const PLATFORM: string := "Luma"
  const MODEL: string := "ray-2"

  /** `submit_luma_task`: the generation id, or the exception text. */
  function SubmitLuma(concept: Concept, call: SubmitCall): (r: VideoRecord)
    ensures r.concept == concept && r.platform == "Luma" && r.model == "ray-2"
    ensures r.videoUrl == None
    ensures call.Submitted? ==> r.status == Pending && r.taskId == call.jobId
    ensures call.Raised? ==> r.status == Error && r.taskId == None && r.error == Some(call.message)
  {
    SubmitRecord(concept, PLATFORM, MODEL, call)
  }

  /** A fetched generation: its state, its video asset URL (absent when there
      are no assets) and its failure reason; or the exception the fetch raised. */
  datatype LumaPoll = Generation(state: string, assetVideo: Option<string>, failureReason: Option<string>)
                    | LumaRaised(message: string)

  /** `poll_luma_task`: 'completed' is 'succeeded' with the asset URL when it
      is non-empty, 'failed' is 'failed' with the failure reason or
      "Generation failed", an exception is 'error', every other state
      ('pending', 'dreaming', ...) is 'pending'. */
  function PollLuma(generationId: string, p: LumaPoll): (r: PollResult)
    ensures r.taskId == generationId
    ensures r.status != Cancelled
    ensures r.status == Succeeded <==> p.Generation? && p.state == "completed"
    ensures r.status == Failed <==> p.Generation? && p.state == "failed"
    ensures r.status == Error <==> p.LumaRaised?
    ensures r.status == Succeeded ==> r.videoUrl == (if Truthy(p.assetVideo) then p.assetVideo else None)
    ensures r.status != Succeeded ==> r.videoUrl == None
    ensures r.status == Failed ==> r.error == Some(OrDefault(p.failureReason, "Generation failed")) && r.error.value != ""
    ensures r.status == Error ==> r.error == Some(p.message)
    ensures r.status == Pending || r.status == Succeeded ==> r.error == None
  {
    match p
    case LumaRaised(msg) => PollResult(generationId, Error, None, Some(msg))
    case Generation(state, video, reason) =>
      if state == "completed" then PollResult(generationId, Succeeded, if Truthy(video) then video else None, None)
      else if state == "failed" then PollResult(generationId, Failed, None, Some(OrDefault(reason, "Generation failed")))
      else PollResult(generationId, Pending, None, None)
  }
}
