/** The three fal.ai text-to-video models (Kling 2.6 Pro, Pika 2.2 and
    Hailuo 02 Pro): submitting a concept and polling a request. */
module KlingClient {
  import opened Wrappers
  import opened ProviderStatus

  datatype FalModel = Kling | Pika | Hailuo

  /** The `platform` and `model` labels each model's cards carry. */
  function Platform(m: FalModel): string {
    match m
    case Kling => "fal.ai"
    case Pika => "Pika"
    case Hailuo => "Hailuo"
  }

  function ModelName(m: FalModel): string {
    match m
    case Kling => "kling-2.6-pro"
    case Pika => "pika-2.2"
    case Hailuo => "hailuo-02-pro"
  }

  /** `submit_kling_task`, `submit_pika_task`, `submit_hailuo_task`: the
      request id of the queued job, or the exception text. */
  function SubmitFal(m: FalModel, concept: Concept, call: SubmitCall): (r: VideoRecord)
    ensures r.concept == concept && r.platform == Platform(m) && r.model == ModelName(m)
    ensures r.videoUrl == None
    ensures call.Submitted? ==> r.status == Pending && r.taskId == call.jobId
    ensures call.Raised? ==> r.status == Error && r.taskId == None && r.error == Some(call.message)
  {
    SubmitRecord(concept, Platform(m), ModelName(m), call)
  }

  /** The `video` entry of a result: a dict with an optional `url`, or some
      other value. */
  datatype VideoEntry = VideoDict(url: Option<string>) | VideoOther

  /** A finished job's result: a dict with optional `video` and `videos`
      entries (each element of `videos` a dict with an optional `url`), or
      some other value. */
  datatype FalResult = ResultDict(video: Option<VideoEntry>, videos: Option<seq<Option<string>>>) | ResultOther

  /** What polling the job returned: the SDK status object's class name and
      `str()` text together with the job's result (read only when the class
      is `Completed`), or the exception a status or result call raised. */
  datatype FalPoll = StatusObject(typeName: string, text: string, result: FalResult) | PollRaised(message: string)

  /** The video URL of a finished job: `video.url` when `video` is a dict,
      otherwise the first entry's `url` when `videos` is non-empty. */
  function ResultUrl(r: FalResult): (url: Option<string>)
    ensures r.ResultOther? ==> url == None
    ensures r.ResultDict? && r.video.Some? && r.video.value.VideoDict? ==> url == r.video.value.url
    ensures r.ResultDict? && !(r.video.Some? && r.video.value.VideoDict?) ==>
      url == (if r.videos.Some? && |r.videos.value| > 0 then r.videos.value[0] else None)
  {
    match r
    case ResultOther => None
    case ResultDict(video, videos) =>
      if video.Some? && video.value.VideoDict? then video.value.url
      else if videos.Some? && |videos.value| > 0 then videos.value[0]
      else None
  }

  /** `poll_kling_task`, `poll_pika_task`, `poll_hailuo_task`: the three share
      one mapping. The result carries the request id; `Completed` is
      'succeeded' with the result's URL, `Failed` is 'failed' with the status
      text, an exception is 'error' with its text, anything else (queued, in
      progress) is 'pending'. Only a success carries a URL. */
  function PollFal(requestId: string, p: FalPoll): (r: PollResult)
    ensures r.taskId == requestId
    ensures r.status != Cancelled
    ensures r.status == Succeeded <==> p.StatusObject? && p.typeName == "Completed"
    ensures r.status == Failed <==> p.StatusObject? && p.typeName == "Failed"
    ensures r.status == Error <==> p.PollRaised?
    ensures r.status == Succeeded ==> r.videoUrl == ResultUrl(p.result) && r.error == None
    ensures r.status != Succeeded ==> r.videoUrl == None
    ensures r.status == Failed ==> r.error == Some(p.text)
    ensures r.status == Error ==> r.error == Some(p.message)
    ensures r.status == Pending ==> r.error == None
  {
    match p
    case PollRaised(msg) => PollResult(requestId, Error, None, Some(msg))
    case StatusObject(name, text, result) =>
      if name == "Completed" then PollResult(requestId, Succeeded, ResultUrl(result), None)
      else if name == "Failed" then PollResult(requestId, Failed, None, Some(text))
      else PollResult(requestId, Pending, None, None)
  }
}
