/** The vocabulary the backend's provider clients share: the normalised job
    status, the video concept a job renders, the video card a submission
    returns and the record a status poll returns. */
module ProviderStatus {
  import opened Wrappers

  /** The normalised status, the strings "succeeded", "failed", "cancelled",
      "pending" and "error". */
  datatype Status = Succeeded | Failed | Cancelled | Pending | Error

  function StatusText(s: Status): (t: string)
    ensures t != ""
  {
    match s
    case Succeeded => "succeeded"
    case Failed => "failed"
    case Cancelled => "cancelled"
    case Pending => "pending"
    case Error => "error"
  }

  /** One `{timestamp, action}` entry of a concept's script outline. */
  datatype OutlineStep = OutlineStep(timestamp: string, action: string)

  /** A video concept from the text-generation collaborator; a missing key
      is the empty string or the empty list. */
  datatype Concept = Concept(
    title: string,
    angle: string,
    hook: string,
    scriptOutline: seq<OutlineStep>,
    runwayPrompt: string,
    hashtags: seq<string>)

  /** A video card `{**concept, task_id, video_url, status, platform, model,
      spoken_script?, error?}`: the concept's own fields are kept and the
      job fields are laid over them. */
  datatype VideoRecord = VideoRecord(
    concept: Concept,
    taskId: Option<string>,
    videoUrl: Option<string>,
    status: Status,
    platform: string,
    model: string,
    spokenScript: Option<string>,
    error: Option<string>)

  /** A poll result `{task_id, status, video_url, error?}`. */
  datatype PollResult = PollResult(
    taskId: string,
    status: Status,
    videoUrl: Option<string>,
    error: Option<string>)

  /** What a provider's submit call did: it returned a job whose id may be
      missing, or it raised an exception with this text (`str(e)`). */
  datatype SubmitCall = Submitted(jobId: Option<string>) | Raised(message: string)

  /** The card every `submit_*` function returns: 'pending' with the job id
      when the call returned, 'error' with no job id and the exception text
      when it raised; the concept, platform and model are kept either way. */
  function SubmitRecord(concept: Concept, platform: string, model: string, call: SubmitCall): (r: VideoRecord)
    ensures r.concept == concept && r.platform == platform && r.model == model
    ensures r.videoUrl == None && r.spokenScript == None
    ensures call.Submitted? ==> r.status == Pending && r.taskId == call.jobId && r.error == None
    ensures call.Raised? ==> r.status == Error && r.taskId == None && r.error == Some(call.message)
  {
    match call
    case Submitted(id) => VideoRecord(concept, id, None, Pending, platform, model, None, None)
    case Raised(msg) => VideoRecord(concept, None, None, Error, platform, model, None, Some(msg))
  }
}
