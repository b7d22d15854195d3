/** The single-page Instagram flow: search, show the posts and the
    analysis, generate videos from the selected prompt, and reset. */
module App {
  import opened Wrappers
  import opened Text
  import opened ProviderStatus
  import opened PipelineState
  import opened BackendApi
  import opened ApifyClient
  import opened SearchForm

  /** The body of a generate request; an empty prompt is left out. */
  datatype GenerateRequest<A> = GenerateRequest(analysis: A, hashtags: seq<string>, selectedPrompt: Option<string>)

  /** What the browser sees of a backend route's result: the body, or the
      error's status code with its detail. */
  function ReplyOf<T>(r: Result<T, HttpError>): (reply: Response<T>)
    ensures r.Ok? ==> reply == OkBody(r.value)
    ensures r.Err? ==> reply == NotOk(Some(r.error.detail), r.error.code)
  {
    match r
    case Ok(v) => OkBody(v)
    case Err(e) => NotOk(Some(e.detail), e.code)
  }

  class AppView<A> {
    var status: Stage
    var errorMsg: string
    var posts: seq<PostSummary>
    var analysis: Option<A>
    var lastQuery: Option<Query>
    var videoStatus: Stage
    var videoError: string
    var videos: seq<VideoRecord>
    var selectedPrompt: Option<string>
    var hasGeneratedOnce: bool

    /** The page's first state, to which a reset returns. */
    predicate Initial()
      reads this
    {
      status == StageIdle && errorMsg == "" && posts == [] && analysis == None && lastQuery == None
      && videoStatus == StageIdle && videoError == "" && videos == [] && selectedPrompt == None
      && !hasGeneratedOnce
    }

    /** A query is kept exactly while the page is not idle; an analysis
        exactly while it shows results; video work only happens on a
        results page, and a past generation is remembered only there. */
    predicate Valid()
      reads this
    {
      (lastQuery.Some? <==> status != StageIdle)
      && (analysis.Some? <==> status == StageDone)
      && (videoStatus != StageIdle ==> status == StageDone)
      && (hasGeneratedOnce ==> status == StageDone)
    }

    constructor()
      ensures Initial() && Valid()
    {
      status := StageIdle;
      errorMsg := "";
      posts := [];
      analysis := None;
      lastQuery := None;
      videoStatus := StageIdle;
      videoError := "";
      videos := [];
      selectedPrompt := None;
      hasGeneratedOnce := false;
    }

    /** Reset is offered exactly when the page is not idle. */
    predicate ResetOffered()
      reads this
    {
      status != StageIdle
    }

    method Reset()
      modifies this
      ensures Initial() && Valid()
    {
      status := StageIdle;
      errorMsg := "";
      posts := [];
      analysis := None;
      lastQuery := None;
      videoStatus := StageIdle;
      videos := [];
      videoError := "";
      selectedPrompt := None;
      hasGeneratedOnce := false;
    }

    /** A search starts: loading with the query kept, and the posts, the
        analysis and every video field cleared. */
    method BeginSearch(q: Query)
      modifies this
      ensures status == StageLoading && lastQuery == Some(q)
      ensures errorMsg == "" && posts == [] && analysis == None
      ensures videoStatus == StageIdle && videoError == "" && videos == [] && selectedPrompt == None
      ensures !hasGeneratedOnce
      ensures Valid()
    {
      status := StageLoading;
      errorMsg := "";
      posts := [];
      analysis := None;
      lastQuery := Some(q);
      videoStatus := StageIdle;
      videos := [];
      videoError := "";
      selectedPrompt := None;
      hasGeneratedOnce := false;
    }

    /** The search reply: the posts and the analysis on success, the error
        text otherwise. */
    method CompleteSearch(reply: Response<AnalyzeResponse<A>>)
      requires status == StageLoading && Valid()
      modifies this
      ensures reply.OkBody? ==> status == StageDone && posts == reply.body.posts
                                && analysis == Some(reply.body.analysis) && errorMsg == old(errorMsg)
      ensures !reply.OkBody? ==> status == StageError && errorMsg == ErrorMessage(reply)
                                 && posts == old(posts) && analysis == old(analysis)
      ensures lastQuery == old(lastQuery) && videoStatus == old(videoStatus) && videoError == old(videoError)
      ensures videos == old(videos) && selectedPrompt == old(selectedPrompt)
      ensures hasGeneratedOnce == old(hasGeneratedOnce)
      ensures Valid()
    {
      if reply.OkBody? {
        posts := reply.body.posts;
        analysis := Some(reply.body.analysis);
        status := StageDone;
      } else {
        errorMsg := ErrorMessage(reply);
        status := StageError;
      }
    }

    /** The prompt block reports a selection. */
    method SetSelectedPrompt(prompt: string)
      modifies this
      ensures selectedPrompt == Some(prompt)
      ensures status == old(status) && analysis == old(analysis) && lastQuery == old(lastQuery)
      ensures videoStatus == old(videoStatus) && videos == old(videos) && videoError == old(videoError)
      ensures posts == old(posts) && errorMsg == old(errorMsg) && hasGeneratedOnce == old(hasGeneratedOnce)
    {
      selectedPrompt := Some(prompt);
    }

    /** The generate button is enabled exactly with a selected prompt and no
        generation under way. */
    predicate GenerateEnabled()
      reads this
    {
      Truthy(selectedPrompt) && videoStatus != StageLoading
    }

    /** The generate handler: nothing without an analysis and a query;
        otherwise loading with no error and no videos, and the request. */
    method BeginGenerate() returns (req: Option<GenerateRequest<A>>)
      modifies this
      ensures req.None? <==> old(analysis).None? || old(lastQuery).None?
      ensures req.None? ==> videoStatus == old(videoStatus) && videoError == old(videoError) && videos == old(videos)
      ensures req.Some? ==> videoStatus == StageLoading && videoError == "" && videos == []
                            && req.value == GenerateRequest(old(analysis).value, old(lastQuery).value.hashtags,
                                                            if Truthy(old(selectedPrompt)) then old(selectedPrompt) else None)
      ensures status == old(status) && analysis == old(analysis) && lastQuery == old(lastQuery)
      ensures posts == old(posts) && errorMsg == old(errorMsg) && selectedPrompt == old(selectedPrompt)
      ensures hasGeneratedOnce == old(hasGeneratedOnce)
      ensures old(Valid()) ==> Valid()
    {
      if analysis.None? || lastQuery.None? {
        req := None;
        return;
      }
      videoStatus := StageLoading;
      videoError := "";
      videos := [];
      req := Some(GenerateRequest(analysis.value, lastQuery.value.hashtags,
                                  if Truthy(selectedPrompt) then selectedPrompt else None));
    }

    /** The generate reply: the videos and a remembered generation on
        success, the error text otherwise, with the memory of an earlier
        generation untouched. */
    method CompleteGenerate(reply: Response<seq<VideoRecord>>)
      requires videoStatus == StageLoading && Valid()
      modifies this
      ensures reply.OkBody? ==> videoStatus == StageDone && videos == reply.body && hasGeneratedOnce
                                && videoError == old(videoError)
      ensures !reply.OkBody? ==> videoStatus == StageError && videoError == ErrorMessage(reply)
                                 && videos == old(videos) && hasGeneratedOnce == old(hasGeneratedOnce)
      ensures status == old(status) && analysis == old(analysis) && lastQuery == old(lastQuery)
      ensures posts == old(posts) && errorMsg == old(errorMsg) && selectedPrompt == old(selectedPrompt)
      ensures Valid()
    {
      if reply.OkBody? {
        videos := reply.body;
        videoStatus := StageDone;
        hasGeneratedOnce := true;
      } else {
        videoError := ErrorMessage(reply);
        videoStatus := StageError;
      }
    }

    /** An enabled generate button on the results page always sends a request. */
    method ClickGenerate() returns (req: Option<GenerateRequest<A>>)
      requires Valid() && status == StageDone && GenerateEnabled()
      modifies this
      ensures req.Some? && req.value.selectedPrompt == old(selectedPrompt)
      ensures videoStatus == StageLoading && Valid()
    {
      req := BeginGenerate();
    }
  }

  /** A search on hashtags that scrape nothing ends on the error screen with
      the backend's no-posts text. */
  method EmptyScrapeShowsNoPosts<A>(app: AppView<A>, q: Query, analysis: Result<A, string>)
    modifies app
    ensures app.status == StageError && app.errorMsg == NO_POSTS
    ensures app.posts == [] && app.analysis == None && app.lastQuery == Some(q)
  {
    app.BeginSearch(q);
    var backend := InstagramAnalyze(Ok([]), analysis);
    app.CompleteSearch(ReplyOf(backend));
  }

  /** The generate button's label. */
  function VideoButtonLabel(videoStatus: Stage, hasGeneratedOnce: bool): (l: GenerateLabel)
    ensures l == Generating <==> videoStatus == StageLoading
    ensures l == Regenerate <==> videoStatus != StageLoading && hasGeneratedOnce
    ensures l == FirstRun <==> videoStatus != StageLoading && !hasGeneratedOnce
  {
    if videoStatus == StageLoading then Generating else if hasGeneratedOnce then Regenerate else FirstRun
  }
}
