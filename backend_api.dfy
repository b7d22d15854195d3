/** The two analysis routes of the HTTP API: scrape, reject an empty scrape,
    normalise the raw items into post summaries and attach the analysis. */
module BackendApi {
  import opened Wrappers
  import opened Text
  import opened ApifyClient
  import TikTokClient

  /** A normalised caption is cut to this many characters. */
  const CAPTION_LIMIT: nat := 500
  const PERMALINK_PREFIX: string := "https://www.instagram.com/p/"

  /** The `PostSummary` response model; every field is optional. */
  datatype PostSummary = PostSummary(
    id: Option<string>,
    shortCode: Option<string>,
    postType: Option<string>,
    likesCount: Option<int>,
    commentsCount: Option<int>,
    caption: Option<string>,
    hashtags: Option<seq<string>>,
    displayUrl: Option<string>,
    timestamp: Option<string>,
    url: Option<string>)

  /** An `HTTPException` with its status code and detail text. */
  datatype HttpError = HttpError(code: nat, detail: string)

  /** The `AnalyzeResponse` model; the analysis is whatever the analyzer returned. */
  datatype AnalyzeResponse<A> = AnalyzeResponse(posts: seq<PostSummary>, totalScraped: nat, analysis: A)

  /** The post link: the item's own url, else the permalink built from its
      short code, else none. */
  function PostUrl(p: InstagramPost): (url: Option<string>)
    ensures Truthy(p.url) ==> url == p.url
    ensures !Truthy(p.url) && Truthy(p.shortCode) ==> url == Some(PERMALINK_PREFIX + p.shortCode.value + "/")
    ensures !Truthy(p.url) && !Truthy(p.shortCode) ==> url == None
  {
    Or(p.url, if Truthy(p.shortCode) then Some(PERMALINK_PREFIX + p.shortCode.value + "/") else None)
  }

  /** An Instagram item as a post summary: the scalar fields copied, the
      caption cut to 500 characters (missing is ""), missing hashtags the
      empty list. */
  function NormalizeInstagram(p: InstagramPost): (s: PostSummary)
    ensures s.id == p.id && s.shortCode == p.shortCode && s.postType == p.postType
    ensures s.likesCount == p.likesCount && s.commentsCount == p.commentsCount
    ensures s.caption.Some? && |s.caption.value| <= CAPTION_LIMIT
    ensures s.caption.value == Take(OrDefault(p.caption, ""), CAPTION_LIMIT)
    ensures s.hashtags == Some(p.hashtags.GetOr([]))
    ensures s.displayUrl == p.displayUrl && s.timestamp == p.timestamp
    ensures s.url == PostUrl(p)
  {
    PostSummary(p.id, p.shortCode, p.postType, p.likesCount, p.commentsCount,
                Some(Take(OrDefault(p.caption, ""), CAPTION_LIMIT)), Some(p.hashtags.GetOr([])),
                p.displayUrl, p.timestamp, PostUrl(p))
  }

  /** `_get_cover`: an object's `default`, else a non-empty list's first
      entry, else the `coverUrl` of a `videoMeta` object, else none. */
  function GetCover(p: TikTokClient.TikTokPost): (cover: Option<string>)
    ensures p.covers.CoversDict? ==> cover == p.covers.default
    ensures p.covers.CoversList? && p.covers.items != [] ==> cover == p.covers.items[0]
    ensures !p.covers.CoversDict? && !(p.covers.CoversList? && p.covers.items != []) ==>
              cover == (if p.videoMeta.MetaDict? then p.videoMeta.coverUrl else None)
  {
    match p.covers
    case CoversDict(d) => d
    case CoversList(items) =>
      if items != [] then items[0]
      else if p.videoMeta.MetaDict? then p.videoMeta.coverUrl else None
    case CoversOther => if p.videoMeta.MetaDict? then p.videoMeta.coverUrl else None
  }

  /** A hashtag entry's text: an object's `name` ("" when missing), or the
      value's own text. */
  function TagText(h: TikTokClient.TagEntry): string {
    match h
    case TagDict(name) => name.GetOr("")
    case TagOther(text) => text
  }

  function TagTexts(hs: seq<TikTokClient.TagEntry>): (ts: seq<string>)
    ensures |ts| == |hs|
    ensures forall i :: 0 <= i < |hs| ==> ts[i] == TagText(hs[i])
    ensures forall i :: 0 <= i < |hs| && hs[i].TagDict? ==> ts[i] == hs[i].name.GetOr("")
  {
    seq(|hs|, i requires 0 <= i < |hs| => TagText(hs[i]))
  }

  /** A TikTok item in the post-summary shape: the id's text ("" when
      missing), no short code, type "Video", likes and comments defaulting
      to 0, the text as caption cut to 500 characters, the cover image as
      display url and the video page as url. */
  function NormalizeTikTok(p: TikTokClient.TikTokPost): (s: PostSummary)
    ensures s.id == Some(TikTokClient.IdText(p)) && s.shortCode == None && s.postType == Some("Video")
    ensures s.likesCount == Some(p.diggCount.GetOr(0)) && s.commentsCount == Some(p.commentCount.GetOr(0))
    ensures s.caption.Some? && |s.caption.value| <= CAPTION_LIMIT
    ensures s.caption.value == Take(OrDefault(p.text, ""), CAPTION_LIMIT)
    ensures s.hashtags == Some(TagTexts(p.hashtags.GetOr([])))
    ensures s.displayUrl == GetCover(p)
    ensures s.timestamp == Some(p.createTime.GetOr("")) && s.url == p.webVideoUrl
  {
    PostSummary(Some(TikTokClient.IdText(p)), None, Some("Video"),
                Some(p.diggCount.GetOr(0)), Some(p.commentCount.GetOr(0)),
                Some(Take(OrDefault(p.text, ""), CAPTION_LIMIT)),
                Some(TagTexts(p.hashtags.GetOr([]))),
                GetCover(p), Some(p.createTime.GetOr("")), p.webVideoUrl)
  }

  const NO_POSTS: string := "No posts found matching the criteria. Try lowering min_likes or adding more hashtags."
  const NO_TIKTOK_POSTS: string := "No TikTok posts found. Try different hashtags or increase results per page."

  /** `POST /analyze`, given what the scraper did and what the analyzer
      would do on the scraped items: a scrape failure is a 502, an empty
      scrape a 404 (the analyzer is not consulted), an analysis failure a 502,
      and otherwise one summary per item, in order, with their count. */
  function InstagramAnalyze<A>(scrape: Result<seq<InstagramPost>, string>, analysis: Result<A, string>)
    : (r: Result<AnalyzeResponse<A>, HttpError>)
    ensures scrape.Err? ==> r == Err(HttpError(502, "Apify scrape failed: " + scrape.error))
    ensures scrape == Ok([]) ==> r == Err(HttpError(404, NO_POSTS))
    ensures scrape.Ok? && scrape.value != [] && analysis.Err? ==> r == Err(HttpError(502, "Analysis failed: " + analysis.error))
    ensures r.Ok? <==> scrape.Ok? && scrape.value != [] && analysis.Ok?
    ensures r.Ok? ==> r.value.analysis == analysis.value
                      && r.value.totalScraped == |r.value.posts| == |scrape.value|
                      && forall i :: 0 <= i < |scrape.value| ==> r.value.posts[i] == NormalizeInstagram(scrape.value[i])
  {
    if scrape.Err? then Err(HttpError(502, "Apify scrape failed: " + scrape.error))
    else if scrape.value == [] then Err(HttpError(404, NO_POSTS))
    else
      var raw := scrape.value;
      var posts := seq(|raw|, i requires 0 <= i < |raw| => NormalizeInstagram(raw[i]));
      if analysis.Err? then Err(HttpError(502, "Analysis failed: " + analysis.error))
      else Ok(AnalyzeResponse(posts, |posts|, analysis.value))
  }

  /** The text of the `TypeError` a call with an unknown keyword raises. */
  const PLATFORM_TYPE_ERROR: string := "analyze_posts() got an unexpected keyword argument 'platform'"

  /** `POST /tiktok/analyze` as written: the analyzer is called with a
      `platform` keyword it does not accept, so the call raises before any
      analysis is made and every non-empty scrape ends in a 502. */
  function TikTokAnalyzeAsWritten<A>(scrape: Result<seq<TikTokClient.TikTokPost>, string>, analysis: Result<A, string>)
    : (r: Result<AnalyzeResponse<A>, HttpError>)
    ensures scrape.Err? ==> r == Err(HttpError(502, "Apify TikTok scrape failed: " + scrape.error))
    ensures scrape == Ok([]) ==> r == Err(HttpError(404, NO_TIKTOK_POSTS))
  {
    if scrape.Err? then Err(HttpError(502, "Apify TikTok scrape failed: " + scrape.error))
    else if scrape.value == [] then Err(HttpError(404, NO_TIKTOK_POSTS))
    else Err(HttpError(502, "Analysis failed: " + PLATFORM_TYPE_ERROR))
  }

  /** As written, the route never answers successfully, whatever the
      analyzer would have returned. */
  lemma TikTokAnalyzeNeverSucceeds<A>(scrape: Result<seq<TikTokClient.TikTokPost>, string>, analysis: Result<A, string>)
    ensures TikTokAnalyzeAsWritten(scrape, analysis).Err?
    ensures scrape.Ok? && scrape.value != [] ==>
              TikTokAnalyzeAsWritten(scrape, analysis) == Err(HttpError(502, "Analysis failed: " + PLATFORM_TYPE_ERROR))
  {
  }

  /** `POST /tiktok/analyze` with the analyzer called as it accepts: like the
      Instagram route, with the TikTok texts and normalisation. */
  function TikTokAnalyze<A>(scrape: Result<seq<TikTokClient.TikTokPost>, string>, analysis: Result<A, string>)
    : (r: Result<AnalyzeResponse<A>, HttpError>)
    ensures scrape.Err? ==> r == Err(HttpError(502, "Apify TikTok scrape failed: " + scrape.error))
    ensures scrape == Ok([]) ==> r == Err(HttpError(404, NO_TIKTOK_POSTS))
    ensures scrape.Ok? && scrape.value != [] && analysis.Err? ==> r == Err(HttpError(502, "Analysis failed: " + analysis.error))
    ensures r.Ok? <==> scrape.Ok? && scrape.value != [] && analysis.Ok?
    ensures r.Ok? ==> r.value.analysis == analysis.value
                      && r.value.totalScraped == |r.value.posts| == |scrape.value|
                      && forall i :: 0 <= i < |scrape.value| ==> r.value.posts[i] == NormalizeTikTok(scrape.value[i])
  {
    if scrape.Err? then Err(HttpError(502, "Apify TikTok scrape failed: " + scrape.error))
    else if scrape.value == [] then Err(HttpError(404, NO_TIKTOK_POSTS))
    else
      var raw := scrape.value;
      var posts := seq(|raw|, i requires 0 <= i < |raw| => NormalizeTikTok(raw[i]));
      if analysis.Err? then Err(HttpError(502, "Analysis failed: " + analysis.error))
      else Ok(AnalyzeResponse(posts, |posts|, analysis.value))
  }

  /** The two versions agree on failed and empty scrapes and differ exactly
      where the analyzer would have succeeded. */
  lemma TikTokAnalyzeCorrection<A>(scrape: Result<seq<TikTokClient.TikTokPost>, string>, analysis: Result<A, string>)
    ensures (scrape.Err? || scrape == Ok([])) ==> TikTokAnalyze(scrape, analysis) == TikTokAnalyzeAsWritten(scrape, analysis)
    ensures TikTokAnalyze(scrape, analysis).Ok? <==> (scrape.Ok? && scrape.value != [] && analysis.Ok?)
    ensures TikTokAnalyze(scrape, analysis).Ok? ==> TikTokAnalyzeAsWritten(scrape, analysis).Err?
  {
  }
}
