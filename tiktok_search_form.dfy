/** The TikTok search form: the same hashtag field as the Instagram form and
    a results-per-page setting. */
module TikTokSearchForm {
  import opened Wrappers
  import opened SearchForm

  datatype TikTokQuery = TikTokQuery(hashtags: seq<string>, resultsPerPage: int)

  const INITIAL_RESULTS_PER_PAGE: int := 15

  /** The submit handler: nothing when no hashtag remains, otherwise the
      query. The field is parsed exactly as the Instagram form parses it,
      and no content type is needed. */
  function SubmitTikTok(input: string, resultsPerPage: int): (q: Option<TikTokQuery>)
    ensures q.None? <==> ParseHashtags(input) == []
    ensures q.Some? ==> q.value == TikTokQuery(ParseHashtags(input), resultsPerPage)
  {
    var hashtags := ParseHashtags(input);
    if |hashtags| == 0 then None else Some(TikTokQuery(hashtags, resultsPerPage))
  }

  /** For the same field the two forms send the same hashtags, and the
      TikTok form searches whenever the Instagram form would. */
  lemma FormsAgree(input: string, minLikes: int, maxPosts: int, contentTypes: seq<string>, resultsPerPage: int)
    ensures Submit(input, minLikes, maxPosts, contentTypes).Some? ==>
              SubmitTikTok(input, resultsPerPage).Some? &&
              SubmitTikTok(input, resultsPerPage).value.hashtags == Submit(input, minLikes, maxPosts, contentTypes).value.hashtags
  {
  }
}
