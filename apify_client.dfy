/** The Instagram scraper: one Apify actor run per content type, the merged
    items filtered by error and likes and de-duplicated by post id. */
module ApifyClient {
  import opened Wrappers
  import opened Text
  import opened ApifyRuns

  /** A scraped Instagram item; `None` is a missing key. `hasError` says
      whether the item has an "error" key. */
  datatype InstagramPost = InstagramPost(
    hasError: bool,
    id: Option<string>,
    shortCode: Option<string>,
    postType: Option<string>,
    likesCount: Option<int>,
    commentsCount: Option<int>,
    caption: Option<string>,
    hashtags: Option<seq<string>>,
    displayUrl: Option<string>,
    timestamp: Option<string>,
    url: Option<string>)

  /** `p.get("likesCount") or 0`. */
  function Likes(p: InstagramPost): int {
    p.likesCount.GetOr(0)
  }

  /** The post id, else its short code; "" when neither is set. */
  function Pid(p: InstagramPost): (k: string)
    ensures Truthy(p.id) ==> k == p.id.value
    ensures !Truthy(p.id) ==> k == OrDefault(p.shortCode, "")
  {
    OrDefault(Or(p.id, p.shortCode), "")
  }

  /** An item survives the filter when it is no error entry and has at
      least `minLikes` likes. */
  predicate Accepted(p: InstagramPost, minLikes: int) {
    !p.hasError && Likes(p) >= minLikes
  }

  const TAG_URL_PREFIX: string := "https://www.instagram.com/explore/tags/"

  /** The actor's `directUrls`: one explore URL per hashtag, in order, for
      the cleaned tag. */
  function DirectUrls(hashtags: seq<string>): (urls: seq<string>)
    ensures |urls| == |hashtags|
    ensures forall i :: 0 <= i < |hashtags| ==> urls[i] == TAG_URL_PREFIX + CleanTag(hashtags[i]) + "/"
  {
    seq(|hashtags|, i requires 0 <= i < |hashtags| => TAG_URL_PREFIX + CleanTag(hashtags[i]) + "/")
  }

  /** The scraper's result for these runs (one per content type). */
  function ScrapeResult(runs: seq<RunTrace<InstagramPost>>, minLikes: int): Result<seq<InstagramPost>, string> {
    var merged := Collected("Apify", runs);
    if merged.Err? then Err(merged.error)
    else Ok(Dedupe(merged.value, p => Accepted(p, minLikes), Pid, {}))
  }

  /** `run_instagram_scraper`: runs each content type's actor run in order,
      merges the items and filters and de-duplicates them; the first run
      failure is raised. */
  method RunInstagramScraper(runs: seq<RunTrace<InstagramPost>>, minLikes: int)
    returns (r: Result<seq<InstagramPost>, string>)
    ensures r == ScrapeResult(runs, minLikes)
  {
    var merged := CollectRuns("Apify", runs);
    if merged.Err? {
      return Err(merged.error);
    }
    var valid := DedupeLoop(merged.value, p => Accepted(p, minLikes), Pid);
    return Ok(valid);
  }

  /** The kept posts are error-free, have at least `minLikes` likes, never
      share a non-empty pid, and appear in the merged items in the same order. */
  lemma ScrapeSound(runs: seq<RunTrace<InstagramPost>>, minLikes: int)
    requires ScrapeResult(runs, minLikes).Ok?
    ensures var out := ScrapeResult(runs, minLikes).value;
            var merged := Collected("Apify", runs).value;
            && (forall p :: p in out ==> p in merged && !p.hasError && Likes(p) >= minLikes)
            && (forall i, j :: 0 <= i < j < |out| && Pid(out[i]) != "" ==> Pid(out[i]) != Pid(out[j]))
            && IsSubsequence(out, merged)
  {
    var merged := Collected("Apify", runs).value;
    DedupeSound(merged, p => Accepted(p, minLikes), Pid, {});
    DedupeUnique(merged, p => Accepted(p, minLikes), Pid, {});
  }

  /** An accepted post is kept when it has no pid, or when no earlier
      accepted post has its pid. */
  lemma ScrapeKeepsFirst(runs: seq<RunTrace<InstagramPost>>, minLikes: int, i: nat)
    requires ScrapeResult(runs, minLikes).Ok?
    requires var merged := Collected("Apify", runs).value;
             && i < |merged| && Accepted(merged[i], minLikes)
             && (Pid(merged[i]) != "" ==> forall j :: 0 <= j < i && Accepted(merged[j], minLikes) ==> Pid(merged[j]) != Pid(merged[i]))
    ensures Collected("Apify", runs).value[i] in ScrapeResult(runs, minLikes).value
  {
    DedupeComplete(Collected("Apify", runs).value, p => Accepted(p, minLikes), Pid, {}, i);
  }
}
