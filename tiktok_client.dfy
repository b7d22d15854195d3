/** The TikTok scraper: one Apify actor run per hashtag, the merged items
    stripped of error entries and de-duplicated by id. */
module TikTokClient {
  import opened Wrappers
  import opened Text
  import opened ApifyRuns

  /** A `hashtags` entry: a `{name}` object or any other value (kept as its
      `str()` text). */
  datatype TagEntry = TagDict(name: Option<string>) | TagOther(text: string)

  /** The `covers` value: an object with an optional `default`, a list, or
      anything else (missing included). */
  datatype Covers = CoversDict(default: Option<string>) | CoversList(items: seq<Option<string>>) | CoversOther

  /** The `videoMeta` value: an object with an optional `coverUrl`, or anything else. */
  datatype VideoMeta = MetaDict(coverUrl: Option<string>) | MetaOther

  /** A scraped TikTok item. `id` and `createTime` hold the `str()` text of
      the value when the key is present and `None` when it is missing. */
  datatype TikTokPost = TikTokPost(
    hasError: bool,
    id: Option<string>,
    diggCount: Option<int>,
    commentCount: Option<int>,
    text: Option<string>,
    hashtags: Option<seq<TagEntry>>,
    covers: Covers,
    videoMeta: VideoMeta,
    createTime: Option<string>,
    webVideoUrl: Option<string>)

  /** `str(p.get("id", ""))`: the de-duplication key. */
  function IdText(p: TikTokPost): (k: string)
    ensures p.id.Some? ==> k == p.id.value
    ensures p.id.None? ==> k == ""
  {
    p.id.GetOr("")
  }

  /** Only error entries are dropped; there is no likes filter. */
  predicate Accepted(p: TikTokPost) {
    !p.hasError
  }

  /** The actor's `hashtags` input for one run: the single cleaned tag. */
  function RunInput(tag: string): (input: seq<string>)
    ensures |input| == 1 && input[0] == CleanTag(tag)
    ensures input[0] == [] || input[0][0] != '#'
  {
    [CleanTag(tag)]
  }

  function ScrapeResult(runs: seq<RunTrace<TikTokPost>>): Result<seq<TikTokPost>, string> {
    var merged := Collected("Apify TikTok", runs);
    if merged.Err? then Err(merged.error)
    else Ok(Dedupe(merged.value, Accepted, IdText, {}))
  }

  /** `run_tiktok_scraper`: runs each hashtag's actor run in order, merges the
      items, drops error entries and repeated ids; the first run failure is
      raised. */
  method RunTikTokScraper(runs: seq<RunTrace<TikTokPost>>) returns (r: Result<seq<TikTokPost>, string>)
    ensures r == ScrapeResult(runs)
  {
    var merged := CollectRuns("Apify TikTok", runs);
    if merged.Err? {
      return Err(merged.error);
    }
    var valid := DedupeLoop(merged.value, Accepted, IdText);
    return Ok(valid);
  }

  /** The kept items are error-free, never share a non-empty id, and appear
      in the merged items in the same order. */
  lemma ScrapeSound(runs: seq<RunTrace<TikTokPost>>)
    requires ScrapeResult(runs).Ok?
    ensures var out := ScrapeResult(runs).value;
            var merged := Collected("Apify TikTok", runs).value;
            && (forall p :: p in out ==> p in merged && !p.hasError)
            && (forall i, j :: 0 <= i < j < |out| && IdText(out[i]) != "" ==> IdText(out[i]) != IdText(out[j]))
            && IsSubsequence(out, merged)
  {
    var merged := Collected("Apify TikTok", runs).value;
    DedupeSound(merged, Accepted, IdText, {});
    DedupeUnique(merged, Accepted, IdText, {});
  }

  /** An error-free item is kept when it has no id, or when no earlier
      error-free item has its id. */
  lemma ScrapeKeepsFirst(runs: seq<RunTrace<TikTokPost>>, i: nat)
    requires ScrapeResult(runs).Ok?
    requires var merged := Collected("Apify TikTok", runs).value;
             && i < |merged| && !merged[i].hasError
             && (IdText(merged[i]) != "" ==> forall j :: 0 <= j < i && !merged[j].hasError ==> IdText(merged[j]) != IdText(merged[i]))
    ensures Collected("Apify TikTok", runs).value[i] in ScrapeResult(runs).value
  {
    DedupeComplete(Collected("Apify TikTok", runs).value, Accepted, IdText, {}, i);
  }
}
