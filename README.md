# trend-analyzer: a Dafny model of the scrape, analyse and video pipeline

trend-analyzer scrapes Instagram or TikTok posts for a set of hashtags through
Apify actor runs. It summarises the posts for a text-generation model that
writes a trend analysis and video concepts. It then submits those concepts to
several video providers: RunwayML, Kling, Pika and Hailuo through fal.ai,
Luma, and a HeyGen avatar. Shotstack composites the avatar over a generated
background with music.

The browser side is a React application:
- the search forms and the post grid;
- the video cards, which poll each provider's status route;
- a four-step pipeline screen: script, avatar, backgrounds, composite.

This project models the decision logic of both halves in Dafny and proves what
that logic promises.

**Backend modules (one per source file, plus shared helpers)**
- `Wrappers` and `Text` are the shared helpers:
  - Option and Result;
  - ASCII whitespace;
  - splitting into maximal runs, joining and trimming;
  - ASCII case mapping;
  - integer formatting.
- `ProviderStatus` is the normalised job vocabulary: `succeeded | failed | cancelled | pending | error` and the video card record.
- `FenceStrip` is the Markdown-fence removal shared by the analyzer and the video generator.
- `Analyzer` covers the post summary, the average likes and the top likes.
- `ApifyRuns` holds what both scrapers share:
  - the bounded run-status poll loop;
  - the per-run collection loop;
  - the filter-and-dedupe loop;
  - hashtag cleaning.
- `ApifyClient` is the Instagram scraper; `TikTokClient` is the TikTok scraper.
- `BackendApi` covers the two analysis routes and the `PostSummary` normalisation.
- `ShotstackClient` covers the music table, the background tiling loop, the four-track timeline and the render poll.
- `HeyGenClient` covers the avatar and voice catalogue, the 65-word spoken script and the render poll.
- `KlingClient` is the three fal.ai models; `LumaClient` is Luma.
- `VideoGenerator` covers the Runway submits and poll, and the provider fan-out.

**Frontend modules**
- `PipelineState` and `PipelineViewModel`: the pipeline screen.
  - The three records `step2`, `step3` and `step4` are held by a class.
  - Every async handler is a `Begin…` method and a `Complete…(outcome)` method.
  - Every poll tick is a method given the replies.
  - The gate and the progress indicator are pure functions.
- `BackgroundStep`: the exclusive slot assignment.
- `CompositeStep`: per-slot readiness and cards.
- `VideoPanel`: provider routing, terminal statuses, badges, card updates and refresh.
- `HeyGenConfig`: the module-level configuration cache and the pickers shared by `AvatarStep` and `HeyGenPanel`.
- `SearchForm` and `TikTokSearchForm`: hashtag parsing, type toggles and submit guards.
- `PostGrid`: the stable sort by likes, captions and count formats.
- `PromptProposal`: the proposal list and the selected prompt.
- `App`: the search, generate and reset flow.

Network calls, SDK calls and timers are parameters. A request's outcome is a
datatype the `Complete…` methods take. A poll reply is a datatype. A provider
call is `SubmitCall = Submitted(jobId) | Raised(message)`. The environment's
API keys are string parameters.

## Model

| member | source | states |
|---|---|---|
| Text.Runs | frontend/src/components/SearchForm.jsx:25-28 | the pieces of a text between runs of separators: every piece is non-empty and holds no separator |
| Text.WordsTrim | frontend/src/components/AvatarStep.jsx:87 | trimming a text does not change its whitespace-separated words |
| Text.RunsOfJoin | frontend/src/components/SearchForm.jsx:25-28 | splitting words joined by one separator gives the words back |
| Text.NatToString | frontend/src/components/PipelineView.jsx:141 | the decimal text of a number, as the `Server error ${status}` messages show it |
| ProviderStatus.SubmitRecord | backend/kling_client.py:32-49 | a submit card keeps its concept, platform and model; a successful call gives 'pending' with the job id; an exception gives 'error' with no task id and the exception text |
| FenceStrip.BeforeFence | backend/analyzer.py:88-92 | the text before the first fence: a fence-free prefix, followed in the input by a fence whenever it is shorter |
| FenceStrip.StripFences | backend/analyzer.py:85-92 | a reply that does not open with a fence is only trimmed |
| FenceStrip.StripFencesNoFence | backend/video_generator.py:85-90 | what comes out of a reply that opens with a fence holds no fence |
| FenceStrip.StripFencedBlock | backend/video_generator.py:180-184 | a fenced "json" block around a fence-free, trimmed body gives exactly the body |
| Analyzer.LineOf | backend/analyzer.py:9-13 | a summary entry carries its number; the caption is cut to 300 characters, and a missing one is ""; likes and comments default to 0; the type defaults to "unknown"; the hashtags are joined by single spaces, and missing ones give "" |
| Analyzer.SummaryLines | backend/analyzer.py:8 | the first 50 posts, or all of them when fewer, numbered 1, 2, … in order |
| Analyzer.SummarizePosts | backend/analyzer.py:5-19 | the loop's text equals the rendered entries joined by blank lines |
| Analyzer.TruncDiv | backend/analyzer.py:31 | Python's `int(a / b)` truncates toward zero, for negative sums too |
| Analyzer.AvgLikes | backend/analyzer.py:31 | 0 for no posts, otherwise the mean of the likes truncated toward zero |
| Analyzer.AvgLikesWithin | backend/analyzer.py:31 | the average lies between any lower and any upper bound of the likes |
| Analyzer.TopIndex | backend/analyzer.py:32 | `max(key=likes)` picks a post with the largest likes, the first of them on ties |
| Analyzer.TopLikes | backend/analyzer.py:32-33 | the largest likes of some post, or 0 without posts |
| Analyzer.AvgAtMostTop | backend/analyzer.py:31-33 | the average likes never exceed the top likes |
| ApifyRuns.Verdict | backend/apify_client.py:83-86 | the loop's last status gives the dataset id exactly on SUCCEEDED, and an error otherwise |
| ApifyRuns.PollUntilFinished | backend/apify_client.py:69-91 | every response but the last said "go on"; the last ends the loop with its verdict, or the timeout error after at most ceil(max_wait/interval) checks |
| ApifyRuns.CollectRuns | backend/apify_client.py:19-24 | the runs' items are concatenated in run order; the first run that fails to start, finish or fetch gives its error |
| ApifyRuns.DedupeLoop | backend/apify_client.py:26-41 | the filter-and-dedupe loop's result equals the recursive `Dedupe` definition |
| ApifyRuns.DedupeSound | backend/apify_client.py:30-39 | every kept item passes the filter and has no key seen before; the output is a subsequence of the input |
| ApifyRuns.DedupeUnique | backend/apify_client.py:34-39 | no two kept items share a non-empty key |
| ApifyRuns.DedupeComplete | backend/apify_client.py:34-39 | an accepted item is kept when it has no key, or when no earlier accepted item has its key |
| ApifyRuns.CleanTag | backend/tiktok_client.py:45 | the trimmed tag with all its leading '#' removed; the result never starts with '#' |
| ApifyClient.Pid | backend/apify_client.py:34 | the de-duplication key is the id, else the short code, else "" |
| ApifyClient.DirectUrls | backend/apify_client.py:47-50 | one explore URL per hashtag, in order, built from the cleaned tag |
| ApifyClient.RunInstagramScraper | backend/apify_client.py:9-41 | the scraper's result equals the runs collected and then filtered and deduplicated |
| ApifyClient.ScrapeSound | backend/apify_client.py:30-39 | kept posts have no error and at least min_likes likes; they never share a non-empty pid; they are a subsequence of the merged runs |
| ApifyClient.ScrapeKeepsFirst | backend/apify_client.py:34-39 | an accepted post is kept when it has no pid, or when no earlier accepted post has its pid |
| TikTokClient.IdText | backend/tiktok_client.py:31 | the de-duplication key is the id's text, "" when missing |
| TikTokClient.RunInput | backend/tiktok_client.py:44-45 | each run's input is the single cleaned tag |
| TikTokClient.RunTikTokScraper | backend/tiktok_client.py:9-38 | the scraper's result equals the runs collected and then deduplicated, with no likes filter |
| TikTokClient.ScrapeSound | backend/tiktok_client.py:25-38 | kept items have no error, never share a non-empty id, and are a subsequence of the merged runs |
| TikTokClient.ScrapeKeepsFirst | backend/tiktok_client.py:31-36 | an error-free item is kept when it has no id, or when no earlier one has its id |
| BackendApi.PostUrl | backend/main.py:119 | the item's url, else the instagram.com/p/{shortCode}/ permalink, else none |
| BackendApi.NormalizeInstagram | backend/main.py:108-122 | the scalar fields are copied; the caption is at most 500 characters and "" when missing; missing hashtags are an empty list; the url is `PostUrl` |
| BackendApi.GetCover | backend/main.py:166-172 | a dict's `default`, else a non-empty list's first entry, else `videoMeta.coverUrl` for a dict `videoMeta`, else none |
| BackendApi.TagTexts | backend/main.py:182-185 | one text per hashtag entry: a dict's `name` ("" when missing), else the value's text |
| BackendApi.NormalizeTikTok | backend/main.py:174-191 | all of the following: the id's text; no short code; type "Video"; falsy likes and comments become 0; the caption is cut to 500; the cover is `GetCover` |
| BackendApi.InstagramAnalyze | backend/main.py:91-137 | a failed scrape gives 502; an empty scrape gives 404 before any analysis; a failed analysis gives 502; the reply succeeds exactly otherwise, with the analysis |
| BackendApi.TikTokAnalyzeAsWritten | backend/main.py:150-207 | the route as written: 502 on a failed scrape, 404 on an empty one, and otherwise the analyzer call fails on its unknown keyword |
| BackendApi.TikTokAnalyzeNeverSucceeds | backend/main.py:193-201 | as written, the route never answers successfully; a non-empty scrape always gives 502 |
| BackendApi.TikTokAnalyze | backend/main.py:141-207 | the corrected route: the same error cases as the Instagram one, and success exactly on a non-empty scrape with an analysis |
| BackendApi.TikTokAnalyzeCorrection | backend/main.py:193-201 | the two versions agree on failed and empty scrapes, and differ exactly where the corrected one succeeds |
| ShotstackClient.GetMusicTracks | backend/shotstack_client.py:29-31 | one {id, name} per track, in table order; five tracks with distinct ids |
| ShotstackClient.MusicUrl | backend/shotstack_client.py:50 | a listed id gives its track's URL; an unknown id gives the "hype" URL |
| ShotstackClient.BackgroundClips | backend/shotstack_client.py:53-68 | all of the following: ceil(duration/10) muted clips; the first starts at 0 and each starts where the previous ends; every length is in (0, 10] and all but the last are 10; the lengths sum to the duration |
| ShotstackClient.SubmitComposite | backend/shotstack_client.py:34-168 | four tracks: the tiled background, the chroma-keyed avatar for the whole duration, the 3.5-second caption, and the music at low volume for the whole duration; a successful call is 'pending' with the render id, and an exception is 'error' |
| ShotstackClient.PollComposite | backend/shotstack_client.py:171-211 | "done" gives 'succeeded' with the URL; "failed" and "cancelled" give 'failed' with the error or "Render failed"; an exception gives 'error'; anything else is 'pending', a missing status read as "queued" |
| HeyGenClient.StyleOf | backend/heygen_client.py:21-22 | the first non-empty of avatar_style, style and type |
| HeyGenClient.NormalizeAvatar | backend/heygen_client.py:25-34 | the avatar's id, its name (falling back from avatar_name to name), its thumbnail, its gender and its Avatar IV tag |
| HeyGenClient.AvatarIvCaseInsensitive | backend/heygen_client.py:21-23 | the Avatar IV tag does not depend on the letter case of the style |
| HeyGenClient.EnglishVoices | backend/heygen_client.py:43-52 | exactly the voices whose lower-cased language starts with "en", normalised |
| HeyGenClient.EnglishVoicesAppend | backend/heygen_client.py:43-52 | the filter keeps order: filtering two lists one after the other gives the first list's English voices followed by the second's |
| HeyGenClient.FirstEnglishVoice | backend/heygen_client.py:43-52 | the first voice of the result, the one the pickers default to, is the first English voice in HeyGen's list |
| HeyGenClient.EnglishVoicesEmpty | backend/heygen_client.py:43-52 | the filter gives no voice exactly when no voice is English |
| HeyGenClient.EnglishVoicesHead | backend/heygen_client.py:43-52 | whichever voice is the first English one heads the result |
| HeyGenClient.FetchConfig | backend/heygen_client.py:6-54 | every avatar normalised and tagged, in order; exactly the English voices (both directions), normalised, in HeyGen's order through `EnglishVoices`; no voice exactly when none is English, and otherwise the first English voice first |
| HeyGenClient.BuildSpokenScript | backend/heygen_client.py:68-81 | the script's words are the first 65 words of the hook and the non-empty actions, in order, joined by single spaces |
| HeyGenClient.WordsOfJoin | backend/heygen_client.py:79-81 | splitting texts joined by spaces gives all of their words, in order |
| HeyGenClient.SubmitHeyGen | backend/heygen_client.py:111-140 | a successful call gives 'pending' with the video id and the spoken script; an exception gives 'error' with no task id and no script |
| HeyGenClient.FailureText | backend/heygen_client.py:168-180 | a dict's message, else its msg, else its text; any other value's text, with "Generation failed" for a falsy or empty one |
| HeyGenClient.PollHeyGen | backend/heygen_client.py:143-186 | "completed" gives 'succeeded' with the URL; "failed" gives 'failed' with `FailureText`; an exception gives 'error'; anything else is 'pending' |
| KlingClient.SubmitFal | backend/kling_client.py:15-49 | each fal.ai model's card: its platform and model labels; 'pending' with the request id, or 'error' with the exception |
| KlingClient.ResultUrl | backend/kling_client.py:65-71 | `video.url` for a dict video, else the first of `videos` when it is non-empty, else none |
| KlingClient.PollFal | backend/kling_client.py:52-82 | Completed gives 'succeeded' with `ResultUrl`; Failed gives 'failed'; an exception gives 'error'; any other type is 'pending'; the task id is the request id (the same code for Pika at :120-148 and Hailuo at :186-214) |
| LumaClient.SubmitLuma | backend/luma_client.py:4-34 | the Luma ray-2 card: 'pending' with the generation id, or 'error' with the exception |
| LumaClient.PollLuma | backend/luma_client.py:37-61 | "completed" gives 'succeeded' with the asset URL when there is one; "failed" gives 'failed' with the reason or "Generation failed"; an exception gives 'error'; anything else is 'pending' |
| VideoGenerator.PlatformLabel | backend/video_generator.py:31 | "TikTok" exactly for the "tiktok" platform, else "Instagram" |
| VideoGenerator.SubmitRunway | backend/video_generator.py:189-235 | the RunwayML cards for veo3.1 and gen4.5: 'pending' with the task id, or 'error' with the exception |
| VideoGenerator.PollRunway | backend/video_generator.py:238-261 | all of the following: SUCCEEDED gives 'succeeded' with the first output of a list, the output itself, or none when empty; FAILED and CANCELLED give 'failed' and 'cancelled' with the failure or "Generation failed"; anything else is 'pending' |
| VideoGenerator.SubmitJob | backend/video_generator.py:288-310 | a job's card keeps the concept, and is 'pending' exactly when the call succeeded |
| VideoGenerator.PlanJobs | backend/video_generator.py:288-310 | the job list is the Runway jobs, then the fal.ai jobs, then the Luma job |
| VideoGenerator.PlanShape | backend/video_generator.py:288-310 | each provider's jobs are planned exactly when its key is set, grouped in provider order, with no job twice |
| VideoGenerator.GenerateVideos | backend/video_generator.py:264-313 | one card per planned job, in plan order, each the job's submit record for the same concept |
| PipelineState.ReplyStatus | frontend/src/components/PipelineView.jsx:80 | a record takes the reply's status exactly when the reply has one |
| PipelineState.FailureMessage | frontend/src/components/PipelineView.jsx:139-141 | a thrown request shows its message; a non-ok reply shows its detail, else the prefix and the status code: "Server error " in the pipeline handlers (`ErrorMessage`), "Error " in the script preview (AvatarStep.jsx:66-77) |
| PipelineState.ProposalsEndpoint | frontend/src/components/PipelineView.jsx:35 | the TikTok prompts route exactly for the "tiktok" platform |
| PipelineState.ApplyAvatarReply | frontend/src/components/PipelineView.jsx:52-57 | 'succeeded' gives 'done' with the URL; 'failed' or 'error' gives 'error' with the message or "HeyGen generation failed"; any other reply changes nothing |
| PipelineState.CompleteAvatar | frontend/src/components/PipelineView.jsx:139-154 | a failed request, an empty list or an 'error' first video gives 'error' with its message; otherwise the record stays 'loading' with the first video's id and script; `hasGenerated` is kept |
| PipelineState.CompleteAvatarPolls | frontend/src/components/PipelineView.jsx:146-151 | after a successful submit the avatar is polled exactly when the first video has a task id (the poll guard is at :47) |
| PipelineState.FirstSucceeded | frontend/src/components/PipelineView.jsx:179 | the first succeeded background of the slot, or none exactly when there is no such background |
| PipelineState.CompleteBackgrounds | frontend/src/components/PipelineView.jsx:166-174 | a successful submit keeps 'loading' with the returned backgrounds; a failure gives 'error' with the message; `hasGenerated` is kept |
| PipelineState.SettleBackgrounds | frontend/src/components/PipelineView.jsx:65-92 | corrected transition: a 'loading' stage becomes 'done' exactly when no background is left to poll; the backgrounds, `hasGenerated` and the error are kept, and a stage that is not loading is unchanged |
| PipelineState.PollRoute | frontend/src/components/PipelineView.jsx:72 | "runway" backgrounds poll the runway route, all others the kling route |
| PipelineState.PendingTaskIds | frontend/src/components/PipelineView.jsx:66 | the task ids of exactly the pending backgrounds that have one |
| PipelineState.PollRequests | frontend/src/components/PipelineView.jsx:66-73 | one status request per pending task id, in the same order, and exactly the pending backgrounds' requests, each to its provider's route |
| PipelineState.ApplyBackgroundReply | frontend/src/components/PipelineView.jsx:75-85 | a thrown fetch or a 'pending' reply changes nothing; otherwise only the records with that task id take the reply's status, URL and error |
| PipelineState.BackgroundTickFrame | frontend/src/components/PipelineView.jsx:69-87 | a whole tick keeps the list's length, slots and task ids; a background whose id was not asked about is unchanged |
| PipelineState.BackgroundTickQuiet | frontend/src/components/PipelineView.jsx:75 | a tick whose replies all threw or were pending changes nothing |
| PipelineState.ForSlot | frontend/src/components/CompositeStep.jsx:16 | the first composite record of the slot, or none exactly when the slot has none |
| PipelineState.SpokenSeconds | frontend/src/components/PipelineView.jsx:184-185 | `ceil(words / 2.5)` in integers: the least c with 2·words ≤ 5·c |
| PipelineState.CompositeDuration | frontend/src/components/PipelineView.jsx:184-185 | 30 for no words; otherwise the spoken seconds clamped to [15, 60]; always in [15, 60] |
| PipelineState.CompositeDurationMonotone | frontend/src/components/PipelineView.jsx:185 | once there are words, more words never give a shorter composite |
| PipelineState.WithoutSlot | frontend/src/components/PipelineView.jsx:191 | exactly the records of the other slot, in order |
| PipelineState.MarkComposite | frontend/src/components/PipelineView.jsx:188-194 | the slot's records replaced by one 'loading' record at the end |
| PipelineState.MarkCompositeSlots | frontend/src/components/PipelineView.jsx:188-194 | marking keeps at most one record per slot; the slot then has the loading record, and the other slot's record is unchanged |
| PipelineState.UpdateSlot | frontend/src/components/PipelineView.jsx:213-225 | all records keep their slot; only the slot's records change |
| PipelineState.CompleteComposite | frontend/src/components/PipelineView.jsx:213-225 | only the slot's records change: to 'pending' with the render id on success, or to 'error' with the message |
| PipelineState.PendingRenderIds | frontend/src/components/PipelineView.jsx:96 | the render ids of exactly the pending composites that have one |
| PipelineState.ApplyCompositeReply | frontend/src/components/PipelineView.jsx:104-112 | a thrown fetch or a 'pending' reply changes nothing; otherwise only the records with that render id take the reply; slots and ids are kept |
| PipelineState.CompositeTickSlots | frontend/src/components/PipelineView.jsx:100-115 | a composite poll tick keeps every record's slot |
| PipelineState.SameSlotsKeepInvariant | frontend/src/components/PipelineView.jsx:105-112 | an update that keeps every slot keeps at most one record per slot |
| PipelineState.StepStatus | frontend/src/components/PipelineView.jsx:234-254 | step 1 is always done; step 2 is done, active, error or idle exactly as the avatar's stage is done, loading, error or idle; step 3 is done exactly when some background succeeded, and otherwise active, error or idle exactly as its stage is loading, error or idle/done; step 4 is done exactly when some composite succeeded, else active exactly when one is pending or loading, else locked exactly when the gate is closed, else idle; only step 4 is ever locked and it is never in error |
| PipelineState.UnlockedIffEarlierDone | frontend/src/components/PipelineView.jsx:230-232 | step 4 is unlocked exactly when steps 2 and 3 both show done |
| PipelineState.InitialProgress | frontend/src/components/PipelineView.jsx:10-27 | a fresh pipeline: step 1 done, steps 2 and 3 idle, step 4 locked |
| PipelineViewModel.PipelineView.constructor | frontend/src/components/PipelineView.jsx:10-33 | the three records start as their initial values, with no music tracks |
| PipelineViewModel.PipelineView.LoadMusicTracks | frontend/src/components/PipelineView.jsx:38-43 | the reply's tracks, or none when missing; a thrown fetch leaves the list alone |
| PipelineViewModel.PipelineView.SelectMusic | frontend/src/components/CompositeStep.jsx:52 | only the selected music changes |
| PipelineViewModel.PipelineView.BeginAvatar | frontend/src/components/PipelineView.jsx:124-137 | the avatar restarts as 'loading' with `hasGenerated`; the request carries the ids and the script, with an empty script sent as null |
| PipelineViewModel.PipelineView.CompleteAvatar | frontend/src/components/PipelineView.jsx:139-154 | the avatar record becomes `CompleteAvatar` of the outcome; nothing else changes |
| PipelineViewModel.PipelineView.PollAvatar | frontend/src/components/PipelineView.jsx:46-62 | a tick asks only while the avatar is loading with an id, and then folds in the reply |
| PipelineViewModel.PipelineView.BeginBackgrounds | frontend/src/components/PipelineView.jsx:158-164 | the backgrounds restart as 'loading' with `hasGenerated`; the request carries the two prompts and the model |
| PipelineViewModel.PipelineView.CompleteBackgrounds | frontend/src/components/PipelineView.jsx:166-174 | the backgrounds record becomes `CompleteBackgrounds` of the outcome, as written: a success keeps 'loading' (see the finding below); nothing else changes |
| PipelineViewModel.PipelineView.PollBackgrounds | frontend/src/components/PipelineView.jsx:65-92 | the requests of `PollRequests`, one reply per pending task id folded in request order; the stage status is never touched |
| PipelineViewModel.PipelineView.BeginComposite | frontend/src/components/PipelineView.jsx:178-207 | no request and no change unless the slot has a succeeded background and the avatar has a URL; otherwise the slot is marked and the request carries the URLs, the hook, the music and `CompositeDuration`; at most one record per slot |
| PipelineViewModel.PipelineView.CompleteComposite | frontend/src/components/PipelineView.jsx:208-226 | the composites become `CompleteComposite` of the outcome; at most one record per slot |
| PipelineViewModel.PipelineView.PollComposites | frontend/src/components/PipelineView.jsx:95-121 | one reply per pending render id, folded in request order; at most one record per slot |
| BackgroundStep.Assign | frontend/src/components/BackgroundStep.jsx:45-55 | the slot takes the selection; the other slot is cleared when it held that index, and is unchanged otherwise |
| BackgroundStep.AssignDistinct | frontend/src/components/BackgroundStep.jsx:47-54 | after an assignment the two slots never hold the same index |
| BackgroundStep.AssignIdempotent | frontend/src/components/BackgroundStep.jsx:47-54 | repeating an assignment changes nothing |
| BackgroundStep.AssignAllDistinct | frontend/src/components/BackgroundStep.jsx:45-55 | any sequence of assignments keeps the slots distinct |
| BackgroundStep.SlotOf | frontend/src/components/BackgroundStep.jsx:61-65 | A when A holds the index, else B when B does, else none |
| BackgroundStep.SlotOfAssigned | frontend/src/components/BackgroundStep.jsx:45-65 | after assigning a proposal to a slot, that proposal shows that slot |
| BackgroundStep.NoRegenerateAfterSubmit | frontend/src/components/BackgroundStep.jsx:57 | as written: after a successful submit and any poll ticks, the stage stays 'loading', so generate stays disabled |
| BackgroundStep.RegenerateOnceSettled | frontend/src/components/BackgroundStep.jsx:57 | with the corrected settling step, after a successful submit and a poll tick, generate is enabled exactly when no background is left to poll |
| BackgroundStep.GenerateButtonLabel | frontend/src/components/BackgroundStep.jsx:57-58 | generating while loading, else regenerate after a first run, else the first-run label |
| BackgroundStep.BackgroundStepView.CompleteFetchProposals | frontend/src/components/BackgroundStep.jsx:23-43 | the proposals on success, the message on failure; loading ends either way; the slots are kept |
| BackgroundStep.BackgroundStepView.AssignSlot | frontend/src/components/BackgroundStep.jsx:45-55 | the slots become `Assign` with the listed proposal; they stay distinct |
| BackgroundStep.BackgroundStepView.Generate | frontend/src/components/BackgroundStep.jsx:57 | a request exactly when both slots are filled and the stage is not loading, with both prompts and the model |
| CompositeStep.SucceededBgs | frontend/src/components/CompositeStep.jsx:12 | exactly the succeeded backgrounds, in order |
| CompositeStep.CanCompositeFirst | frontend/src/components/CompositeStep.jsx:13-14 | a slot is ready exactly when the avatar is done and the slot has a succeeded background |
| CompositeStep.CanCompositeUnlocks | frontend/src/components/CompositeStep.jsx:13-14 | either slot's readiness implies the step 4 gate |
| CompositeStep.CanCompositeOwnSlot | frontend/src/components/CompositeStep.jsx:13-14 | a slot's readiness depends only on that slot's backgrounds |
| CompositeStep.EnabledButtonNeedsUrl | frontend/src/components/CompositeStep.jsx:79 | an enabled composite button sends a request exactly when the avatar has a URL |
| CompositeStep.SlotCard | frontend/src/components/CompositeStep.jsx:75-104 | the button exactly while the slot has no record, enabled exactly when the slot is ready; the submitting spinner exactly for a 'loading' record, the rendering spinner exactly for 'pending', the video exactly for 'succeeded' with a URL (that URL), the error text ("Render failed" by default) exactly for 'failed' or 'error', and a blank card for any other record |
| CompositeStep.MarkedSlotSubmitting | frontend/src/components/CompositeStep.jsx:75-89 | after a slot is marked, its card shows the submitting spinner |
| VideoPanel.Route | frontend/src/components/VideoPanel.jsx:31-37 | the routing tests in order: contains "luma", "pika", "hailuo", "heygen", contains "fal" or "kling", else runway |
| VideoPanel.RoutingAgrees | frontend/src/components/VideoPanel.jsx:31-37 | the card's poller and the refresh button (:180-186) route every card the same way |
| VideoPanel.BackendCardPolls | frontend/src/components/VideoPanel.jsx:25-28 | a card from the backend is polled exactly while it is 'pending' with a task id |
| VideoPanel.BadgeOf | frontend/src/components/VideoPanel.jsx:8-15 | compared lower-cased: Ready exactly for "succeeded", Failed exactly for "failed" or "error", Timed out exactly for "timeout", Cancelled exactly for "cancelled", and Rendering exactly for everything else, 'pending' and a missing status included |
| VideoPanel.UpdateCard | frontend/src/components/VideoPanel.jsx:162-167 | the reply's status and error; the reply's URL, or the old one when the reply has none |
| VideoPanel.CountsBounded | frontend/src/components/VideoPanel.jsx:223-226 | ready ≤ done, and done + pending ≤ the number of cards |
| VideoPanel.RefreshTargets | frontend/src/components/VideoPanel.jsx:175-177 | exactly the indices of cards that are not terminal and have a task id, ascending |
| VideoPanel.ApplyRefreshReply | frontend/src/components/VideoPanel.jsx:187-192 | an ok reply updates its card, whatever the status; a non-ok or thrown one changes nothing |
| VideoPanel.RefreshFrame | frontend/src/components/VideoPanel.jsx:172-195 | a refresh changes only the cards it re-checked |
| VideoPanel.PanelView.HandleStatusUpdate | frontend/src/components/VideoPanel.jsx:159-170 | only card i changes, to `UpdateCard` |
| VideoPanel.PanelView.PollCard | frontend/src/components/VideoPanel.jsx:40-52 | a card without a poller asks nothing; a non-ok, thrown or 'pending' reply changes nothing; any other reply updates the card and stops its poller |
| VideoPanel.PanelView.RefreshAll | frontend/src/components/VideoPanel.jsx:172-195 | every target's reply folded in; the refreshing flag ends false |
| HeyGenConfig.ConfigFailureText | frontend/src/components/AvatarStep.jsx:40-44 | a non-ok reply shows its detail or "Failed to load"; an unreachable server shows the could-not-load text |
| HeyGenConfig.FirstAvatarId | frontend/src/components/AvatarStep.jsx:36 | the first avatar's id ("" when missing), or none exactly for an empty list |
| HeyGenConfig.WithDefault | frontend/src/components/AvatarStep.jsx:47-50 | an empty selection takes the first listed id; a made selection is kept |
| HeyGenConfig.LoadThenDefault | frontend/src/components/AvatarStep.jsx:47-50 | after a load (:36-37) the default step changes nothing further |
| HeyGenConfig.ConfigPicker.constructor | frontend/src/components/AvatarStep.jsx:11-21 | the cached configuration, if any; loading exactly when nothing is cached |
| HeyGenConfig.ConfigPicker.Mount | frontend/src/components/AvatarStep.jsx:24-33 | a request is sent exactly when nothing is cached and none is in flight; cached data applies the defaults at once |
| HeyGenConfig.ConfigPicker.Settle | frontend/src/components/AvatarStep.jsx:33-45 | success caches the configuration and takes the first avatar and voice of the loaded lists, replacing any earlier choice, and keeps the choice when a list is empty; failure shows the error and clears the in-flight request so a retry can send again |
| HeyGenConfig.SharedRequest | frontend/src/components/HeyGenPanel.jsx:23-35 | two pickers mounted on an empty cache send exactly one request |
| AvatarStep.WordCount | frontend/src/components/AvatarStep.jsx:87 | the number of words of the script; 0 exactly for a blank script |
| AvatarStep.ApproxSeconds | frontend/src/components/AvatarStep.jsx:88 | words / 2.2 rounded to the nearest second (10·words + 11 is odd, so no tie arises) |
| AvatarStep.CapIsAboutThirtySeconds | frontend/src/components/AvatarStep.jsx:167 | a 65-word script (the cap of :167) is read in about 30 seconds at most |
| AvatarStep.ApproxSecondsMonotone | frontend/src/components/AvatarStep.jsx:88 | more words never give fewer seconds |
| AvatarStep.CanGenerate | frontend/src/components/AvatarStep.jsx:85 | exactly when both ids are set, the avatar is not loading and the trimmed script is non-empty |
| AvatarStep.ButtonLabel | frontend/src/components/AvatarStep.jsx:216-218 | generating while loading, else regenerate after a first run, else the first-run label |
| AvatarStep.ErrorLine | frontend/src/components/AvatarStep.jsx:222 | the step's error, or "Generation failed" |
| AvatarStep.AvatarStepView.CompleteFetchScript | frontend/src/components/AvatarStep.jsx:59-80 | the previewed script on success, the error text otherwise; loading ends |
| AvatarStep.AvatarStepView.Generate | frontend/src/components/AvatarStep.jsx:213 | a call exactly when `CanGenerate`, with the trimmed script, whose words are the script's words |
| HeyGenPanel.PanelLabel | frontend/src/components/HeyGenPanel.jsx:160-164 | generating while loading, else regenerate after a first run, else the first-run label |
| HeyGenPanel.PanelGenerate | frontend/src/components/HeyGenPanel.jsx:58 | a call exactly when both ids are set and the page is not loading (the button's guard at :157); no script is needed |
| HeyGenPanel.LoadEnables | frontend/src/components/HeyGenPanel.jsx:37-58 | once a configuration with first ids arrives, the button sends those ids |
| SearchForm.StripHash | frontend/src/components/SearchForm.jsx:27 | exactly one leading '#' removed |
| SearchForm.ParseHashtagsSound | frontend/src/components/SearchForm.jsx:25-28 | every tag is non-empty without whitespace or comma, and is a piece of the input with one '#' dropped, or a piece without '#' |
| SearchForm.ParseHashedTags | frontend/src/components/SearchForm.jsx:25-28 | tags typed with '#' and separated by single spaces or commas come back in order |
| SearchForm.LoneHashesNoTags | frontend/src/components/SearchForm.jsx:27-29 | pieces that are only '#' give no tags |
| SearchForm.Submit | frontend/src/components/SearchForm.jsx:25-30 | no query exactly when no tag or no content type remains; otherwise the parsed tags and the form's values |
| SearchForm.Without | frontend/src/components/SearchForm.jsx:18 | the list without the value, with every other membership kept |
| SearchForm.ToggleType | frontend/src/components/SearchForm.jsx:15-21 | the toggled type's membership flips; every other type's is kept |
| SearchForm.ToggleNoDuplicates | frontend/src/components/SearchForm.jsx:15-21 | toggling never creates a duplicate |
| SearchForm.ToggleTwice | frontend/src/components/SearchForm.jsx:15-21 | toggling twice restores which types are selected |
| SearchForm.InitialTypesDistinct | frontend/src/components/SearchForm.jsx:10-13 | the starting types hold no duplicate |
| TikTokSearchForm.SubmitTikTok | frontend/src/components/TikTokSearchForm.jsx:10-15 | no query exactly when no tag remains; otherwise the parsed tags and the results per page |
| TikTokSearchForm.FormsAgree | frontend/src/components/TikTokSearchForm.jsx:10-13 | both forms parse the same tags from the same input |
| PostGrid.Insert | frontend/src/components/PostGrid.jsx:51 | one more element, with the same elements plus the inserted one |
| PostGrid.SortByLikes | frontend/src/components/PostGrid.jsx:51 | a permutation, most liked first, with posts of equal likes in their input order |
| PostGrid.FirstCardMostLiked | frontend/src/components/PostGrid.jsx:51-58 | the first card is a most liked post |
| PostGrid.CardCaption | frontend/src/components/PostGrid.jsx:11 | nothing for a missing caption; the caption up to 100 characters; else its first 100 characters and '…' |
| PostGrid.FormatCount | frontend/src/components/PostGrid.jsx:3-8 | the dash exactly for a missing count; millions from 1,000,000; thousands from 1,000; plain below |
| PostGrid.ZeroIsNotDash | frontend/src/components/PostGrid.jsx:4 | a zero count is shown as a number |
| PostGrid.IconFor | frontend/src/components/PostGrid.jsx:12 | the video icon exactly for "Video", the carousel icon exactly for "Sidecar" |
| PostGrid.CardOf | frontend/src/components/PostGrid.jsx:37-38 | the link, or "#"; the icon (chosen at :17); both counts; the caption |
| PostGrid.GridOf | frontend/src/components/PostGrid.jsx:47-58 | the no-posts message exactly for a missing or empty list; otherwise one card per post of the sorted copy |
| PromptProposal.ProposalView.BeginFetch | frontend/src/components/PromptProposal.jsx:18-20 | loading, no error, no proposals |
| PromptProposal.ProposalView.CompleteFetch | frontend/src/components/PromptProposal.jsx:17-40 | proposals select the first and report its prompt; an empty list fails on the first prompt; a failure keeps the list empty with the error; loading ends; the reported prompt is the selected one's |
| PromptProposal.ProposalView.Select | frontend/src/components/PromptProposal.jsx:42-45 | the index is selected and its prompt reported |
| PromptProposal.ScreenOf | frontend/src/components/PromptProposal.jsx:47-66 | a spinner exactly while loading; else the error; else nothing without proposals; else the options |
| App.ReplyOf | backend/main.py:100-106 | a route's error reaches the page as its status code and detail |
| App.AppView.constructor | frontend/src/App.jsx:12-22 | the page's initial state, which satisfies the page invariant |
| App.AppView.Reset | frontend/src/App.jsx:24-35 | every field returns to its initial value |
| App.AppView.BeginSearch | frontend/src/App.jsx:38-47 | loading with the query kept; posts, analysis and all video state cleared |
| App.AppView.CompleteSearch | frontend/src/App.jsx:61-73 | 'done' with the posts and the analysis on success; 'error' with the message otherwise; the invariant is kept |
| App.AppView.SetSelectedPrompt | frontend/src/components/PromptProposal.jsx:33-34 | only the selected prompt changes |
| App.AppView.BeginGenerate | frontend/src/App.jsx:76-91 | nothing without an analysis and a query; otherwise loading with no error and no videos, and the request with the prompt when it is non-empty |
| App.AppView.CompleteGenerate | frontend/src/App.jsx:98-105 | success sets the videos and remembers a generation; an error leaves that memory unchanged |
| App.AppView.ClickGenerate | frontend/src/App.jsx:190 | an enabled generate button on the results page always sends a request |
| App.EmptyScrapeShowsNoPosts | backend/main.py:102-106 | a search whose scrape is empty ends on the error screen with the backend's no-posts text |
| App.VideoButtonLabel | frontend/src/App.jsx:192-196 | generating while loading, else regenerate after a success, else the first-run label |

## Findings

| source | as written | input that shows it | evidently intended | confidence | as-written member | corrected member |
|---|---|---|---|---|---|---|
| backend/main.py:193-201 | `tiktok_analyze` calls `analyze_posts(..., platform="tiktok")`, but `analyze_posts` (backend/analyzer.py:22) has no `platform` parameter, so the call raises `TypeError` and the route answers 502 "Analysis failed: …" | any TikTok scrape that returns at least one item | the analyzer is called with the parameters it accepts, and the analysis is returned | not executed | BackendApi.TikTokAnalyzeAsWritten, shown by BackendApi.TikTokAnalyzeNeverSucceeds | BackendApi.TikTokAnalyze, related by BackendApi.TikTokAnalyzeCorrection |
| frontend/src/components/PipelineView.jsx:171 | a successful backgrounds submit sets the stage to 'loading', and neither the poll effect (:65-92) nor any other handler ever changes it, so `canGenerate` (BackgroundStep.jsx:57) stays false for good: Regenerate is offered only after a failed submit | two proposals assigned, a successful submit, and every background then succeeding | once no background is left to poll the stage leaves 'loading', and generating again is offered | not executed | PipelineState.CompleteBackgrounds, shown by BackgroundStep.NoRegenerateAfterSubmit | PipelineState.SettleBackgrounds, with BackgroundStep.RegenerateOnceSettled |

## Left out

- Network, SDK and HTTP calls (httpx, anthropic, runwayml, fal_client, lumaai, fetch) are parameters. The model takes their outcomes as datatypes.
- Timers, `setInterval` and `useEffect` dependency keys are not modelled. Each poll tick is an explicit method call.
- `asyncio.gather`, `run_in_executor` and `Promise.all` are sequentialised, in submission order. A reply that arrives after a newer request, such as a stale search, is not modelled.
- The prompt text and its `json.loads` parsing are not modelled (backend/analyzer.py:35-77, backend/video_generator.py:10-184). The concepts and proposals are inputs.
- Environment-variable checks, FastAPI routing, CORS and request validation are not modelled. The keys are string parameters.
- AnalysisPanel.jsx is pure rendering and is not modelled.
- JSX rendering and CSS are not modelled.
- `/video-status/heygen`, `/pipeline/*` and `/heygen/*`, which the frontend calls, have no routes in backend/main.py.
  - The model takes those routes' replies as they are read.
  - It does not find that they are missing.
- `poll_hailuo_task` is not routed by backend/main.py. Its shared mapping is `KlingClient.PollFal`.
- `poll_runway_task` has no exception handler of its own; the status routes catch any exception from it and answer 502 "Status check failed: …" (backend/main.py:298-303 and :351-356). The routes are not part of this model, and `VideoGenerator.PollRunway` models only a retrieved task.
- Analyzer.AvgLikes: models `int(sum / total)` as exact truncating integer division, not the float division Python performs first. Rounding in the float division is not modelled; it matters only for sums of about 2^53 and more.
- PostGrid.FormatCount: gives the branch and the number. It does not give the text of `toFixed(1)` with its 'M'/'K' suffix, or `toLocaleString`.
- ShotstackClient.BackgroundClips and SubmitComposite: use a whole-number duration, as the pipeline sends. `round(t, 2)` and fractional durations are not modelled.
- AvatarStep.ApproxSeconds: uses `(10·words + 11) div 22`, the integer form of `Math.round(words / 2.2)`. The floating-point error of the division is not modelled.
- Whitespace and case are ASCII only. JavaScript's `\s`, Python's `strip()` and `lower()`/`upper()` also cover Unicode characters that this model does not, and Python's `split()` and `strip()` also treat the ASCII separators `\x1c`-`\x1f` as whitespace, which the model (space, tab, line feed, vertical tab, form feed, carriage return) does not.
- Caption cuts count characters, not UTF-16 code units or Python code points, where those differ.
- A missing key and an explicit `null` are both `None`. `p.get(k, 0)` returning `None` for a present-but-null key is not modelled.
- A non-dict `videos` entry in a fal.ai result and an array `detail` in an error reply are not modelled.
- `data.backgrounds` missing from a successful backgrounds reply is not modelled. The reply's list is taken as given.
- A missing `spoken_script` in the script preview reply is not modelled.
- PromptProposal.ProposalView.CompleteFetch: the no-proposal error text is the V8 engine's wording of the `TypeError`. Other engines word it differently.
- The background poll reply's missing `status` is read as no status.
- VideoPanel.Route: states the routing order. No lemma pairs the concrete platform labels the backend writes with a route.
