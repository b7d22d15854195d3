/** Shotstack: the music catalogue, the four-track composite timeline
    (looped background, chroma-keyed avatar, hook caption, music) and
    polling a render. Durations are whole seconds. */
module ShotstackClient {
  import opened Wrappers
  import opened ProviderStatus

  /** Background clips are 10 seconds long; they are tiled to fill the video. */
  const BG_CLIP_SECONDS: nat := 10

  datatype MusicTrack = MusicTrack(id: string, name: string, url: string)

  const MUSIC_BASE: string := "https://shotstack-assets.s3-ap-southeast-2.amazonaws.com/music/unminus/"

  /** The catalogue in its declaration order; "hype" is the fallback. */
  const MUSIC_TRACKS: seq<MusicTrack> := [
    MusicTrack("hype", "\U{1F525} Hype", MUSIC_BASE + "lit.mp3"),
    MusicTrack("chill", "\U{2744}\U{FE0F} Chill", MUSIC_BASE + "palmtrees.mp3"),
    MusicTrack("motivational", "\U{1F4AA} Motivational", MUSIC_BASE + "sugar.mp3"),
    MusicTrack("corporate", "\U{1F4BC} Corporate", MUSIC_BASE + "dreams.mp3"),
    MusicTrack("dramatic", "\U{1F3AC} Dramatic", MUSIC_BASE + "ambition.mp3")
  ]

  /** An entry of `get_music_tracks()`: `{id, name}`. */
  datatype TrackInfo = TrackInfo(id: string, name: string)

  function TrackInfos(table: seq<MusicTrack>): (r: seq<TrackInfo>)
    ensures |r| == |table|
    ensures forall i :: 0 <= i < |table| ==> r[i] == TrackInfo(table[i].id, table[i].name)
  {
    if table == [] then [] else [TrackInfo(table[0].id, table[0].name)] + TrackInfos(table[1..])
  }

  /** `get_music_tracks`: one entry per track, in catalogue order. */
  function GetMusicTracks(): (r: seq<TrackInfo>)
    ensures |r| == |MUSIC_TRACKS| == 5
    ensures forall i :: 0 <= i < |r| ==> r[i].id == MUSIC_TRACKS[i].id && r[i].name == MUSIC_TRACKS[i].name
    ensures forall i, j :: 0 <= i < j < |r| ==> r[i].id != r[j].id
  {
    TrackInfos(MUSIC_TRACKS)
  }

  /** The URL of the track with this id, or the "hype" track's URL. */
  function MusicUrl(id: string): (url: string)
    ensures forall i :: 0 <= i < |MUSIC_TRACKS| && MUSIC_TRACKS[i].id == id ==> url == MUSIC_TRACKS[i].url
    ensures (forall i :: 0 <= i < |MUSIC_TRACKS| ==> MUSIC_TRACKS[i].id != id) ==> url == MUSIC_TRACKS[0].url
  {
    Lookup(MUSIC_TRACKS, id).GetOr(MUSIC_TRACKS[0].url)
  }

  function Lookup(table: seq<MusicTrack>, id: string): (r: Option<string>)
    ensures r.Some? <==> exists i :: 0 <= i < |table| && table[i].id == id
    ensures r.Some? ==> exists i :: 0 <= i < |table| && table[i].id == id && r.value == table[i].url &&
                                  forall j :: 0 <= j < i ==> table[j].id != id
  {
    if table == [] then None
    else if table[0].id == id then Some(table[0].url)
    else
      var r := Lookup(table[1..], id);
      assert forall i :: 0 < i < |table| ==> table[i] == table[1..][i - 1];
      if r.Some? then
        var k :| 0 <= k < |table[1..]| && table[1..][k].id == id && r.value == table[1..][k].url &&
                 forall j :: 0 <= j < k ==> table[1..][j].id != id;
        assert table[k + 1].id == id && r.value == table[k + 1].url;
        r
      else r
  }

  /** A clip's asset: a video (with its volume and whether the green screen
      is keyed out), an HTML caption, or an audio track. */
  datatype Asset = VideoAsset(src: string, volume: real, chromaKey: bool)
                 | HtmlAsset(html: string)
                 | AudioAsset(src: string, volume: real)

  datatype Clip = Clip(asset: Asset, start: real, length: real)

  /** The timeline's tracks, bottom first. */
  datatype Timeline = Timeline(tracks: seq<seq<Clip>>)

  /** The `i`-th background tile of a video `duration` seconds long. */
  function Tile(src: string, i: nat, duration: nat): Clip
    requires BG_CLIP_SECONDS * i < duration
  {
    var left := duration - BG_CLIP_SECONDS * i;
    Clip(VideoAsset(src, 0.0, false), (BG_CLIP_SECONDS * i) as real,
         (if left < BG_CLIP_SECONDS then left else BG_CLIP_SECONDS) as real)
  }

  function TotalLength(clips: seq<Clip>): real {
    if clips == [] then 0.0 else TotalLength(clips[..|clips| - 1]) + clips[|clips| - 1].length
  }

  /** The background track: muted copies of the background video laid end to
      end from 0, each 10 seconds except a shorter last one, together exactly
      `duration` seconds long. */
  method BackgroundClips(src: string, duration: nat) returns (clips: seq<Clip>)
    ensures |clips| == (duration + BG_CLIP_SECONDS - 1) / BG_CLIP_SECONDS
    ensures forall i :: 0 <= i < |clips| ==> clips[i].asset == VideoAsset(src, 0.0, false)
    ensures |clips| > 0 ==> clips[0].start == 0.0
    ensures forall i :: 0 <= i < |clips| - 1 ==> clips[i + 1].start == clips[i].start + clips[i].length
    ensures forall i :: 0 <= i < |clips| ==> 0.0 < clips[i].length <= BG_CLIP_SECONDS as real
    ensures forall i :: 0 <= i < |clips| - 1 ==> clips[i].length == BG_CLIP_SECONDS as real
    ensures TotalLength(clips) == duration as real
  {
    clips := [];
    var t: nat := 0;
    while t < duration
      invariant t <= duration
      invariant t % BG_CLIP_SECONDS == 0 || t == duration
      invariant |clips| == (t + BG_CLIP_SECONDS - 1) / BG_CLIP_SECONDS
      invariant t < duration ==> t == BG_CLIP_SECONDS * |clips|
      invariant forall i :: 0 <= i < |clips| ==> BG_CLIP_SECONDS * i < duration && clips[i] == Tile(src, i, duration)
      invariant TotalLength(clips) == t as real
    {
      var len := if duration - t < BG_CLIP_SECONDS then duration - t else BG_CLIP_SECONDS;
      var c := Clip(VideoAsset(src, 0.0, false), t as real, len as real);
      assert c == Tile(src, |clips|, duration);
      assert (clips + [c])[..|clips|] == clips;
      clips := clips + [c];
      t := t + len;
    }
    forall i | 0 <= i < |clips| - 1
      ensures clips[i].length == BG_CLIP_SECONDS as real
    {
      assert BG_CLIP_SECONDS * (i + 1) < duration;
    }
  }

  /** The caption's HTML. */
  function CaptionHtml(hook: string): string {
    "<p>" + hook + "</p>"
  }

  /** What `submit_composite` returns: the render id, or the error. */
  datatype RenderResult = RenderResult(
    renderId: Option<string>,
    status: Status,
    videoUrl: Option<string>,
    error: Option<string>,
    shotstackStatus: Option<string>)

  /** `submit_composite`: the background track, the chroma-keyed avatar at
      full volume for the whole video, the hook caption for its first 3.5
      seconds and the chosen (or "hype") music at low volume for the whole
      video; then the render id, or the error. */
  method SubmitComposite(heygenUrl: string, backgroundUrl: string, hookText: string,
                         musicTrackId: string, duration: nat, call: SubmitCall)
    returns (timeline: Timeline, r: RenderResult)
    ensures |timeline.tracks| == 4
    ensures TotalLength(timeline.tracks[0]) == duration as real
    ensures forall i :: 0 <= i < |timeline.tracks[0]| ==> timeline.tracks[0][i].asset == VideoAsset(backgroundUrl, 0.0, false)
    ensures timeline.tracks[1] == [Clip(VideoAsset(heygenUrl, 1.0, true), 0.0, duration as real)]
    ensures timeline.tracks[2] == [Clip(HtmlAsset(CaptionHtml(hookText)), 0.0, 3.5)]
    ensures timeline.tracks[3] == [Clip(AudioAsset(MusicUrl(musicTrackId), 0.12), 0.0, duration as real)]
    ensures call.Submitted? ==> r == RenderResult(call.jobId, Pending, None, None, None)
    ensures call.Raised? ==> r == RenderResult(None, Error, None, Some(call.message), None)
  {
    var musicUrl := MusicUrl(musicTrackId);
    var background := BackgroundClips(backgroundUrl, duration);
    var avatar := [Clip(VideoAsset(heygenUrl, 1.0, true), 0.0, duration as real)];
    var caption := [Clip(HtmlAsset(CaptionHtml(hookText)), 0.0, 3.5)];
    var music := [Clip(AudioAsset(musicUrl, 0.12), 0.0, duration as real)];
    timeline := Timeline([background, avatar, caption, music]);
    match call
    case Submitted(id) => r := RenderResult(id, Pending, None, None, None);
    case Raised(msg) => r := RenderResult(None, Error, None, Some(msg), None);
  }

  /** The `response` of a render status request (a missing status counts as
      "queued", a missing error as "Render failed"), or the exception. */
  datatype ShotstackPoll = RenderData(status: Option<string>, url: Option<string>, error: Option<string>)
                         | ShotstackRaised(message: string)

  /** `poll_composite`: "done" is 'succeeded' with the output URL, "failed"
      and "cancelled" are 'failed', an exception is 'error', anything else
      (queued, rendering, saving) is 'pending' with Shotstack's own status. */
  function PollComposite(renderId: string, p: ShotstackPoll): (r: RenderResult)
    ensures r.renderId == Some(renderId)
    ensures r.status != Cancelled
    ensures r.status == Succeeded <==> p.RenderData? && p.status == Some("done")
    ensures r.status == Failed <==> p.RenderData? && (p.status == Some("failed") || p.status == Some("cancelled"))
    ensures r.status == Error <==> p.ShotstackRaised?
    ensures r.status == Succeeded ==> r.videoUrl == p.url
    ensures r.status != Succeeded ==> r.videoUrl == None
    ensures r.status == Failed ==> r.error == Some(p.error.GetOr("Render failed"))
    ensures r.status == Error ==> r.error == Some(p.message)
    ensures r.status == Pending ==> r.error == None && r.shotstackStatus == Some(p.status.GetOr("queued"))
    ensures r.status != Pending ==> r.shotstackStatus == None
  {
    match p
    case ShotstackRaised(msg) => RenderResult(Some(renderId), Error, None, Some(msg), None)
    case RenderData(status, url, err) =>
      var s := status.GetOr("queued");
      if s == "done" then RenderResult(Some(renderId), Succeeded, url, None, None)
      else if s == "failed" || s == "cancelled" then RenderResult(Some(renderId), Failed, None, Some(err.GetOr("Render failed")), None)
      else RenderResult(Some(renderId), Pending, None, None, Some(s))
  }
}
