/** The pipeline screen as an object: its three stage records and the music
    list are fields, each asynchronous handler is a `Begin…` method (what runs
    before the request) and a `Complete…` method (folding the request's
    outcome in), and each poll tick is a method given the tick's replies. */
module PipelineViewModel {
  import opened Wrappers
  import opened Text
  import opened ProviderStatus
  import opened PipelineState
  import ShotstackClient

  /** The avatar request body's variable part; an empty script is sent as null. */
  datatype AvatarRequest = AvatarRequest(avatarId: string, voiceId: string, spokenScript: Option<string>)

  datatype BackgroundsRequest = BackgroundsRequest(promptA: string, promptB: string, model: string)

  /** The composite request body. */
  datatype CompositeRequest = CompositeRequest(heygenVideoUrl: string, backgroundVideoUrl: Option<string>,
                                               hookText: string, musicTrackId: string, duration: nat)

  /** The music list fetch: it threw, or gave a body whose `tracks` may be missing. */
  datatype MusicReply = MusicThrown | MusicBody(tracks: Option<seq<ShotstackClient.TrackInfo>>)

  class PipelineView {
    var step2: Step2
    var step3: Step3
    var step4: Step4
    var musicTracks: seq<ShotstackClient.TrackInfo>
    /** The analysis's `video_proposal.hook`, when there is one. */
    const hook: Option<string>

    /** The composite list never holds two records for one slot. */
    predicate Valid()
      reads this
    {
      AtMostOnePerSlot(step4.composites)
    }

    constructor (hook: Option<string>)
      ensures Valid()
      ensures step2 == INITIAL_STEP2 && step3 == INITIAL_STEP3 && step4 == INITIAL_STEP4
      ensures musicTracks == [] && this.hook == hook
    {
      step2 := INITIAL_STEP2;
      step3 := INITIAL_STEP3;
      step4 := INITIAL_STEP4;
      musicTracks := [];
      this.hook := hook;
    }

    /** The one-time music list load; a thrown fetch leaves the list empty. */
    method LoadMusicTracks(reply: MusicReply)
      modifies this
      ensures reply.MusicThrown? ==> musicTracks == old(musicTracks)
      ensures reply.MusicBody? ==> musicTracks == reply.tracks.GetOr([])
      ensures step2 == old(step2) && step3 == old(step3) && step4 == old(step4)
    {
      if reply.MusicBody? {
        musicTracks := reply.tracks.GetOr([]);
      }
    }

    method SelectMusic(id: string)
      requires Valid()
      modifies this
      ensures Valid()
      ensures step4 == old(step4).(selectedMusic := id)
      ensures step2 == old(step2) && step3 == old(step3) && musicTracks == old(musicTracks)
    {
      step4 := step4.(selectedMusic := id);
    }

    /** `handleGenerateAvatar` up to its request: the avatar record restarts
      as 'loading' and generated. */
    method BeginAvatar(avatarId: string, voiceId: string, spokenScript: string) returns (req: AvatarRequest)
      modifies this
      ensures step2 == AVATAR_LOADING
      ensures req.avatarId == avatarId && req.voiceId == voiceId
      ensures req.spokenScript == (if spokenScript == "" then None else Some(spokenScript))
      ensures step3 == old(step3) && step4 == old(step4) && musicTracks == old(musicTracks)
    {
      step2 := AVATAR_LOADING;
      req := AvatarRequest(avatarId, voiceId, if spokenScript == "" then None else Some(spokenScript));
    }

    method CompleteAvatar(outcome: Response<seq<VideoRecord>>)
      modifies this
      ensures step2 == PipelineState.CompleteAvatar(old(step2), outcome)
      ensures step3 == old(step3) && step4 == old(step4) && musicTracks == old(musicTracks)
    {
      step2 := PipelineState.CompleteAvatar(step2, outcome);
    }

    /** One avatar poll tick; nothing is asked unless the avatar is loading
      with a video id. */
    method PollAvatar(reply: PollReply) returns (polled: bool)
      modifies this
      ensures polled == AvatarPolling(old(step2))
      ensures polled ==> step2 == ApplyAvatarReply(old(step2), reply)
      ensures !polled ==> step2 == old(step2)
      ensures step3 == old(step3) && step4 == old(step4) && musicTracks == old(musicTracks)
    {
      polled := AvatarPolling(step2);
      if polled {
        step2 := ApplyAvatarReply(step2, reply);
      }
    }

    /** `handleGenerateBackgrounds` up to its request. */
    method BeginBackgrounds(promptA: string, promptB: string, model: string) returns (req: BackgroundsRequest)
      modifies this
      ensures step3 == BACKGROUNDS_LOADING
      ensures req == BackgroundsRequest(promptA, promptB, model)
      ensures step2 == old(step2) && step4 == old(step4) && musicTracks == old(musicTracks)
    {
      step3 := BACKGROUNDS_LOADING;
      req := BackgroundsRequest(promptA, promptB, model);
    }

    method CompleteBackgrounds(outcome: Response<seq<Background>>)
      modifies this
      ensures step3 == PipelineState.CompleteBackgrounds(old(step3), outcome)
      ensures step2 == old(step2) && step4 == old(step4) && musicTracks == old(musicTracks)
    {
      step3 := PipelineState.CompleteBackgrounds(step3, outcome);
    }

    /** One background poll tick: a request per pending background with a
      task id, in list order, to its provider's route, each reply folded in
      as it arrives. The stage status is never touched. */
    method PollBackgrounds(replies: seq<PollReply>) returns (requests: seq<PollRequest>)
      requires |replies| == |PendingTaskIds(step3.backgrounds)|
      modifies this
      ensures requests == PollRequests(old(step3.backgrounds))
      ensures step3 == old(step3).(backgrounds := ApplyBackgroundReplies(old(step3.backgrounds), PendingTaskIds(old(step3.backgrounds)), replies))
      ensures step2 == old(step2) && step4 == old(step4) && musicTracks == old(musicTracks)
    {
      requests := PollRequests(step3.backgrounds);
      var ids := PendingTaskIds(step3.backgrounds);
      ghost var start := step3.backgrounds;
      for i := 0 to |ids|
        invariant step3 == old(step3).(backgrounds := ApplyBackgroundReplies(start, ids[..i], replies[..i]))
        invariant step2 == old(step2) && step4 == old(step4) && musicTracks == old(musicTracks)
      {
        assert ids[..i + 1][..i] == ids[..i] && replies[..i + 1][..i] == replies[..i];
        step3 := step3.(backgrounds := ApplyBackgroundReply(step3.backgrounds, ids[i], replies[i]));
      }
      assert ids[..|ids|] == ids && replies[..|ids|] == replies;
    }

    /** `handleComposite(slot)` up to its request: without a succeeded
      background for the slot, or without an avatar url, nothing happens;
      otherwise the slot is marked 'loading' and the request is built from
      the first such background and the spoken script's length. */
    method BeginComposite(slot: Slot) returns (req: Option<CompositeRequest>)
      requires Valid()
      modifies this
      ensures Valid()
      ensures req.None? <==> !CompositeAllowed(old(step2), old(step3), slot)
      ensures req.None? ==> step4 == old(step4)
      ensures req.Some? ==>
                && step4 == old(step4).(composites := MarkComposite(old(step4.composites), slot))
                && req.value.heygenVideoUrl == old(step2.videoUrl.value)
                && req.value.backgroundVideoUrl == FirstSucceeded(old(step3.backgrounds), slot).value.videoUrl
                && req.value.hookText == OrDefault(hook, "")
                && req.value.musicTrackId == old(step4.selectedMusic)
                && req.value.duration == CompositeDuration(|Words(old(step2.spokenScript))|)
      ensures step2 == old(step2) && step3 == old(step3) && musicTracks == old(musicTracks)
    {
      var bg := FirstSucceeded(step3.backgrounds, slot);
      if bg.None? || !Truthy(step2.videoUrl) {
        return None;
      }
      var hookText := OrDefault(hook, "");
      var duration := CompositeDuration(|Words(step2.spokenScript)|);
      MarkCompositeSlots(step4.composites, slot);
      step4 := step4.(composites := MarkComposite(step4.composites, slot));
      req := Some(CompositeRequest(step2.videoUrl.value, bg.value.videoUrl, hookText, step4.selectedMusic, duration));
    }

    method CompleteComposite(slot: Slot, outcome: Response<Option<string>>)
      requires Valid()
      modifies this
      ensures Valid()
      ensures step4 == old(step4).(composites := PipelineState.CompleteComposite(old(step4.composites), slot, outcome))
      ensures step2 == old(step2) && step3 == old(step3) && musicTracks == old(musicTracks)
    {
      var next := PipelineState.CompleteComposite(step4.composites, slot, outcome);
      SameSlotsKeepInvariant(next, step4.composites);
      step4 := step4.(composites := next);
    }

    /** One composite poll tick: a request per pending composite with a
      render id, each reply folded in as it arrives. */
    method PollComposites(replies: seq<PollReply>)
      requires Valid()
      requires |replies| == |PendingRenderIds(step4.composites)|
      modifies this
      ensures Valid()
      ensures step4 == old(step4).(composites := ApplyCompositeReplies(old(step4.composites), PendingRenderIds(old(step4.composites)), replies))
      ensures step2 == old(step2) && step3 == old(step3) && musicTracks == old(musicTracks)
    {
      var ids := PendingRenderIds(step4.composites);
      ghost var start := step4.composites;
      for i := 0 to |ids|
        invariant step4 == old(step4).(composites := ApplyCompositeReplies(start, ids[..i], replies[..i]))
        invariant step2 == old(step2) && step3 == old(step3) && musicTracks == old(musicTracks)
      {
        assert ids[..i + 1][..i] == ids[..i] && replies[..i + 1][..i] == replies[..i];
        step4 := step4.(composites := ApplyCompositeReply(step4.composites, ids[i], replies[i]));
      }
      assert ids[..|ids|] == ids && replies[..|ids|] == replies;
      CompositeTickSlots(start, ids, replies);
      SameSlotsKeepInvariant(step4.composites, start);
    }
  }
}
