/** The video cards panel: each card polls its provider's status route until
    its status is terminal, a manual refresh re-checks every unfinished
    card, and the header counts finished, ready and pending cards. Card
    statuses are the server's raw text, compared lower-cased. */
module VideoPanel {
  import opened Wrappers
  import opened Text
  import opened ProviderStatus

  /** The fields of a video card the panel reads and updates. */
  datatype Card = Card(taskId: Option<string>, platform: Option<string>, status: Option<string>,
                       videoUrl: Option<string>, error: Option<string>)

  /** A status route's JSON body. */
  datatype StatusData = StatusData(status: Option<string>, videoUrl: Option<string>, error: Option<string>)

  /** A status request's outcome: thrown, answered non-ok, or answered ok with a body. */
  datatype StatusReply = ReplyThrown | ReplyNotOk | ReplyOk(data: StatusData)

  /** The card a backend video record is shown as. */
  function CardOf(v: VideoRecord): Card {
    Card(v.taskId, Some(v.platform), Some(StatusText(v.status)), v.videoUrl, v.error)
  }

  // ---------------------------------------------------------------- routing

  datatype Provider = Luma | Pika | Hailuo | HeyGen | Kling | Runway

  function ProviderPath(p: Provider): string {
    match p
    case Luma => "luma"
    case Pika => "pika"
    case Hailuo => "hailuo"
    case HeyGen => "heygen"
    case Kling => "kling"
    case Runway => "runway"
  }

  /** The route for a lower-cased platform name, tested in this order:
      contains "luma", is "pika", is "hailuo", is "heygen", contains "fal"
      or is "kling", and Runway for everything else. */
  function Route(platform: string): (p: Provider)
    ensures p == Luma <==> Contains(platform, "luma")
    ensures p == Pika <==> !Contains(platform, "luma") && platform == "pika"
    ensures p == Hailuo <==> !Contains(platform, "luma") && platform == "hailuo"
    ensures p == HeyGen <==> !Contains(platform, "luma") && platform == "heygen"
    ensures p == Kling <==> !Contains(platform, "luma") && platform !in {"pika", "hailuo", "heygen"}
                            && (Contains(platform, "fal") || platform == "kling")
    ensures p == Runway <==> !Contains(platform, "luma") && platform !in {"pika", "hailuo", "heygen", "kling"}
                             && !Contains(platform, "fal")
  {
    if Contains(platform, "luma") then Luma
    else if platform == "pika" then Pika
    else if platform == "hailuo" then Hailuo
    else if platform == "heygen" then HeyGen
    else if Contains(platform, "fal") || platform == "kling" then Kling
    else Runway
  }

  /** The card's own poller: `platform?.toLowerCase() || ''`. */
  function CardProvider(c: Card): Provider {
    Route(if c.platform.Some? then Lower(c.platform.value) else "")
  }

  /** The refresh button: `(platform || '').toLowerCase()`. */
  function RefreshProvider(c: Card): Provider {
    Route(Lower(OrDefault(c.platform, "")))
  }

  /** Both routing sites pick the same provider for every card. */
  lemma RoutingAgrees(c: Card)
    ensures CardProvider(c) == RefreshProvider(c)
  {
  }

  // ---------------------------------------------------------------- statuses

  /** The terminal statuses "succeeded", "failed", "error", "cancelled" and
      "timeout", in any letter case; a missing status is not terminal. */
  predicate IsTerminal(status: Option<string>) {
    status.Some? && Lower(status.value) in {"succeeded", "failed", "error", "cancelled", "timeout"}
  }

  /** A card has a poller exactly when it has a task id and is not finished. */
  predicate Polls(c: Card) {
    Truthy(c.taskId) && !IsTerminal(c.status)
  }

  /** A backend card is polled exactly while it is pending with a task id. */
  lemma BackendCardPolls(v: VideoRecord)
    ensures Polls(CardOf(v)) <==> Truthy(v.taskId) && v.status == Pending
  {
    match v.status
    case Succeeded => assert Lower("succeeded") == "succeeded";
    case Failed => assert Lower("failed") == "failed";
    case Cancelled => assert Lower("cancelled") == "cancelled";
    case Error => assert Lower("error") == "error";
    case Pending => assert Lower("pending") == "pending";
  }

  datatype Badge = ReadyBadge | FailedBadge | TimedOutBadge | CancelledBadge | RenderingBadge

  /** `StatusBadge`: the five keyed statuses, lower-cased, have their own
      badge; everything else, 'pending' and a missing status included, shows
      as rendering. */
  function BadgeOf(status: Option<string>): (b: Badge)
    ensures b == RenderingBadge <==> !IsTerminal(status)
    ensures status.Some? && Lower(status.value) == "succeeded" <==> b == ReadyBadge
    ensures status.Some? && Lower(status.value) in {"failed", "error"} <==> b == FailedBadge
    ensures status.Some? && Lower(status.value) == "timeout" <==> b == TimedOutBadge
    ensures status.Some? && Lower(status.value) == "cancelled" <==> b == CancelledBadge
  {
    if status.None? then RenderingBadge
    else
      var l := Lower(status.value);
      if l == "succeeded" then ReadyBadge
      else if l == "error" || l == "failed" then FailedBadge
      else if l == "timeout" then TimedOutBadge
      else if l == "cancelled" then CancelledBadge
      else RenderingBadge
  }

  /** `handleStatusUpdate`'s new card: the reply's status and error, and its
      url unless empty, in which case the old url stays. */
  function UpdateCard(c: Card, d: StatusData): (r: Card)
    ensures r.taskId == c.taskId && r.platform == c.platform
    ensures r.status == d.status && r.error == d.error
    ensures Truthy(d.videoUrl) ==> r.videoUrl == d.videoUrl
    ensures !Truthy(d.videoUrl) ==> r.videoUrl == c.videoUrl
  {
    c.(status := d.status, videoUrl := Or(d.videoUrl, c.videoUrl), error := d.error)
  }

  // ---------------------------------------------------------------- counts

  /** Cards with a terminal status. */
  function DoneCount(vs: seq<Card>): nat {
    if vs == [] then 0 else DoneCount(vs[..|vs| - 1]) + if IsTerminal(vs[|vs| - 1].status) then 1 else 0
  }

  /** Cards whose lower-cased status is "succeeded". */
  function ReadyCount(vs: seq<Card>): nat {
    if vs == [] then 0
    else ReadyCount(vs[..|vs| - 1]) + if vs[|vs| - 1].status.Some? && Lower(vs[|vs| - 1].status.value) == "succeeded" then 1 else 0
  }

  /** Cards still polling. */
  function PendingCount(vs: seq<Card>): nat {
    if vs == [] then 0 else PendingCount(vs[..|vs| - 1]) + if Polls(vs[|vs| - 1]) then 1 else 0
  }

  /** Ready cards are finished, and no card is both finished and pending. */
  lemma {:induction false} CountsBounded(vs: seq<Card>)
    ensures ReadyCount(vs) <= DoneCount(vs)
    ensures DoneCount(vs) + PendingCount(vs) <= |vs|
  {
    if vs != [] {
      CountsBounded(vs[..|vs| - 1]);
    }
  }

  // ---------------------------------------------------------------- refresh

  /** The indices a refresh re-checks: the cards that are not finished and
      have a task id, in order. */
  function RefreshTargets(vs: seq<Card>): (ts: seq<nat>)
    ensures forall k :: 0 <= k < |ts| ==> ts[k] < |vs|
    ensures forall i :: 0 <= i < |vs| ==> (i in ts <==> Polls(vs[i]))
    ensures forall j, k :: 0 <= j < k < |ts| ==> ts[j] < ts[k]
  {
    if vs == [] then []
    else
      var init := RefreshTargets(vs[..|vs| - 1]);
      assert forall i :: 0 <= i < |vs| - 1 ==> vs[..|vs| - 1][i] == vs[i];
      if Polls(vs[|vs| - 1]) then init + [|vs| - 1] else init
  }

  /** One refresh reply: an ok body updates the card whatever its status;
      a thrown or non-ok request changes nothing. */
  function ApplyRefreshReply(vs: seq<Card>, i: nat, reply: StatusReply): (r: seq<Card>)
    requires i < |vs|
    ensures |r| == |vs|
    ensures reply.ReplyOk? ==> r == vs[i := UpdateCard(vs[i], reply.data)]
    ensures !reply.ReplyOk? ==> r == vs
  {
    if reply.ReplyOk? then vs[i := UpdateCard(vs[i], reply.data)] else vs
  }

  function ApplyRefreshReplies(vs: seq<Card>, ts: seq<nat>, replies: seq<StatusReply>): (r: seq<Card>)
    requires |replies| == |ts|
    requires forall k :: 0 <= k < |ts| ==> ts[k] < |vs|
    ensures |r| == |vs|
  {
    if ts == [] then vs
    else
      var n := |ts| - 1;
      ApplyRefreshReply(ApplyRefreshReplies(vs, ts[..n], replies[..n]), ts[n], replies[n])
  }

  /** A refresh only changes the cards it re-checked. */
  lemma {:induction false} RefreshFrame(vs: seq<Card>, ts: seq<nat>, replies: seq<StatusReply>)
    requires |replies| == |ts|
    requires forall k :: 0 <= k < |ts| ==> ts[k] < |vs|
    ensures forall i :: 0 <= i < |vs| && i !in ts ==> ApplyRefreshReplies(vs, ts, replies)[i] == vs[i]
  {
    if ts != [] {
      var n := |ts| - 1;
      RefreshFrame(vs, ts[..n], replies[..n]);
      assert forall i :: i in ts[..n] ==> i in ts;
    }
  }

  /** The panel's card list and its refresh flag. */
  class PanelView {
    var videos: seq<Card>
    var refreshing: bool

    constructor (initial: seq<Card>)
      ensures videos == initial && !refreshing
    {
      videos := initial;
      refreshing := false;
    }

    /** `handleStatusUpdate(i, d)`: only card `i` changes. */
    method HandleStatusUpdate(i: nat, d: StatusData)
      requires i < |videos|
      modifies this
      ensures videos == old(videos)[i := UpdateCard(old(videos)[i], d)]
      ensures refreshing == old(refreshing)
    {
      var updated := videos;
      updated := updated[i := UpdateCard(updated[i], d)];
      videos := updated;
    }

    /** One tick of card `i`'s poller. A card without a poller asks nothing;
      a thrown or non-ok request and a 'pending' body change nothing; any
      other body updates the card and stops its poller. */
    method PollCard(i: nat, reply: StatusReply) returns (stopped: bool)
      requires i < |videos|
      modifies this
      ensures !Polls(old(videos[i])) ==> !stopped && videos == old(videos)
      ensures stopped <==> Polls(old(videos[i])) && reply.ReplyOk? && reply.data.status != Some("pending")
      ensures stopped ==> videos == old(videos)[i := UpdateCard(old(videos)[i], reply.data)]
      ensures !stopped ==> videos == old(videos)
      ensures refreshing == old(refreshing)
    {
      stopped := false;
      if Polls(videos[i]) && reply.ReplyOk? && reply.data.status != Some("pending") {
        HandleStatusUpdate(i, reply.data);
        stopped := true;
      }
    }

    /** `handleRefreshAll`: one request per refresh target, each reply folded
      in; the flag is set for the duration and cleared at the end. */
    method RefreshAll(replies: seq<StatusReply>)
      requires |replies| == |RefreshTargets(videos)|
      modifies this
      ensures videos == ApplyRefreshReplies(old(videos), RefreshTargets(old(videos)), replies)
      ensures !refreshing
    {
      refreshing := true;
      var ts := RefreshTargets(videos);
      ghost var start := videos;
      for k := 0 to |ts|
        invariant |videos| == |start|
        invariant videos == ApplyRefreshReplies(start, ts[..k], replies[..k])
      {
        assert ts[..k + 1][..k] == ts[..k] && replies[..k + 1][..k] == replies[..k];
        if replies[k].ReplyOk? {
          HandleStatusUpdate(ts[k], replies[k].data);
        }
      }
      assert ts[..|ts|] == ts && replies[..|ts|] == replies;
      refreshing := false;
    }
  }
}
