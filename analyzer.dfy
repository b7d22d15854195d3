/** The trend analyzer's own computations around the text-generation call:
    the per-post summary lines sent in the prompt and the two headline
    figures, the truncated mean and the top likes. The reply is cleaned by
    `FenceStrip.StripFences` before it is parsed. */
module Analyzer {
  import opened Wrappers
  import opened Text
  import opened ApifyClient

  /** At most this many posts are summarised. */
  const MAX_SUMMARISED: nat := 50
  /** A summarised caption is cut to this many characters. */
  const SUMMARY_CAPTION: nat := 300

  /** The fields of one summary entry. */
  datatype PostLine = PostLine(number: nat, postType: string, likes: int, comments: int, caption: string, hashtags: string)

  /** The entry for the `number`-th post: type defaults to "unknown", likes
      and comments to 0, the caption is cut to 300 characters (missing is
      ""), and the hashtags are joined by single spaces. */
  function LineOf(number: nat, p: InstagramPost): (l: PostLine)
    ensures l.number == number
    ensures |l.caption| <= SUMMARY_CAPTION
    ensures l.caption == Take(OrDefault(p.caption, ""), SUMMARY_CAPTION)
    ensures p.caption.None? ==> l.caption == ""
    ensures l.likes == Likes(p) && l.comments == p.commentsCount.GetOr(0)
    ensures l.postType == p.postType.GetOr("unknown")
    ensures l.hashtags == Join(p.hashtags.GetOr([]), " ")
    ensures p.hashtags.None? ==> l.hashtags == ""
  {
    PostLine(number, p.postType.GetOr("unknown"), Likes(p), p.commentsCount.GetOr(0),
             Take(OrDefault(p.caption, ""), SUMMARY_CAPTION), Join(p.hashtags.GetOr([]), " "))
  }

  /** The summary entries: the first 50 posts (or all, when fewer), numbered
      1, 2, ... in order. */
  function SummaryLines(posts: seq<InstagramPost>): (ls: seq<PostLine>)
    ensures |ls| <= MAX_SUMMARISED && |ls| <= |posts|
    ensures |posts| <= MAX_SUMMARISED ==> |ls| == |posts|
    ensures |posts| > MAX_SUMMARISED ==> |ls| == MAX_SUMMARISED
    ensures forall i :: 0 <= i < |ls| ==> ls[i].number == i + 1 && ls[i] == LineOf(i + 1, posts[i])
  {
    var capped := Take(posts, MAX_SUMMARISED);
    seq(|capped|, i requires 0 <= i < |capped| => LineOf(i + 1, capped[i]))
  }

  /** The three-line text of one entry. */
  function RenderLine(l: PostLine): string {
    NatToString(l.number) + ". [" + l.postType + "] Likes: " + IntToString(l.likes)
      + " | Comments: " + IntToString(l.comments) + "\n   Caption: " + l.caption
      + "\n   Hashtags: " + l.hashtags
  }

  function RenderAll(ls: seq<PostLine>): (texts: seq<string>)
    ensures |texts| == |ls|
    ensures forall i :: 0 <= i < |ls| ==> texts[i] == RenderLine(ls[i])
  {
    seq(|ls|, i requires 0 <= i < |ls| => RenderLine(ls[i]))
  }

  /** `_summarize_posts`: one rendered entry per summarised post, separated
      by blank lines. */
  method SummarizePosts(posts: seq<InstagramPost>) returns (summary: string)
    ensures summary == Join(RenderAll(SummaryLines(posts)), "\n\n")
  {
    var capped := Take(posts, MAX_SUMMARISED);
    var lines: seq<string> := [];
    for i := 0 to |capped|
      invariant |lines| == i
      invariant forall k :: 0 <= k < i ==> lines[k] == RenderLine(LineOf(k + 1, capped[k]))
    {
      lines := lines + [RenderLine(LineOf(i + 1, capped[i]))];
    }
    assert lines == RenderAll(SummaryLines(posts));
    summary := Join(lines, "\n\n");
  }

  /** Integer division rounding toward zero, as Python's `int(a / b)` does
      for a positive divisor. */
  function TruncDiv(a: int, b: int): (q: int)
    requires b > 0
    ensures a >= 0 ==> q >= 0 && q * b <= a < (q + 1) * b
    ensures a < 0 ==> q <= 0 && (q - 1) * b < a <= q * b
  {
    if a >= 0 then a / b else -((-a) / b)
  }

  function SumLikes(posts: seq<InstagramPost>): int {
    if posts == [] then 0 else SumLikes(posts[..|posts| - 1]) + Likes(posts[|posts| - 1])
  }

  /** The prompt's average: 0 for no posts, otherwise the mean of the likes
      (missing counts as 0) truncated toward zero. */
  function AvgLikes(posts: seq<InstagramPost>): (avg: int)
    ensures posts == [] ==> avg == 0
    ensures posts != [] && SumLikes(posts) >= 0 ==> avg * |posts| <= SumLikes(posts) < (avg + 1) * |posts|
    ensures posts != [] && SumLikes(posts) < 0 ==> (avg - 1) * |posts| < SumLikes(posts) <= avg * |posts|
  {
    if posts == [] then 0 else TruncDiv(SumLikes(posts), |posts|)
  }

  predicate LikesWithin(posts: seq<InstagramPost>, lo: int, hi: int) {
    forall i :: 0 <= i < |posts| ==> lo <= Likes(posts[i]) <= hi
  }

  lemma {:induction false} SumWithin(posts: seq<InstagramPost>, lo: int, hi: int)
    requires LikesWithin(posts, lo, hi)
    ensures lo * |posts| <= SumLikes(posts) <= hi * |posts|
  {
    if posts != [] {
      var init := posts[..|posts| - 1];
      assert LikesWithin(init, lo, hi) by {
        forall i | 0 <= i < |init| ensures lo <= Likes(init[i]) <= hi {
          assert init[i] == posts[i];
        }
      }
      SumWithin(init, lo, hi);
    }
  }

  /** The average lies between the smallest and the largest likes. */
  lemma AvgLikesWithin(posts: seq<InstagramPost>, lo: int, hi: int)
    requires posts != [] && LikesWithin(posts, lo, hi)
    ensures lo <= AvgLikes(posts) <= hi
  {
    SumWithin(posts, lo, hi);
    var n, s, q := |posts|, SumLikes(posts), AvgLikes(posts);
    if s >= 0 {
      MulMonoLt(hi, q, n);
      MulMonoLe(q + 1, lo, n);
    } else {
      MulMonoLe(hi, q - 1, n);
      MulMonoLt(q, lo, n);
    }
  }

  lemma MulMonoLe(a: int, b: int, n: nat)
    ensures a <= b ==> a * n <= b * n
  {
  }

  lemma MulMonoLt(a: int, b: int, n: nat)
    requires n > 0
    ensures a < b ==> a * n < b * n
  {
    if a < b {
      MulMonoLe(1, b - a, n);
      assert b * n - a * n == (b - a) * n;
    }
  }

  /** The index Python's `max(posts, key=likes)` returns: a post with the
      most likes, the first such one. */
  function TopIndex(posts: seq<InstagramPost>): (k: nat)
    requires posts != []
    ensures k < |posts|
    ensures forall j :: 0 <= j < |posts| ==> Likes(posts[j]) <= Likes(posts[k])
    ensures forall j :: 0 <= j < k ==> Likes(posts[j]) < Likes(posts[k])
  {
    if |posts| == 1 then 0
    else
      var k := TopIndex(posts[..|posts| - 1]);
      if Likes(posts[|posts| - 1]) > Likes(posts[k]) then |posts| - 1 else k
  }

  /** The prompt's top likes: those of the top post, or 0 for no posts. */
  function TopLikes(posts: seq<InstagramPost>): (top: int)
    ensures posts == [] ==> top == 0
    ensures posts != [] ==> (exists i :: 0 <= i < |posts| && top == Likes(posts[i]))
    ensures forall i :: 0 <= i < |posts| ==> Likes(posts[i]) <= top
  {
    if posts == [] then 0 else Likes(posts[TopIndex(posts)])
  }

  /** The average never exceeds the top likes. */
  lemma AvgAtMostTop(posts: seq<InstagramPost>)
    ensures AvgLikes(posts) <= TopLikes(posts)
  {
    if posts != [] {
      MinBound(posts);
      AvgLikesWithin(posts, MinLikes(posts), TopLikes(posts));
    }
  }

  function MinLikes(posts: seq<InstagramPost>): int
    requires posts != []
  {
    if |posts| == 1 then Likes(posts[0])
    else
      var m := MinLikes(posts[..|posts| - 1]);
      if Likes(posts[|posts| - 1]) < m then Likes(posts[|posts| - 1]) else m
  }

  lemma {:induction false} MinBound(posts: seq<InstagramPost>)
    requires posts != []
    ensures forall i :: 0 <= i < |posts| ==> MinLikes(posts) <= Likes(posts[i])
  {
    if |posts| > 1 {
      var init := posts[..|posts| - 1];
      MinBound(init);
      forall i | 0 <= i < |posts| ensures MinLikes(posts) <= Likes(posts[i]) {
        if i < |posts| - 1 { assert init[i] == posts[i]; }
      }
    }
  }
}
