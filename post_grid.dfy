/** The grid of scraped posts: a copy of the list sorted by likes, most
    liked first and ties in their original order, one card per post with
    its counts abbreviated and its caption cut to 100 characters. */
module PostGrid {
  import opened Wrappers
  import opened BackendApi

  const CAPTION_LIMIT: nat := 100
  const ELLIPSIS: char := '…'

  /** The sort key `likesCount || 0`. */
  function Likes(p: PostSummary): int {
    p.likesCount.GetOr(0)
  }

  /** Most liked first. */
  predicate ByLikes(s: seq<PostSummary>) {
    forall i, j :: 0 <= i < j < |s| ==> Likes(s[i]) >= Likes(s[j])
  }

  /** The posts with `k` likes, in order. */
  function WithLikes(s: seq<PostSummary>, k: int): seq<PostSummary> {
    if s == [] then [] else (if Likes(s[0]) == k then [s[0]] else []) + WithLikes(s[1..], k)
  }

  /** `x` placed after every post with at least as many likes. */
  function Insert(s: seq<PostSummary>, x: PostSummary): (r: seq<PostSummary>)
    ensures |r| == |s| + 1
    ensures multiset(r) == multiset(s) + multiset{x}
  {
    if s == [] then [x]
    else if Likes(s[0]) >= Likes(x) then
      assert s == [s[0]] + s[1..];
      [s[0]] + Insert(s[1..], x)
    else [x] + s
  }

  /** `[...posts].sort((a, b) => (b.likesCount || 0) - (a.likesCount || 0))`:
      a permutation of the posts, most liked first, and the posts with the
      same likes in their original order, as the stable sort gives them. */
  function SortByLikes(s: seq<PostSummary>): (r: seq<PostSummary>)
    ensures multiset(r) == multiset(s)
    ensures ByLikes(r)
    ensures forall k :: WithLikes(r, k) == WithLikes(s, k)
  {
    if s == [] then []
    else
      var n := |s| - 1;
      var sorted := SortByLikes(s[..n]);
      assert s == s[..n] + [s[n]];
      InsertByLikes(sorted, s[n]);
      InsertWithLikes(sorted, s[n]);
      WithLikesAppend(s[..n], [s[n]]);
      Insert(sorted, s[n])
  }

  lemma {:induction false} InsertByLikes(s: seq<PostSummary>, x: PostSummary)
    requires ByLikes(s)
    ensures ByLikes(Insert(s, x))
  {
    if s != [] && Likes(s[0]) >= Likes(x) {
      var rest := Insert(s[1..], x);
      InsertByLikes(s[1..], x);
      forall j | 0 <= j < |rest|
        ensures Likes(s[0]) >= Likes(rest[j])
      {
        assert rest[j] in multiset(rest);
        if rest[j] != x {
          assert rest[j] in multiset(s[1..]);
          assert rest[j] in s[1..];
        }
      }
    }
  }

  lemma {:induction false} InsertWithLikes(s: seq<PostSummary>, x: PostSummary)
    requires ByLikes(s)
    ensures forall k :: WithLikes(Insert(s, x), k) == WithLikes(s, k) + WithLikes([x], k)
  {
    if s == [] {
      assert [x] == [x] + [];
    } else if Likes(s[0]) >= Likes(x) {
      InsertWithLikes(s[1..], x);
      assert Insert(s, x) == [s[0]] + Insert(s[1..], x);
      assert Insert(s, x)[1..] == Insert(s[1..], x);
    } else {
      forall k
        ensures WithLikes(Insert(s, x), k) == WithLikes(s, k) + WithLikes([x], k)
      {
        assert Insert(s, x) == [x] + s;
        assert ([x] + s)[1..] == s;
        if Likes(x) == k {
          NoneWithLikes(s, k);
        }
      }
    }
  }

  lemma {:induction false} NoneWithLikes(s: seq<PostSummary>, k: int)
    requires ByLikes(s)
    requires s != [] ==> Likes(s[0]) < k
    ensures WithLikes(s, k) == []
  {
    if s != [] {
      if |s| > 1 {
        assert Likes(s[1]) <= Likes(s[0]);
      }
      NoneWithLikes(s[1..], k);
    }
  }

  lemma {:induction false} WithLikesAppend(a: seq<PostSummary>, b: seq<PostSummary>)
    ensures forall k :: WithLikes(a + b, k) == WithLikes(a, k) + WithLikes(b, k)
  {
    if a == [] {
      assert a + b == b;
    } else {
      assert (a + b)[1..] == a[1..] + b;
      WithLikesAppend(a[1..], b);
    }
  }

  /** The caption a card shows: none when missing or empty, the caption
      itself up to 100 characters, else its first 100 characters and '…'. */
  function CardCaption(caption: Option<string>): (r: string)
    ensures !Text.Truthy(caption) ==> r == ""
    ensures Text.Truthy(caption) && |caption.value| <= CAPTION_LIMIT ==> r == caption.value
    ensures Text.Truthy(caption) && |caption.value| > CAPTION_LIMIT ==>
              r == caption.value[..CAPTION_LIMIT] + [ELLIPSIS]
    ensures |r| <= CAPTION_LIMIT + 1
  {
    if !Text.Truthy(caption) then ""
    else
      var c := caption.value;
      Text.Take(c, CAPTION_LIMIT) + (if |c| > CAPTION_LIMIT then [ELLIPSIS] else [])
  }

  /** Which form `formatNumber` gives a count: a dash only when it is
      missing, millions from 1,000,000, thousands from 1,000, else plain. */
  datatype CountText = Dash | Millions(n: int) | Thousands(n: int) | Plain(n: int)

  function FormatCount(n: Option<int>): (t: CountText)
    ensures t == Dash <==> n.None?
    ensures t.Millions? <==> n.Some? && n.value >= 1000000
    ensures t.Thousands? <==> n.Some? && 1000 <= n.value < 1000000
    ensures t.Plain? <==> n.Some? && n.value < 1000
    ensures !t.Dash? ==> t.n == n.value
  {
    match n
    case None => Dash
    case Some(v) => if v >= 1000000 then Millions(v) else if v >= 1000 then Thousands(v) else Plain(v)
  }

  /** A zero count is shown as a number. */
  lemma ZeroIsNotDash()
    ensures FormatCount(Some(0)) == Plain(0)
  {
  }

  datatype TypeIcon = VideoIcon | SidecarIcon | ImageIcon

  function IconFor(postType: Option<string>): (i: TypeIcon)
    ensures i == VideoIcon <==> postType == Some("Video")
    ensures i == SidecarIcon <==> postType == Some("Sidecar")
  {
    if postType == Some("Video") then VideoIcon
    else if postType == Some("Sidecar") then SidecarIcon
    else ImageIcon
  }

  /** One card: the link, the icon, the two counts and the caption. */
  datatype Card = Card(href: string, icon: TypeIcon, likes: CountText, comments: CountText, caption: string)

  function CardOf(p: PostSummary): (c: Card)
    ensures c.href == Text.OrDefault(p.url, "#")
    ensures c.icon == IconFor(p.postType)
    ensures c.likes == FormatCount(p.likesCount) && c.comments == FormatCount(p.commentsCount)
    ensures c.caption == CardCaption(p.caption)
  {
    Card(Text.OrDefault(p.url, "#"), IconFor(p.postType), FormatCount(p.likesCount),
         FormatCount(p.commentsCount), CardCaption(p.caption))
  }

  datatype Grid = NoPosts | Cards(cards: seq<Card>)

  /** The grid: the no-posts message for a missing or empty list, else the
      cards of the sorted copy. */
  function GridOf(posts: Option<seq<PostSummary>>): (g: Grid)
    ensures g == NoPosts <==> posts.None? || posts.value == []
    ensures g.Cards? ==> |g.cards| == |posts.value|
    ensures g.Cards? ==> forall i :: 0 <= i < |g.cards| ==> g.cards[i] == CardOf(SortByLikes(posts.value)[i])
  {
    if posts.None? || posts.value == [] then NoPosts
    else
      var sorted := SortByLikes(posts.value);
      assert |sorted| == |multiset(sorted)| == |posts.value|;
      Cards(seq(|sorted|, i requires 0 <= i < |sorted| => CardOf(sorted[i])))
  }

  /** The first card is a most liked post. */
  lemma FirstCardMostLiked(posts: seq<PostSummary>, p: PostSummary)
    requires p in posts
    ensures SortByLikes(posts) != [] && Likes(SortByLikes(posts)[0]) >= Likes(p)
  {
    var sorted := SortByLikes(posts);
    assert p in multiset(sorted);
    assert p in sorted;
  }
}
