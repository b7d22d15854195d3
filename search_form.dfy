/** The Instagram search form: the hashtag field is split at whitespace and
    commas, one leading '#' is dropped from every piece and empty pieces are
    discarded; the content-type toggles add or remove a type. */
module SearchForm {
  import opened Wrappers
  import opened Text

  /** What the form hands to the page. */
  datatype Query = Query(hashtags: seq<string>, minLikes: int, maxPosts: int, contentTypes: seq<string>)

  const INITIAL_MIN_LIKES: int := 0
  const INITIAL_MAX_POSTS: int := 50
  const INITIAL_TYPES: seq<string> := ["posts", "reels"]

  /** `h.replace(/^#/, '')`: one leading '#' removed. */
  function StripHash(w: string): (r: string)
    ensures |w| > 0 && w[0] == '#' ==> r == w[1..]
    ensures !(|w| > 0 && w[0] == '#') ==> r == w
  {
    if |w| > 0 && w[0] == '#' then w[1..] else w
  }

  /** The pieces with their '#' removed and the empty ones dropped, in order. */
  function StripAll(pieces: seq<string>): (tags: seq<string>)
    ensures |tags| <= |pieces|
  {
    if pieces == [] then []
    else
      var t := StripHash(pieces[0]);
      (if t == "" then [] else [t]) + StripAll(pieces[1..])
  }

  /** The hashtags of the input field: the pieces between runs of
      whitespace and commas, each without one leading '#', the empty ones
      dropped. (The trim after the '#' is removed changes nothing, as no
      piece holds whitespace.) */
  function ParseHashtags(input: string): (tags: seq<string>)
  {
    StripAll(Runs(input, IsSpaceOrComma))
  }

  /** Every tag is non-empty and holds no whitespace or comma; each one is a
      piece of the input with exactly one leading '#' dropped, or a piece
      that did not start with '#'. */
  lemma ParseHashtagsSound(input: string)
    ensures forall t :: t in ParseHashtags(input) ==>
              IsWord(t, IsSpaceOrComma) &&
              (("#" + t) in Runs(input, IsSpaceOrComma) || (t in Runs(input, IsSpaceOrComma) && t[0] != '#'))
  {
    StripAllSound(Runs(input, IsSpaceOrComma));
  }

  lemma {:induction false} StripAllSound(pieces: seq<string>)
    requires forall w :: w in pieces ==> IsWord(w, IsSpaceOrComma)
    ensures forall t :: t in StripAll(pieces) ==>
              IsWord(t, IsSpaceOrComma) && (("#" + t) in pieces || (t in pieces && t[0] != '#'))
  {
    if pieces != [] {
      StripAllSound(pieces[1..]);
      var w := pieces[0];
      var t := StripHash(w);
      if t != "" {
        assert IsWord(w, IsSpaceOrComma);
        if w[0] == '#' {
          assert w == "#" + t;
          assert forall i :: 0 <= i < |t| ==> t[i] == w[i + 1];
        }
      }
      assert forall t :: t in StripAll(pieces) ==>
               (t == StripHash(w) && t != "") || t in StripAll(pieces[1..]);
    }
  }

  /** Prefixing every tag with '#'. */
  function Hashed(tags: seq<string>): (r: seq<string>)
    ensures |r| == |tags|
    ensures forall i :: 0 <= i < |tags| ==> r[i] == "#" + tags[i]
  {
    if tags == [] then [] else ["#" + tags[0]] + Hashed(tags[1..])
  }

  /** Typing the tags, each with a '#', separated by single spaces or by
      single commas gives the tags back in order. */
  lemma ParseHashedTags(tags: seq<string>, sep: char)
    requires sep == ' ' || sep == ','
    requires forall i :: 0 <= i < |tags| ==> IsWord(tags[i], IsSpaceOrComma)
    ensures ParseHashtags(Join(Hashed(tags), [sep])) == tags
  {
    var hs := Hashed(tags);
    forall i | 0 <= i < |hs|
      ensures IsWord(hs[i], IsSpaceOrComma)
    {
      HashedWord(tags[i]);
    }
    RunsOfJoin(hs, sep, IsSpaceOrComma);
    StripHashed(tags);
  }

  lemma HashedWord(t: string)
    requires IsWord(t, IsSpaceOrComma)
    ensures IsWord("#" + t, IsSpaceOrComma)
  {
    var h := "#" + t;
    forall k | 0 <= k < |h|
      ensures !IsSpaceOrComma(h[k])
    {
      if k > 0 {
        assert h[k] == t[k - 1];
      }
    }
  }

  lemma {:induction false} StripHashed(tags: seq<string>)
    requires forall i :: 0 <= i < |tags| ==> tags[i] != ""
    ensures StripAll(Hashed(tags)) == tags
  {
    if tags != [] {
      var hs := Hashed(tags);
      assert hs[0] == "#" + tags[0];
      assert StripHash(hs[0]) == tags[0];
      assert hs[1..] == Hashed(tags[1..]);
      StripHashed(tags[1..]);
    }
  }

  /** The submit handler: nothing when no hashtag remains or no content
      type is selected, otherwise the query with the parsed hashtags. */
  function Submit(input: string, minLikes: int, maxPosts: int, contentTypes: seq<string>): (q: Option<Query>)
    ensures q.None? <==> ParseHashtags(input) == [] || contentTypes == []
    ensures q.Some? ==> q.value == Query(ParseHashtags(input), minLikes, maxPosts, contentTypes)
  {
    var hashtags := ParseHashtags(input);
    if |hashtags| == 0 || |contentTypes| == 0 then None
    else Some(Query(hashtags, minLikes, maxPosts, contentTypes))
  }

  /** Pieces that are all lone '#'s give no hashtags, so such a field never searches. */
  lemma {:induction false} LoneHashesNoTags(pieces: seq<string>)
    requires forall i :: 0 <= i < |pieces| ==> pieces[i] == "#"
    ensures StripAll(pieces) == []
  {
    if pieces != [] {
      LoneHashesNoTags(pieces[1..]);
    }
  }

  /** The pieces other than `v`, in order. */
  function Without(ts: seq<string>, v: string): (r: seq<string>)
    ensures v !in r
    ensures forall x :: x != v ==> (x in r <==> x in ts)
    ensures |r| <= |ts|
  {
    if ts == [] then []
    else (if ts[0] == v then [] else [ts[0]]) + Without(ts[1..], v)
  }

  predicate NoDuplicates(ts: seq<string>) {
    forall i, j :: 0 <= i < j < |ts| ==> ts[i] != ts[j]
  }

  /** A type toggle: a selected type is removed, another appended. */
  function ToggleType(ts: seq<string>, v: string): (r: seq<string>)
    ensures v in r <==> v !in ts
    ensures forall x :: x != v ==> (x in r <==> x in ts)
  {
    if v in ts then Without(ts, v) else ts + [v]
  }

  /** Toggling keeps the list free of duplicates. */
  lemma ToggleNoDuplicates(ts: seq<string>, v: string)
    requires NoDuplicates(ts)
    ensures NoDuplicates(ToggleType(ts, v))
  {
    if v in ts {
      WithoutNoDuplicates(ts, v);
    }
  }

  lemma {:induction false} WithoutNoDuplicates(ts: seq<string>, v: string)
    requires NoDuplicates(ts)
    ensures NoDuplicates(Without(ts, v))
  {
    if ts != [] {
      WithoutNoDuplicates(ts[1..], v);
      assert ts[0] !in ts[1..];
      var rest := Without(ts[1..], v);
      assert ts[0] !in rest;
    }
  }

  /** Toggling the same type twice restores which types are selected. */
  lemma ToggleTwice(ts: seq<string>, v: string)
    ensures forall x :: x in ToggleType(ToggleType(ts, v), v) <==> x in ts
  {
  }

  /** The form's starting types hold no duplicates. */
  lemma InitialTypesDistinct()
    ensures NoDuplicates(INITIAL_TYPES)
  {
  }
}
