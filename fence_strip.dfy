/** Removing a Markdown code fence from a text-generation reply before it is
    parsed as JSON, as the analyzer and the prompt and concept generators do. */
module FenceStrip {
  import opened Text

  const FENCE: string := "```"

  /** `s.split(FENCE)[0]`: the text before the first fence, or all of `s`. */
  function BeforeFence(s: string): (r: string)
    ensures !Contains(r, FENCE)
    ensures |r| <= |s| && r == s[..|r|]
    ensures |r| < |s| ==> StartsWith(s[|r|..], FENCE)
    decreases |s|
  {
    if StartsWith(s, FENCE) then ""
    else if s == [] then ""
    else
      var rest := BeforeFence(s[1..]);
      assert [s[0]] + rest == s[..|rest| + 1];
      NoFenceCons(s[0], rest);
      [s[0]] + rest
  }

  /** Drops a leading "json" language tag. */
  function DropJsonTag(s: string): (r: string)
    ensures StartsWith(s, "json") ==> r == s[4..]
    ensures !StartsWith(s, "json") ==> r == s
  {
    if StartsWith(s, "json") then s[4..] else s
  }

  /** The reply with surrounding whitespace removed and, when it opens with a
      fence, only the fenced block (without its "json" tag), trimmed again. */
  function StripFences(text: string): (r: string)
    ensures !StartsWith(Trim(text), FENCE) ==> r == Trim(text)
  {
    var raw := Trim(text);
    if StartsWith(raw, FENCE) then Trim(DropJsonTag(BeforeFence(raw[3..]))) else raw
  }

  /** What comes out of a fenced reply holds no fence. */
  lemma StripFencesNoFence(text: string)
    requires StartsWith(Trim(text), FENCE)
    ensures !Contains(StripFences(text), FENCE)
  {
    var block := BeforeFence(Trim(text)[3..]);
    var body := DropJsonTag(block);
    NoFenceSuffix(block, |block| - |body|);
    assert block[|block| - |body|..] == body;
    NoFenceTrim(body);
  }

  lemma NoFenceCons(c: char, rest: string)
    requires !Contains(rest, FENCE)
    requires !StartsWith([c] + rest, FENCE)
    ensures !Contains([c] + rest, FENCE)
  {
    assert ([c] + rest)[1..] == rest;
  }

  /** A piece of fence-free text is fence-free. */
  lemma {:induction false} NoFenceSuffix(s: string, k: nat)
    requires k <= |s|
    requires !Contains(s, FENCE)
    ensures !Contains(s[k..], FENCE)
    decreases k
  {
    if k > 0 {
      assert s[1..][k - 1..] == s[k..];
      NoFenceSuffix(s[1..], k - 1);
    }
  }

  lemma {:induction false} NoFencePrefix(s: string, k: nat)
    requires k <= |s|
    requires !Contains(s, FENCE)
    ensures !Contains(s[..k], FENCE)
    decreases |s|
  {
    if k > 0 {
      assert s[..k][1..] == s[1..][..k - 1];
      assert StartsWith(s[..k], FENCE) ==> StartsWith(s, FENCE);
      NoFencePrefix(s[1..], k - 1);
    }
  }

  lemma NoFenceTrim(s: string)
    requires !Contains(s, FENCE)
    ensures !Contains(Trim(s), FENCE)
  {
    var l := TrimLeft(s);
    TrimLeftSuffix(s);
    NoFenceSuffix(s, |s| - |l|);
    NoFencePrefix(l, |TrimRight(l)|);
  }

  /** The usual fenced reply: a fence, the "json" tag, a JSON body without
      backticks or surrounding whitespace, and a closing fence, gives the body. */
  lemma StripFencedBlock(body: string)
    requires NoBacktick(body)
    requires body != [] && !IsSpace(body[0]) && !IsSpace(body[|body| - 1])
    ensures StripFences(FENCE + "json" + body + FENCE) == body
  {
    var tagged := "json" + body;
    assert FENCE + "json" + body + FENCE == FENCE + tagged + FENCE;
    FencedText(tagged);
    TaggedNoBacktick(body);
    BeforeFenceOf(tagged, "");
    assert tagged[..4] == "json" && tagged[4..] == body;
    TrimUntouched(body);
    StripSteps(FENCE + tagged + FENCE, tagged + FENCE + "", tagged, body);
  }

  lemma StripSteps(text: string, rest: string, tagged: string, body: string)
    requires Trim(text) == text && StartsWith(text, FENCE) && text[3..] == rest
    requires BeforeFence(rest) == tagged && DropJsonTag(tagged) == body
    requires Trim(body) == body
    ensures StripFences(text) == body
  {
  }

  lemma FencedText(tagged: string)
    ensures Trim(FENCE + tagged + FENCE) == FENCE + tagged + FENCE
    ensures StartsWith(FENCE + tagged + FENCE, FENCE)
    ensures (FENCE + tagged + FENCE)[3..] == tagged + FENCE + ""
  {
    var text := FENCE + tagged + FENCE;
    assert text[0] == '`' && text[|text| - 1] == '`';
    TrimUntouched(text);
    assert text[..3] == FENCE;
  }

  lemma TaggedNoBacktick(body: string)
    requires NoBacktick(body)
    ensures NoBacktick("json" + body)
  {
  }

  predicate NoBacktick(s: string) {
    forall i :: 0 <= i < |s| ==> s[i] != '`'
  }

  lemma {:induction false} BeforeFenceOf(a: string, b: string)
    requires NoBacktick(a)
    ensures BeforeFence(a + FENCE + b) == a
    decreases |a|
  {
    var s := a + FENCE + b;
    if a == [] {
      assert s == FENCE + b;
      assert s[..3] == FENCE;
    } else {
      assert s[0] == a[0] != '`';
      assert s[1..] == a[1..] + FENCE + b;
      BeforeFenceOf(a[1..], b);
    }
  }

  lemma TrimUntouched(s: string)
    requires s != [] && !IsSpace(s[0]) && !IsSpace(s[|s| - 1])
    ensures Trim(s) == s
  {
    assert TrimLeft(s) == s;
  }
}
