/** HeyGen Avatar IV: the avatar and voice catalogue, the spoken script a
    concept becomes, submitting it and polling the render. */
module HeyGenClient {
  import opened Wrappers
  import opened Text
  import opened ProviderStatus

  /** Words the spoken script is capped at (about 30 seconds of speech). */
  const MAX_SCRIPT_WORDS: nat := 65

  /** An avatar as HeyGen lists it; `None` is a missing key. */
  datatype RawAvatar = RawAvatar(
    avatarId: Option<string>,
    avatarName: Option<string>,
    name: Option<string>,
    previewImageUrl: Option<string>,
    previewUrl: Option<string>,
    gender: Option<string>,
    avatarStyle: Option<string>,
    style: Option<string>,
    kind: Option<string>)

  /** An avatar as the backend returns it. */
  datatype Avatar = Avatar(avatarId: Option<string>, name: string, thumbnail: Option<string>, gender: string, isAvatarIv: bool)

  /** A voice as HeyGen lists it. */
  datatype RawVoice = RawVoice(voiceId: Option<string>, name: Option<string>, language: Option<string>, gender: Option<string>)

  datatype Voice = Voice(voiceId: Option<string>, name: string, language: string, gender: string)

  /** The `{avatars, voices}` catalogue. */
  datatype Config = Config(avatars: seq<Avatar>, voices: seq<Voice>)

  /** The first of `avatar_style`, `style`, `type` that is non-empty, else "". */
  function StyleOf(a: RawAvatar): (s: string)
    ensures Truthy(a.avatarStyle) ==> s == a.avatarStyle.value
    ensures !Truthy(a.avatarStyle) && Truthy(a.style) ==> s == a.style.value
    ensures !Truthy(a.avatarStyle) && !Truthy(a.style) ==> s == OrDefault(a.kind, "")
  {
    OrDefault(Or(Or(a.avatarStyle, a.style), a.kind), "")
  }

  /** A style names Avatar IV when it contains "IV" in any letter case or the digit 4. */
  predicate IsAvatarIvStyle(style: string) {
    Contains(Upper(style), "IV") || Contains(style, "4")
  }

  function NormalizeAvatar(a: RawAvatar): (r: Avatar)
    ensures r.avatarId == a.avatarId
    ensures r.name == (if Truthy(a.avatarName) then a.avatarName.value else a.name.GetOr(""))
    ensures r.thumbnail == (if Truthy(a.previewImageUrl) then a.previewImageUrl else a.previewUrl)
    ensures r.gender == a.gender.GetOr("")
    ensures r.isAvatarIv == IsAvatarIvStyle(StyleOf(a))
  {
    Avatar(
      a.avatarId,
      OrDefault(a.avatarName, a.name.GetOr("")),
      Or(a.previewImageUrl, a.previewUrl),
      a.gender.GetOr(""),
      IsAvatarIvStyle(StyleOf(a)))
  }

  /** A voice is kept when its language, lower-cased, starts with "en". */
  predicate IsEnglish(v: RawVoice) {
    StartsWith(Lower(v.language.GetOr("")), "en")
  }

  function NormalizeVoice(v: RawVoice): Voice {
    Voice(v.voiceId, v.name.GetOr(""), v.language.GetOr(""), v.gender.GetOr(""))
  }

  /** The English voices, normalised, in HeyGen's order. */
  function EnglishVoices(vs: seq<RawVoice>): (r: seq<Voice>)
    ensures |r| <= |vs|
    ensures forall v :: v in r <==> exists i :: 0 <= i < |vs| && IsEnglish(vs[i]) && NormalizeVoice(vs[i]) == v
    ensures forall v :: v in r ==> StartsWith(Lower(v.language), "en")
  {
    if vs == [] then []
    else
      var rest := EnglishVoices(vs[1..]);
      assert forall i :: 0 < i < |vs| ==> vs[i] == vs[1..][i - 1];
      if IsEnglish(vs[0]) then [NormalizeVoice(vs[0])] + rest else rest
  }

  /** The filter keeps order: the English voices of two lists one after
      the other are those of the first list followed by those of the second. */
  lemma {:induction false} EnglishVoicesAppend(a: seq<RawVoice>, b: seq<RawVoice>)
    ensures EnglishVoices(a + b) == EnglishVoices(a) + EnglishVoices(b)
  {
    if a == [] {
      assert a + b == b;
    } else {
      assert (a + b)[0] == a[0];
      assert (a + b)[1..] == a[1..] + b;
      EnglishVoicesAppend(a[1..], b);
    }
  }

  /** The first voice of the result, which the pickers select by default,
      is the first English voice HeyGen lists. */
  lemma FirstEnglishVoice(vs: seq<RawVoice>, k: nat)
    requires k < |vs| && IsEnglish(vs[k])
    requires forall i :: 0 <= i < k ==> !IsEnglish(vs[i])
    ensures EnglishVoices(vs) != [] && EnglishVoices(vs)[0] == NormalizeVoice(vs[k])
  {
    NoEnglishVoices(vs[..k]);
    assert vs == vs[..k] + vs[k..];
    EnglishVoicesAppend(vs[..k], vs[k..]);
    assert vs[k..][0] == vs[k];
  }

  lemma {:induction false} NoEnglishVoices(vs: seq<RawVoice>)
    requires forall i :: 0 <= i < |vs| ==> !IsEnglish(vs[i])
    ensures EnglishVoices(vs) == []
  {
    if vs != [] {
      NoEnglishVoices(vs[1..]);
    }
  }

  function NormalizeAvatars(as_: seq<RawAvatar>): (r: seq<Avatar>)
    ensures |r| == |as_|
    ensures forall i :: 0 <= i < |as_| ==> r[i] == NormalizeAvatar(as_[i])
  {
    seq(|as_|, i requires 0 <= i < |as_| => NormalizeAvatar(as_[i]))
  }

  /** The result is empty exactly when no voice is English. */
  lemma EnglishVoicesEmpty(vs: seq<RawVoice>)
    ensures EnglishVoices(vs) == [] <==> forall i :: 0 <= i < |vs| ==> !IsEnglish(vs[i])
  {
    if exists i :: 0 <= i < |vs| && IsEnglish(vs[i]) {
      var i :| 0 <= i < |vs| && IsEnglish(vs[i]);
      assert NormalizeVoice(vs[i]) in EnglishVoices(vs);
    } else {
      NoEnglishVoices(vs);
    }
  }

  /** Otherwise the result starts with the first English voice. */
  lemma EnglishVoicesHead(vs: seq<RawVoice>)
    ensures forall k :: 0 <= k < |vs| && IsEnglish(vs[k]) && (forall i :: 0 <= i < k ==> !IsEnglish(vs[i])) ==>
              EnglishVoices(vs) != [] && EnglishVoices(vs)[0] == NormalizeVoice(vs[k])
  {
    forall k | 0 <= k < |vs| && IsEnglish(vs[k]) && (forall i :: 0 <= i < k ==> !IsEnglish(vs[i]))
      ensures EnglishVoices(vs) != [] && EnglishVoices(vs)[0] == NormalizeVoice(vs[k])
    {
      FirstEnglishVoice(vs, k);
    }
  }

  /** `fetch_heygen_config`: every avatar, normalised and tagged, in order,
      and the English voices, normalised, in HeyGen's order (the filter's
      order is `EnglishVoicesAppend`); the first voice is the first English
      one, and there is none exactly when no voice is English. */
  function FetchConfig(avatars: seq<RawAvatar>, voices: seq<RawVoice>): (c: Config)
    ensures |c.avatars| == |avatars|
    ensures forall i :: 0 <= i < |avatars| ==> c.avatars[i] == NormalizeAvatar(avatars[i])
    ensures c.voices == EnglishVoices(voices)
    ensures forall v :: v in c.voices <==> exists i :: 0 <= i < |voices| && IsEnglish(voices[i]) && NormalizeVoice(voices[i]) == v
    ensures forall v :: v in c.voices ==> StartsWith(Lower(v.language), "en")
    ensures c.voices == [] <==> forall i :: 0 <= i < |voices| ==> !IsEnglish(voices[i])
    ensures forall k :: 0 <= k < |voices| && IsEnglish(voices[k]) && (forall i :: 0 <= i < k ==> !IsEnglish(voices[i])) ==>
              c.voices != [] && c.voices[0] == NormalizeVoice(voices[k])
  {
    EnglishVoicesEmpty(voices);
    EnglishVoicesHead(voices);
    Config(NormalizeAvatars(avatars), EnglishVoices(voices))
  }

  lemma {:induction false} ContainsDigitUpper(s: string)
    ensures Contains(Upper(s), "4") <==> Contains(s, "4")
    decreases |s|
  {
    if s != [] {
      assert Upper(s)[1..] == Upper(s[1..]);
      ContainsDigitUpper(s[1..]);
      assert StartsWith(Upper(s), "4") <==> StartsWith(s, "4") by {
        assert Upper(s)[..1] == [UpperChar(s[0])];
        assert s[..1] == [s[0]];
      }
    }
  }

  /** The Avatar IV tag does not depend on the letter case of the style. */
  lemma AvatarIvCaseInsensitive(style: string)
    ensures IsAvatarIvStyle(Upper(style)) == IsAvatarIvStyle(style)
  {
    assert Upper(Upper(style)) == Upper(style);
    ContainsDigitUpper(style);
  }

  // ----- the spoken script -----

  /** The script parts: the hook when non-empty, then each non-empty
      outline action, in order. */
  function KeptActions(outline: seq<OutlineStep>): seq<string>
  {
    if outline == [] then []
    else
      var last := outline[|outline| - 1].action;
      KeptActions(outline[..|outline| - 1]) + (if last != "" then [last] else [])
  }

  /** The words of the outline's actions, in order. */
  function ActionWords(outline: seq<OutlineStep>): seq<string>
  {
    if outline == [] then [] else ActionWords(outline[..|outline| - 1]) + Words(outline[|outline| - 1].action)
  }

  /** The words of a list of texts, in order. */
  function AllWords(texts: seq<string>): seq<string>
  {
    if texts == [] then [] else AllWords(texts[..|texts| - 1]) + Words(texts[|texts| - 1])
  }

  /** The words the spoken script is made of before the cap. */
  function ScriptWords(hook: string, outline: seq<OutlineStep>): seq<string>
  {
    Words(hook) + ActionWords(outline)
  }

  /** `submit_heygen_task`'s script: the hook and the non-empty actions
      joined, split into words, cut to 65 words and joined by single spaces.
      Its words are the first 65 words of the hook and the actions. */
  method BuildSpokenScript(hook: string, outline: seq<OutlineStep>) returns (script: string)
    ensures Words(script) == Take(ScriptWords(hook, outline), MAX_SCRIPT_WORDS)
    ensures |Words(script)| <= MAX_SCRIPT_WORDS
    ensures script == Join(Words(script), " ")
  {
    var parts: seq<string> := [];
    if hook != "" {
      parts := parts + [hook];
    }
    for i := 0 to |outline|
      invariant parts == (if hook != "" then [hook] else []) + KeptActions(outline[..i])
    {
      assert outline[..i + 1][..i] == outline[..i];
      var action := outline[i].action;
      if action != "" {
        parts := parts + [action];
      }
    }
    assert outline[..|outline|] == outline;
    var words := Words(Join(parts, " "));
    if |words| > MAX_SCRIPT_WORDS {
      words := words[..MAX_SCRIPT_WORDS];
    }
    script := Join(words, " ");
    PartsWords(hook, outline, parts);
    assert words == Take(ScriptWords(hook, outline), MAX_SCRIPT_WORDS);
    assert forall i :: 0 <= i < |words| ==> IsWord(words[i], IsSpace) by {
      var all := Words(Join(parts, " "));
      assert forall i :: 0 <= i < |words| ==> words[i] == all[i] && all[i] in all;
    }
    RunsOfJoin(words, ' ', IsSpace);
    assert " " == [' '];
  }

  lemma PartsWords(hook: string, outline: seq<OutlineStep>, parts: seq<string>)
    requires parts == (if hook != "" then [hook] else []) + KeptActions(outline)
    ensures Words(Join(parts, " ")) == ScriptWords(hook, outline)
  {
    WordsOfJoin(parts);
    var h := if hook != "" then [hook] else [];
    AllWordsAppend(h, KeptActions(outline));
    KeptActionWords(outline);
    if hook != "" {
      assert AllWords(h) == AllWords([]) + Words(hook) by {
        assert h[..0] == [];
      }
    }
  }

  lemma {:induction false} AllWordsAppend(a: seq<string>, b: seq<string>)
    ensures AllWords(a + b) == AllWords(a) + AllWords(b)
    decreases |b|
  {
    if b == [] {
      assert a + b == a;
    } else {
      var b' := b[..|b| - 1];
      assert (a + b)[..|a + b| - 1] == a + b';
      AllWordsAppend(a, b');
    }
  }

  lemma {:induction false} KeptActionWords(outline: seq<OutlineStep>)
    ensures AllWords(KeptActions(outline)) == ActionWords(outline)
    decreases |outline|
  {
    if outline != [] {
      var init := outline[..|outline| - 1];
      var last := outline[|outline| - 1].action;
      KeptActionWords(init);
      AllWordsAppend(KeptActions(init), if last != "" then [last] else []);
      if last != "" {
        assert AllWords([last]) == AllWords([]) + Words(last) by {
          assert [last][..0] == [];
        }
      }
    }
  }

  /** Joining texts with spaces and splitting gives the texts' words. */
  lemma {:induction false} WordsOfJoin(parts: seq<string>)
    ensures Words(Join(parts, " ")) == AllWords(parts)
  {
    if |parts| == 1 {
      assert AllWords(parts) == AllWords([]) + Words(parts[0]) by {
        assert parts[..0] == [];
      }
    } else if |parts| > 1 {
      var rest := Join(parts[1..], " ");
      assert Join(parts, " ") == parts[0] + [' '] + rest;
      RunsAppend(parts[0], ' ', rest, IsSpace);
      WordsOfJoin(parts[1..]);
      assert parts == [parts[0]] + parts[1..];
      AllWordsAppend([parts[0]], parts[1..]);
      assert AllWords([parts[0]]) == AllWords([]) + Words(parts[0]) by {
        assert [parts[0]][..0] == [];
      }
    }
  }

  /** `submit_heygen_task`: on success the card carries the video id and the
      spoken script; on failure the exception text and no script. The card
      is labelled HeyGen / Avatar IV either way. */
  method SubmitHeyGen(concept: Concept, call: SubmitCall) returns (r: VideoRecord)
    ensures r.concept == concept && r.platform == "HeyGen" && r.model == "Avatar IV"
    ensures r.videoUrl == None
    ensures call.Submitted? ==> r.status == Pending && r.taskId == call.jobId && r.error == None
    ensures call.Submitted? ==> r.spokenScript.Some?
    ensures call.Submitted? ==>
              Words(r.spokenScript.value) == Take(ScriptWords(concept.hook, concept.scriptOutline), MAX_SCRIPT_WORDS)
    ensures call.Raised? ==> r.status == Error && r.taskId == None && r.error == Some(call.message) && r.spokenScript == None
  {
    var script := BuildSpokenScript(concept.hook, concept.scriptOutline);
    r := SubmitRecord(concept, "HeyGen", "Avatar IV", call);
    if call.Submitted? {
      r := r.(spokenScript := Some(script));
    }
  }

  /** The `error` entry of a failed render: missing or falsy (None, "", an
      empty dict), a truthy value other than a dict (by its `str()` text), or
      a non-empty dict with optional `message` and `msg` entries and its
      `str()` text. */
  datatype RenderError = ErrFalsy | ErrValue(text: string) | ErrDict(message: Option<string>, msg: Option<string>, text: string)

  /** The failure text: a dict's `message`, else its `msg`, else the dict's
      text; any other value's text; "Generation failed" when there is none. */
  function FailureText(e: RenderError): (t: string)
    ensures e.ErrFalsy? ==> t == "Generation failed"
    ensures e.ErrValue? ==> t == (if e.text != "" then e.text else "Generation failed")
    ensures e.ErrDict? && Truthy(e.message) ==> t == e.message.value
    ensures e.ErrDict? && !Truthy(e.message) && Truthy(e.msg) ==> t == e.msg.value
    ensures e.ErrDict? && !Truthy(e.message) && !Truthy(e.msg) ==> t == e.text
  {
    match e
    case ErrFalsy => "Generation failed"
    case ErrValue(text) => if text != "" then text else "Generation failed"
    case ErrDict(message, msg, text) => OrDefault(message, OrDefault(msg, text))
  }

  /** The `data` of a status response (a missing status counts as
      "pending"), or the exception the request raised. */
  datatype HeyGenPoll = StatusData(status: Option<string>, videoUrl: Option<string>, error: RenderError)
                      | HeyGenRaised(message: string)

  /** `poll_heygen_task`: "completed" is 'succeeded' with the video URL,
      "failed" is 'failed' with the failure text, an exception is 'error',
      any other status (pending, processing, waiting) is 'pending'. */
  function PollHeyGen(videoId: string, p: HeyGenPoll): (r: PollResult)
    ensures r.taskId == videoId
    ensures r.status != Cancelled
    ensures r.status == Succeeded <==> p.StatusData? && p.status == Some("completed")
    ensures r.status == Failed <==> p.StatusData? && p.status == Some("failed")
    ensures r.status == Error <==> p.HeyGenRaised?
    ensures r.status == Succeeded ==> r.videoUrl == p.videoUrl && r.error == None
    ensures r.status != Succeeded ==> r.videoUrl == None
    ensures r.status == Failed ==> r.error == Some(FailureText(p.error))
    ensures r.status == Error ==> r.error == Some(p.message)
    ensures r.status == Pending ==> r.error == None
  {
    match p
    case HeyGenRaised(msg) => PollResult(videoId, Error, None, Some(msg))
    case StatusData(status, url, err) =>
      var s := status.GetOr("pending");
      if s == "completed" then PollResult(videoId, Succeeded, url, None)
      else if s == "failed" then PollResult(videoId, Failed, None, Some(FailureText(err)))
      else PollResult(videoId, Pending, None, None)
  }
}
