/** Step 2 of the pipeline page: the avatar and voice pickers, the spoken
    script preview the user may edit, its word count and spoken length, and
    the generate button. */
module AvatarStep {
  import opened Wrappers
  import opened Text
  import opened HeyGenClient
  import opened PipelineState
  import opened HeyGenConfig

  /** The arguments the generate button hands to the page: the selected
      avatar and voice and the trimmed script. */
  datatype GenerateCall = GenerateCall(avatarId: string, voiceId: string, script: string)

  const GENERATION_FAILED: string := "Generation failed"

  /** The words of the script, counted on the trimmed text. */
  function WordCount(script: string): (n: nat)
    ensures n == |Words(script)|
    ensures n == 0 <==> Trim(script) == ""
  {
    WordsTrim(script);
    TrimmedHasWord(Trim(script));
    |Words(Trim(script))|
  }

  /** A non-empty text that does not start with whitespace has a word. */
  lemma TrimmedHasWord(t: string)
    requires t == [] || !IsSpace(t[0])
    ensures Words(t) == [] <==> t == []
  {
    if t != [] {
      var n := RunLen(t, IsSpace);
      assert Runs(t, IsSpace) == [t[..n]] + Runs(t[n..], IsSpace);
    }
  }

  /** `Math.round(words / 2.2)`: the whole number of seconds nearest to
      words / 2.2 (a tie cannot occur, 10 * words + 11 being odd). */
  function ApproxSeconds(words: nat): (secs: nat)
    ensures 22 * secs - 11 <= 10 * words < 22 * secs + 11
  {
    (10 * words + 11) / 22
  }

  /** The hint's promise: a script within the 65-word cap lasts about 30 seconds or less. */
  lemma CapIsAboutThirtySeconds(words: nat)
    requires words <= MAX_SCRIPT_WORDS
    ensures ApproxSeconds(words) <= 30
  {
  }

  /** A longer script never reads as shorter. */
  lemma ApproxSecondsMonotone(a: nat, b: nat)
    requires a <= b
    ensures ApproxSeconds(a) <= ApproxSeconds(b)
  {
    // floor division is monotone; spelled out through the bounds
    var x, y := ApproxSeconds(a), ApproxSeconds(b);
    assert 22 * x - 11 <= 10 * a <= 10 * b < 22 * y + 11;
  }

  /** The word count is flagged once it passes the 65-word cap. */
  predicate OverLimit(words: nat) {
    words > MAX_SCRIPT_WORDS
  }

  /** The button is enabled with an avatar and a voice selected, no avatar
      job under way and a script with at least one word. */
  function CanGenerate(avatarId: string, voiceId: string, s2: Step2, script: string): (ok: bool)
    ensures ok <==> avatarId != "" && voiceId != "" && s2.status != StageLoading && WordCount(script) > 0
  {
    avatarId != "" && voiceId != "" && s2.status != StageLoading && Trim(script) != ""
  }

  /** The button's label: generating while the job is under way, otherwise
      regenerate once a video was asked for. */
  function ButtonLabel(s2: Step2): (l: GenerateLabel)
    ensures l == Generating <==> s2.status == StageLoading
    ensures l == Regenerate <==> s2.status != StageLoading && s2.hasGenerated
    ensures l == FirstRun <==> s2.status != StageLoading && !s2.hasGenerated
  {
    if s2.status == StageLoading then Generating else if s2.hasGenerated then Regenerate else FirstRun
  }

  /** The error line of a failed step: its error, or "Generation failed". */
  function ErrorLine(s2: Step2): (t: string)
    ensures t != ""
    ensures s2.error != "" ==> t == s2.error
    ensures s2.error == "" ==> t == GENERATION_FAILED
  {
    if s2.error != "" then s2.error else GENERATION_FAILED
  }

  /** The script preview's wording: "Error <code>". */
  const SCRIPT_ERROR_PREFIX: string := "Error "

  /** The step's script state; the configuration pickers are `picker`. */
  class AvatarStepView {
    const picker: ConfigPicker
    var scriptText: string
    var scriptLoading: bool
    var scriptError: string
    var scriptFetched: bool

    constructor(picker: ConfigPicker)
      ensures this.picker == picker
      ensures scriptText == "" && !scriptLoading && scriptError == "" && !scriptFetched
    {
      this.picker := picker;
      scriptText := "";
      scriptLoading := false;
      scriptError := "";
      scriptFetched := false;
    }

    /** The preview is fetched by itself once the analysis and hashtags are
        there, unless one was fetched already or is being fetched. */
    predicate ShouldAutoFetch(hasAnalysis: bool, hasHashtags: bool)
      reads this
    {
      hasAnalysis && hasHashtags && !scriptFetched && !scriptLoading
    }

    method BeginFetchScript()
      modifies this
      ensures scriptLoading && scriptError == ""
      ensures scriptText == old(scriptText) && scriptFetched == old(scriptFetched)
    {
      scriptLoading := true;
      scriptError := "";
    }

    /** The preview reply: its script replaces the text, or its error is
        shown and the text is kept; loading ends either way. */
    method CompleteFetchScript(outcome: Response<string>)
      modifies this
      ensures !scriptLoading
      ensures outcome.OkBody? ==> scriptText == outcome.body && scriptFetched && scriptError == old(scriptError)
      ensures !outcome.OkBody? ==> scriptText == old(scriptText) && scriptFetched == old(scriptFetched)
                                   && scriptError == FailureMessage(outcome, SCRIPT_ERROR_PREFIX)
    {
      if outcome.OkBody? {
        scriptText := outcome.body;
        scriptFetched := true;
      } else {
        scriptError := FailureMessage(outcome, SCRIPT_ERROR_PREFIX);
      }
      scriptLoading := false;
    }

    method EditScript(text: string)
      modifies this
      ensures scriptText == text
      ensures scriptLoading == old(scriptLoading) && scriptError == old(scriptError)
      ensures scriptFetched == old(scriptFetched)
    {
      scriptText := text;
    }

    /** A press of the generate button: nothing while it is disabled, else
        the selection and the trimmed script, which is never empty. */
    method Generate(s2: Step2) returns (call: Option<GenerateCall>)
      ensures call.Some? <==> CanGenerate(picker.avatarId, picker.voiceId, s2, scriptText)
      ensures call.Some? ==> call.value == GenerateCall(picker.avatarId, picker.voiceId, Trim(scriptText))
      ensures call.Some? ==> call.value.script != "" && Words(call.value.script) == Words(scriptText)
    {
      if CanGenerate(picker.avatarId, picker.voiceId, s2, scriptText) {
        WordsTrim(scriptText);
        call := Some(GenerateCall(picker.avatarId, picker.voiceId, Trim(scriptText)));
      } else {
        call := None;
      }
    }
  }
}
