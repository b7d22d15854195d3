/** The stand-alone avatar panel: the same shared configuration and pickers
    as the avatar step, without a script, and a generate button driven by
    the page's loading flag. */
module HeyGenPanel {
  import opened Wrappers
  import opened PipelineState
  import opened HeyGenConfig

  /** The arguments the panel's button hands to the page. */
  datatype PanelCall = PanelCall(avatarId: string, voiceId: string)

  /** The button's label: generating while the page is loading, otherwise
      regenerate once a video was generated. */
  function PanelLabel(loading: bool, hasGeneratedOnce: bool): (l: GenerateLabel)
    ensures l == Generating <==> loading
    ensures l == Regenerate <==> !loading && hasGeneratedOnce
    ensures l == FirstRun <==> !loading && !hasGeneratedOnce
  {
    if loading then Generating else if hasGeneratedOnce then Regenerate else FirstRun
  }

  /** A press of the panel's button: the selection, when both an avatar and
      a voice are selected and the page is not loading. */
  method PanelGenerate(picker: ConfigPicker, loading: bool) returns (call: Option<PanelCall>)
    ensures call.Some? <==> picker.avatarId != "" && picker.voiceId != "" && !loading
    ensures call.Some? ==> call.value == PanelCall(picker.avatarId, picker.voiceId)
  {
    if picker.avatarId != "" && picker.voiceId != "" && !loading {
      call := Some(PanelCall(picker.avatarId, picker.voiceId));
    } else {
      call := None;
    }
  }

  /** Once a configuration whose first avatar and voice have ids arrives,
      the button is enabled whenever the page is not loading. */
  method LoadEnables(cache: ConfigCache, picker: ConfigPicker, config: HeyGenClient.Config) returns (call: Option<PanelCall>)
    requires picker.waiting
    requires Text.Truthy(FirstAvatarId(config)) && Text.Truthy(FirstVoiceId(config))
    modifies cache, picker
    ensures call == Some(PanelCall(FirstAvatarId(config).value, FirstVoiceId(config).value))
  {
    picker.Settle(cache, ConfigOk(config));
    call := PanelGenerate(picker, false);
  }
}
