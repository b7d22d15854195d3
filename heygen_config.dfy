/** The avatar-and-voice configuration the two avatar forms share: it is
    fetched at most once per page load into a module-level cache, a request
    already under way is shared by every form that mounts meanwhile, and a
    failed request may be retried by the next form that mounts. */
module HeyGenConfig {
  import opened Wrappers
  import opened Text
  import opened HeyGenClient

  /** How the shared configuration request settled: with the configuration,
      rejected by a non-ok reply carrying this `detail`, or failed without a
      text (an unreachable server or a body that is not JSON). */
  datatype ConfigOutcome = ConfigOk(config: Config) | ConfigNotOk(detail: Option<string>) | ConfigUnreachable

  const FAILED_TO_LOAD: string := "Failed to load"
  const CONFIG_UNAVAILABLE: string := "Could not load HeyGen avatars & voices"

  /** The form's error text: a non-ok reply rejects with its detail, or
      "Failed to load" without one; anything that is not a string becomes
      the generic message. */
  function ConfigFailureText(o: ConfigOutcome): (t: string)
    requires !o.ConfigOk?
    ensures t != ""
    ensures o.ConfigNotOk? && Truthy(o.detail) ==> t == o.detail.value
    ensures o.ConfigNotOk? && !Truthy(o.detail) ==> t == FAILED_TO_LOAD
    ensures o.ConfigUnreachable? ==> t == CONFIG_UNAVAILABLE
  {
    match o
    case ConfigNotOk(detail) => OrDefault(detail, FAILED_TO_LOAD)
    case ConfigUnreachable => CONFIG_UNAVAILABLE
  }

  /** The id of the first avatar, if there is one; a missing id reads as
      the empty selection. */
  function FirstAvatarId(c: Config): (id: Option<string>)
    ensures id.Some? <==> |c.avatars| > 0
    ensures |c.avatars| > 0 ==> id.value == c.avatars[0].avatarId.GetOr("")
  {
    if |c.avatars| > 0 then Some(c.avatars[0].avatarId.GetOr("")) else None
  }

  function FirstVoiceId(c: Config): (id: Option<string>)
    ensures id.Some? <==> |c.voices| > 0
    ensures |c.voices| > 0 ==> id.value == c.voices[0].voiceId.GetOr("")
  {
    if |c.voices| > 0 then Some(c.voices[0].voiceId.GetOr("")) else None
  }

  /** The selection when the request resolves: the first entry replaces the
      selection whenever the list is non-empty. */
  function OnLoad(first: Option<string>, current: string): (id: string)
    ensures first.Some? ==> id == first.value
    ensures first.None? ==> id == current
  {
    if first.Some? then first.value else current
  }

  /** The defaults effect: an empty selection takes the first entry; a
      chosen one is kept. */
  function WithDefault(first: Option<string>, current: string): (id: string)
    ensures current != "" ==> id == current
    ensures current == "" && first.Some? ==> id == first.value
    ensures current == "" && first.None? ==> id == ""
  {
    if current == "" && first.Some? then first.value else current
  }

  /** After a load the selection is the first entry, or the old one when
      the list is empty; the defaults effect that follows does not change it. */
  lemma LoadThenDefault(first: Option<string>, current: string)
    ensures WithDefault(first, OnLoad(first, current)) == OnLoad(first, current)
    ensures first.Some? && first.value != "" ==> OnLoad(first, current) != ""
  {
  }

  /** The defaults effect is idempotent. */
  lemma WithDefaultIdempotent(first: Option<string>, current: string)
    ensures WithDefault(first, WithDefault(first, current)) == WithDefault(first, current)
  {
  }

  /** The module-level `cachedConfig` and `configFetchPromise` of one form
      module; `requests` counts the requests sent. */
  class ConfigCache {
    var cached: Option<Config>
    var inFlight: bool
    var requests: nat

    constructor()
      ensures cached == None && !inFlight && requests == 0
    {
      cached := None;
      inFlight := false;
      requests := 0;
    }
  }

  /** One mounted form's configuration state. `waiting` holds while it is
      subscribed to the shared request. */
  class ConfigPicker {
    var config: Option<Config>
    var configLoading: bool
    var configError: string
    var avatarId: string
    var voiceId: string
    var waiting: bool

    /** The form's first render: the cached configuration, loading exactly
        when there is none. */
    constructor(cache: ConfigCache)
      ensures config == cache.cached && configLoading == cache.cached.None?
      ensures configError == "" && avatarId == "" && voiceId == "" && !waiting
    {
      config := cache.cached;
      configLoading := cache.cached.None?;
      configError := "";
      avatarId := "";
      voiceId := "";
      waiting := false;
    }

    /** The mount effects. With a cached configuration nothing is requested
        and the defaults are applied; otherwise the form subscribes to the
        request under way, and sends one only when none is. */
    method Mount(cache: ConfigCache) returns (sent: bool)
      modifies this, cache
      ensures sent <==> old(cache.cached).None? && !old(cache.inFlight)
      ensures cache.requests == old(cache.requests) + (if sent then 1 else 0)
      ensures cache.inFlight == (old(cache.inFlight) || sent)
      ensures cache.cached == old(cache.cached)
      ensures waiting == (old(waiting) || old(cache.cached).None?)
      ensures config == old(config) && configLoading == old(configLoading) && configError == old(configError)
      ensures config.Some? ==> (avatarId == WithDefault(FirstAvatarId(config.value), old(avatarId))
                                && voiceId == WithDefault(FirstVoiceId(config.value), old(voiceId)))
      ensures config.None? ==> avatarId == old(avatarId) && voiceId == old(voiceId)
    {
      sent := false;
      if cache.cached.None? {
        if !cache.inFlight {
          cache.inFlight := true;
          cache.requests := cache.requests + 1;
          sent := true;
        }
        waiting := true;
      }
      if config.Some? {
        avatarId := WithDefault(FirstAvatarId(config.value), avatarId);
        voiceId := WithDefault(FirstVoiceId(config.value), voiceId);
      }
    }

    /** The shared request settles for this form. On success the cache and
        the form take the configuration and the first avatar and voice; on
        failure the form shows the error and the cache forgets the request
        so that a later mount sends a new one. */
    method Settle(cache: ConfigCache, outcome: ConfigOutcome)
      requires waiting
      modifies this, cache
      ensures !waiting && !configLoading
      ensures cache.requests == old(cache.requests)
      ensures outcome.ConfigOk? ==>
                cache.cached == Some(outcome.config) && cache.inFlight == old(cache.inFlight)
                && config == Some(outcome.config) && configError == old(configError)
                && avatarId == OnLoad(FirstAvatarId(outcome.config), old(avatarId))
                && voiceId == OnLoad(FirstVoiceId(outcome.config), old(voiceId))
      ensures !outcome.ConfigOk? ==>
                cache.cached == old(cache.cached) && !cache.inFlight
                && config == old(config) && configError == ConfigFailureText(outcome)
                && avatarId == old(avatarId) && voiceId == old(voiceId)
    {
      waiting := false;
      configLoading := false;
      if outcome.ConfigOk? {
        cache.cached := Some(outcome.config);
        config := Some(outcome.config);
        avatarId := OnLoad(FirstAvatarId(outcome.config), avatarId);
        voiceId := OnLoad(FirstVoiceId(outcome.config), voiceId);
        // the defaults effect that the new configuration triggers
        avatarId := WithDefault(FirstAvatarId(outcome.config), avatarId);
        voiceId := WithDefault(FirstVoiceId(outcome.config), voiceId);
      } else {
        configError := ConfigFailureText(outcome);
        cache.inFlight := false;
      }
    }

    method SelectAvatar(id: string)
      modifies this
      ensures avatarId == id
      ensures config == old(config) && configLoading == old(configLoading) && configError == old(configError)
      ensures voiceId == old(voiceId) && waiting == old(waiting)
    {
      avatarId := id;
    }

    method SelectVoice(id: string)
      modifies this
      ensures voiceId == id
      ensures config == old(config) && configLoading == old(configLoading) && configError == old(configError)
      ensures avatarId == old(avatarId) && waiting == old(waiting)
    {
      voiceId := id;
    }
  }

  /** Two forms mounting on an empty cache send one request between them. */
  method SharedRequest(cache: ConfigCache, first: ConfigPicker, second: ConfigPicker) returns (sent: nat)
    requires cache.cached.None? && !cache.inFlight
    requires first != second
    modifies cache, first, second
    ensures sent == 1 && cache.requests == old(cache.requests) + 1
    ensures first.waiting && second.waiting
  {
    var a := first.Mount(cache);
    var b := second.Mount(cache);
    sent := (if a then 1 else 0) + (if b then 1 else 0);
  }
}
