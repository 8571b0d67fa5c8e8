/**
 * The client configuration of the IRC daemon (bin/ircd2/src/irc/mod.rs,
 * IrcConfig::new): the configured channels merged with the autojoin list,
 * and fixed defaults for the registration state.
 */
module Irc {
  import opened Primitives

  /** Per-channel settings, opaque to this model. */
  datatype ChannelInfo = ChannelInfo(raw: string)

  /** Per-contact settings, opaque to this model. */
  datatype ContactInfo = ContactInfo(raw: string)

  /** The settings ChannelInfo::new() gives a channel that was not configured. */
  const NEW_CHANNEL_INFO: ChannelInfo

  /** The daemon settings that IrcConfig::new reads. */
  datatype Args = Args(
    password: Option<string>,
    privateKey: Option<string>,
    channels: map<string, ChannelInfo>,
    autojoin: seq<string>,
    contacts: map<string, ContactInfo>)

  datatype IrcConfig = IrcConfig(
    isNickInit: bool,
    isUserInit: bool,
    isRegistered: bool,
    isCapEnd: bool,
    isPassInit: bool,
    nickname: string,
    password: string,
    privateKey: Option<string>,
    capabilities: map<string, bool>,
    channels: map<string, ChannelInfo>,
    contacts: map<string, ContactInfo>)

  datatype Result<T> = Ok(value: T) | Err(error: string)

  /** The names listed in an autojoin list. */
  function Names(autojoin: seq<string>): set<string>
  {
    set name | name in autojoin
  }

  /**
   * The channel map after autojoin: every configured channel keeps its
   * settings, and every autojoin name that was not configured gets fresh
   * default settings.
   */
  function MergedChannels(channels: map<string, ChannelInfo>, autojoin: seq<string>): (merged: map<string, ChannelInfo>)
    ensures merged.Keys == channels.Keys + Names(autojoin)
    ensures forall name :: name in channels ==> merged[name] == channels[name]
    ensures forall name :: name in merged && name !in channels ==> merged[name] == NEW_CHANNEL_INFO
  {
    map name | name in channels.Keys + Names(autojoin) ::
      if name in channels then channels[name] else NEW_CHANNEL_INFO
  }

  /** Handling one more autojoin name: insert it with default settings unless it is already present. */
  lemma MergedChannelsStep(channels: map<string, ChannelInfo>, autojoin: seq<string>, name: string)
    ensures var before := MergedChannels(channels, autojoin);
      MergedChannels(channels, autojoin + [name]) ==
        if name in before then before else before[name := NEW_CHANNEL_INFO]
  {
    assert Names(autojoin + [name]) == Names(autojoin) + {name};
  }

  /** A repeated autojoin name changes nothing. */
  lemma DuplicateAutojoinHarmless(channels: map<string, ChannelInfo>, autojoin: seq<string>, name: string)
    requires name in autojoin
    ensures MergedChannels(channels, autojoin + [name]) == MergedChannels(channels, autojoin)
  {
    MergedChannelsStep(channels, autojoin, name);
  }

  /** Merging the same autojoin list again changes nothing. */
  lemma MergedChannelsIdempotent(channels: map<string, ChannelInfo>, autojoin: seq<string>)
    ensures MergedChannels(MergedChannels(channels, autojoin), autojoin) == MergedChannels(channels, autojoin)
  {
  }

  /** IrcConfig::new: the result is always Ok. */
  method NewIrcConfig(settings: Args) returns (r: Result<IrcConfig>)
    ensures r.Ok?
    ensures r.value.channels == MergedChannels(settings.channels, settings.autojoin)
    ensures r.value.password == (if settings.password.Some? then settings.password.value else "")
    ensures r.value.privateKey == settings.privateKey && r.value.contacts == settings.contacts
    ensures r.value.capabilities == map["no-history" := false]
    ensures r.value.isCapEnd
    ensures !r.value.isNickInit && !r.value.isUserInit && !r.value.isRegistered && !r.value.isPassInit
    ensures r.value.nickname == "anon"
  {
    var password := match settings.password case Some(p) => p case None => "";
    var privateKey := settings.privateKey;

    var channels := settings.channels;
    var k := 0;
    while k < |settings.autojoin|
      invariant 0 <= k <= |settings.autojoin|
      invariant channels == MergedChannels(settings.channels, settings.autojoin[..k])
    {
      var chan := settings.autojoin[k];
      MergedChannelsStep(settings.channels, settings.autojoin[..k], chan);
      assert settings.autojoin[..k + 1] == settings.autojoin[..k] + [chan];
      if chan !in channels {
        channels := channels[chan := NEW_CHANNEL_INFO];
      }
      k := k + 1;
    }
    assert settings.autojoin[..k] == settings.autojoin;

    var contacts := settings.contacts;

    var capabilities: map<string, bool> := map[];
    capabilities := capabilities["no-history" := false];

    r := Ok(IrcConfig(
      isNickInit := false,
      isUserInit := false,
      isRegistered := false,
      isCapEnd := true,
      isPassInit := false,
      nickname := "anon",
      password := password,
      privateKey := privateKey,
      capabilities := capabilities,
      channels := channels,
      contacts := contacts));
  }
}
