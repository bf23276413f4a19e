/** `buildCampaignPayload`: the wizard's form record turned into the create
    request the campaign service accepts. */
module CampaignMapper {
  import opened Wrappers
  import opened Lists
  import opened CampaignForm

  /** The names of a list of channels. */
  function Names(cs: seq<Channel>): (r: seq<string>)
    ensures |r| == |cs|
  {
    seq(|cs|, i requires 0 <= i < |cs| => ChannelName(cs[i]))
  }

  lemma NamesAppend(a: seq<Channel>, b: seq<Channel>)
    ensures Names(a + b) == Names(a) + Names(b)
  {
  }

  /** The names of the true flags, written out in flag order. */
  function NameList(channels: Channels): seq<string> {
    (if channels.sms then ["sms"] else []) + (if channels.ussd then ["ussd"] else [])
    + (if channels.app then ["app"] else []) + (if channels.email then ["email"] else [])
  }

  lemma NamesOfFlags(channels: Channels)
    ensures Names(Selected(channels)) == NameList(channels)
  {
    SelectedFlags(channels);
    var s1: seq<Channel> := if channels.sms then [Sms] else [];
    var s2: seq<Channel> := if channels.ussd then [Ussd] else [];
    var s3: seq<Channel> := if channels.app then [App] else [];
    var s4: seq<Channel> := if channels.email then [Email] else [];
    NamesAppend(s1 + s2 + s3, s4);
    NamesAppend(s1 + s2, s3);
    NamesAppend(s1, s2);
  }

  /** `getEnabledChannels`: pushes the name of each true flag, sms, ussd, app, email. */
  method GetEnabledChannels(channels: Channels) returns (enabled: seq<string>)
    ensures enabled == Names(Selected(channels))
  {
    enabled := [];
    if channels.sms { enabled := enabled + ["sms"]; }
    if channels.ussd { enabled := enabled + ["ussd"]; }
    if channels.app { enabled := enabled + ["app"]; }
    if channels.email { enabled := enabled + ["email"]; }
    NamesOfFlags(channels);
  }

  /** Different channels have different names. */
  lemma NamesDiffer(a: Channel, b: Channel)
    requires a != b
    ensures ChannelName(a) != ChannelName(b)
  {
  }

  /** A channel's name is listed exactly when the channel is. */
  lemma NameListed(cs: seq<Channel>, c: Channel)
    ensures ChannelName(c) in Names(cs) <==> c in cs
  {
    var names := Names(cs);
    if ChannelName(c) in names {
      var i :| 0 <= i < |names| && names[i] == ChannelName(c);
      if cs[i] != c {
        NamesDiffer(cs[i], c);
      }
    }
    if c in cs {
      var i :| 0 <= i < |cs| && cs[i] == c;
      assert names[i] == ChannelName(c);
    }
  }

  /** The enabled channel list names exactly the true flags, each once, and
      is as long as there are true flags. */
  lemma EnabledChannelsExact(channels: Channels)
    ensures forall c :: ChannelName(c) in Names(Selected(channels)) <==> IsOn(channels, c)
    ensures |Names(Selected(channels))| == OnCount(channels)
    ensures Distinct(Names(Selected(channels)))
  {
    SelectedFacts(channels);
    forall c ensures ChannelName(c) in Names(Selected(channels)) <==> IsOn(channels, c) {
      NameListed(Selected(channels), c);
    }
    var sel := Selected(channels);
    var names := Names(sel);
    forall i, j | 0 <= i < j < |names| ensures names[i] != names[j] {
      NamesDiffer(sel[i], sel[j]);
    }
  }

  /** The flags read back from an enabled channel list. */
  function ChannelsOf(enabled: seq<string>): Channels {
    Channels("sms" in enabled, "ussd" in enabled, "app" in enabled, "email" in enabled)
  }

  /** The enabled channel list loses nothing: the flags can be read back from it. */
  lemma EnabledChannelsRoundTrip(channels: Channels)
    ensures ChannelsOf(Names(Selected(channels))) == channels
  {
    EnabledChannelsExact(channels);
    assert ChannelName(Sms) == "sms" && ChannelName(Ussd) == "ussd";
    assert ChannelName(App) == "app" && ChannelName(Email) == "email";
  }

  datatype Basics = Basics(name: string, campaignType: string, objective: string, description: string)
  /** `uploadedFile` is always `null`, modelled as `None`. */
  datatype Audience = Audience(selectedSegmentIds: seq<string>, uploadedFile: Option<string>,
                               totalTargetedCustomers: int)
  datatype EmailMessage = EmailMessage(en: string, subject: string)
  datatype Messages = Messages(sms: map<string, string>, ussd: map<string, string>,
                               app: map<string, string>, email: EmailMessage)
  datatype Communication = Communication(enabledChannels: seq<string>, messages: Messages,
                                         emailFrom: string, settings: ChannelSettings)
  datatype Rewards = Rewards(rewardType: string, value: real, perCustomer: int, campaignCap: int,
                             disbursementAccountId: string)
  datatype Scheduling = Scheduling(scheduleType: string, startDate: string, endDate: string, frequencyCap: string)
  /** `CampaignUpsertRequest` */
  datatype Payload = Payload(basics: Basics, audience: Audience, communication: Communication,
                             rewards: Rewards, scheduling: Scheduling, status: string)

  const SenderAddress := "noreply@company.com"

  /** `rewardTypeOther` stands in for the reward type "other". */
  function RewardType(form: FormData): (r: string)
    ensures form.rewardType != "other" ==> r == form.rewardType
    ensures form.rewardType == "other" ==> r == form.rewardTypeOther
  {
    if form.rewardType == "other" then form.rewardTypeOther else form.rewardType
  }

  /** `buildCampaignPayload(formData, status)`. The request names the enabled
      channels, copies every channel's settings whether or not it is enabled,
      and sends the daily reward cap as the campaign cap. */
  function BuildCampaignPayload(form: FormData, status: string): (p: Payload)
    ensures p.status == status && p.audience.uploadedFile.None? && p.communication.emailFrom == SenderAddress
    ensures ChannelsOf(p.communication.enabledChannels) == form.channels
    ensures |p.communication.enabledChannels| == OnCount(form.channels)
    ensures forall c :: SettingOf(p.communication.settings, c) == SettingOf(form.channelSettings, c)
    ensures p.rewards.rewardType == RewardType(form)
    ensures p.rewards.perCustomer == form.rewardCapPerCustomer && p.rewards.campaignCap == form.rewardCapPerDay
    ensures p.rewards.value == form.rewardValue && p.rewards.disbursementAccountId == form.rewardAccountId
    ensures p.basics == Basics(form.name, form.campaignType, form.objective, form.description)
    ensures p.audience.selectedSegmentIds == form.selectedSegmentIds
    ensures p.audience.totalTargetedCustomers == form.totalCustomers
    ensures p.scheduling == Scheduling(form.scheduleType, form.startDate, form.endDate, form.frequencyCap)
    ensures p.communication.messages.sms == form.channelMessages.sms
    ensures p.communication.messages.ussd == form.channelMessages.ussd
    ensures p.communication.messages.app == form.channelMessages.app
    ensures p.communication.messages.email == EmailMessage(form.emailContent.body, form.emailContent.subject)
  {
    EnabledChannelsRoundTrip(form.channels);
    EnabledChannelsExact(form.channels);
    Payload(
      Basics(form.name, form.campaignType, form.objective, form.description),
      Audience(form.selectedSegmentIds, None, form.totalCustomers),
      Communication(
        Names(Selected(form.channels)),
        Messages(form.channelMessages.sms, form.channelMessages.ussd, form.channelMessages.app,
                 EmailMessage(form.emailContent.body, form.emailContent.subject)),
        SenderAddress,
        ChannelSettings(
          ChannelSetting(form.channelSettings.sms.cap, form.channelSettings.sms.retryOnFailure, form.channelSettings.sms.priority),
          ChannelSetting(form.channelSettings.ussd.cap, form.channelSettings.ussd.retryOnFailure, form.channelSettings.ussd.priority),
          ChannelSetting(form.channelSettings.app.cap, form.channelSettings.app.retryOnFailure, form.channelSettings.app.priority),
          ChannelSetting(form.channelSettings.email.cap, form.channelSettings.email.retryOnFailure, form.channelSettings.email.priority))),
      Rewards(RewardType(form), form.rewardValue, form.rewardCapPerCustomer, form.rewardCapPerDay, form.rewardAccountId),
      Scheduling(form.scheduleType, form.startDate, form.endDate, form.frequencyCap),
      status)
  }

  /** The basics, the audience and the schedule travel unchanged: two forms
      with the same payload agree on all of them. */
  lemma PayloadKeepsFormFields(f1: FormData, f2: FormData, status: string)
    requires BuildCampaignPayload(f1, status) == BuildCampaignPayload(f2, status)
    ensures f1.name == f2.name && f1.campaignType == f2.campaignType && f1.objective == f2.objective
    ensures f1.description == f2.description
    ensures f1.selectedSegmentIds == f2.selectedSegmentIds && f1.totalCustomers == f2.totalCustomers
    ensures f1.channels == f2.channels && f1.channelSettings == f2.channelSettings
    ensures f1.channelMessages == f2.channelMessages
    ensures f1.emailContent.subject == f2.emailContent.subject && f1.emailContent.body == f2.emailContent.body
    ensures f1.rewardValue == f2.rewardValue && f1.rewardAccountId == f2.rewardAccountId
    ensures f1.scheduleType == f2.scheduleType && f1.startDate == f2.startDate && f1.endDate == f2.endDate
    ensures f1.frequencyCap == f2.frequencyCap
  {
    var p1 := BuildCampaignPayload(f1, status);
    assert ChannelsOf(p1.communication.enabledChannels) == f1.channels;
    assert f1.channelSettings == p1.communication.settings;
  }
}
