/** The record the campaign wizard fills in, step by step, and the partial
    updates (`{ ...prev, ...updates }`) its steps send. */
module CampaignForm {
  import opened Wrappers
  import opened Lists

  datatype ChannelSetting = ChannelSetting(cap: int, retryOnFailure: bool, priority: int)
  datatype ChannelSettings = ChannelSettings(sms: ChannelSetting, ussd: ChannelSetting,
                                             app: ChannelSetting, email: ChannelSetting)
  /** The message texts per language of the three text channels. */
  datatype ChannelMessages = ChannelMessages(sms: map<string, string>, ussd: map<string, string>,
                                             app: map<string, string>)
  datatype EmailContent = EmailContent(language: string, subject: string, body: string)
  datatype Channels = Channels(sms: bool, ussd: bool, app: bool, email: bool)

  /** `CampaignFormData`; the field `type` is called `campaignType` here. Money
      amounts are reals; the `NaN` of a JavaScript number is not modelled. */
  datatype FormData = FormData(
    name: string, campaignType: string, objective: string, description: string, owner: string,
    selectedSegmentIds: seq<string>, uploadedFileName: string, uploadedFileCustomers: int, totalCustomers: int,
    channels: Channels, channelMessages: ChannelMessages, emailContent: EmailContent,
    channelSettings: ChannelSettings,
    rewardType: string, rewardTypeOther: string, rewardValue: real, rewardCapPerDay: int,
    rewardCapPerCustomer: int, rewardAccountId: string, rewardAccountName: string, rewardAccountBalance: real,
    scheduleType: string, startDate: string, endDate: string, frequencyCap: string)

  /** `initialFormData` */
  const InitialFormData := FormData(
    "", "", "", "", "Current User",
    [], "", 0, 0,
    Channels(false, false, false, false), ChannelMessages(map[], map[], map[]), EmailContent("en", "", ""),
    ChannelSettings(ChannelSetting(0, false, 1), ChannelSetting(0, false, 2),
                    ChannelSetting(0, false, 3), ChannelSetting(0, false, 4)),
    "cashback", "", 0.0, 0, 0, "", "", 0.0,
    "immediate", "", "", "once_per_day")

  /** The form the wizard starts from: a non-empty `segment` query parameter
      preselects that segment and assumes 45000 customers. */
  function StartForm(preSelectedSegment: Option<string>): (f: FormData)
    ensures preSelectedSegment.None? || preSelectedSegment.value == "" ==> f == InitialFormData
    ensures preSelectedSegment.Some? && preSelectedSegment.value != "" ==>
      f.selectedSegmentIds == [preSelectedSegment.value] && f.totalCustomers == 45000
      && f == InitialFormData.(selectedSegmentIds := f.selectedSegmentIds, totalCustomers := 45000)
  {
    if preSelectedSegment.Some? && preSelectedSegment.value != "" then
      InitialFormData.(selectedSegmentIds := [preSelectedSegment.value], totalCustomers := 45000)
    else InitialFormData
  }

  // ---------------------------------------------------------------------------
  // Channels

  datatype Channel = Sms | Ussd | App | Email

  /** The order of the channel flags, which is the order of `Object.values(channels)`. */
  const ChannelOrder: seq<Channel> := [Sms, Ussd, App, Email]

  function ChannelName(c: Channel): string {
    match c
    case Sms => "sms"
    case Ussd => "ussd"
    case App => "app"
    case Email => "email"
  }

  predicate IsOn(channels: Channels, c: Channel) {
    match c
    case Sms => channels.sms
    case Ussd => channels.ussd
    case App => channels.app
    case Email => channels.email
  }

  function SettingOf(settings: ChannelSettings, c: Channel): ChannelSetting {
    match c
    case Sms => settings.sms
    case Ussd => settings.ussd
    case App => settings.app
    case Email => settings.email
  }

  /** The selected channels, in flag order. */
  function Selected(channels: Channels): seq<Channel> {
    Filter(ChannelOrder, c => IsOn(channels, c))
  }

  /** The number of true flags, `Object.values(channels).filter(Boolean).length`. */
  function OnCount(channels: Channels): nat {
    (if channels.sms then 1 else 0) + (if channels.ussd then 1 else 0)
    + (if channels.app then 1 else 0) + (if channels.email then 1 else 0)
  }

  /** The true flags, written out in flag order. */
  function FlagList(channels: Channels): seq<Channel> {
    (if channels.sms then [Sms] else []) + (if channels.ussd then [Ussd] else [])
    + (if channels.app then [App] else []) + (if channels.email then [Email] else [])
  }

  /** Filtering the flag order by the flags gives the true flags in that order. */
  lemma SelectedFlags(channels: Channels)
    ensures Selected(channels) == FlagList(channels)
  {
    var p := c => IsOn(channels, c);
    var t3: seq<Channel> := [Email];
    var t2: seq<Channel> := [App, Email];
    var t1: seq<Channel> := [Ussd, App, Email];
    assert t3[1..] == [] && t2[1..] == t3 && t1[1..] == t2 && ChannelOrder[1..] == t1;
    assert Filter(t3, p) == (if channels.email then [Email] else []);
    assert Filter(t2, p) == (if channels.app then [App] else []) + Filter(t3, p);
    assert Filter(t1, p) == (if channels.ussd then [Ussd] else []) + Filter(t2, p);
  }

  /** The selected channels are the true flags, each once, as many as there are true flags. */
  lemma SelectedFacts(channels: Channels)
    ensures |Selected(channels)| == OnCount(channels)
    ensures forall c :: c in Selected(channels) <==> IsOn(channels, c)
    ensures Distinct(Selected(channels))
  {
    SelectedFlags(channels);
  }

  // ---------------------------------------------------------------------------
  // Partial updates

  /** `Partial<CampaignFormData>`: a field that is `None` is absent from the update. */
  datatype FormPatch = FormPatch(
    name: Option<string>, campaignType: Option<string>, objective: Option<string>,
    description: Option<string>, owner: Option<string>,
    selectedSegmentIds: Option<seq<string>>, uploadedFileName: Option<string>,
    uploadedFileCustomers: Option<int>, totalCustomers: Option<int>,
    channels: Option<Channels>, channelMessages: Option<ChannelMessages>, emailContent: Option<EmailContent>,
    channelSettings: Option<ChannelSettings>,
    rewardType: Option<string>, rewardTypeOther: Option<string>, rewardValue: Option<real>,
    rewardCapPerDay: Option<int>, rewardCapPerCustomer: Option<int>, rewardAccountId: Option<string>,
    rewardAccountName: Option<string>, rewardAccountBalance: Option<real>,
    scheduleType: Option<string>, startDate: Option<string>, endDate: Option<string>,
    frequencyCap: Option<string>)

  const NoChange := FormPatch(None, None, None, None, None, None, None, None, None, None, None, None, None,
                              None, None, None, None, None, None, None, None, None, None, None, None)

  /** `{ ...prev, ...updates }`: a field present in the update replaces the whole
      field of the form (nested records such as `channels` are replaced, not merged). */
  function Merge(prev: FormData, u: FormPatch): (r: FormData)
    ensures u == NoChange ==> r == prev
    ensures u.channels.Some? ==> r.channels == u.channels.value
    ensures u.channels.None? ==> r.channels == prev.channels
    ensures u.channelSettings.Some? ==> r.channelSettings == u.channelSettings.value
    ensures u.channelSettings.None? ==> r.channelSettings == prev.channelSettings
    ensures u.channelMessages.Some? ==> r.channelMessages == u.channelMessages.value
    ensures u.channelMessages.None? ==> r.channelMessages == prev.channelMessages
    ensures u.emailContent.Some? ==> r.emailContent == u.emailContent.value
    ensures u.emailContent.None? ==> r.emailContent == prev.emailContent
  {
    FormData(
      u.name.GetOr(prev.name), u.campaignType.GetOr(prev.campaignType), u.objective.GetOr(prev.objective),
      u.description.GetOr(prev.description), u.owner.GetOr(prev.owner),
      u.selectedSegmentIds.GetOr(prev.selectedSegmentIds), u.uploadedFileName.GetOr(prev.uploadedFileName),
      u.uploadedFileCustomers.GetOr(prev.uploadedFileCustomers), u.totalCustomers.GetOr(prev.totalCustomers),
      u.channels.GetOr(prev.channels), u.channelMessages.GetOr(prev.channelMessages),
      u.emailContent.GetOr(prev.emailContent), u.channelSettings.GetOr(prev.channelSettings),
      u.rewardType.GetOr(prev.rewardType), u.rewardTypeOther.GetOr(prev.rewardTypeOther),
      u.rewardValue.GetOr(prev.rewardValue), u.rewardCapPerDay.GetOr(prev.rewardCapPerDay),
      u.rewardCapPerCustomer.GetOr(prev.rewardCapPerCustomer), u.rewardAccountId.GetOr(prev.rewardAccountId),
      u.rewardAccountName.GetOr(prev.rewardAccountName), u.rewardAccountBalance.GetOr(prev.rewardAccountBalance),
      u.scheduleType.GetOr(prev.scheduleType), u.startDate.GetOr(prev.startDate), u.endDate.GetOr(prev.endDate),
      u.frequencyCap.GetOr(prev.frequencyCap))
  }

  /** The later of two optional values: `b` when present. */
  function Later<T>(a: Option<T>, b: Option<T>): Option<T> {
    if b.Some? then b else a
  }

  /** `{ ...u1, ...u2 }`: the update whose fields are those of `u2`, else those of `u1`. */
  function Combine(u1: FormPatch, u2: FormPatch): FormPatch {
    FormPatch(
      Later(u1.name, u2.name), Later(u1.campaignType, u2.campaignType), Later(u1.objective, u2.objective),
      Later(u1.description, u2.description), Later(u1.owner, u2.owner),
      Later(u1.selectedSegmentIds, u2.selectedSegmentIds), Later(u1.uploadedFileName, u2.uploadedFileName),
      Later(u1.uploadedFileCustomers, u2.uploadedFileCustomers), Later(u1.totalCustomers, u2.totalCustomers),
      Later(u1.channels, u2.channels), Later(u1.channelMessages, u2.channelMessages),
      Later(u1.emailContent, u2.emailContent), Later(u1.channelSettings, u2.channelSettings),
      Later(u1.rewardType, u2.rewardType), Later(u1.rewardTypeOther, u2.rewardTypeOther),
      Later(u1.rewardValue, u2.rewardValue), Later(u1.rewardCapPerDay, u2.rewardCapPerDay),
      Later(u1.rewardCapPerCustomer, u2.rewardCapPerCustomer), Later(u1.rewardAccountId, u2.rewardAccountId),
      Later(u1.rewardAccountName, u2.rewardAccountName), Later(u1.rewardAccountBalance, u2.rewardAccountBalance),
      Later(u1.scheduleType, u2.scheduleType), Later(u1.startDate, u2.startDate), Later(u1.endDate, u2.endDate),
      Later(u1.frequencyCap, u2.frequencyCap))
  }

  /** An empty update leaves the form as it is. */
  lemma MergeNoChange(prev: FormData)
    ensures Merge(prev, NoChange) == prev
  {
  }

  /** Two updates in a row are the one update that combines them, the later one winning. */
  lemma MergeCombine(prev: FormData, u1: FormPatch, u2: FormPatch)
    ensures Merge(Merge(prev, u1), u2) == Merge(prev, Combine(u1, u2))
  {
  }

  /** Sending the same update twice is sending it once. */
  lemma MergeIdempotent(prev: FormData, u: FormPatch)
    ensures Merge(Merge(prev, u), u) == Merge(prev, u)
  {
    MergeCombine(prev, u, u);
    assert Combine(u, u) == u;
  }

  /** An update that names only the name field changes the name and nothing else. */
  lemma MergeOneField(prev: FormData, name: string)
    ensures Merge(prev, NoChange.(name := Some(name))) == prev.(name := name)
  {
  }
}
