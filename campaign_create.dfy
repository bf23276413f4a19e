/** The campaign creation wizard: the list of steps, the check that guards
    each step, and the step counter that Next and Back move. */
module CampaignCreate {
  import opened Wrappers
  import opened Lists
  import opened CampaignForm

  predicate IsIncentive(form: FormData) {
    form.campaignType == "incentive"
  }

  /** The six pages of an incentive campaign; other campaigns skip the reward page. */
  const IncentiveSteps: seq<string> := ["Campaign Basics", "Audience Selection", "Channel & Message",
                                        "Reward Configuration", "Schedule & Controls", "Review & Submit"]
  const PlainSteps: seq<string> := ["Campaign Basics", "Audience Selection", "Channel & Message",
                                    "Schedule & Controls", "Review & Submit"]

  /** `steps` */
  function Steps(form: FormData): (r: seq<string>)
    ensures IsIncentive(form) ==> |r| == 6
    ensures !IsIncentive(form) ==> |r| == 5
  {
    if IsIncentive(form) then IncentiveSteps else PlainSteps
  }

  /** `maxStep`, the number of steps. */
  function MaxStep(form: FormData): (r: int)
    ensures r == |Steps(form)| && (r == 6 <==> IsIncentive(form)) && (r == 5 <==> !IsIncentive(form))
  {
    |Steps(form)|
  }

  /** `actualStep`: a step of a non-incentive campaign from 4 on is checked as
      the incentive step after it, the reward page being skipped. */
  function ActualStep(incentive: bool, step: int): (r: int)
    ensures incentive ==> r == step
    ensures !incentive && step < 4 ==> r == step
    ensures !incentive && step >= 4 ==> r == step + 1
  {
    if incentive then step else if step >= 4 then step + 1 else step
  }

  /** The renumbering sends every page to the incentive page of the same name,
      so the check a step runs is the check of the page it shows. */
  lemma ActualStepShowsSamePage(form: FormData, step: int)
    requires 1 <= step <= MaxStep(form)
    ensures 1 <= ActualStep(IsIncentive(form), step) <= 6
    ensures Steps(form)[step - 1] == IncentiveSteps[ActualStep(IsIncentive(form), step) - 1]
  {
  }

  /** The outcome of a check; the message is the text of the error toast. */
  datatype StepCheck = Pass | Fail(message: string)

  /** The priorities of the selected channels, sms, ussd, app, email. */
  function SelectedPriorities(form: FormData): (r: seq<int>)
    ensures |r| == |Selected(form.channels)|
  {
    var sel := Selected(form.channels);
    seq(|sel|, i requires 0 <= i < |sel| => SettingOf(form.channelSettings, sel[i]).priority)
  }

  /** `priorities.some(p => !p || p <= 0)`; for an integer `!p` is `p == 0`. */
  predicate SomeUnset(priorities: seq<int>) {
    exists i :: 0 <= i < |priorities| && (priorities[i] == 0 || priorities[i] <= 0)
  }

  /** The channel page check of step 3. */
  function CheckChannels(form: FormData): (r: StepCheck)
    ensures r.Pass? <==>
      OnCount(form.channels) >= 1
      && (OnCount(form.channels) > 1 ==>
            forall c :: IsOn(form.channels, c) ==> SettingOf(form.channelSettings, c).priority > 0)
    ensures OnCount(form.channels) == 1 ==> r.Pass?
  {
    SelectedFacts(form.channels);
    AllPrioritiesSet(form);
    var hasChannel := form.channels.sms || form.channels.ussd || form.channels.app || form.channels.email;
    if !hasChannel then Fail("Please select at least one channel")
    else if OnCount(form.channels) > 1 && SomeUnset(SelectedPriorities(form)) then
      Fail("Please set priority for all selected channels")
    else Pass
  }

  /** No selected priority is unset exactly when every selected channel has a positive priority. */
  lemma AllPrioritiesSet(form: FormData)
    ensures !SomeUnset(SelectedPriorities(form)) <==>
      forall c :: IsOn(form.channels, c) ==> SettingOf(form.channelSettings, c).priority > 0
  {
    if !SomeUnset(SelectedPriorities(form)) {
      SetPrioritiesPositive(form);
    } else {
      UnsetPriorityFound(form);
    }
  }

  lemma SetPrioritiesPositive(form: FormData)
    requires !SomeUnset(SelectedPriorities(form))
    ensures forall c :: IsOn(form.channels, c) ==> SettingOf(form.channelSettings, c).priority > 0
  {
    FilterComplete(ChannelOrder, c => IsOn(form.channels, c));
    forall c | IsOn(form.channels, c) ensures SettingOf(form.channelSettings, c).priority > 0 {
      assert c in ChannelOrder;
      var sel := Selected(form.channels);
      var i :| 0 <= i < |sel| && sel[i] == c;
      assert SelectedPriorities(form)[i] == SettingOf(form.channelSettings, c).priority;
    }
  }

  lemma UnsetPriorityFound(form: FormData)
    requires SomeUnset(SelectedPriorities(form))
    ensures exists c :: IsOn(form.channels, c) && SettingOf(form.channelSettings, c).priority <= 0
  {
    var ps := SelectedPriorities(form);
    var i :| 0 <= i < |ps| && (ps[i] == 0 || ps[i] <= 0);
    FilterSound(ChannelOrder, c => IsOn(form.channels, c));
    var sel := Selected(form.channels);
    assert sel[i] in sel;
  }

  /** `validateStep(step)` without the toast: `Fail` carries its message. */
  function ValidateStep(form: FormData, step: int): (r: StepCheck)
    ensures ActualStep(IsIncentive(form), step) == 1 ==>
      (r.Pass? <==> form.name != "" && form.campaignType != "" && form.objective != "")
    ensures ActualStep(IsIncentive(form), step) == 2 ==>
      (r.Pass? <==> |form.selectedSegmentIds| > 0 || form.uploadedFileName != "")
    ensures ActualStep(IsIncentive(form), step) == 3 ==> r == CheckChannels(form)
    ensures step == 4 && IsIncentive(form) ==>
      (r.Pass? <==> form.rewardValue > 0.0 && form.rewardAccountId != ""
                    && form.rewardValue * form.totalCustomers as real <= form.rewardAccountBalance)
    ensures ActualStep(IsIncentive(form), step) == 5 ==>
      (r.Pass? <==> form.scheduleType != "scheduled" || (form.startDate != "" && form.endDate != ""))
    ensures !(1 <= ActualStep(IsIncentive(form), step) <= 5) ==> r.Pass?
  {
    match ActualStep(IsIncentive(form), step)
    case 1 =>
      if form.name == "" || form.campaignType == "" || form.objective == "" then
        Fail("Please fill in all required fields")
      else Pass
    case 2 =>
      if |form.selectedSegmentIds| == 0 && form.uploadedFileName == "" then
        Fail("Please select at least one segment or upload a file")
      else Pass
    case 3 => CheckChannels(form)
    case 4 =>
      if IsIncentive(form) then
        if form.rewardValue == 0.0 || form.rewardValue <= 0.0 then Fail("Please enter a valid reward value")
        else if form.rewardAccountId == "" then Fail("Please select a reward account")
        else if form.rewardValue * form.totalCustomers as real > form.rewardAccountBalance then
          Fail("Insufficient balance in reward account")
        else Pass
      else Pass
    case 5 =>
      if form.scheduleType == "scheduled" && (form.startDate == "" || form.endDate == "") then
        Fail("Please set start and end dates")
      else Pass
    case _ => Pass
  }

  /** A campaign that is not an incentive checks the schedule at step 4 and
      nothing at its review step 5; no page of it runs the reward check. */
  lemma PlainCampaignSteps(form: FormData)
    requires !IsIncentive(form)
    ensures ValidateStep(form, 4).Pass? <==> form.scheduleType != "scheduled" || (form.startDate != "" && form.endDate != "")
    ensures ValidateStep(form, 5) == Pass
    ensures forall step :: ActualStep(false, step) != 4
  {
  }

  /** The review page of either kind of campaign always passes. */
  lemma ReviewAlwaysPasses(form: FormData)
    ensures ValidateStep(form, MaxStep(form)) == Pass
  {
  }

  // ---------------------------------------------------------------------------
  // Moving between steps

  /** `Math.min(prev + 1, maxStep)` after a passing check, `prev` otherwise. */
  function NextStep(prev: int, maxStep: int, valid: bool): (r: int)
    ensures r <= prev + 1 && (r == prev + 1 <==> valid && prev < maxStep)
    ensures valid ==> r <= maxStep
    ensures 1 <= prev <= maxStep ==> prev <= r <= maxStep
  {
    if valid then (if prev + 1 < maxStep then prev + 1 else maxStep) else prev
  }

  /** `Math.max(prev - 1, 1)` */
  function BackStep(prev: int): (r: int)
    ensures r >= 1 && r >= prev - 1 && (r == prev - 1 <==> prev > 1)
    ensures prev >= 1 ==> r <= prev
  {
    if prev - 1 > 1 then prev - 1 else 1
  }

  /** Back after a Next that moved returns to the same step. */
  lemma BackUndoesNext(prev: int, maxStep: int)
    requires 1 <= prev < maxStep
    ensures BackStep(NextStep(prev, maxStep, true)) == prev
  {
  }

  /** The page state: `currentStep` and `formData`. */
  class Wizard {
    var currentStep: int
    var formData: FormData

    ghost predicate Valid()
      reads this
    {
      currentStep >= 1
    }

    /** The first page, with the start form. */
    constructor (preSelectedSegment: Option<string>)
      ensures Valid() && currentStep == 1 && formData == StartForm(preSelectedSegment)
    {
      currentStep := 1;
      formData := StartForm(preSelectedSegment);
    }

    /** `handleNext`: returns the check of the current step. */
    method HandleNext() returns (check: StepCheck)
      requires Valid()
      modifies this
      ensures Valid()
      ensures check == ValidateStep(formData, old(currentStep)) && formData == old(formData)
      ensures currentStep == NextStep(old(currentStep), MaxStep(formData), check.Pass?)
    {
      check := ValidateStep(formData, currentStep);
      if check.Pass? {
        currentStep := if currentStep + 1 < MaxStep(formData) then currentStep + 1 else MaxStep(formData);
      }
    }

    /** `handleBack` */
    method HandleBack()
      requires Valid()
      modifies this
      ensures Valid()
      ensures currentStep == BackStep(old(currentStep)) && formData == old(formData)
    {
      currentStep := if currentStep - 1 > 1 then currentStep - 1 else 1;
    }

    /** `updateFormData(updates)` */
    method UpdateFormData(updates: FormPatch)
      requires Valid()
      modifies this
      ensures Valid()
      ensures formData == Merge(old(formData), updates) && currentStep == old(currentStep)
    {
      formData := Merge(formData, updates);
    }
  }

  /** From any step within the wizard, Next and Back keep the step within it. */
  lemma StepsStayInRange(form: FormData, step: int, valid: bool)
    requires 1 <= step <= MaxStep(form)
    ensures 1 <= NextStep(step, MaxStep(form), valid) <= MaxStep(form)
    ensures 1 <= BackStep(step) <= MaxStep(form)
  {
  }
}
