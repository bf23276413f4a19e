/** The dashboard service: the reporting period, the calls checked with
    `handleJson`, and the two campaign lists that are read as text, have their
    long ids quoted (module BigIds) and every id made a string. */
module DashboardApi {
  import opened Wrappers
  import opened Strings
  import opened Http
  import opened BigIds
  import opened CampaignApi

  // ---------------------------------------------------------------------------
  // The period

  /** `type Period = "24h" | "7d" | "30d" | "90d"` */
  datatype Period = Last24Hours | Last7Days | Last30Days | Last90Days

  function PeriodText(p: Period): string {
    match p
    case Last24Hours => "24h"
    case Last7Days => "7d"
    case Last30Days => "30d"
    case Last90Days => "90d"
  }

  /** The period a text names, if any. */
  function ParsePeriod(s: string): (r: Option<Period>)
    ensures r.Some? ==> PeriodText(r.value) == s
    ensures r.None? <==> s !in {"24h", "7d", "30d", "90d"}
  {
    match s
    case "24h" => Some(Last24Hours)
    case "7d" => Some(Last7Days)
    case "30d" => Some(Last30Days)
    case "90d" => Some(Last90Days)
    case _ => None
  }

  /** Each period reads back from its text, so no two periods share one. */
  lemma PeriodReadsBack(p: Period)
    ensures ParsePeriod(PeriodText(p)) == Some(p)
  {
  }

  /** `period: Period = "7d"`: the period a call asks for when none is given. */
  function EffectivePeriod(period: Option<Period>): (r: Period)
    ensures period.Some? ==> r == period.value
    ensures period.None? ==> PeriodText(r) == "7d"
  {
    period.GetOr(Last7Days)
  }

  // ---------------------------------------------------------------------------
  // The calls that go through handleJson

  /** The dashboard calls that check their response with `handleJson`. */
  datatype DashboardCall = DashboardSummary | CustomerMetrics | ActivityTrend | ChurnRiskDistribution

  /** The message prefix each call passes to `handleJson`. */
  function Prefix(call: DashboardCall): string {
    match call
    case DashboardSummary => "Failed to fetch dashboard summary"
    case CustomerMetrics => "Failed to fetch customer metrics"
    case ActivityTrend => "Failed to fetch activity trend"
    case ChurnRiskDistribution => "Failed to fetch churn risk distribution"
  }

  /** Whether the call takes a period (all but the churn risk distribution). */
  predicate TakesPeriod(call: DashboardCall) {
    call != ChurnRiskDistribution
  }

  /** The query a call sends: `period=<text>` with the default "7d", or nothing. */
  function Query(call: DashboardCall, period: Option<Period>): (r: string)
    ensures TakesPeriod(call) && period.None? ==> r == "period=7d"
    ensures !TakesPeriod(call) ==> r == ""
    ensures TakesPeriod(call) ==>
      |r| > 7 && r[..7] == "period=" && ParsePeriod(r[7..]) == Some(EffectivePeriod(period))
  {
    PeriodReadsBack(EffectivePeriod(period));
    if TakesPeriod(call) then "period=" + PeriodText(EffectivePeriod(period)) else ""
  }

  /** `handleJson(response, prefix)` as the dashboard calls use it. */
  function CheckCall<T>(call: DashboardCall, res: Response<T>): (r: Result<T>)
    ensures r.Ok? <==> res.ok
    ensures r.Ok? ==> r.value == res.body
    ensures r.Err? ==> r.message == FailureText(Prefix(call), res.status, res.statusText)
  {
    HandleJson(res, Prefix(call))
  }

  /** A failure's message names the call and its status line. */
  lemma FailureIdentifiesCall<T>(c1: DashboardCall, c2: DashboardCall, r1: Response<T>, r2: Response<T>)
    requires !r1.ok && !r2.ok && r1.status >= 0 && r2.status >= 0
    ensures CheckCall(c1, r1) == CheckCall(c2, r2) <==>
      c1 == c2 && r1.status == r2.status && r1.statusText == r2.statusText
  {
    NoColonInPrefix(c1);
    NoColonInPrefix(c2);
    FailureIdentifiesPrefix(Prefix(c1), Prefix(c2), r1, r2);
    if Prefix(c1) == Prefix(c2) {
      PrefixInjective(c1, c2);
    }
  }

  lemma NoColonInPrefix(call: DashboardCall)
    ensures ':' !in Prefix(call)
  {
    match call
    case DashboardSummary => assert ':' !in "Failed to fetch dashboard summary";
    case CustomerMetrics => assert ':' !in "Failed to fetch customer metrics";
    case ActivityTrend => assert ':' !in "Failed to fetch activity trend";
    case ChurnRiskDistribution => assert ':' !in "Failed to fetch churn risk distribution";
  }

  lemma PrefixInjective(c1: DashboardCall, c2: DashboardCall)
    requires Prefix(c1) == Prefix(c2)
    ensures c1 == c2
  {
  }

  // ---------------------------------------------------------------------------
  // The campaign performance and recent campaigns lists

  /** `{ ...c, id: String(c.id) }` */
  function StringId(c: Record): (r: Record)
    ensures r.Keys == c.Keys + {"id"}
    ensures forall k :: k in c && k != "id" ==> r[k] == c[k]
    ensures r["id"].Str?
  {
    c["id" := Str(ToStr(Get(c, "id")))]
  }

  /** The id is the old id printed, and printing it again changes nothing. */
  lemma StringIdIdempotent(c: Record)
    ensures StringId(c)["id"] == Str(ToStr(Get(c, "id")))
    ensures StringId(StringId(c)) == StringId(c)
  {
    assert Get(StringId(c), "id") == Str(ToStr(Get(c, "id")));
  }

  /** Where a campaign has no true `campaignId`, the campaign service's
      normalisation gives the same id as this one and only sets `campaignId`
      to undefined; where it has one, the two ids can differ. */
  lemma AgreesWithCampaignService(c: Record)
    ensures !Truthy(Get(c, "campaignId")) ==>
      NormalizeCampaign(c) == StringId(c)["campaignId" := Undefined]
    ensures Truthy(Get(c, "campaignId")) ==>
      NormalizeCampaign(c)["id"] == Str(ToStr(c["campaignId"]))
  {
    NormalizePrefersCampaignId(c);
    if !Truthy(Get(c, "campaignId")) {
      assert NormalizeCampaign(c).Keys == (StringId(c)["campaignId" := Undefined]).Keys;
    }
  }

  /** The function form of `StringId`. */
  function StringIdRule(): Record -> Record {
    (c: Record) => StringId(c)
  }

  /** `fetchCampaignPerformance()` and `fetchRecentCampaigns()`, which differ
      only in the address they read: the body text with its long ids quoted,
      parsed, and every campaign's id made a string. The response's `ok` flag
      is not looked at. */
  function FetchCampaignList(res: Response<string>, parse: string -> Result<Payload>): (r: Result<Payload>)
    ensures parse(Sanitize(res.body)).Err? ==> r == parse(Sanitize(res.body))
    ensures parse(Sanitize(res.body)).Ok? ==>
      r == Ok(NormalizePayload(parse(Sanitize(res.body)).value, StringIdRule()))
  {
    match parse(Sanitize(res.body))
    case Err(m) => Err(m)
    case Ok(data) => Ok(NormalizePayload(data, StringIdRule()))
  }

  /** Every campaign of a fetched list has a string id, the other fields as
      parsed, and normalising the result again changes nothing. */
  lemma FetchedIdsAreStrings(res: Response<string>, parse: string -> Result<Payload>)
    requires FetchCampaignList(res, parse).Ok?
    ensures var data := FetchCampaignList(res, parse).value;
      data.Object? && data.campaigns.CampaignArray? ==>
        forall c :: c in data.campaigns.items ==> Get(c, "id").Str?
    ensures NormalizePayload(FetchCampaignList(res, parse).value, StringIdRule()) == FetchCampaignList(res, parse).value
  {
    var data := FetchCampaignList(res, parse).value;
    var parsed := parse(Sanitize(res.body)).value;
    if data.Object? && data.campaigns.CampaignArray? {
      forall c | c in data.campaigns.items
        ensures Get(c, "id").Str?
      {
        var i :| 0 <= i < |data.campaigns.items| && data.campaigns.items[i] == c;
        assert c == StringId(parsed.campaigns.items[i]);
      }
    }
    forall c ensures StringIdRule()(StringIdRule()(c)) == StringIdRule()(c) {
      StringIdIdempotent(c);
    }
    NormalizePayloadIdempotent(parsed, StringIdRule());
  }

  /** The two lists are read whatever the status: a failed response with the
      same body gives the same result, where a `handleJson` call gives an error. */
  lemma ListIgnoresStatus(r1: Response<string>, r2: Response<string>, parse: string -> Result<Payload>, call: DashboardCall)
    requires r1.body == r2.body && r1.ok && !r2.ok
    ensures FetchCampaignList(r1, parse) == FetchCampaignList(r2, parse)
    ensures CheckCall(call, r1).Ok? && CheckCall(call, r2).Err?
  {
  }
}
