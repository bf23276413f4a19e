/** The campaign service: the campaign list is read as text, its long numeric
    ids are quoted before parsing (module BigIds), and every campaign's id is
    then made a string, preferring `campaignId`; the other calls go through
    the shared `handleJson` rule (module Http). */
module CampaignApi {
  import opened Wrappers
  import opened Strings
  import opened Http
  import opened BigIds

  // ---------------------------------------------------------------------------
  // Parsed JSON, as far as the normalisation looks at it

  /** A field value of a parsed campaign: the JSON scalars, any object or
      array, and `undefined` for a field that is not there. */
  datatype Value = Undefined | Null | Bool(b: bool) | Num(n: int) | Str(s: string) | Compound

  /** A campaign object: its fields by name. */
  type Record = map<string, Value>

  /** `c.k`: the field's value, `undefined` when the field is missing. */
  function Get(c: Record, k: string): (v: Value)
    ensures k !in c ==> v == Undefined
    ensures k in c ==> v == c[k]
  {
    if k in c then c[k] else Undefined
  }

  /** JavaScript truthiness: `undefined`, `null`, `false`, `0` and `""` are false. */
  predicate Truthy(v: Value) {
    match v
    case Undefined => false
    case Null => false
    case Bool(b) => b
    case Num(n) => n != 0
    case Str(s) => s != ""
    case Compound => true
  }

  /** `String(v)` */
  function ToStr(v: Value): (r: string)
    ensures v.Str? ==> r == v.s
    ensures v.Num? ==> r == IntToString(v.n)
  {
    match v
    case Undefined => "undefined"
    case Null => "null"
    case Bool(b) => if b then "true" else "false"
    case Num(n) => IntToString(n)
    case Str(s) => s
    case Compound => "[object Object]"
  }

  /** A true value prints as a non-empty string, so its string is true again. */
  lemma TruthyPrintsTruthy(v: Value)
    requires Truthy(v)
    ensures Truthy(Str(ToStr(v)))
  {
    if v.Num? {
      assert |IntToString(v.n)| > 0 by {
        if v.n < 0 {
          assert IntToString(v.n) == "-" + NatToString(-v.n);
        } else {
          assert IntToString(v.n) == NatToString(v.n);
          NatToStringValue(v.n);
        }
      }
    }
  }

  // ---------------------------------------------------------------------------
  // Normalising one campaign

  /** `{ ...c, id: c.campaignId ? String(c.campaignId) : String(c.id),
          campaignId: c.campaignId ? String(c.campaignId) : undefined }` */
  function NormalizeCampaign(c: Record): (r: Record)
    ensures r.Keys == c.Keys + {"id", "campaignId"}
    ensures forall k :: k in c && k != "id" && k != "campaignId" ==> r[k] == c[k]
    ensures r["id"].Str? && (r["campaignId"].Str? || r["campaignId"] == Undefined)
  {
    var cid := Get(c, "campaignId");
    c["id" := Str(if Truthy(cid) then ToStr(cid) else ToStr(Get(c, "id")))]
     ["campaignId" := if Truthy(cid) then Str(ToStr(cid)) else Undefined]
  }

  /** The id prefers `campaignId` whenever that is true, and otherwise is the
      old id printed; `campaignId` survives, as a string, exactly when it was true. */
  lemma NormalizePrefersCampaignId(c: Record)
    ensures Truthy(Get(c, "campaignId")) ==>
      NormalizeCampaign(c)["id"] == Str(ToStr(c["campaignId"]))
      && NormalizeCampaign(c)["campaignId"] == NormalizeCampaign(c)["id"]
    ensures !Truthy(Get(c, "campaignId")) ==>
      NormalizeCampaign(c)["id"] == Str(ToStr(Get(c, "id")))
      && NormalizeCampaign(c)["campaignId"] == Undefined
    ensures Truthy(NormalizeCampaign(c)["campaignId"]) <==> Truthy(Get(c, "campaignId"))
  {
    if Truthy(Get(c, "campaignId")) {
      TruthyPrintsTruthy(c["campaignId"]);
    }
  }

  /** A campaign whose id is already a string (as a quoted long id is) and
      that has no true `campaignId` keeps its id text exactly. */
  lemma StringIdKept(c: Record, id: string)
    requires Get(c, "id") == Str(id) && !Truthy(Get(c, "campaignId"))
    ensures NormalizeCampaign(c)["id"] == Str(id)
  {
  }

  /** Normalising twice is normalising once. */
  lemma NormalizeCampaignIdempotent(c: Record)
    ensures NormalizeCampaign(NormalizeCampaign(c)) == NormalizeCampaign(c)
  {
    var n := NormalizeCampaign(c);
    var cid := Get(c, "campaignId");
    if Truthy(cid) {
      TruthyPrintsTruthy(cid);
      assert Get(n, "campaignId") == Str(ToStr(cid));
    } else {
      assert Get(n, "campaignId") == Undefined;
    }
    assert NormalizeCampaign(n).Keys == n.Keys;
  }

  // ---------------------------------------------------------------------------
  // The parsed list response

  /** The `campaigns` field of the parsed response: an array of campaigns or
      anything else. */
  datatype Campaigns = CampaignArray(items: seq<Record>) | NotArray(v: Value)

  /** What `JSON.parse` gives for the list response: an object, with its
      `campaigns` field apart from the rest, or any other JSON value. */
  datatype Payload = Object(rest: Record, campaigns: Campaigns) | Scalar(v: Value)

  /** `if (data && Array.isArray(data.campaigns)) data.campaigns = data.campaigns.map(f)` */
  function NormalizePayload(data: Payload, f: Record -> Record): (r: Payload)
    ensures !(data.Object? && data.campaigns.CampaignArray?) ==> r == data
    ensures data.Object? && data.campaigns.CampaignArray? ==>
      r.Object? && r.rest == data.rest && r.campaigns.CampaignArray?
      && |r.campaigns.items| == |data.campaigns.items|
      && forall i :: 0 <= i < |data.campaigns.items| ==> r.campaigns.items[i] == f(data.campaigns.items[i])
  {
    match data
    case Object(rest, CampaignArray(items)) =>
      Object(rest, CampaignArray(seq(|items|, i requires 0 <= i < |items| => f(items[i]))))
    case _ => data
  }

  /** Normalising a parsed list with an idempotent campaign rule is idempotent. */
  lemma NormalizePayloadIdempotent(data: Payload, f: Record -> Record)
    requires forall c :: f(f(c)) == f(c)
    ensures NormalizePayload(NormalizePayload(data, f), f) == NormalizePayload(data, f)
  {
    if data.Object? && data.campaigns.CampaignArray? {
      var once := NormalizePayload(data, f);
      var twice := NormalizePayload(once, f);
      assert twice.campaigns.items == once.campaigns.items;
    }
  }

  /** The function form of `NormalizeCampaign`. */
  function CampaignRule(): Record -> Record {
    (c: Record) => NormalizeCampaign(c)
  }

  /** `fetchCampaigns()`: the body text with its long ids quoted, parsed, and
      every campaign normalised. `parse` stands for `JSON.parse`; a parse
      failure is the error. The response's `ok` flag is not looked at. */
  function FetchCampaigns(res: Response<string>, parse: string -> Result<Payload>): (r: Result<Payload>)
    ensures parse(Sanitize(res.body)).Err? ==> r == parse(Sanitize(res.body))
    ensures parse(Sanitize(res.body)).Ok? ==>
      r == Ok(NormalizePayload(parse(Sanitize(res.body)).value, CampaignRule()))
  {
    match parse(Sanitize(res.body))
    case Err(m) => Err(m)
    case Ok(data) => Ok(NormalizePayload(data, CampaignRule()))
  }

  /** A campaign whose id is a string and whose `campaignId` is a string or missing. */
  predicate HasStringIds(c: Record) {
    Get(c, "id").Str? && (Get(c, "campaignId").Str? || Get(c, "campaignId") == Undefined)
  }

  /** Every campaign of a fetched list has a string id and a string or
      missing `campaignId`, and normalising the result again changes nothing. */
  lemma FetchedCampaignsNormal(res: Response<string>, parse: string -> Result<Payload>)
    requires FetchCampaigns(res, parse).Ok?
    ensures var data := FetchCampaigns(res, parse).value;
      data.Object? && data.campaigns.CampaignArray? ==>
        forall c :: c in data.campaigns.items ==> HasStringIds(c)
    ensures NormalizePayload(FetchCampaigns(res, parse).value, CampaignRule()) == FetchCampaigns(res, parse).value
  {
    var data := FetchCampaigns(res, parse).value;
    var parsed := parse(Sanitize(res.body)).value;
    if data.Object? && data.campaigns.CampaignArray? {
      forall c | c in data.campaigns.items
        ensures HasStringIds(c)
      {
        var i :| 0 <= i < |data.campaigns.items| && data.campaigns.items[i] == c;
        assert c == NormalizeCampaign(parsed.campaigns.items[i]);
      }
    }
    forall c ensures CampaignRule()(CampaignRule()(c)) == CampaignRule()(c) {
      NormalizeCampaignIdempotent(c);
    }
    NormalizePayloadIdempotent(parsed, CampaignRule());
  }

  /** A failed response is parsed like any other: the list call gives the same
      result whatever the status, unlike the calls that go through `handleJson`. */
  lemma FetchIgnoresStatus(r1: Response<string>, r2: Response<string>, parse: string -> Result<Payload>)
    requires r1.body == r2.body && r1.ok && !r2.ok
    ensures FetchCampaigns(r1, parse) == FetchCampaigns(r2, parse)
    ensures HandleJson(r1, "Failed to fetch campaign detail").Ok?
    ensures HandleJson(r2, "Failed to fetch campaign detail").Err?
  {
  }

  // ---------------------------------------------------------------------------
  // The calls that go through handleJson

  /** The other calls of the campaign service; each checks its response with
      `handleJson` and its own message prefix. */
  datatype CampaignCall =
    | CreateCampaign | CampaignDetail | UpdateCampaign | SubmitCampaign | DeleteCampaign
    | CampaignAudience | CampaignChannels | CampaignPerformance | CampaignRewards | CampaignLogs

  /** The message prefix each call passes to `handleJson`. */
  function Prefix(call: CampaignCall): string {
    match call
    case CreateCampaign => "Failed to create campaign"
    case CampaignDetail => "Failed to fetch campaign detail"
    case UpdateCampaign => "Failed to update campaign"
    case SubmitCampaign => "Failed to submit campaign"
    case DeleteCampaign => "Failed to delete campaign"
    case CampaignAudience => "Failed to fetch campaign audience"
    case CampaignChannels => "Failed to fetch campaign channels"
    case CampaignPerformance => "Failed to fetch campaign performance"
    case CampaignRewards => "Failed to fetch campaign rewards"
    case CampaignLogs => "Failed to fetch campaign logs"
  }

  /** The call a prefix belongs to. */
  function CallOf(prefix: string): Option<CampaignCall> {
    match prefix
    case "Failed to create campaign" => Some(CreateCampaign)
    case "Failed to fetch campaign detail" => Some(CampaignDetail)
    case "Failed to update campaign" => Some(UpdateCampaign)
    case "Failed to submit campaign" => Some(SubmitCampaign)
    case "Failed to delete campaign" => Some(DeleteCampaign)
    case "Failed to fetch campaign audience" => Some(CampaignAudience)
    case "Failed to fetch campaign channels" => Some(CampaignChannels)
    case "Failed to fetch campaign performance" => Some(CampaignPerformance)
    case "Failed to fetch campaign rewards" => Some(CampaignRewards)
    case "Failed to fetch campaign logs" => Some(CampaignLogs)
    case _ => None
  }

  /** Each call has its own prefix. */
  lemma PrefixIdentifiesCall(call: CampaignCall)
    ensures CallOf(Prefix(call)) == Some(call)
  {
  }

  /** `handleJson(res, prefix)` as the campaign calls use it. */
  function CheckCall<T>(call: CampaignCall, res: Response<T>): (r: Result<T>)
    ensures r.Ok? <==> res.ok
    ensures r.Ok? ==> r.value == res.body
    ensures r.Err? ==> r.message == FailureText(Prefix(call), res.status, res.statusText)
  {
    HandleJson(res, Prefix(call))
  }

  /** A failure's message names the call: failures of different calls never
      give the same error, and failures of one call give the same error
      exactly when their status lines agree. */
  lemma FailureIdentifiesCall<T>(c1: CampaignCall, c2: CampaignCall, r1: Response<T>, r2: Response<T>)
    requires !r1.ok && !r2.ok && r1.status >= 0 && r2.status >= 0
    ensures CheckCall(c1, r1) == CheckCall(c2, r2) <==>
      c1 == c2 && r1.status == r2.status && r1.statusText == r2.statusText
  {
    NoColonInPrefix(c1);
    NoColonInPrefix(c2);
    FailureIdentifiesPrefix(Prefix(c1), Prefix(c2), r1, r2);
    if Prefix(c1) == Prefix(c2) {
      PrefixInjective(c1, c2);
    }
  }

  /** With prefixes free of colons, a failure's message determines the prefix and the status line. */
  lemma FailureIdentifiesPrefix<T>(p1: string, p2: string, r1: Response<T>, r2: Response<T>)
    requires ':' !in p1 && ':' !in p2
    requires !r1.ok && !r2.ok && r1.status >= 0 && r2.status >= 0
    ensures HandleJson(r1, p1) == HandleJson(r2, p2) <==>
      p1 == p2 && r1.status == r2.status && r1.statusText == r2.statusText
  {
    if HandleJson(r1, p1) == HandleJson(r2, p2) {
      var rest1, rest2 := IntToString(r1.status) + " " + r1.statusText, IntToString(r2.status) + " " + r2.statusText;
      assert FailureText(p1, r1.status, r1.statusText) == p1 + ": " + rest1;
      assert FailureText(p2, r2.status, r2.statusText) == p2 + ": " + rest2;
      SamePrefix(p1, rest1, p2, rest2);
      FailureNamesStatus(r1, r2, p1);
    }
  }

  lemma NoColonInPrefix(call: CampaignCall)
    ensures ':' !in Prefix(call)
  {
    match call
    case CreateCampaign => assert ':' !in "Failed to create campaign";
    case CampaignDetail => assert ':' !in "Failed to fetch campaign detail";
    case UpdateCampaign => assert ':' !in "Failed to update campaign";
    case SubmitCampaign => assert ':' !in "Failed to submit campaign";
    case DeleteCampaign => assert ':' !in "Failed to delete campaign";
    case CampaignAudience => assert ':' !in "Failed to fetch campaign audience";
    case CampaignChannels => assert ':' !in "Failed to fetch campaign channels";
    case CampaignPerformance => assert ':' !in "Failed to fetch campaign performance";
    case CampaignRewards => assert ':' !in "Failed to fetch campaign rewards";
    case CampaignLogs => assert ':' !in "Failed to fetch campaign logs";
  }

  /** Different calls have different prefixes. */
  lemma PrefixInjective(c1: CampaignCall, c2: CampaignCall)
    requires Prefix(c1) == Prefix(c2)
    ensures c1 == c2
  {
    PrefixIdentifiesCall(c1);
    PrefixIdentifiesCall(c2);
  }

  /** The message prefix is what comes before the first colon. */
  lemma SamePrefix(p1: string, rest1: string, p2: string, rest2: string)
    requires ':' !in p1 && ':' !in p2
    requires p1 + ": " + rest1 == p2 + ": " + rest2
    ensures p1 == p2
  {
    var m := p1 + ": " + rest1;
    FirstColon(p1, rest1);
    FirstColon(p2, rest2);
    assert p1 == m[..|p1|] && p2 == m[..|p2|];
  }

  lemma FirstColon(prefix: string, rest: string)
    requires ':' !in prefix
    ensures IndexOfChar(prefix + ": " + rest, ':') == |prefix|
  {
    var m := prefix + ": " + rest;
    assert m[|prefix|] == ':';
    assert m[..|prefix|] == prefix;
  }
}
