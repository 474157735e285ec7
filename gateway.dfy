/**
 * The gateway client: turning the cell-status JSON of a Nokia 5G gateway into one
 * 4G (LTE) and one 5G tower-metric record, and the fetch logic around it, with the
 * HTTP session abstracted into the login response and the outcome of the status GET.
 */
module Gateway {
  import opened Outcomes
  import opened PyJson

  /** Seconds allowed for the status GET. */
  const DefaultHttpRequestTimeout: nat := 5

  /** The first four CSV columns: the speed-test scalars. */
  const ThroughputMetricNames: seq<string> := ["timestamp", "ping", "download", "upload"]

  /** The fixed field names of a tower-metric record, in column order. */
  const BaseTowerMetricNames: seq<string> := ["rsrp", "rsrq", "rssi", "snr", "band", "cell_id", "ecgi", "enbid"]

  /** Top-level keys of the 4G and 5G cell arrays in the response of cell_status_app.cgi. */
  const LteKey: string := "cell_stat_lte"
  const NrKey: string := "cell_stat_5G"

  /** A tower-metric record: field name to text. */
  type TowerMetrics = map<string, string>

  /** The 4G record and the 5G record, in that order. */
  type MetricsPair = (TowerMetrics, TowerMetrics)

  const TowerMetricKeys: set<string> := set n | n in BaseTowerMetricNames

  /** The default record: every field present, every value empty. */
  const BaseTowerMetrics: TowerMetrics := map n | n in BaseTowerMetricNames :: ""

  const DefaultPair: MetricsPair := (BaseTowerMetrics, BaseTowerMetrics)

  /** The default record has exactly the eight field names as keys, each mapped to "". */
  lemma DefaultRecordShape()
    ensures BaseTowerMetrics.Keys == {"rsrp", "rsrq", "rssi", "snr", "band", "cell_id", "ecgi", "enbid"}
    ensures forall k :: k in BaseTowerMetrics ==> BaseTowerMetrics[k] == ""
    ensures |BaseTowerMetricNames| == 8
  {
  }

  /**
   * The record built from one cell entry: each field is `str(cell.get(source key, ''))`.
   * Any non-dict entry has no `get` and raises.
   */
  function CellMetrics(cell: Json): (r: Result<TowerMetrics, PyError>)
    ensures r.Ok? <==> cell.JObj?
    ensures r.Err? ==> r.error == AttributeError
    ensures r.Ok? ==> r.value.Keys == TowerMetricKeys
  {
    if !cell.JObj? then Err(AttributeError)
    else
      Ok(map[
        "rsrp" := Str(GetOrEmpty(cell, "RSRPCurrent").value),
        "rsrq" := Str(GetOrEmpty(cell, "RSRQCurrent").value),
        "rssi" := Str(GetOrEmpty(cell, "RSSICurrent").value),
        "snr" := Str(GetOrEmpty(cell, "SNRCurrent").value),
        "band" := Str(GetOrEmpty(cell, "Band").value),
        "cell_id" := Str(GetOrEmpty(cell, "Cellid").value),
        "ecgi" := Str(GetOrEmpty(cell, "ECGI").value),
        "enbid" := Str(GetOrEmpty(cell, "eNBID").value)])
  }

  /** The text of a cell field, `str(cell.get(key, ''))`: its `str()`, or "" when the cell lacks it. */
  function FieldText(fields: map<string, Json>, key: string): string {
    Str(GetOr(fields, key, JStr("")))
  }

  /** Each metric of a cell's record is the text of the matching cell field. */
  lemma CellMetricsFields(cell: Json)
    requires cell.JObj?
    ensures CellMetrics(cell).value["rsrp"] == FieldText(cell.fields, "RSRPCurrent")
    ensures CellMetrics(cell).value["rsrq"] == FieldText(cell.fields, "RSRQCurrent")
    ensures CellMetrics(cell).value["rssi"] == FieldText(cell.fields, "RSSICurrent")
    ensures CellMetrics(cell).value["snr"] == FieldText(cell.fields, "SNRCurrent")
    ensures CellMetrics(cell).value["band"] == FieldText(cell.fields, "Band")
    ensures CellMetrics(cell).value["cell_id"] == FieldText(cell.fields, "Cellid")
    ensures CellMetrics(cell).value["ecgi"] == FieldText(cell.fields, "ECGI")
    ensures CellMetrics(cell).value["enbid"] == FieldText(cell.fields, "eNBID")
  {
    // Each lookup spelled out against the record literal: Dafny finds these unaided,
    // but without them the search over the eight string keys nears the resource limit.
    var m := CellMetrics(cell).value;
    assert m["rsrp"] == Str(GetOrEmpty(cell, "RSRPCurrent").value);
    assert m["rsrq"] == Str(GetOrEmpty(cell, "RSRQCurrent").value);
    assert m["rssi"] == Str(GetOrEmpty(cell, "RSSICurrent").value);
    assert m["snr"] == Str(GetOrEmpty(cell, "SNRCurrent").value);
    assert m["band"] == Str(GetOrEmpty(cell, "Band").value);
    assert m["cell_id"] == Str(GetOrEmpty(cell, "Cellid").value);
    assert m["ecgi"] == Str(GetOrEmpty(cell, "ECGI").value);
    assert m["enbid"] == Str(GetOrEmpty(cell, "eNBID").value);
  }

  /**
   * One generation's record: the default unless the response is truthy and `key in response`,
   * in which case `response[key][0]` is read.
   */
  function GenerationMetrics(response: Json, key: string): (r: Result<TowerMetrics, PyError>)
    ensures r.Ok? ==> r.value.Keys == TowerMetricKeys
  {
    if !Truthy(response) then Ok(BaseTowerMetrics)
    else
      var present :- Contains(response, key);
      if !present then Ok(BaseTowerMetrics)
      else
        var cells :- Subscript(response, key);
        var cell :- First(cells);
        CellMetrics(cell)
  }

  /**
   * The 4G and the 5G record of a decoded response (JNull standing for `None`),
   * or the exception raised while reading them.
   */
  function ExtractTowerStats(response: Json): (r: Result<MetricsPair, PyError>)
    ensures r.Ok? ==> r.value.0.Keys == TowerMetricKeys && r.value.1.Keys == TowerMetricKeys
    ensures !Truthy(response) ==> r == Ok(DefaultPair)
    ensures r.Ok? <==> GenerationMetrics(response, LteKey).Ok? && GenerationMetrics(response, NrKey).Ok?
    ensures r.Ok? ==> r.value == (GenerationMetrics(response, LteKey).value, GenerationMetrics(response, NrKey).value)
  {
    var fourG :- GenerationMetrics(response, LteKey);
    var fiveG :- GenerationMetrics(response, NrKey);
    Ok((fourG, fiveG))
  }

  /**
   * How a generation present in a JSON object is read: only element 0 of its array counts;
   * an empty array raises IndexError; anything but a non-empty array of dicts raises.
   */
  lemma {:induction false} PresentGenerationReadsFirstCell(f: map<string, Json>, key: string)
    requires key in f
    ensures GenerationMetrics(JObj(f), key).Ok? <==> f[key].JArr? && f[key].elems != [] && f[key].elems[0].JObj?
    ensures f[key] == JArr([]) ==> GenerationMetrics(JObj(f), key) == Err(IndexError)
    ensures f[key].JArr? && f[key].elems != [] ==> GenerationMetrics(JObj(f), key) == CellMetrics(f[key].elems[0])
  {
    assert Truthy(JObj(f));
  }

  /** A generation absent from a JSON object gets the default record, whatever else the object holds. */
  lemma {:induction false} AbsentGenerationIsDefault(f: map<string, Json>)
    ensures LteKey !in f ==> GenerationMetrics(JObj(f), LteKey) == Ok(BaseTowerMetrics)
    ensures NrKey !in f ==> GenerationMetrics(JObj(f), NrKey) == Ok(BaseTowerMetrics)
    ensures LteKey !in f && NrKey !in f ==> ExtractTowerStats(JObj(f)) == Ok(DefaultPair)
  {
  }

  /**
   * A truthy response that is not an object: `in` tests list membership, substrings or raises,
   * so a list naming neither key gives two default records, and naming a key makes `[key]` raise.
   */
  lemma {:induction false} NonObjectResponse(v: Json)
    ensures v.JArr? && v.elems != [] && JStr(LteKey) !in v.elems && JStr(NrKey) !in v.elems ==>
              ExtractTowerStats(v) == Ok(DefaultPair)
    ensures v.JArr? && JStr(LteKey) in v.elems ==> ExtractTowerStats(v) == Err(TypeError)
    ensures v.JStr? && IsSubstring(LteKey, v.s) ==> ExtractTowerStats(v) == Err(TypeError)
    ensures (v.JBool? || v.JInt? || v.JFloat?) && Truthy(v) ==> ExtractTowerStats(v) == Err(TypeError)
  {
    if v.JStr? && IsSubstring(LteKey, v.s) {
      assert v.s != "";
    }
  }

  /** The 4G record depends only on what the object holds under the 4G key. */
  lemma {:induction false} FourGIgnoresOtherKeys(f: map<string, Json>, g: map<string, Json>)
    requires LteKey in f <==> LteKey in g
    requires LteKey in f ==> f[LteKey] == g[LteKey]
    ensures GenerationMetrics(JObj(f), LteKey) == GenerationMetrics(JObj(g), LteKey)
    ensures ExtractTowerStats(JObj(f)).Ok? && ExtractTowerStats(JObj(g)).Ok? ==>
              ExtractTowerStats(JObj(f)).value.0 == ExtractTowerStats(JObj(g)).value.0
  {
    if LteKey in f {
      PresentGenerationReadsFirstCell(f, LteKey);
      PresentGenerationReadsFirstCell(g, LteKey);
    } else {
      AbsentGenerationIsDefault(f);
      AbsentGenerationIsDefault(g);
    }
  }

  /** The 5G record depends only on what the object holds under the 5G key. */
  lemma {:induction false} FiveGIgnoresOtherKeys(f: map<string, Json>, g: map<string, Json>)
    requires NrKey in f <==> NrKey in g
    requires NrKey in f ==> f[NrKey] == g[NrKey]
    ensures GenerationMetrics(JObj(f), NrKey) == GenerationMetrics(JObj(g), NrKey)
    ensures ExtractTowerStats(JObj(f)).Ok? && ExtractTowerStats(JObj(g)).Ok? ==>
              ExtractTowerStats(JObj(f)).value.1 == ExtractTowerStats(JObj(g)).value.1
  {
    if NrKey in f {
      PresentGenerationReadsFirstCell(f, NrKey);
      PresentGenerationReadsFirstCell(g, NrKey);
    } else {
      AbsentGenerationIsDefault(f);
      AbsentGenerationIsDefault(g);
    }
  }

  /** A response carrying only a 4G cell (as in the gateway's sample reply) yields its values and a default 5G record. */
  lemma SampleFourGOnlyResponse()
    ensures
      var cell := JObj(map["Band" := JStr("B71"), "Cellid" := JStr("61"),
                           "ECGI" := JStr("310260225122877"), "eNBID" := JStr("879386")]);
      ExtractTowerStats(JObj(map[LteKey := JArr([cell])])) ==
        Ok((map["rsrp" := "", "rsrq" := "", "rssi" := "", "snr" := "", "band" := "B71",
                "cell_id" := "61", "ecgi" := "310260225122877", "enbid" := "879386"],
            BaseTowerMetrics))
  {
    var cell := JObj(map["Band" := JStr("B71"), "Cellid" := JStr("61"),
                         "ECGI" := JStr("310260225122877"), "eNBID" := JStr("879386")]);
    var f := map[LteKey := JArr([cell])];
    assert LteKey in f && NrKey !in f;
    PresentGenerationReadsFirstCell(f, LteKey);
    AbsentGenerationIsDefault(f);
  }

  /** Client configuration: the root URL of the gateway and the admin credentials. */
  datatype NokiaGateway = NokiaGateway(rootEndpointUrl: string, username: string, password: string) {

    function LoginUrl(): string {
      rootEndpointUrl + "/login_app.cgi"
    }

    function CellStatusUrl(): string {
      rootEndpointUrl + "/cell_status_app.cgi"
    }
  }

  /** An HTTP request the client issues on its session. */
  datatype Request =
    | Post(url: string, form: map<string, string>)
    | Get(url: string, timeoutSeconds: nat)

  /** The gateway's answer to the login POST. */
  datatype LoginResponse = LoginResponse(statusCode: int, text: string)

  /**
   * The status GET as seen by the client: either the GET or `response.json()` raised
   * (timeout, connection failure, undecodable body), or the body decoded to a JSON value.
   */
  datatype FetchOutcome = FetchRaised | Decoded(json: Json)

  /**
   * Exceptions that escape the client: the RequestException carrying the login response's text,
   * and the UnboundLocalError raised by `return` when neither metrics local was bound.
   */
  datatype GatewayError = RequestException(text: string) | UnboundLocalError

  /**
   * What `_get_radio_status` returns for a fetch outcome. The try block extracts only from a
   * truthy body; the finally block supplies defaults only while the body is still `None`; any
   * other path leaves the locals unbound.
   */
  function RadioStatus(fetch: FetchOutcome): (r: Result<MetricsPair, GatewayError>)
    ensures r.Ok? ==> r.value.0.Keys == TowerMetricKeys && r.value.1.Keys == TowerMetricKeys
    ensures r.Err? ==> r.error == UnboundLocalError
    ensures fetch.FetchRaised? || fetch == Decoded(JNull) ==> r == Ok(DefaultPair)
    ensures fetch.Decoded? && fetch.json != JNull && !Truthy(fetch.json) ==> r == Err(UnboundLocalError)
    ensures fetch.Decoded? && Truthy(fetch.json) ==>
              (r.Ok? <==> ExtractTowerStats(fetch.json).Ok?) &&
              (r.Ok? ==> r.value == ExtractTowerStats(fetch.json).value)
  {
    match fetch
    case FetchRaised => Ok(DefaultPair)
    case Decoded(v) =>
      if v == JNull then Ok(DefaultPair)
      else if !Truthy(v) then Err(UnboundLocalError)
      else
        match ExtractTowerStats(v)
        case Ok(pair) => Ok(pair)
        case Err(_) => Err(UnboundLocalError)
  }

  /**
   * `_get_radio_status`: issues the status GET (returned as `request`) and follows the
   * try/except/finally of the client, with `metrics == None` standing for "not yet bound".
   */
  method GetRadioStatus(gateway: NokiaGateway, fetch: FetchOutcome)
    returns (r: Result<MetricsPair, GatewayError>, request: Request)
    ensures request == Get(gateway.CellStatusUrl(), DefaultHttpRequestTimeout)
    ensures r == RadioStatus(fetch)
  {
    var metrics: Option<MetricsPair> := None;
    var responseJson := JNull;
    request := Get(gateway.CellStatusUrl(), DefaultHttpRequestTimeout);
    // try: the GET and the decoding either raise or produce the body
    if fetch.Decoded? {
      responseJson := fetch.json;
      if Truthy(responseJson) {
        var extracted := ExtractTowerStats(responseJson);
        if extracted.Ok? {
          metrics := Some(extracted.value);
        }
        // except: an extraction error is logged and swallowed
      }
    }
    // finally
    if responseJson == JNull {
      var defaults := ExtractTowerStats(JNull);
      metrics := Some(defaults.value);
    }
    if metrics.None? {
      r := Err(UnboundLocalError);
    } else {
      r := Ok(metrics.value);
    }
  }

  /**
   * `get_cell_status`: logs in, and only on status 200 fetches the radio status.
   * `requests` lists the HTTP requests issued on the session, in order.
   */
  method GetCellStatus(gateway: NokiaGateway, login: LoginResponse, fetch: FetchOutcome)
    returns (r: Result<MetricsPair, GatewayError>, requests: seq<Request>)
    ensures |requests| >= 1
    ensures requests[0] == Post(gateway.LoginUrl(), map["name" := gateway.username, "pswd" := gateway.password])
    ensures login.statusCode != 200 ==> r == Err(RequestException(login.text)) && |requests| == 1
    ensures login.statusCode == 200 ==>
              r == RadioStatus(fetch) &&
              requests == [requests[0], Get(gateway.CellStatusUrl(), DefaultHttpRequestTimeout)]
  {
    requests := [Post(gateway.LoginUrl(), map["name" := gateway.username, "pswd" := gateway.password])];
    if login.statusCode != 200 {
      r := Err(RequestException(login.text));
    } else {
      var get;
      r, get := GetRadioStatus(gateway, fetch);
      requests := requests + [get];
    }
  }
}
