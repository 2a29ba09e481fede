/** The e-Stat API client: area-code normalisation, the request parameters of the
    `getStatsData` and `getStatsList` endpoints, the classification of a
    `getStatsData` response into success, HTTP failure and upstream failure, and the
    decoder that turns the classification block (`CLASS_INF`) into a two-level
    code-to-label dictionary. The HTTP exchange itself is not modelled: a response
    is given as an abstract `HttpOutcome`. */
module EStatClient {
  import opened Wrappers
  import opened Text

  const EStatApiBase := "https://api.e-stat.go.jp/rest/3.0/app/json"

  datatype AreaLevel = Prefecture | Municipality

  // ---------------------------------------------------------------------------
  // Area codes

  /** The five-character area code the upstream API expects. A municipality code is
      left-padded with `'0'` to length 5; a prefecture code is left-padded to length 2
      and followed by `"000"`. */
  function NormalizeAreaCode(code: string, level: AreaLevel): (r: string)
    ensures level == Municipality && |code| <= 5 ==> |r| == 5 && IsSuffix(code, r)
    ensures level == Municipality && |code| >= 5 ==> r == code
    ensures level == Municipality ==> forall i :: 0 <= i < |r| - |code| ==> r[i] == '0'
    ensures level == Prefecture ==> IsSuffix("000", r) && |r| == Max(2, |code|) + 3
    ensures level == Prefecture && |code| <= 2 ==> |r| == 5
    ensures level == Prefecture ==> r[..|r| - 3] == PadStart(code, 2)
  {
    match level
    case Municipality => PadStart(code, 5)
    case Prefecture => PadStart(code, 2) + "000"
  }

  /** Normalising an already normalised municipality code changes nothing. */
  lemma {:induction false} MunicipalityNormalizationIdempotent(code: string)
    ensures NormalizeAreaCode(NormalizeAreaCode(code, Municipality), Municipality)
         == NormalizeAreaCode(code, Municipality)
  {
    PadStartIdempotent(code, 5);
  }

  /** A normalised prefecture code of a 1-2 character input is itself a normalised
      municipality code, so normalising it again as a municipality leaves it alone. */
  lemma PrefectureCodeIsMunicipalityShaped(code: string)
    requires |code| <= 2
    ensures NormalizeAreaCode(NormalizeAreaCode(code, Prefecture), Municipality)
         == NormalizeAreaCode(code, Prefecture)
  {
  }

  /** The examples from the client's own tests. */
  lemma NormalizeAreaCodeExamples()
    ensures NormalizeAreaCode("13", Prefecture) == "13000"
    ensures NormalizeAreaCode("1", Prefecture) == "01000"
    ensures NormalizeAreaCode("1310", Municipality) == "01310"
    ensures NormalizeAreaCode("13113", Municipality) == "13113"
  {
    assert Zeros(1) == "0";
  }

  // ---------------------------------------------------------------------------
  // The client and its API key

  datatype Client = Client(apiKey: string)

  /** `new EStatClient(apiKey)`: an empty key is rejected with an error. */
  function NewClient(apiKey: string): (r: Result<Client, string>)
    ensures r.Ok? <==> apiKey != ""
    ensures r.Ok? ==> r.value.apiKey == apiKey
    ensures r.Err? ==> r.error == "e-Stat API key is required"
  {
    if apiKey == "" then Err("e-Stat API key is required") else Ok(Client(apiKey))
  }

  // ---------------------------------------------------------------------------
  // Query parameters, as the object literal handed to `URLSearchParams`

  /** The query-string names the client sends. */
  datatype ParamKey =
    | AppId | StatsDataId | CdArea | Lang | MetaGetFlgKey | CdCat01 | CdTime | StartPosition | Limit
    | SearchWord | StatsField

  /** The name a key has in the query string. */
  function KeyName(k: ParamKey): (r: string)
    ensures |r| > 0
  {
    match k
    case AppId => "appId"
    case StatsDataId => "statsDataId"
    case CdArea => "cdArea"
    case Lang => "lang"
    case MetaGetFlgKey => "metaGetFlg"
    case CdCat01 => "cdCat01"
    case CdTime => "cdTime"
    case StartPosition => "startPosition"
    case Limit => "limit"
    case SearchWord => "searchWord"
    case StatsField => "statsField"
  }

  /** No two keys share a query-string name, so a map on `ParamKey` is the object
      literal: a key of the literal is a key of the map and the other way round. */
  lemma KeyNameInjective(k1: ParamKey, k2: ParamKey)
    requires KeyName(k1) == KeyName(k2)
    ensures k1 == k2
  {
    var n1, n2 := KeyName(k1), KeyName(k2);
    assert |n1| == |n2| && n1[0] == n2[0] && n1[|n1| - 1] == n2[|n2| - 1];
  }

  /** The query object: each key at most once, with its string value. */
  type Params = map<ParamKey, string>

  /** `key` is sent with `value`. */
  predicate Sends(ps: Params, key: ParamKey, value: string) { key in ps && ps[key] == value }

  /** `key` is sent with `value` when `present`, and not sent at all otherwise. */
  predicate SendsIf(ps: Params, key: ParamKey, present: bool, value: string) {
    (key in ps <==> present) && (present ==> ps[key] == value)
  }

  /** The spread `...(present ? { key: value } : {})`. */
  function SpreadIf(ps: Params, key: ParamKey, present: bool, value: string): Params {
    if present then ps[key := value] else ps
  }

  /** A request: the endpoint and its (not yet percent-encoded) query parameters. */
  datatype Request = Request(endpoint: string, params: Params)

  datatype MetaGetFlg = Y | N

  /** `Partial<EStatStatsDataParams>`; a missing `params` argument is all `None`. */
  datatype StatsDataOptions = StatsDataOptions(
    cdCat01: Option<string>,
    cdTime: Option<string>,
    startPosition: Option<int>,
    limit: Option<int>,
    metaGetFlg: Option<MetaGetFlg>)

  const NoOptions := StatsDataOptions(None, None, None, None, None)

  /** JavaScript truthiness of an optional string and of an optional number. */
  predicate Truthy(o: Option<string>) { o.Some? && o.value != "" }
  predicate TruthyNumber(o: Option<int>) { o.Some? && o.value != 0 }

  /** The `'Y' | 'N'` value sent as `metaGetFlg`. */
  function FlagText(f: MetaGetFlg): (r: string)
    ensures |r| == 1
    ensures r == "Y" <==> f == Y
    ensures r == "N" <==> f == N
  {
    match f
    case Y => "Y"
    case N => "N"
  }

  const StatsDataKeys: set<ParamKey> :=
    {AppId, StatsDataId, CdArea, Lang, MetaGetFlgKey, CdCat01, CdTime, StartPosition, Limit}

  /** The query of `buildStatsDataUrl`: the API key, table id, area code and
      `lang=J` always; `metaGetFlg` defaulting to `Y`; `cdCat01`, `cdTime` and
      `startPosition` only when truthy; `limit` always, `100` when absent or zero. */
  function StatsDataParams(client: Client, statsDataId: string, areaCode: string, opts: StatsDataOptions): (r: Params)
    ensures r.Keys <= StatsDataKeys
    ensures Sends(r, AppId, client.apiKey)
    ensures Sends(r, StatsDataId, statsDataId)
    ensures Sends(r, CdArea, areaCode)
    ensures Sends(r, Lang, "J")
    ensures Sends(r, MetaGetFlgKey, if opts.metaGetFlg == Some(N) then "N" else "Y")
    ensures SendsIf(r, CdCat01, Truthy(opts.cdCat01), opts.cdCat01.GetOr(""))
    ensures SendsIf(r, CdTime, Truthy(opts.cdTime), opts.cdTime.GetOr(""))
    ensures SendsIf(r, StartPosition, TruthyNumber(opts.startPosition), IntToString(opts.startPosition.GetOr(0)))
    ensures Sends(r, Limit, if TruthyNumber(opts.limit) then IntToString(opts.limit.value) else "100")
  {
    var fixed := map[AppId := client.apiKey, StatsDataId := statsDataId, CdArea := areaCode, Lang := "J",
                     MetaGetFlgKey := FlagText(opts.metaGetFlg.GetOr(Y))];
    var withCat := SpreadIf(fixed, CdCat01, Truthy(opts.cdCat01), opts.cdCat01.GetOr(""));
    var withTime := SpreadIf(withCat, CdTime, Truthy(opts.cdTime), opts.cdTime.GetOr(""));
    var withStart := SpreadIf(withTime, StartPosition, TruthyNumber(opts.startPosition), IntToString(opts.startPosition.GetOr(0)));
    withStart[Limit := if TruthyNumber(opts.limit) then IntToString(opts.limit.value) else "100"]
  }

  /** `buildStatsDataUrl`, with the URL kept as endpoint plus parameters. */
  function BuildStatsDataUrl(client: Client, statsDataId: string, areaCode: string, opts: StatsDataOptions): (r: Request)
    ensures r.endpoint == EStatApiBase + "/getStatsData"
    ensures r.params == StatsDataParams(client, statsDataId, areaCode, opts)
  {
    Request(EStatApiBase + "/getStatsData", StatsDataParams(client, statsDataId, areaCode, opts))
  }

  /** The parameters of `fetchStatsList`. */
  datatype StatsListQuery = StatsListQuery(
    searchWord: Option<string>,
    statsField: Option<string>,
    limit: Option<int>,
    startPosition: Option<int>)

  const StatsListKeys: set<ParamKey> := {AppId, Lang, SearchWord, StatsField, Limit, StartPosition}

  /** The query of `fetchStatsList`: `limit` defaults to 10 only when it is missing
      (a zero limit is sent as `0`), the other optional keys only when truthy. */
  function StatsListParams(client: Client, q: StatsListQuery): (r: Params)
    ensures r.Keys <= StatsListKeys
    ensures Sends(r, AppId, client.apiKey)
    ensures Sends(r, Lang, "J")
    ensures SendsIf(r, SearchWord, Truthy(q.searchWord), q.searchWord.GetOr(""))
    ensures SendsIf(r, StatsField, Truthy(q.statsField), q.statsField.GetOr(""))
    ensures Sends(r, Limit, IntToString(if q.limit.Some? then q.limit.value else 10))
    ensures SendsIf(r, StartPosition, TruthyNumber(q.startPosition), IntToString(q.startPosition.GetOr(0)))
  {
    var fixed := map[AppId := client.apiKey, Lang := "J"];
    var withWord := SpreadIf(fixed, SearchWord, Truthy(q.searchWord), q.searchWord.GetOr(""));
    var withField := SpreadIf(withWord, StatsField, Truthy(q.statsField), q.statsField.GetOr(""));
    var withLimit := withField[Limit := IntToString(q.limit.GetOr(10))];
    SpreadIf(withLimit, StartPosition, TruthyNumber(q.startPosition), IntToString(q.startPosition.GetOr(0)))
  }

  function BuildStatsListUrl(client: Client, q: StatsListQuery): (r: Request)
    ensures r.endpoint == EStatApiBase + "/getStatsList"
    ensures r.params == StatsListParams(client, q)
  {
    Request(EStatApiBase + "/getStatsList", StatsListParams(client, q))
  }

  /** The two builders treat a zero `limit` differently: `buildStatsDataUrl` tests it
      for truthiness and falls back to `100`, `fetchStatsList` uses `??` and sends `0`. */
  lemma ZeroLimitHandledDifferently(client: Client, statsDataId: string, areaCode: string)
    ensures StatsDataParams(client, statsDataId, areaCode, NoOptions.(limit := Some(0)))[Limit] == "100"
    ensures StatsListParams(client, StatsListQuery(None, None, Some(0), None))[Limit] == "0"
  {
  }

  // ---------------------------------------------------------------------------
  // Response payloads

  /** A field the API sends either as a single object or as an array of them. */
  datatype OneOrMany<T> = One(item: T) | Many(items: seq<T>)

  /** `Array.isArray(x) ? x : [x]`. */
  function AsList<T>(x: OneOrMany<T>): (r: seq<T>)
    ensures x.One? ==> r == [x.item]
    ensures x.Many? ==> r == x.items
  {
    match x
    case One(item) => [item]
    case Many(items) => items
  }

  /** `TITLE` is either a plain string or `{ '@no', '$' }`. */
  datatype TableTitle = TitleText(text: string) | TitleObj(no: Option<string>, text: string)

  /** `typeof TITLE === 'string' ? TITLE : TITLE['$']`. */
  function TitleString(t: TableTitle): (r: string)
    ensures t.TitleText? ==> r == t.text
    ensures t.TitleObj? ==> r == t.text
  {
    match t
    case TitleText(s) => s
    case TitleObj(_, s) => s
  }

  datatype EStatClass = EStatClass(code: string, name: string)
  datatype ClassObj = ClassObj(id: string, name: string, classes: OneOrMany<EStatClass>)

  /** One row of `DATA_INF.VALUE`: `@area`, `@time`, `$`, and the other keys
      (`@tab`, `@cat01`, ..., `@unit`) in object order. */
  datatype StatValue = StatValue(area: string, time: string, value: string, others: seq<(string, string)>)

  datatype StatTableInf = StatTableInf(id: string, statisticsName: string, title: TableTitle, surveyDate: int)

  /** `STATISTICAL_DATA`. */
  datatype StatData = StatData(
    totalNumber: int,
    tableInf: StatTableInf,
    classInf: OneOrMany<ClassObj>,
    values: seq<StatValue>)

  /** `GET_STATS_DATA` (the body of a `getStatsData` reply). */
  datatype StatsDataBody = StatsDataBody(status: int, errorMsg: string, statisticalData: Option<StatData>)

  /** One entry of `DATALIST_INF.TABLE_INF` in a `getStatsList` reply. */
  datatype TableInfo = TableInfo(
    id: string,
    statisticsName: string,
    title: TableTitle,
    govOrg: string,
    cycle: string,
    surveyDate: int,
    overallTotalNumber: int)

  datatype DataList = DataList(number: int, tableInf: OneOrMany<TableInfo>)

  /** `GET_STATS_LIST`. */
  datatype StatsListBody = StatsListBody(status: int, errorMsg: string, dataList: Option<DataList>)

  /** What `fetch` gives: either it throws (network failure, with the text of the
      thrown value) or it yields a reply with `ok`, `status` and a parsed JSON body. */
  datatype HttpOutcome<B> = NetworkFailure(message: string) | HttpReply(ok: bool, status: int, body: B)

  // ---------------------------------------------------------------------------
  // Response classification

  /** The two errors the client raises itself. */
  datatype ClientError = HttpError(status: int) | ApiError(status: int, message: string)

  /** A thrown value: one of the client's own `Error`s, or a foreign one (from
      `fetch`) given by its `String(...)` text. */
  datatype Thrown = ClientFailure(err: ClientError) | Foreign(text: string)

  /** The texts of the two errors: the HTTP one names the status, the upstream one the
      status and then, last, the upstream's own `ERROR_MSG`. */
  function ErrorMessage(e: ClientError): (r: string)
    ensures e.HttpError? ==> IsPrefix("e-Stat API HTTP error: ", r) && IsSuffix(IntToString(e.status), r)
    ensures e.ApiError? ==> IsPrefix("e-Stat API error (status ", r) && IsSuffix("): " + e.message, r)
  {
    match e
    case HttpError(s) => "e-Stat API HTTP error: " + IntToString(s)
    case ApiError(s, m) => "e-Stat API error (status " + IntToString(s) + "): " + m
  }

  /** `String(error)`: an `Error` prints as `Error: <message>`. */
  function ThrownText(t: Thrown): (r: string)
    ensures t.ClientFailure? ==> IsPrefix("Error: ", r) && r[|"Error: "|..] == ErrorMessage(t.err)
    ensures t.Foreign? ==> r == t.text
  {
    match t
    case ClientFailure(e) => "Error: " + ErrorMessage(e)
    case Foreign(text) => text
  }

  /** The two error kinds can be told apart from their messages, and each message
      determines the status it carries. */
  lemma ErrorMessagesDistinguish(e1: ClientError, e2: ClientError)
    requires ErrorMessage(e1) == ErrorMessage(e2)
    ensures e1.HttpError? <==> e2.HttpError?
    ensures e1.status == e2.status
  {
    if e1.HttpError? && e2.ApiError? {
      HttpAndApiMessagesDiffer(e1, e2);
    } else if e1.ApiError? && e2.HttpError? {
      HttpAndApiMessagesDiffer(e2, e1);
    } else if e1.HttpError? {
      HttpMessageDeterminesStatus(e1.status, e2.status);
    } else {
      ApiMessageDeterminesStatus(e1.status, e2.status, e1.message, e2.message);
    }
  }

  lemma HttpMessageDeterminesStatus(s1: int, s2: int)
    requires ErrorMessage(HttpError(s1)) == ErrorMessage(HttpError(s2))
    ensures s1 == s2
  {
    var p := "e-Stat API HTTP error: ";
    assert ErrorMessage(HttpError(s1)) == p + IntToString(s1);
    assert (p + IntToString(s1))[|p|..] == IntToString(s1);
    assert (p + IntToString(s2))[|p|..] == IntToString(s2);
    IntToStringInjective(s1, s2);
  }

  lemma ApiMessageDeterminesStatus(s1: int, s2: int, m1: string, m2: string)
    requires ErrorMessage(ApiError(s1, m1)) == ErrorMessage(ApiError(s2, m2))
    ensures s1 == s2
  {
    var n1, n2 := IntToString(s1), IntToString(s2);
    var t1 := ApiMessageTail(s1, m1);
    var t2 := ApiMessageTail(s2, m2);
    assert t1 == t2;
    NumberChars(s1);
    NumberChars(s2);
    NumberRunOf(n1, ": " + m1);
    NumberRunOf(n2, ": " + m2);
    assert n1 == t1[..|n1|] == n2;
    IntToStringInjective(s1, s2);
  }

  /** What follows the fixed head of an upstream-error message: the status, `)`, and
      then `: ` and the upstream's message. */
  lemma ApiMessageTail(s: int, m: string) returns (t: string)
    ensures t == IntToString(s) + ")" + (": " + m)
    ensures t == ErrorMessage(ApiError(s, m))[|"e-Stat API error (status "|..]
  {
    var p := "e-Stat API error (status ";
    t := IntToString(s) + ")" + (": " + m);
    assert ErrorMessage(ApiError(s, m)) == p + t;
    assert (p + t)[|p|..] == t;
  }

  lemma HttpAndApiMessagesDiffer(e1: ClientError, e2: ClientError)
    requires e1.HttpError? && e2.ApiError?
    ensures ErrorMessage(e1) != ErrorMessage(e2)
  {
    var h := "e-Stat API HTTP error: ";
    var a := "e-Stat API error (status ";
    assert ErrorMessage(e1)[11] == h[11] == 'H';
    assert ErrorMessage(e2)[11] == a[11] == 'e';
  }

  /** The characters `String(n)` writes for an integer. */
  predicate NumberChar(c: char) { c == '-' || '0' <= c <= '9' }

  /** The length of the leading run of number characters. */
  function NumberRun(t: string): nat {
    if |t| == 0 || !NumberChar(t[0]) then 0 else 1 + NumberRun(t[1..])
  }

  lemma NumberChars(n: int)
    ensures forall i :: 0 <= i < |IntToString(n)| ==> NumberChar(IntToString(n)[i])
  {
    if n < 0 {
      forall i | 1 <= i < |IntToString(n)| ensures NumberChar(IntToString(n)[i]) {
        assert IntToString(n)[i] == NatToString(-n)[i - 1];
      }
    }
  }

  /** A number followed by `)` is read back whole: the run stops at the `)`. */
  lemma {:induction false} NumberRunOf(s: string, rest: string)
    requires forall i :: 0 <= i < |s| ==> NumberChar(s[i])
    ensures NumberRun(s + ")" + rest) == |s|
  {
    if |s| > 0 {
      assert (s + ")" + rest)[1..] == s[1..] + ")" + rest;
      NumberRunOf(s[1..], rest);
    } else {
      assert (s + ")" + rest)[0] == ')';
    }
  }

  /** `fetchStatsData` after `fetch` has produced `outcome`: a reply that is not `ok`
      is an HTTP error with its status; an `ok` reply whose `RESULT.STATUS` is not 0 is
      an upstream error with that status and `ERROR_MSG`; otherwise the body is
      returned unchanged. */
  function FetchStatsData(outcome: HttpOutcome<StatsDataBody>): (r: Result<StatsDataBody, Thrown>)
    ensures outcome.NetworkFailure? ==> r == Err(Foreign(outcome.message))
    ensures outcome.HttpReply? && !outcome.ok ==> r == Err(ClientFailure(HttpError(outcome.status)))
    ensures outcome.HttpReply? && outcome.ok && outcome.body.status != 0
            ==> r == Err(ClientFailure(ApiError(outcome.body.status, outcome.body.errorMsg)))
    ensures r.Ok? <==> outcome.HttpReply? && outcome.ok && outcome.body.status == 0
    ensures r.Ok? ==> r.value == outcome.body
  {
    match outcome
    case NetworkFailure(m) => Err(Foreign(m))
    case HttpReply(ok, status, body) =>
      if !ok then Err(ClientFailure(HttpError(status)))
      else if body.status != 0 then Err(ClientFailure(ApiError(body.status, body.errorMsg)))
      else Ok(body)
  }

  /** `fetchStatsList` after `fetch`: only the HTTP status is checked; a non-zero
      `RESULT.STATUS` passes through. */
  function FetchStatsList(outcome: HttpOutcome<StatsListBody>): (r: Result<StatsListBody, Thrown>)
    ensures outcome.NetworkFailure? ==> r == Err(Foreign(outcome.message))
    ensures outcome.HttpReply? && !outcome.ok ==> r == Err(ClientFailure(HttpError(outcome.status)))
    ensures r.Ok? <==> outcome.HttpReply? && outcome.ok
    ensures r.Ok? ==> r.value == outcome.body
  {
    match outcome
    case NetworkFailure(m) => Err(Foreign(m))
    case HttpReply(ok, status, body) =>
      if !ok then Err(ClientFailure(HttpError(status))) else Ok(body)
  }

  // ---------------------------------------------------------------------------
  // The classification dictionary

  type ClassMap = map<string, map<string, string>>

  /** The inner dictionary of one axis: each class's code mapped to its name, a later
      class with the same code overwriting an earlier one. */
  function AxisMapOf(classes: seq<EStatClass>): map<string, string>
  {
    if |classes| == 0 then map[]
    else AxisMapOf(classes[..|classes| - 1])[classes[|classes| - 1].code := classes[|classes| - 1].name]
  }

  /** The whole dictionary: each class object's `@id` mapped to its axis dictionary; a
      later object with the same `@id` replaces that axis's dictionary. */
  function ClassMapOf(objs: seq<ClassObj>): ClassMap
  {
    if |objs| == 0 then map[]
    else
      var last := objs[|objs| - 1];
      ClassMapOf(objs[..|objs| - 1])[last.id := AxisMapOf(AsList(last.classes))]
  }

  /** `i` is the last position holding class code `code`. */
  predicate LastClassWith(classes: seq<EStatClass>, i: int) {
    0 <= i < |classes| && forall k :: i < k < |classes| ==> classes[k].code != classes[i].code
  }

  /** `i` is the last position holding a class object with its `@id`. */
  predicate LastObjWith(objs: seq<ClassObj>, i: int) {
    0 <= i < |objs| && forall k :: i < k < |objs| ==> objs[k].id != objs[i].id
  }

  lemma {:induction false} AxisMapOfKeys(classes: seq<EStatClass>, code: string)
    ensures code in AxisMapOf(classes) <==> exists i :: 0 <= i < |classes| && classes[i].code == code
  {
    if |classes| > 0 {
      var init := classes[..|classes| - 1];
      AxisMapOfKeys(init, code);
      if code in AxisMapOf(init) {
        var i :| 0 <= i < |init| && init[i].code == code;
        assert classes[i].code == code;
      }
      if exists i :: 0 <= i < |classes| && classes[i].code == code {
        var i :| 0 <= i < |classes| && classes[i].code == code;
        if i < |init| { assert init[i].code == code; }
      }
    }
  }

  /** Last write wins: a code maps to the name of the last class carrying it. */
  lemma {:induction false} AxisMapOfLast(classes: seq<EStatClass>, i: int)
    requires LastClassWith(classes, i)
    ensures classes[i].code in AxisMapOf(classes)
    ensures AxisMapOf(classes)[classes[i].code] == classes[i].name
  {
    var n := |classes|;
    if i < n - 1 {
      var init := classes[..n - 1];
      assert LastClassWith(init, i);
      AxisMapOfLast(init, i);
    }
  }

  lemma {:induction false} ClassMapOfKeys(objs: seq<ClassObj>, id: string)
    ensures id in ClassMapOf(objs) <==> exists i :: 0 <= i < |objs| && objs[i].id == id
  {
    if |objs| > 0 {
      var init := objs[..|objs| - 1];
      ClassMapOfKeys(init, id);
      if id in ClassMapOf(init) {
        var i :| 0 <= i < |init| && init[i].id == id;
        assert objs[i].id == id;
      }
      if exists i :: 0 <= i < |objs| && objs[i].id == id {
        var i :| 0 <= i < |objs| && objs[i].id == id;
        if i < |init| { assert init[i].id == id; }
      }
    }
  }

  /** An axis's dictionary is the one built from the last class object with that `@id`. */
  lemma {:induction false} ClassMapOfLast(objs: seq<ClassObj>, i: int)
    requires LastObjWith(objs, i)
    ensures objs[i].id in ClassMapOf(objs)
    ensures ClassMapOf(objs)[objs[i].id] == AxisMapOf(AsList(objs[i].classes))
  {
    var n := |objs|;
    var init := objs[..n - 1];
    var last := objs[n - 1];
    assert ClassMapOf(objs) == ClassMapOf(init)[last.id := AxisMapOf(AsList(last.classes))];
    if i < n - 1 {
      assert init[i] == objs[i];
      assert LastObjWith(init, i) by {
        forall k | i < k < |init| ensures init[k].id != init[i].id {
          assert init[k] == objs[k];
        }
      }
      assert last.id != objs[i].id;
      ClassMapOfLast(init, i);
    }
  }

  /** `map[obj.@id][cls.@code] == cls.@name` for every class of the object that
      decides the axis, unless a later class of that object reuses the code. */
  lemma ClassMapLookup(classInf: OneOrMany<ClassObj>, i: int, j: int)
    requires LastObjWith(AsList(classInf), i)
    requires LastClassWith(AsList(AsList(classInf)[i].classes), j)
    ensures var obj := AsList(classInf)[i];
            var cls := AsList(obj.classes)[j];
            var m := ClassMapOf(AsList(classInf));
            obj.id in m && cls.code in m[obj.id] && m[obj.id][cls.code] == cls.name
  {
    var objs := AsList(classInf);
    ClassMapOfLast(objs, i);
    AxisMapOfLast(AsList(objs[i].classes), j);
  }

  /** A later class object with the same `@id` resets the axis: a code present only in
      an earlier object of that id is no longer in the dictionary. */
  lemma ClassMapLaterObjectResets(objs: seq<ClassObj>, i: int, k: int, code: string)
    requires 0 <= i < k && LastObjWith(objs, k) && objs[i].id == objs[k].id
    requires forall c :: c in AsList(objs[k].classes) ==> c.code != code
    ensures objs[i].id in ClassMapOf(objs) && code !in ClassMapOf(objs)[objs[i].id]
  {
    ClassMapOfLast(objs, k);
    var classes := AsList(objs[k].classes);
    forall j | 0 <= j < |classes| ensures classes[j].code != code {
      assert classes[j] in classes;
    }
    AxisMapOfKeys(classes, code);
  }

  /** The dictionary does not depend on whether `CLASS_OBJ` or a `CLASS` arrived as a
      single object or as a one-element array. */
  lemma ClassMapShapeIndependent(obj: ClassObj)
    ensures ClassMapOf(AsList(One(obj))) == ClassMapOf(AsList(Many([obj])))
    ensures obj.classes.One?
            ==> ClassMapOf([obj]) == ClassMapOf([obj.(classes := Many([obj.classes.item]))])
  {
  }

  /** A single `CLASS` in any one class object, wherever it sits among the others,
      gives the same dictionary as a one-element `CLASS` array there. */
  lemma {:induction false} ClassShapeIndependentAt(objs: seq<ClassObj>, k: int, c: EStatClass)
    requires 0 <= k < |objs| && objs[k].classes == One(c)
    ensures ClassMapOf(objs) == ClassMapOf(objs[k := objs[k].(classes := Many([c]))])
    decreases |objs|
  {
    var n := |objs|;
    var objs' := objs[k := objs[k].(classes := Many([c]))];
    if k < n - 1 {
      ClassShapeIndependentAt(objs[..n - 1], k, c);
      assert objs'[..n - 1] == objs[..n - 1][k := objs[k].(classes := Many([c]))];
    } else {
      assert objs'[..n - 1] == objs[..n - 1];
    }
  }

  /** The last position of an object with `@id == id`. */
  lemma {:induction false} LastIndexWithId(objs: seq<ClassObj>, id: string) returns (i: int)
    requires exists k :: 0 <= k < |objs| && objs[k].id == id
    ensures LastObjWith(objs, i) && objs[i].id == id
  {
    var n := |objs|;
    if objs[n - 1].id == id {
      i := n - 1;
    } else {
      var k :| 0 <= k < n && objs[k].id == id;
      assert k < n - 1 && objs[..n - 1][k].id == id;
      i := LastIndexWithId(objs[..n - 1], id);
      assert objs[..n - 1][i] == objs[i];
    }
  }

  /** One more class: its code is (re)written with its name. */
  lemma AxisMapOfSnoc(classes: seq<EStatClass>, j: int)
    requires 0 <= j < |classes|
    ensures AxisMapOf(classes[..j + 1]) == AxisMapOf(classes[..j])[classes[j].code := classes[j].name]
  {
    assert classes[..j + 1][..j] == classes[..j];
  }

  /** One more class object: its axis is (re)set to the dictionary of its classes. */
  lemma ClassMapOfSnoc(objs: seq<ClassObj>, i: int)
    requires 0 <= i < |objs|
    ensures ClassMapOf(objs[..i + 1]) == ClassMapOf(objs[..i])[objs[i].id := AxisMapOf(AsList(objs[i].classes))]
  {
    assert objs[..i + 1][..i] == objs[..i];
  }

  /** `buildClassMap`: nested loops over the class objects and their classes fill the
      dictionary in place. */
  method BuildClassMap(classInf: OneOrMany<ClassObj>) returns (classMap: ClassMap)
    ensures classMap == ClassMapOf(AsList(classInf))
  {
    classMap := map[];
    var classObjArray := AsList(classInf);
    for i := 0 to |classObjArray|
      invariant classMap == ClassMapOf(classObjArray[..i])
    {
      var classObj := classObjArray[i];
      var classes := AsList(classObj.classes);
      ghost var before := classMap;
      classMap := classMap[classObj.id := map[]];
      for j := 0 to |classes|
        invariant classMap == before[classObj.id := AxisMapOf(classes[..j])]
      {
        AxisMapOfSnoc(classes, j);
        classMap := classMap[classObj.id := classMap[classObj.id][classes[j].code := classes[j].name]];
      }
      assert classes[..|classes|] == classes;
      ClassMapOfSnoc(classObjArray, i);
    }
    assert classObjArray[..|classObjArray|] == classObjArray;
  }
}
