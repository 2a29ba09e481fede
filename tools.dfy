/** The statistics tools the chat model calls: the category list, the table search,
    the fetch with municipality-to-prefecture fallback, the fetch of one table by id,
    and the row decoder they share. Each upstream exchange is given by an oracle
    from the request the client builds to the outcome of `fetch`. */
module Tools {
  import opened Wrappers
  import opened Text
  import opened Seqs
  import opened EStatClient
  import opened Categories

  /** The network, for `getStatsData` and for `getStatsList` requests. */
  type DataOracle = Request -> HttpOutcome<StatsDataBody>
  type ListOracle = Request -> HttpOutcome<StatsListBody>

  /** `areaCode.length <= 2 ? 'prefecture' : 'municipality'`, the same in both fetch tools. */
  function InferLevel(areaCode: string): (l: AreaLevel)
    ensures l == Prefecture <==> |areaCode| <= 2
  {
    if |areaCode| <= 2 then Prefecture else Municipality
  }

  /** The request of `client.fetchStatsData(statsId, code, { limit: 100 })`. */
  function StatsRequest(client: Client, statsId: string, code: string): (r: Request)
    ensures r.endpoint == EStatApiBase + "/getStatsData"
    ensures Sends(r.params, AppId, client.apiKey) && Sends(r.params, Lang, "J")
    ensures Sends(r.params, StatsDataId, statsId) && Sends(r.params, CdArea, code)
    ensures Sends(r.params, Limit, "100") && Sends(r.params, MetaGetFlgKey, "Y")
    ensures CdCat01 !in r.params && CdTime !in r.params && StartPosition !in r.params
  {
    assert IntToString(100) == "100" by {
      assert NatToString(10) == "10" by { assert NatToString(1) == "1"; }
    }
    BuildStatsDataUrl(client, statsId, code, NoOptions.(limit := Some(100)))
  }

  // ---------------------------------------------------------------------------
  // Decoding rows

  /** A decoded row: label to value. */
  type Row = map<string, string>

  const MaxRows := 50

  /** `classMap[axis]?.[code] ?? code`: the label of `code` on `axis`, or the raw code
      when the dictionary does not know it. */
  function LookupOr(classMap: ClassMap, axis: string, code: string): (r: string)
    ensures axis !in classMap ==> r == code
    ensures axis in classMap ==> r == (if code in classMap[axis] then classMap[axis][code] else code)
  {
    if axis in classMap && code in classMap[axis] then classMap[axis][code] else code
  }

  /** A `@cat..` key (any key starting with `@cat`), whose axis id drops the `@`. */
  predicate IsCatKey(key: string) { IsPrefix("@cat", key) }

  /** The label of a `@cat..` column: the `@name` of the first class object with the
      axis id, or the axis id itself. */
  function CatLabel(objs: seq<ClassObj>, catId: string): (r: string)
    ensures (forall i :: 0 <= i < |objs| ==> objs[i].id != catId) ==> r == catId
    ensures (exists i :: 0 <= i < |objs| && objs[i].id == catId)
            ==> exists i :: 0 <= i < |objs| && objs[i].id == catId && r == objs[i].name
                            && forall k :: 0 <= k < i ==> objs[k].id != catId
  {
    match FindFirst(objs, (c: ClassObj) => c.id == catId)
    case Some(obj) => obj.name
    case None => catId
  }

  /** The three columns every decoded row starts with. */
  function BaseRow(classMap: ClassMap, v: StatValue): (r: Row)
    ensures r.Keys == {"値", "地域", "時点"}
    ensures r["値"] == v.value
    ensures r["地域"] == LookupOr(classMap, "area", v.area) && r["時点"] == LookupOr(classMap, "time", v.time)
  {
    map["値" := v.value, "地域" := LookupOr(classMap, "area", v.area), "時点" := LookupOr(classMap, "time", v.time)]
  }

  /** The `forEach` over the row's other entries: each `@cat..` entry writes its decoded
      value under its label; the others are skipped. */
  function ApplyEntries(classMap: ClassMap, objs: seq<ClassObj>, decoded: Row, entries: seq<(string, string)>): (r: Row)
    ensures decoded.Keys <= r.Keys
    ensures |entries| == 0 ==> r == decoded
  {
    if |entries| == 0 then decoded
    else
      var d := ApplyEntries(classMap, objs, decoded, entries[..|entries| - 1]);
      var e := entries[|entries| - 1];
      if IsCatKey(e.0) then d[CatLabel(objs, e.0[1..]) := LookupOr(classMap, e.0[1..], e.1)] else d
  }

  /** One row of `values.slice(0, 50).map(...)`: the base columns, then the `forEach`. */
  function DecodeRow(classMap: ClassMap, objs: seq<ClassObj>, v: StatValue): (r: Row)
    ensures "値" in r && "地域" in r && "時点" in r
  {
    ApplyEntries(classMap, objs, BaseRow(classMap, v), v.others)
  }

  /** The label entry `e` is written under, when it is a `@cat..` entry. */
  predicate WritesLabel(objs: seq<ClassObj>, e: (string, string), heading: string) {
    IsCatKey(e.0) && CatLabel(objs, e.0[1..]) == heading
  }

  /** The keys of a decoded row: the three base columns and the label of every
      `@cat..` entry. */
  lemma {:induction false} ApplyEntriesKeys(classMap: ClassMap, objs: seq<ClassObj>, decoded: Row,
                                            entries: seq<(string, string)>, heading: string)
    ensures heading in ApplyEntries(classMap, objs, decoded, entries)
        <==> heading in decoded || exists j :: 0 <= j < |entries| && WritesLabel(objs, entries[j], heading)
  {
    if |entries| > 0 {
      var init := entries[..|entries| - 1];
      ApplyEntriesKeys(classMap, objs, decoded, init, heading);
      ExistsSnoc(entries, init, e => WritesLabel(objs, e, heading));
    }
  }

  /** A label no `@cat..` entry writes keeps its starting value. */
  lemma {:induction false} ApplyEntriesKeeps(classMap: ClassMap, objs: seq<ClassObj>, decoded: Row,
                                             entries: seq<(string, string)>, heading: string)
    requires heading in decoded
    requires forall j :: 0 <= j < |entries| ==> !WritesLabel(objs, entries[j], heading)
    ensures heading in ApplyEntries(classMap, objs, decoded, entries)
    ensures ApplyEntries(classMap, objs, decoded, entries)[heading] == decoded[heading]
  {
    if |entries| > 0 {
      var init := entries[..|entries| - 1];
      assert forall j :: 0 <= j < |init| ==> init[j] == entries[j];
      assert !WritesLabel(objs, entries[|entries| - 1], heading);
      ApplyEntriesKeeps(classMap, objs, decoded, init, heading);
    }
  }

  /** The last `@cat..` entry written under a label decides its value: the entry's value
      looked up on its axis, or the raw value. */
  lemma {:induction false} ApplyEntriesLast(classMap: ClassMap, objs: seq<ClassObj>, decoded: Row,
                                            entries: seq<(string, string)>, j: int)
    requires 0 <= j < |entries| && IsCatKey(entries[j].0)
    requires forall k :: j < k < |entries| ==> !WritesLabel(objs, entries[k], CatLabel(objs, entries[j].0[1..]))
    ensures var heading := CatLabel(objs, entries[j].0[1..]);
            heading in ApplyEntries(classMap, objs, decoded, entries)
            && ApplyEntries(classMap, objs, decoded, entries)[heading] == LookupOr(classMap, entries[j].0[1..], entries[j].1)
  {
    var n := |entries|;
    if j < n - 1 {
      var init := entries[..n - 1];
      assert forall k :: j < k < |init| ==> init[k] == entries[k];
      assert !WritesLabel(objs, entries[n - 1], CatLabel(objs, entries[j].0[1..]));
      ApplyEntriesLast(classMap, objs, decoded, init, j);
    }
  }

  /** `地域` and `時点` of a decoded row are the area and time codes looked up on the
      `area` and `time` axes, falling back to the raw code, and `値` is the raw value,
      unless a `@cat..` column is labelled the same. */
  lemma DecodeRowBaseColumns(classMap: ClassMap, objs: seq<ClassObj>, v: StatValue)
    requires forall j :: 0 <= j < |v.others| ==>
               !WritesLabel(objs, v.others[j], "値") && !WritesLabel(objs, v.others[j], "地域")
               && !WritesLabel(objs, v.others[j], "時点")
    ensures var row := DecodeRow(classMap, objs, v);
            "値" in row && "地域" in row && "時点" in row
            && row["値"] == v.value
            && row["地域"] == LookupOr(classMap, "area", v.area)
            && row["時点"] == LookupOr(classMap, "time", v.time)
  {
    var base := BaseRow(classMap, v);
    ApplyEntriesKeeps(classMap, objs, base, v.others, "値");
    ApplyEntriesKeeps(classMap, objs, base, v.others, "地域");
    ApplyEntriesKeeps(classMap, objs, base, v.others, "時点");
  }

  /** A code the decisive class object of its axis lists decodes to that class's name. */
  lemma LookupDecodes(objs: seq<ClassObj>, i: int, j: int)
    requires LastObjWith(objs, i)
    requires LastClassWith(AsList(objs[i].classes), j)
    ensures var cls := AsList(objs[i].classes)[j];
            LookupOr(ClassMapOf(objs), objs[i].id, cls.code) == cls.name
  {
    ClassMapOfLast(objs, i);
    AxisMapOfLast(AsList(objs[i].classes), j);
  }

  /** A code that no class of the decisive object lists, or an axis no object has, is
      shown raw. */
  lemma LookupFallsBack(objs: seq<ClassObj>, axis: string, code: string)
    requires forall i :: LastObjWith(objs, i) && objs[i].id == axis
               ==> forall c :: c in AsList(objs[i].classes) ==> c.code != code
    ensures LookupOr(ClassMapOf(objs), axis, code) == code
  {
    ClassMapOfKeys(objs, axis);
    if axis in ClassMapOf(objs) {
      var i := LastIndexWithId(objs, axis);
      ClassMapOfLast(objs, i);
      var classes := AsList(objs[i].classes);
      forall k | 0 <= k < |classes| ensures classes[k].code != code {
        assert classes[k] in classes;
      }
      AxisMapOfKeys(classes, code);
    }
  }

  /** The decoded rows: the first 50 values, each decoded. */
  function DecodeRows(classMap: ClassMap, objs: seq<ClassObj>, values: seq<StatValue>): (r: seq<Row>)
    ensures |r| == Min(MaxRows, |values|)
    ensures forall i :: 0 <= i < |r| ==> r[i] == DecodeRow(classMap, objs, values[i])
  {
    var shown := Take(values, MaxRows);
    seq(|shown|, i requires 0 <= i < |shown| => DecodeRow(classMap, objs, shown[i]))
  }

  /** What `decodeValues` gives for one table. */
  datatype TableResult =
    | Missing(statsId: string, error: string, values: seq<Row>)
    | Decoded(statsId: string, tableName: string, statisticsName: string, surveyDate: int,
              totalCount: int, shownCount: int, values: seq<Row>)

  /** `decodeValues(statData, statsId)`, as a function of the payload. */
  function DecodeTable(statData: Option<StatData>, statsId: string): (r: TableResult)
    ensures statData.None? <==> r.Missing?
    ensures r.Missing? ==> r == Missing(statsId, "データなし", [])
    ensures r.statsId == statsId
    ensures r.Decoded? ==> r.shownCount == |r.values| <= MaxRows
    ensures r.Decoded? ==>
              r.totalCount == statData.value.totalNumber
              && r.tableName == TitleString(statData.value.tableInf.title)
              && r.statisticsName == statData.value.tableInf.statisticsName
              && r.surveyDate == statData.value.tableInf.surveyDate
    ensures r.Decoded? ==>
              var objs := AsList(statData.value.classInf);
              r.values == DecodeRows(ClassMapOf(objs), objs, statData.value.values)
  {
    match statData
    case None => Missing(statsId, "データなし", [])
    case Some(sd) =>
      var objs := AsList(sd.classInf);
      var rows := DecodeRows(ClassMapOf(objs), objs, sd.values);
      Decoded(statsId, TitleString(sd.tableInf.title), sd.tableInf.statisticsName, sd.tableInf.surveyDate,
              sd.totalNumber, |rows|, rows)
  }

  /** `decodeValues`: builds the class dictionary, then decodes the first 50 rows one by
      one, each row by a pass over its entries that writes into the row in place. */
  method DecodeValues(statData: Option<StatData>, statsId: string) returns (r: TableResult)
    ensures r == DecodeTable(statData, statsId)
  {
    if statData.None? {
      return Missing(statsId, "データなし", []);
    }
    var sd := statData.value;
    var classMap := BuildClassMap(sd.classInf);
    var objs := AsList(sd.classInf);
    var shown := Take(sd.values, MaxRows);
    var decodedValues: seq<Row> := [];
    for i := 0 to |shown|
      invariant |decodedValues| == i
      invariant forall k :: 0 <= k < i ==> decodedValues[k] == DecodeRow(classMap, objs, shown[k])
    {
      var v := shown[i];
      var decoded := map["値" := v.value, "地域" := LookupOr(classMap, "area", v.area),
                         "時点" := LookupOr(classMap, "time", v.time)];
      for j := 0 to |v.others|
        invariant decoded == ApplyEntries(classMap, objs, BaseRow(classMap, v), v.others[..j])
      {
        assert v.others[..j + 1][..j] == v.others[..j];
        var (key, val) := v.others[j];
        if IsCatKey(key) {
          var catId := key[1..];
          decoded := decoded[CatLabel(objs, catId) := LookupOr(classMap, catId, val)];
        }
      }
      assert v.others[..|v.others|] == v.others;
      decodedValues := decodedValues + [decoded];
    }
    assert decodedValues == DecodeRows(classMap, objs, sd.values);
    r := Decoded(statsId, TitleString(sd.tableInf.title), sd.tableInf.statisticsName, sd.tableInf.surveyDate,
                 sd.totalNumber, |decodedValues|, decodedValues);
  }

  // ---------------------------------------------------------------------------
  // Fetching all tables of a category for one area

  /** One table: `fetchStatsData` and then `decodeValues` on `STATISTICAL_DATA ?? null`. */
  function Attempt(client: Client, oracle: DataOracle, statsId: string, code: string): (r: Result<TableResult, Thrown>)
    ensures r.Ok? <==> FetchStatsData(oracle(StatsRequest(client, statsId, code))).Ok?
    ensures r.Err? ==> Err(r.error) == FetchStatsData(oracle(StatsRequest(client, statsId, code)))
    ensures r.Ok? ==> r.value == DecodeTable(FetchStatsData(oracle(StatsRequest(client, statsId, code))).value.statisticalData, statsId)
  {
    match FetchStatsData(oracle(StatsRequest(client, statsId, code)))
    case Err(e) => Err(e)
    case Ok(body) => Ok(DecodeTable(body.statisticalData, statsId))
  }

  /** `fetchForArea`: every table of the list, in list order; the whole attempt fails
      with the error of the first table that fails. */
  function FetchForArea(client: Client, oracle: DataOracle, statsIds: seq<string>, code: string)
    : (r: Result<seq<TableResult>, Thrown>)
    ensures r.Ok? <==> forall i :: 0 <= i < |statsIds| ==> Attempt(client, oracle, statsIds[i], code).Ok?
    ensures r.Ok? ==>
              |r.value| == |statsIds|
              && forall i :: 0 <= i < |statsIds| ==> Attempt(client, oracle, statsIds[i], code) == Ok(r.value[i])
    ensures r.Ok? ==> forall i :: 0 <= i < |statsIds| ==> r.value[i].statsId == statsIds[i]
    ensures r.Err? ==> exists i :: 0 <= i < |statsIds| && Attempt(client, oracle, statsIds[i], code) == Err(r.error)
                                 && forall k :: 0 <= k < i ==> Attempt(client, oracle, statsIds[k], code).Ok?
  {
    AllOk(Attempts(client, oracle, statsIds, code))
  }

  /** `category.statsIds.map(...)`: the outcome of every table, in list order. */
  function Attempts(client: Client, oracle: DataOracle, statsIds: seq<string>, code: string)
    : (rs: seq<Result<TableResult, Thrown>>)
    ensures |rs| == |statsIds|
    ensures forall i :: 0 <= i < |statsIds| ==> rs[i] == Attempt(client, oracle, statsIds[i], code)
  {
    seq(|statsIds|, i requires 0 <= i < |statsIds| => Attempt(client, oracle, statsIds[i], code))
  }

  // ---------------------------------------------------------------------------
  // fetchStatistics

  /** The result of `fetchStatistics`. */
  datatype StatisticsResult =
    | StatsError(error: string)
    | StatsSuccess(categoryId: string, category: string, categoryCoverage: Option<Coverage>,
                   areaCode: string, dataLevel: AreaLevel, requestedDataLevel: AreaLevel,
                   resolvedDataLevel: AreaLevel, coverageMismatch: bool, note: Option<string>,
                   data: seq<TableResult>)

  /** The error of an unknown category, naming the id asked for. */
  function UnknownCategoryMessage(categoryId: string): (r: string)
    ensures IsInfix(categoryId, r)
  {
    InfixOfConcat("カテゴリ '", categoryId, "' が見つかりません");
    "カテゴリ '" + categoryId + "' が見つかりません"
  }

  /** The note of a fallback result, naming the code that failed and the code used. */
  function FallbackNote(muniCode: string, prefCode: string): (r: string)
    ensures IsInfix(muniCode, r) && IsInfix(prefCode, r)
  {
    var a := "市区町村レベル(";
    var b := ")のデータが取得できないため、都道府県レベル(";
    var c := ")のデータを返します。ユーザーにその旨を伝えてください。";
    var r := a + muniCode + b + prefCode + c;
    InfixOfConcat(a, muniCode, b + prefCode + c);
    assert a + muniCode + (b + prefCode + c) == r;
    InfixOfConcat(a + muniCode + b, prefCode, c);
    r
  }

  /** The error when both levels fail, embedding both failure texts. */
  function BothFailedMessage(muniError: string, prefError: string): (r: string)
    ensures IsInfix(muniError, r) && IsInfix(prefError, r)
  {
    var a := "データ取得エラー（市区町村・都道府県ともに失敗）: 市区町村=";
    var b := ", 都道府県=";
    var r := a + muniError + b + prefError;
    InfixOfConcat(a, muniError, b + prefError);
    assert a + muniError + (b + prefError) == r;
    InfixOfConcat(a + muniError + b, prefError, "");
    assert a + muniError + b + prefError + "" == r;
    r
  }

  /** The error of a failed fetch: the fixed prefix, then the thrown value's text. */
  function FetchErrorMessage(e: Thrown): (r: string)
    ensures IsPrefix("データ取得エラー: ", r) && IsSuffix(ThrownText(e), r)
    ensures r[|"データ取得エラー: "|..] == ThrownText(e)
  {
    var a := "データ取得エラー: ";
    var r := a + ThrownText(e);
    assert r[|r| - |ThrownText(e)|..] == ThrownText(e);
    r
  }

  /** `fetchStatistics(categoryId, areaCode, prefCode)`. */
  function FetchStatistics(client: Client, oracle: DataOracle, categoryId: string, areaCode: string, prefCode: string)
    : (r: StatisticsResult)
    ensures GetCategoryById(categoryId).None? ==> r == StatsError(UnknownCategoryMessage(categoryId))
    ensures r.StatsSuccess? ==>
              GetCategoryById(categoryId).Some?
              && var cat := GetCategoryById(categoryId).value;
                 r.categoryId == cat.id == categoryId && r.category == cat.name
                 && r.categoryCoverage == cat.coverage
                 && FetchForArea(client, oracle, cat.statsIds, r.areaCode) == Ok(r.data)
    ensures r.StatsSuccess? && !r.coverageMismatch ==>
              r.dataLevel == r.requestedDataLevel == r.resolvedDataLevel == InferLevel(areaCode)
              && r.areaCode == NormalizeAreaCode(areaCode, InferLevel(areaCode)) && r.note.None?
    ensures r.StatsSuccess? && r.coverageMismatch ==>
              InferLevel(areaCode) == Municipality
              && r.requestedDataLevel == Municipality
              && r.dataLevel == r.resolvedDataLevel == Prefecture
              && r.areaCode == NormalizeAreaCode(prefCode, Prefecture)
              && r.note == Some(FallbackNote(NormalizeAreaCode(areaCode, Municipality), r.areaCode))
  {
    match GetCategoryById(categoryId)
    case None => StatsError(UnknownCategoryMessage(categoryId))
    case Some(category) =>
      var level := InferLevel(areaCode);
      var normalizedCode := NormalizeAreaCode(areaCode, level);
      match FetchForArea(client, oracle, category.statsIds, normalizedCode)
      case Ok(results) =>
        StatsSuccess(category.id, category.name, category.coverage, normalizedCode,
                     level, level, level, false, None, results)
      case Err(muniError) =>
        if level == Municipality then
          var prefNormalized := NormalizeAreaCode(prefCode, Prefecture);
          match FetchForArea(client, oracle, category.statsIds, prefNormalized)
          case Ok(results) =>
            StatsSuccess(category.id, category.name, category.coverage, prefNormalized,
                         Prefecture, Municipality, Prefecture, true,
                         Some(FallbackNote(normalizedCode, prefNormalized)), results)
          case Err(prefError) =>
            StatsError(BothFailedMessage(ThrownText(muniError), ThrownText(prefError)))
        else
          StatsError(FetchErrorMessage(muniError))
  }

  /** An unknown category gives the same error whatever the network would answer:
      nothing is fetched. */
  lemma UnknownCategoryFetchesNothing(client: Client, o1: DataOracle, o2: DataOracle,
                                      categoryId: string, areaCode: string, prefCode: string)
    requires GetCategoryById(categoryId).None?
    ensures FetchStatistics(client, o1, categoryId, areaCode, prefCode)
         == FetchStatistics(client, o2, categoryId, areaCode, prefCode)
         == StatsError(UnknownCategoryMessage(categoryId))
  {
  }

  /** When every table is available at the requested level, that level's data is
      returned with no mismatch. */
  lemma FirstAttemptSucceeds(client: Client, oracle: DataOracle, categoryId: string, areaCode: string, prefCode: string)
    requires GetCategoryById(categoryId).Some?
    requires FetchForArea(client, oracle, GetCategoryById(categoryId).value.statsIds,
                          NormalizeAreaCode(areaCode, InferLevel(areaCode))).Ok?
    ensures var r := FetchStatistics(client, oracle, categoryId, areaCode, prefCode);
            r.StatsSuccess? && !r.coverageMismatch
            && r.data == FetchForArea(client, oracle, GetCategoryById(categoryId).value.statsIds,
                                      NormalizeAreaCode(areaCode, InferLevel(areaCode))).value
  {
  }

  /** A failure at municipality level followed by success at prefecture level gives the
      prefecture data, flagged as a mismatch. */
  lemma FallbackToPrefecture(client: Client, oracle: DataOracle, categoryId: string, areaCode: string, prefCode: string)
    requires GetCategoryById(categoryId).Some?
    requires |areaCode| > 2
    requires FetchForArea(client, oracle, GetCategoryById(categoryId).value.statsIds,
                          NormalizeAreaCode(areaCode, Municipality)).Err?
    requires FetchForArea(client, oracle, GetCategoryById(categoryId).value.statsIds,
                          NormalizeAreaCode(prefCode, Prefecture)).Ok?
    ensures var r := FetchStatistics(client, oracle, categoryId, areaCode, prefCode);
            r.StatsSuccess? && r.coverageMismatch
            && r.requestedDataLevel == Municipality && r.resolvedDataLevel == Prefecture
            && r.areaCode == NormalizeAreaCode(prefCode, Prefecture)
            && IsInfix(NormalizeAreaCode(areaCode, Municipality), r.note.value)
            && IsInfix(NormalizeAreaCode(prefCode, Prefecture), r.note.value)
  {
  }

  /** When both levels fail, the one error embeds both failure texts. */
  lemma BothLevelsFail(client: Client, oracle: DataOracle, categoryId: string, areaCode: string, prefCode: string)
    requires GetCategoryById(categoryId).Some?
    requires |areaCode| > 2
    requires FetchForArea(client, oracle, GetCategoryById(categoryId).value.statsIds,
                          NormalizeAreaCode(areaCode, Municipality)).Err?
    requires FetchForArea(client, oracle, GetCategoryById(categoryId).value.statsIds,
                          NormalizeAreaCode(prefCode, Prefecture)).Err?
    ensures var r := FetchStatistics(client, oracle, categoryId, areaCode, prefCode);
            var statsIds := GetCategoryById(categoryId).value.statsIds;
            r.StatsError?
            && IsInfix(ThrownText(FetchForArea(client, oracle, statsIds, NormalizeAreaCode(areaCode, Municipality)).error), r.error)
            && IsInfix(ThrownText(FetchForArea(client, oracle, statsIds, NormalizeAreaCode(prefCode, Prefecture)).error), r.error)
  {
    var statsIds := GetCategoryById(categoryId).value.statsIds;
    var e1 := FetchForArea(client, oracle, statsIds, NormalizeAreaCode(areaCode, Municipality)).error;
    var e2 := FetchForArea(client, oracle, statsIds, NormalizeAreaCode(prefCode, Prefecture)).error;
    assert InferLevel(areaCode) == Municipality;
    assert FetchStatistics(client, oracle, categoryId, areaCode, prefCode)
        == StatsError(BothFailedMessage(ThrownText(e1), ThrownText(e2)));
  }

  /** A failure at prefecture level is reported directly; no other code is tried, so the
      result depends only on the answers for the normalised code. */
  lemma PrefectureFailureNotRetried(client: Client, o1: DataOracle, o2: DataOracle,
                                    categoryId: string, areaCode: string, prefCode: string)
    requires GetCategoryById(categoryId).Some?
    requires |areaCode| <= 2
    requires forall id :: o1(StatsRequest(client, id, NormalizeAreaCode(areaCode, Prefecture)))
                       == o2(StatsRequest(client, id, NormalizeAreaCode(areaCode, Prefecture)))
    requires FetchForArea(client, o1, GetCategoryById(categoryId).value.statsIds,
                          NormalizeAreaCode(areaCode, Prefecture)).Err?
    ensures FetchStatistics(client, o1, categoryId, areaCode, prefCode)
         == FetchStatistics(client, o2, categoryId, areaCode, prefCode)
         == StatsError(FetchErrorMessage(FetchForArea(client, o1, GetCategoryById(categoryId).value.statsIds,
                                                      NormalizeAreaCode(areaCode, Prefecture)).error))
  {
    var ids := GetCategoryById(categoryId).value.statsIds;
    FetchForAreaSameAnswers(client, o1, o2, ids, NormalizeAreaCode(areaCode, Prefecture));
  }

  /** Two networks that answer the same for the tables of one area give the same result. */
  lemma FetchForAreaSameAnswers(client: Client, o1: DataOracle, o2: DataOracle,
                                statsIds: seq<string>, code: string)
    requires forall id :: o1(StatsRequest(client, id, code)) == o2(StatsRequest(client, id, code))
    ensures FetchForArea(client, o1, statsIds, code) == FetchForArea(client, o2, statsIds, code)
  {
    var a1, a2 := Attempts(client, o1, statsIds, code), Attempts(client, o2, statsIds, code);
    forall i | 0 <= i < |statsIds| ensures a1[i] == a2[i] {
      assert o1(StatsRequest(client, statsIds[i], code)) == o2(StatsRequest(client, statsIds[i], code));
    }
    assert a1 == a2;
  }

  /** A category with one table succeeds or fails with that table. */
  lemma FetchForAreaOne(client: Client, oracle: DataOracle, statsId: string, code: string)
    ensures FetchForArea(client, oracle, [statsId], code)
         == match Attempt(client, oracle, statsId, code)
            case Ok(t) => Ok([t])
            case Err(e) => Err(e)
  {
    var r := FetchForArea(client, oracle, [statsId], code);
    match Attempt(client, oracle, statsId, code)
    case Ok(t) => assert r.value == [t];
    case Err(e) =>
  }

  /** The test scenario of the tool: for `commerce` at `13113` (prefecture `13`) the
      municipality request fails with HTTP 500 and the prefecture request succeeds. */
  lemma CommerceFallbackScenario(client: Client, oracle: DataOracle, data: StatData)
    requires oracle(StatsRequest(client, "0003149505", "13113")) == HttpReply(false, 500, StatsDataBody(0, "", None))
    requires oracle(StatsRequest(client, "0003149505", "13000")) == HttpReply(true, 200, StatsDataBody(0, "", Some(data)))
    ensures var r := FetchStatistics(client, oracle, "commerce", "13113", "13");
            r.StatsSuccess? && r.coverageMismatch
            && r.requestedDataLevel == Municipality && r.resolvedDataLevel == Prefecture
            && r.areaCode == "13000" && r.data == [DecodeTable(Some(data), "0003149505")]
  {
    LookupOwnId(1);
    var ids := GetCategoryById("commerce").value.statsIds;
    assert ids == ["0003149505"];
    ScenarioAnswers(client, oracle, data);
    NormalizeAreaCodeExamples();
    FallbackToPrefecture(client, oracle, "commerce", "13113", "13");
    var r := FetchStatistics(client, oracle, "commerce", "13113", "13");
    assert FetchForArea(client, oracle, ids, "13000") == Ok(r.data);
  }

  lemma ScenarioAnswers(client: Client, oracle: DataOracle, data: StatData)
    requires oracle(StatsRequest(client, "0003149505", "13113")) == HttpReply(false, 500, StatsDataBody(0, "", None))
    requires oracle(StatsRequest(client, "0003149505", "13000")) == HttpReply(true, 200, StatsDataBody(0, "", Some(data)))
    ensures FetchForArea(client, oracle, ["0003149505"], "13113").Err?
    ensures FetchForArea(client, oracle, ["0003149505"], "13000") == Ok([DecodeTable(Some(data), "0003149505")])
  {
    assert Attempt(client, oracle, "0003149505", "13113").Err?;
    assert Attempt(client, oracle, "0003149505", "13000") == Ok(DecodeTable(Some(data), "0003149505"));
    FetchForAreaOne(client, oracle, "0003149505", "13113");
    FetchForAreaOne(client, oracle, "0003149505", "13000");
  }

  /** The single row of that test decodes its area and time through the class dictionary. */
  lemma TestRowDecoded()
    ensures var objs := [ClassObj("area", "地域", Many([EStatClass("13000", "東京都")])),
                         ClassObj("time", "時点", Many([EStatClass("2020", "2020年")]))];
            var v := StatValue("13000", "2020", "100", []);
            DecodeRow(ClassMapOf(objs), objs, v) == map["値" := "100", "地域" := "東京都", "時点" := "2020年"]
  {
    var objs := [ClassObj("area", "地域", Many([EStatClass("13000", "東京都")])),
                 ClassObj("time", "時点", Many([EStatClass("2020", "2020年")]))];
    assert objs[..1][..0] == [];
    assert objs[..1] == [objs[0]];
    var area := AxisMapOf([EStatClass("13000", "東京都")]);
    assert [EStatClass("13000", "東京都")][..0] == [];
    assert area == map["13000" := "東京都"];
    assert [EStatClass("2020", "2020年")][..0] == [];
    assert ClassMapOf(objs) == map["area" := area, "time" := map["2020" := "2020年"]];
  }

  // ---------------------------------------------------------------------------
  // fetchStatsByStatsId

  /** The result of `fetchStatsByStatsId`. */
  datatype ByIdResult =
    | ByIdError(error: string)
    | ByIdMissing(error: string, statsDataId: string, areaCode: string)
    | ByIdTable(statsDataId: string, tableName: string, statisticsName: string, surveyDate: int,
                areaCode: string, totalCount: int, shownCount: int, values: seq<Row>)

  /** `fetchStatsByStatsId(statsDataId, areaCode)`: one table at the inferred level,
      with no fallback. */
  function FetchStatsByStatsId(client: Client, oracle: DataOracle, statsDataId: string, areaCode: string)
    : (r: ByIdResult)
    ensures var code := NormalizeAreaCode(areaCode, InferLevel(areaCode));
            var fetched := FetchStatsData(oracle(StatsRequest(client, statsDataId, code)));
            && (fetched.Err? <==> r.ByIdError?)
            && (fetched.Err? ==> r.error == FetchErrorMessage(fetched.error))
            && (r.ByIdMissing? <==> fetched.Ok? && fetched.value.statisticalData.None?)
            && (r.ByIdMissing? ==> r == ByIdMissing("データが見つかりませんでした", statsDataId, code))
            && (r.ByIdTable? ==>
                  var t := DecodeTable(fetched.value.statisticalData, statsDataId);
                  r.statsDataId == statsDataId && r.areaCode == code
                  && r.tableName == t.tableName && r.statisticsName == t.statisticsName
                  && r.surveyDate == t.surveyDate && r.totalCount == t.totalCount
                  && r.shownCount == t.shownCount && r.values == t.values)
  {
    var code := NormalizeAreaCode(areaCode, InferLevel(areaCode));
    match FetchStatsData(oracle(StatsRequest(client, statsDataId, code)))
    case Err(e) => ByIdError(FetchErrorMessage(e))
    case Ok(body) =>
      match body.statisticalData
      case None => ByIdMissing("データが見つかりませんでした", statsDataId, code)
      case Some(sd) =>
        var objs := AsList(sd.classInf);
        var rows := DecodeRows(ClassMapOf(objs), objs, sd.values);
        ByIdTable(statsDataId, TitleString(sd.tableInf.title), sd.tableInf.statisticsName,
                  sd.tableInf.surveyDate, code, sd.totalNumber, |rows|, rows)
  }

  // ---------------------------------------------------------------------------
  // searchStatsList and listStatisticsCategories

  /** One table of a search result. */
  datatype TableSummary = TableSummary(
    id: string, statisticsName: string, title: string, govOrg: string,
    cycle: string, surveyDate: int, totalRecords: int)

  /** The summary of one `TABLE_INF` entry. */
  function Summarize(t: TableInfo): (r: TableSummary)
    ensures r.id == t.id && r.statisticsName == t.statisticsName && r.title == TitleString(t.title)
    ensures r.govOrg == t.govOrg && r.cycle == t.cycle
    ensures r.surveyDate == t.surveyDate && r.totalRecords == t.overallTotalNumber
  {
    TableSummary(t.id, t.statisticsName, TitleString(t.title), t.govOrg, t.cycle, t.surveyDate, t.overallTotalNumber)
  }

  datatype SearchResult =
    | SearchError(error: string, tables: seq<TableSummary>)
    | NoTables(totalCount: int, tables: seq<TableSummary>, message: string)
    | Found(totalCount: int, tables: seq<TableSummary>)

  /** The request of `client.fetchStatsList({ searchWord: keyword, limit: 10 })`. */
  function SearchRequest(client: Client, keyword: string): (r: Request)
    ensures r.endpoint == EStatApiBase + "/getStatsList"
    ensures Sends(r.params, AppId, client.apiKey) && Sends(r.params, Lang, "J")
    ensures SendsIf(r.params, SearchWord, keyword != "", keyword)
    ensures Sends(r.params, Limit, "10") && StatsField !in r.params && StartPosition !in r.params
  {
    assert IntToString(10) == "10" by { assert NatToString(1) == "1"; }
    BuildStatsListUrl(client, StatsListQuery(Some(keyword), None, Some(10), None))
  }

  /** `searchStatsList(keyword)`: a failed request is an error with no tables; a reply
      without `DATALIST_INF` is an empty result; otherwise every table is summarised,
      in order, whatever the reply's `RESULT.STATUS`. */
  function SearchStatsList(client: Client, oracle: ListOracle, keyword: string): (r: SearchResult)
    ensures var fetched := FetchStatsList(oracle(SearchRequest(client, keyword)));
            && (fetched.Err? <==> r.SearchError?)
            && (fetched.Err? ==> r == SearchError("統計表の検索エラー: " + ThrownText(fetched.error), []))
            && (r.NoTables? <==> fetched.Ok? && fetched.value.dataList.None?)
            && (r.NoTables? ==> r == NoTables(0, [], "データが見つかりませんでした"))
            && (r.Found? ==>
                  var tables := AsList(fetched.value.dataList.value.tableInf);
                  r.totalCount == fetched.value.dataList.value.number
                  && |r.tables| == |tables|
                  && forall i :: 0 <= i < |tables| ==> r.tables[i] == Summarize(tables[i]))
  {
    match FetchStatsList(oracle(SearchRequest(client, keyword)))
    case Err(e) => SearchError("統計表の検索エラー: " + ThrownText(e), [])
    case Ok(body) =>
      match body.dataList
      case None => NoTables(0, [], "データが見つかりませんでした")
      case Some(dl) =>
        var tables := AsList(dl.tableInf);
        Found(dl.number, seq(|tables|, i requires 0 <= i < |tables| => Summarize(tables[i])))
  }

  /** One entry of `listStatisticsCategories`; `coverageNote ?? null` is `None` when unset. */
  datatype CategorySummary = CategorySummary(
    id: string, name: string, description: string, coverage: Option<Coverage>, coverageNote: Option<string>)

  /** `listStatisticsCategories()`: the catalog, entry by entry and in order. */
  function ListStatisticsCategories(): (r: seq<CategorySummary>)
    ensures |r| == |Catalog|
    ensures forall i :: 0 <= i < |r| ==>
              r[i].id == Catalog[i].id && r[i].name == Catalog[i].name
              && r[i].description == Catalog[i].description
              && r[i].coverage == Catalog[i].coverage && r[i].coverageNote == Catalog[i].coverageNote
  {
    seq(|Catalog|, i requires 0 <= i < |Catalog| =>
      CategorySummary(Catalog[i].id, Catalog[i].name, Catalog[i].description,
                      Catalog[i].coverage, Catalog[i].coverageNote))
  }
}
