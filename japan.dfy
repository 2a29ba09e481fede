/** Reading the selected area out of a boundary feature. Two property formats are
    understood: the national land-information format (`N03_001` prefecture name,
    `N03_004` municipality name, `N03_007` area code) and the `nam_ja` + numeric `id`
    format of the prefecture map. */
module Japan {
  import opened Wrappers
  import opened Text
  import opened Seqs
  import opened EStatClient

  /** The feature properties the extraction reads; `None` is an absent property. */
  datatype Props = Props(
    n03_001: Option<string>,
    n03_004: Option<string>,
    n03_007: Option<string>,
    namJa: Option<string>,
    id: Option<int>)

  datatype Feature = Feature(properties: Option<Props>)

  /** `SelectedArea`. */
  datatype SelectedArea = SelectedArea(name: string, code: string, prefCode: string, level: AreaLevel)

  /** `extractAreaFromFeature(feature, level)`. */
  function ExtractAreaFromFeature(feature: Feature, level: AreaLevel): (r: Option<SelectedArea>)
    // no properties, or neither format: nothing
    ensures feature.properties.None? ==> r.None?
    ensures feature.properties.Some? && !Truthy(feature.properties.value.n03_007)
            && !(Truthy(feature.properties.value.namJa) && feature.properties.value.id.Some?)
            ==> r.None?
    // the N03 format: the prefecture code is the first two characters of the area code
    ensures feature.properties.Some? && Truthy(feature.properties.value.n03_007) && r.Some? ==>
              var areaCode := feature.properties.value.n03_007.value;
              r.value.prefCode == Take(areaCode, 2) && IsPrefix(r.value.prefCode, areaCode)
    ensures feature.properties.Some? && Truthy(feature.properties.value.n03_007) && level == Prefecture ==>
              (r.Some? <==> Truthy(feature.properties.value.n03_001))
              && (r.Some? ==> r.value.name == feature.properties.value.n03_001.value
                              && r.value.code == r.value.prefCode && r.value.level == Prefecture)
    ensures feature.properties.Some? && Truthy(feature.properties.value.n03_007) && level == Municipality ==>
              (r.Some? <==> Truthy(feature.properties.value.n03_004))
              && (r.Some? ==> r.value.name == feature.properties.value.n03_004.value
                              && r.value.code == feature.properties.value.n03_007.value
                              && r.value.level == Municipality)
    // the fallback format: always a prefecture, whatever level was asked for
    ensures feature.properties.Some? && !Truthy(feature.properties.value.n03_007)
            && Truthy(feature.properties.value.namJa) && feature.properties.value.id.Some? ==>
              var code := PadStart(IntToString(feature.properties.value.id.value), 2);
              r == Some(SelectedArea(feature.properties.value.namJa.value, code, code, Prefecture))
  {
    match feature.properties
    case None => None
    case Some(props) =>
      if Truthy(props.n03_007) then
        var areaCode := props.n03_007.value;
        var prefCode := Take(areaCode, 2);
        assert IsPrefix(prefCode, areaCode);
        if level == Prefecture then
          if Truthy(props.n03_001) then Some(SelectedArea(props.n03_001.value, prefCode, prefCode, Prefecture))
          else None
        else
          if Truthy(props.n03_004) then Some(SelectedArea(props.n03_004.value, areaCode, prefCode, Municipality))
          else None
      else if Truthy(props.namJa) && props.id.Some? then
        var prefCode := PadStart(IntToString(props.id.value), 2);
        Some(SelectedArea(props.namJa.value, prefCode, prefCode, Prefecture))
      else None
  }

  /** In the fallback format the requested level makes no difference. */
  lemma FallbackFormatIgnoresLevel(props: Props)
    requires !Truthy(props.n03_007)
    ensures ExtractAreaFromFeature(Feature(Some(props)), Prefecture)
         == ExtractAreaFromFeature(Feature(Some(props)), Municipality)
  {
  }

  /** A prefecture read from a municipality feature of the N03 format has the same
      prefecture code as the municipality. */
  lemma SamePrefectureBothLevels(props: Props)
    requires Truthy(props.n03_007) && Truthy(props.n03_001) && Truthy(props.n03_004)
    ensures var p := ExtractAreaFromFeature(Feature(Some(props)), Prefecture);
            var m := ExtractAreaFromFeature(Feature(Some(props)), Municipality);
            p.Some? && m.Some? && p.value.prefCode == m.value.prefCode == p.value.code
            && IsPrefix(p.value.code, m.value.code)
  {
  }

  /** The examples of the extraction's own tests. */
  lemma ExtractExamples()
    ensures ExtractAreaFromFeature(Feature(Some(Props(Some("東京都"), None, Some("13000"), None, None))), Prefecture)
         == Some(SelectedArea("東京都", "13", "13", Prefecture))
    ensures ExtractAreaFromFeature(Feature(Some(Props(None, Some("渋谷区"), Some("13113"), None, None))), Municipality)
         == Some(SelectedArea("渋谷区", "13113", "13", Municipality))
    ensures ExtractAreaFromFeature(Feature(Some(Props(None, None, None, Some("東京都"), Some(13)))), Prefecture)
         == Some(SelectedArea("東京都", "13", "13", Prefecture))
    ensures ExtractAreaFromFeature(Feature(Some(Props(None, None, None, None, None))), Prefecture).None?
  {
    assert IntToString(13) == "13" by { assert NatToString(1) == "1"; }
    assert Take("13000", 2) == "13";
    assert Take("13113", 2) == "13";
  }
}
