/** The static catalog of statistics categories and the lookup by id. */
module Categories {
  import opened Wrappers
  import opened Seqs

  /** What area level a category's tables cover. */
  datatype Coverage = MunicipalityCoverage | PrefectureCoverage | Mixed

  /** One catalog entry. The entries of the catalog set neither `coverage` nor
      `coverageNote`, so both are optional here. */
  datatype Category = Category(
    id: string,
    name: string,
    description: string,
    statsIds: seq<string>,
    coverage: Option<Coverage>,
    coverageNote: Option<string>)

  /** `STATISTICS_CATEGORIES`. */
  const Catalog: seq<Category> := [
    Category("population", "人口統計",
             "国勢調査による人口・年齢構成・世帯数などの情報（2020年調査）",
             ["0003448299"], None, None),
    Category("commerce", "商業統計",
             "小売業・卸売業の店舗数・売上高・従業者数などの商業情報",
             ["0003149505"], None, None),
    Category("economy", "経済センサス",
             "事業所数・従業員数・産業構造など経済活動の基本情報",
             ["0003353941"], None, None)
  ]

  predicate DistinctIds(cats: seq<Category>) {
    forall i, j :: 0 <= i < j < |cats| ==> cats[i].id != cats[j].id
  }

  /** `getCategoryById`. */
  function GetCategoryById(id: string): (r: Option<Category>)
    ensures r.Some? <==> exists i :: 0 <= i < |Catalog| && Catalog[i].id == id
    ensures r.Some? ==> r.value.id == id && r.value in Catalog
    ensures r.Some? ==> exists i :: 0 <= i < |Catalog| && Catalog[i] == r.value
                                  && forall k :: 0 <= k < i ==> Catalog[k].id != id
  {
    FindFirst(Catalog, (c: Category) => c.id == id)
  }

  /** The three categories of `STATISTICS_CATEGORIES`, in order, each with its one table
      and without `coverage` or `coverageNote`. */
  lemma CatalogContents()
    ensures |Catalog| == 3
    ensures Catalog[0].id == "population" && Catalog[0].statsIds == ["0003448299"]
    ensures Catalog[1].id == "commerce" && Catalog[1].statsIds == ["0003149505"]
    ensures Catalog[2].id == "economy" && Catalog[2].statsIds == ["0003353941"]
    ensures forall c :: c in Catalog ==> c.coverage.None? && c.coverageNote.None?
  {
  }

  /** The catalog ids are pairwise distinct, so a lookup never has to choose. */
  lemma CatalogIdsDistinct()
    ensures DistinctIds(Catalog)
  {
  }

  /** Every entry names at least one table. */
  lemma CatalogEntriesHaveTables()
    ensures forall c :: c in Catalog ==> |c.statsIds| >= 1
  {
  }

  /** Since the ids are distinct, looking up an entry's own id gives that entry. */
  lemma LookupOwnId(i: int)
    requires 0 <= i < |Catalog|
    ensures GetCategoryById(Catalog[i].id) == Some(Catalog[i])
  {
    CatalogIdsDistinct();
    var r := GetCategoryById(Catalog[i].id);
    var j :| 0 <= j < |Catalog| && Catalog[j] == r.value;
    assert Catalog[j].id == Catalog[i].id;
  }
}
