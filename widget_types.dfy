/**
 * The record shapes of the dashboard and the fixed catalog of widget types
 * (nocode-dashboard/src/types.ts).
 */
module WidgetTypes {
  import opened Wrappers

  /** A catalog entry: the id doubles as the drag payload, the name is the display label. */
  datatype WidgetType = WidgetType(id: string, name: string)

  /**
   * A placed widget: exactly three strings. `kind` stands for the source's `type`
   * field (a reserved word in Dafny). It is not tied to a catalog id, because a
   * loaded layout is accepted as it is.
   */
  datatype DashboardWidget = DashboardWidget(id: string, kind: string, title: string)

  /** `WIDGET_TYPES`: the catalog shown in the sidebar, in display order. */
  const Catalog: seq<WidgetType> := [
    WidgetType("text", "Text Widget"),
    WidgetType("chart", "Chart Widget"),
    WidgetType("image", "Image Widget")
  ]

  /** `WIDGET_TYPES.find(wt => wt.id === id)`: the first catalog entry with that id. */
  function FindType(id: string): (r: Option<WidgetType>)
    ensures r.Some? ==> r.value in Catalog && r.value.id == id
    ensures r.None? <==> forall k :: 0 <= k < |Catalog| ==> Catalog[k].id != id
  {
    FindTypeFrom(Catalog, id)
  }

  /** The linear scan behind `find`, over any list of catalog entries. */
  function FindTypeFrom(types: seq<WidgetType>, id: string): (r: Option<WidgetType>)
    ensures r.Some? ==> r.value in types && r.value.id == id
    ensures r.None? <==> forall k :: 0 <= k < |types| ==> types[k].id != id
    ensures r.Some? ==> exists k :: 0 <= k < |types| && types[k] == r.value
                                    && forall j :: 0 <= j < k ==> types[j].id != id
  {
    if types == [] then None
    else if types[0].id == id then Some(types[0])
    else
      var r := FindTypeFrom(types[1..], id);
      assert r.Some? ==> types[1..][0] == types[1];
      r
  }

  /** No two entries of a list of catalog entries share an id. */
  predicate DistinctIds(types: seq<WidgetType>)
  {
    forall i, j :: 0 <= i < j < |types| ==> types[i].id != types[j].id
  }

  /** The catalog is exactly text, chart and image, in that order, with those labels. */
  lemma CatalogContents()
    ensures |Catalog| == 3
    ensures Catalog[0].id == "text" && Catalog[0].name == "Text Widget"
    ensures Catalog[1].id == "chart" && Catalog[1].name == "Chart Widget"
    ensures Catalog[2].id == "image" && Catalog[2].name == "Image Widget"
    ensures DistinctIds(Catalog)
  {
  }

  /** Because catalog ids are distinct, a lookup by id names the one entry carrying that id. */
  lemma FindTypeUnique(id: string, k: nat)
    requires k < |Catalog| && Catalog[k].id == id
    ensures FindType(id) == Some(Catalog[k])
  {
    CatalogContents();
    var r := FindType(id);
    var m :| 0 <= m < |Catalog| && Catalog[m] == r.value
             && forall j :: 0 <= j < m ==> Catalog[j].id != id;
    assert m == k;
  }

  /** Exactly the three catalog ids are found; every other string misses. */
  lemma FindTypeHitsExactlyCatalogIds(id: string)
    ensures FindType(id).Some? <==> id in {"text", "chart", "image"}
    ensures FindType(id).Some? ==> FindType(id).value.id == id
  {
    if id in {"text", "chart", "image"} {
      assert Catalog[0].id == "text" && Catalog[1].id == "chart" && Catalog[2].id == "image";
    }
  }
}
