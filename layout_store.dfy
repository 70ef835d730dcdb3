/**
 * The pure list operations behind the edit handlers of nocode-dashboard/src/App.tsx:
 * `widgets.find(w => w.id === id)` and the `map` that retitles, plus the id
 * uniqueness the layout is meant to keep.
 */
module LayoutStore {
  import opened Wrappers
  import opened WidgetTypes

  /** The ids of a layout, in order. */
  function Ids(ws: seq<DashboardWidget>): (ids: seq<string>)
    ensures |ids| == |ws|
    ensures forall i :: 0 <= i < |ws| ==> ids[i] == ws[i].id
  {
    seq(|ws|, i requires 0 <= i < |ws| => ws[i].id)
  }

  /** No two widgets of the layout share an id. */
  predicate UniqueIds(ws: seq<DashboardWidget>)
  {
    forall i, j :: 0 <= i < j < |ws| ==> ws[i].id != ws[j].id
  }

  /** `find`: the first widget with the given id, or nothing. */
  function FindById(ws: seq<DashboardWidget>, id: string): (r: Option<DashboardWidget>)
    ensures r.None? <==> id !in Ids(ws)
    ensures r.Some? ==> r.value.id == id && r.value in ws
    ensures r.Some? ==> exists k :: 0 <= k < |ws| && ws[k] == r.value && id !in Ids(ws[..k])
  {
    if ws == [] then None
    else if ws[0].id == id then
      assert Ids(ws[..0]) == [];
      Some(ws[0])
    else
      var r := FindById(ws[1..], id);
      assert Ids(ws) == [ws[0].id] + Ids(ws[1..]);
      if r.Some? then
        var k :| 0 <= k < |ws[1..]| && ws[1..][k] == r.value && id !in Ids(ws[1..][..k]);
        assert Ids(ws[..k + 1]) == [ws[0].id] + Ids(ws[1..][..k]);
        r
      else r
  }

  /** `ws.map(w => w.id === id ? { ...w, title } : w)`. */
  function Retitled(ws: seq<DashboardWidget>, id: string, title: string): (r: seq<DashboardWidget>)
    ensures |r| == |ws|
    ensures forall i :: 0 <= i < |ws| ==> r[i].id == ws[i].id && r[i].kind == ws[i].kind
  {
    seq(|ws|, i requires 0 <= i < |ws| => if ws[i].id == id then ws[i].(title := title) else ws[i])
  }

  /**
   * Retitling is local: the layout keeps its length, order, ids and kinds; a
   * widget with the id gets the new title and every other widget is untouched.
   */
  lemma RetitledIsLocal(ws: seq<DashboardWidget>, id: string, title: string)
    ensures |Retitled(ws, id, title)| == |ws|
    ensures Ids(Retitled(ws, id, title)) == Ids(ws)
    ensures forall i :: 0 <= i < |ws| ==>
              Retitled(ws, id, title)[i].kind == ws[i].kind
              && Retitled(ws, id, title)[i].title == (if ws[i].id == id then title else ws[i].title)
    ensures forall i :: 0 <= i < |ws| && ws[i].id != id ==> Retitled(ws, id, title)[i] == ws[i]
  {
  }

  /** Retitling by an id no widget has changes nothing. */
  lemma RetitledUnknownId(ws: seq<DashboardWidget>, id: string, title: string)
    requires id !in Ids(ws)
    ensures Retitled(ws, id, title) == ws
  {
    forall i | 0 <= i < |ws| ensures Retitled(ws, id, title)[i] == ws[i] {
      assert Ids(ws)[i] == ws[i].id;
    }
  }

  /** After a retitle, looking the widget up again finds it with the new title. */
  lemma RetitledThenFound(ws: seq<DashboardWidget>, id: string, title: string)
    requires id in Ids(ws)
    ensures FindById(Retitled(ws, id, title), id).Some?
    ensures FindById(Retitled(ws, id, title), id).value.title == title
  {
    RetitledIsLocal(ws, id, title);
  }

  /** Retitling keeps ids unique. */
  lemma RetitledKeepsUniqueIds(ws: seq<DashboardWidget>, id: string, title: string)
    requires UniqueIds(ws)
    ensures UniqueIds(Retitled(ws, id, title))
  {
    RetitledIsLocal(ws, id, title);
  }
}
