/** The roadmaps page (client/src/pages/Roadmaps.jsx): a list of roadmaps, one of
    them selected and shown step by step. The fetch is an input, None when it
    failed. */
module RoadmapsPage {
  import opened Wrappers
  import opened Models

  /** `roadmapsData.find(r => r.id === selectedRoadmapId)`: the first roadmap with
      the selected id, if any. */
  function FindRoadmap(rs: seq<Roadmap>, sel: Option<string>): (r: Option<Roadmap>)
    ensures r.None? <==> forall k :: 0 <= k < |rs| ==> Some(rs[k].id) != sel
    ensures r.Some? ==> Some(r.value.id) == sel
    ensures r.Some? ==> exists k :: 0 <= k < |rs| && rs[k] == r.value && forall j :: 0 <= j < k ==> Some(rs[j].id) != sel
  {
    if rs == [] then None
    else if Some(rs[0].id) == sel then Some(rs[0])
    else
      var r := FindRoadmap(rs[1..], sel);
      if r.Some? then
        var k :| 0 <= k < |rs[1..]| && rs[1..][k] == r.value && forall j :: 0 <= j < k ==> Some(rs[1..][j].id) != sel;
        assert rs[k + 1] == r.value;
        r
      else r
  }

  /** `find(...) || roadmapsData[0]`: the selected roadmap, or the first one when no
      roadmap has the selected id; nothing only for an empty list. */
  function SelectedRoadmap(rs: seq<Roadmap>, sel: Option<string>): (r: Option<Roadmap>)
    ensures r.None? <==> rs == []
    ensures (exists k :: 0 <= k < |rs| && Some(rs[k].id) == sel) ==> r.Some? && Some(r.value.id) == sel && r == FindRoadmap(rs, sel)
    ensures (forall k :: 0 <= k < |rs| ==> Some(rs[k].id) != sel) && rs != [] ==> r == Some(rs[0])
  {
    match FindRoadmap(rs, sel)
    case Some(x) => Some(x)
    case None => if rs == [] then None else Some(rs[0])
  }

  datatype RoadmapsView =
    | LoadingRoadmaps
    | NoRoadmaps
    | Showing(roadmaps: seq<Roadmap>, selected: Roadmap, steps: seq<Step>)

  class Roadmaps {
    var roadmapsData: seq<Roadmap>
    var selectedId: Option<string>
    var loading: bool

    constructor ()
      ensures roadmapsData == [] && selectedId.None? && loading
    {
      roadmapsData := [];
      selectedId := None;
      loading := true;
    }

    /** The roadmap fetch settles: a non-empty list selects its first roadmap;
        loading ends on success and on failure. */
    method Loaded(outcome: Option<seq<Roadmap>>)
      modifies this
      ensures !loading
      ensures outcome.None? ==> roadmapsData == old(roadmapsData) && selectedId == old(selectedId)
      ensures outcome.Some? ==> roadmapsData == outcome.value
      ensures outcome.Some? && outcome.value != [] ==> selectedId == Some(outcome.value[0].id)
      ensures outcome.Some? && outcome.value == [] ==> selectedId == old(selectedId)
      ensures outcome.Some? && outcome.value != [] ==> SelectedRoadmap(roadmapsData, selectedId) == Some(roadmapsData[0])
    {
      if outcome.Some? {
        var data := outcome.value;
        roadmapsData := data;
        if |data| > 0 {
          selectedId := Some(data[0].id);
        }
      }
      loading := false;
    }

    /** A click on the k-th roadmap of the sidebar selects its id; the page then
        shows the first roadmap with that id. */
    method Click(k: nat)
      requires !loading && k < |roadmapsData|
      modifies this
      ensures selectedId == Some(old(roadmapsData)[k].id)
      ensures roadmapsData == old(roadmapsData) && loading == old(loading)
      ensures SelectedRoadmap(roadmapsData, selectedId).Some?
      ensures SelectedRoadmap(roadmapsData, selectedId).value.id == roadmapsData[k].id
    {
      selectedId := Some(roadmapsData[k].id);
    }

    /** What the page shows: a loading line, "No roadmaps found" for an empty list,
        otherwise the list and the selected roadmap's steps in stored order. */
    function View(): (v: RoadmapsView)
      reads this
      ensures v.LoadingRoadmaps? <==> loading
      ensures v.NoRoadmaps? <==> !loading && roadmapsData == []
      ensures v.Showing? ==> Some(v.selected) == SelectedRoadmap(roadmapsData, selectedId) && v.steps == v.selected.steps
    {
      if loading then LoadingRoadmaps
      else if roadmapsData == [] then NoRoadmaps
      else
        var selected := SelectedRoadmap(roadmapsData, selectedId).value;
        Showing(roadmapsData, selected, selected.steps)
    }
  }
}
