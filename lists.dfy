/**
 * The master list page (src/pages/Lists.jsx): spaces nested under their
 * facilities, the per-facility open/closed map, and the load that builds
 * both.
 */
module Lists {
  import opened Common
  import opened Records
  import Events

  /** A facility row with its spaces attached: `{ ...facility, spaces }`. */
  datatype FacilityNode = FacilityNode(facility: Facility, spaces: seq<Space>)

  /** `spacesData.filter(space => space.parent_facility_id === facilityId)`. */
  function SpacesOf(spaces: seq<Space>, facilityId: int): (r: seq<Space>)
    ensures forall s :: s in r <==> s in spaces && s.parentFacilityId == facilityId
    ensures IsSubsequence(r, spaces)
    // no space of that facility is dropped or duplicated
    ensures forall s :: multiset(r)[s] == if s.parentFacilityId == facilityId then multiset(spaces)[s] else 0
  {
    var keep := (s: Space) => s.parentFacilityId == facilityId;
    FilterCounts(spaces, keep);
    FilterMembership(spaces, keep);
    FilterIsSubsequence(spaces, keep);
    Filter(spaces, keep)
  }

  /** The hierarchy: one node per facility, in order, each holding exactly its own spaces in their original order. */
  function Nest(facilities: seq<Facility>, spaces: seq<Space>): (r: seq<FacilityNode>)
    ensures |r| == |facilities|
    ensures forall i :: 0 <= i < |r| ==> r[i].facility == facilities[i] && r[i].spaces == SpacesOf(spaces, facilities[i].id)
    ensures forall i :: 0 <= i < |r| ==> IsSubsequence(r[i].spaces, spaces)
    ensures forall i, s :: 0 <= i < |r| ==> (s in r[i].spaces <==> s in spaces && s.parentFacilityId == facilities[i].id)
    ensures forall i, s :: 0 <= i < |r| ==>
      multiset(r[i].spaces)[s] == if s.parentFacilityId == facilities[i].id then multiset(spaces)[s] else 0
  {
    if facilities == [] then []
    else [FacilityNode(facilities[0], SpacesOf(spaces, facilities[0].id))] + Nest(facilities[1..], spaces)
  }

  /** A space whose parent is not among the facilities appears nowhere in the hierarchy. */
  lemma OrphanSpaceOmitted(facilities: seq<Facility>, spaces: seq<Space>, s: Space)
    requires forall f :: f in facilities ==> f.id != s.parentFacilityId
    ensures forall node :: node in Nest(facilities, spaces) ==> s !in node.spaces
  {
    var r := Nest(facilities, spaces);
    forall node | node in r ensures s !in node.spaces {
      var i :| 0 <= i < |r| && r[i] == node;
      assert facilities[i] in facilities;
    }
  }

  /** With distinct facility ids, every space with a listed parent appears under that facility and no other. */
  lemma SpaceUnderItsParentOnly(facilities: seq<Facility>, spaces: seq<Space>, s: Space, k: int)
    requires forall i, j :: 0 <= i < j < |facilities| ==> facilities[i].id != facilities[j].id
    requires s in spaces && 0 <= k < |facilities| && facilities[k].id == s.parentFacilityId
    ensures s in Nest(facilities, spaces)[k].spaces
    ensures forall i :: 0 <= i < |facilities| && i != k ==> s !in Nest(facilities, spaces)[i].spaces
  {
  }

  /** `openFacilities[id]` as a condition: a missing key reads as `undefined`, which is falsy. */
  predicate IsOpen(open: map<int, bool>, id: int) {
    id in open && open[id]
  }

  /** The `forEach` that opens every facility when the list is loaded. */
  method InitialOpenState(facilities: seq<Facility>) returns (open: map<int, bool>)
    ensures open.Keys == set f | f in facilities :: f.id
    ensures forall id :: id in open ==> open[id]
  {
    open := map[];
    for i := 0 to |facilities|
      invariant open.Keys == set j | 0 <= j < i :: facilities[j].id
      invariant forall id :: id in open ==> open[id]
    {
      open := open[facilities[i].id := true];
    }
    assert (set j | 0 <= j < |facilities| :: facilities[j].id) == set f | f in facilities :: f.id by {
      forall f | f in facilities ensures f.id in set j | 0 <= j < |facilities| :: facilities[j].id {
        var j :| 0 <= j < |facilities| && facilities[j] == f;
      }
    }
  }

  /** `handleToggle`: `{ ...prev, [id]: !prev[id] }`. */
  function Toggle(open: map<int, bool>, id: int): (r: map<int, bool>)
    ensures r.Keys == open.Keys + {id}
    ensures IsOpen(r, id) <==> !IsOpen(open, id)
    ensures forall k :: k in open && k != id ==> k in r && r[k] == open[k]
  {
    open[id := !IsOpen(open, id)]
  }

  /** Toggling an id that is already in the map twice restores the map. */
  lemma ToggleTwice(open: map<int, bool>, id: int)
    requires id in open
    ensures Toggle(Toggle(open, id), id) == open
  {
  }

  /** Toggling an id that is not in the map twice leaves it in, closed: the map is not restored. */
  lemma ToggleTwiceAbsent(open: map<int, bool>, id: int)
    requires id !in open
    ensures Toggle(Toggle(open, id), id) == open[id := false]
  {
  }

  /** The secondary line of a space: its floor, or "Ground Floor" when the floor is falsy. */
  function FloorLabel(floorLevel: Option<string>): (text: string)
    ensures !Truthy(floorLevel) ==> text == "Ground Floor"
    ensures Truthy(floorLevel) ==> text == floorLevel.value
  {
    OrElse(floorLevel, "Ground Floor")
  }

  /**
   * The location caption of an event card: the facility name (nothing when
   * absent), " > ", then the space name or "TBA".
   */
  function EventCaption(event: Event): (text: string)
    // the whole caption: the facility name (nothing when absent), " > ", then the space name or "TBA"
    ensures var facilityName := if event.spaces.Some? then Events.FacilityNameOf(event.spaces.value) else None;
      text == OrElse(facilityName, "") + " > " + (if event.spaces.Some? && event.spaces.value.name != "" then event.spaces.value.name else "TBA")
    ensures event.spaces.None? ==> text == " > TBA"
    ensures event.spaces.Some? && event.spaces.value.name != "" ==> Events.EndsWith(text, " > " + event.spaces.value.name)
    // a space with an empty name is shown as "TBA", like a missing one
    ensures event.spaces.Some? && event.spaces.value.name == "" ==> Events.EndsWith(text, " > TBA")
    ensures event.spaces.Some? && Truthy(Events.FacilityNameOf(event.spaces.value)) && event.spaces.value.name != "" ==>
      text == Events.LocationText(event)
  {
    var facilityName := if event.spaces.Some? then Events.FacilityNameOf(event.spaces.value) else None;
    var spaceName := if event.spaces.Some? && event.spaces.value.name != "" then event.spaces.value.name else "TBA";
    var text := OrElse(facilityName, "") + " > " + spaceName;
    assert text[|text| - |" > " + spaceName|..] == " > " + spaceName;
    text
  }

  /**
   * The card caption and the event table's location column disagree for an
   * event without a space, and for a space whose facility has no name.
   */
  lemma CaptionDiffersFromLocationColumn(event: Event)
    requires event.spaces.None? || (!Truthy(Events.FacilityNameOf(event.spaces.value)) && event.spaces.value.name != "")
    ensures EventCaption(event) != Events.LocationText(event)
    ensures EventCaption(event) == " > " + (if event.spaces.Some? then event.spaces.value.name else "TBA")
  {
    if event.spaces.Some? {
      assert |EventCaption(event)| == |Events.LocationText(event)| + 3;
    }
  }

  /** The three collections `Promise.all` fetches together. */
  datatype MasterData = MasterData(facilities: seq<Facility>, spaces: seq<Space>, events: seq<Event>)

  /** The page's loading flag, hierarchy, events and open map. */
  class MasterList {
    var loading: bool
    var hierarchy: seq<FacilityNode>
    var events: seq<Event>
    var openFacilities: map<int, bool>

    constructor ()
      ensures loading && hierarchy == [] && events == [] && openFacilities == map[]
    {
      loading := true;
      hierarchy := [];
      events := [];
      openFacilities := map[];
    }

    /** `loadMasterData` up to its `await Promise.all(…)`. */
    method BeginLoad()
      modifies this
      ensures loading
      ensures hierarchy == old(hierarchy) && events == old(events) && openFacilities == old(openFacilities)
    {
      loading := true;
    }

    /** `loadMasterData` after the fetches: on success the hierarchy, events and open map are rebuilt; `finally` stops loading. */
    method FinishLoad(fetched: Lookup<MasterData>)
      modifies this
      ensures !loading
      ensures fetched.Resolved? ==>
        && hierarchy == Nest(fetched.value.facilities, fetched.value.spaces)
        && events == fetched.value.events
        && openFacilities.Keys == (set f | f in fetched.value.facilities :: f.id)
        && (forall id :: id in openFacilities ==> openFacilities[id])
      ensures fetched.Threw? ==>
        hierarchy == old(hierarchy) && events == old(events) && openFacilities == old(openFacilities)
    {
      if fetched.Resolved? {
        var data := fetched.value;
        hierarchy := Nest(data.facilities, data.spaces);
        events := data.events;
        openFacilities := InitialOpenState(data.facilities);
      }
      loading := false;
    }

    /** A click on a facility header. */
    method ToggleFacility(id: int)
      modifies this
      ensures openFacilities == Toggle(old(openFacilities), id)
      ensures loading == old(loading) && hierarchy == old(hierarchy) && events == old(events)
    {
      openFacilities := Toggle(openFacilities, id);
    }
  }
}
