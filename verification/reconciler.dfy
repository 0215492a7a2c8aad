/**
  Which target the assignment lists show, the organization or one of its cost
  centers, and the collections list derived for it from the fetched
  organization.
 */
module Reconciler {
  import opened Optional
  import opened Items
  import opened Organization

  /**
    The selected-target object: `{}` until a target is chosen, then the
    previous object with its `id` overwritten. Keys are the object's keys.
   */
  type SelectionState = map<string, string>

  const NoSelection: SelectionState := map[]

  const IdKey: string := "id"

  /** `{ ...state, id: v }` */
  function ChooseTarget(state: SelectionState, v: string): (r: SelectionState)
    ensures r.Keys == state.Keys + {IdKey}
    ensures r[IdKey] == v
    ensures forall k :: k in state && k != IdKey ==> r[k] == state[k]
  {
    state[IdKey := v]
  }

  /** `state?.id` */
  function SelectedId(state: SelectionState): (r: Option<string>) {
    if IdKey in state then Some(state[IdKey]) else None
  }

  /** The object has no keys at all, or its `id` is the organization id of the route. */
  function IsOrganizationView(state: SelectionState, routeId: string): (r: bool)
    ensures state == NoSelection ==> r
    ensures IdKey in state ==> (r <==> state[IdKey] == routeId)
    ensures state != NoSelection && IdKey !in state ==> !r
  {
    |state| == 0 || SelectedId(state) == Some(routeId)
  }

  /**
    Before any choice the view is the organization's; after a choice it is
    exactly when the chosen id is the route's organization id. A cost center
    whose id equals the organization id is therefore shown as the organization.
   */
  lemma OrganizationViewIff(state: SelectionState, v: string, routeId: string)
    ensures IsOrganizationView(NoSelection, routeId)
    ensures IsOrganizationView(ChooseTarget(state, v), routeId) <==> v == routeId
  {
    var r := ChooseTarget(state, v);
    assert IdKey in r.Keys;
    assert |r.Keys| > 0;
  }

  /** `costCentersObj.find(center => center.id === selectedId)`, as the index of the match. */
  function FindCostCenter(centers: seq<CostCenterRecord>, selectedId: Option<string>): (r: Option<nat>)
    ensures r.Some? ==> r.value < |centers| && selectedId == Some(centers[r.value].id)
    ensures r.Some? ==> forall j :: 0 <= j < r.value ==> selectedId != Some(centers[j].id)
    ensures r.None? ==> forall j :: 0 <= j < |centers| ==> selectedId != Some(centers[j].id)
    decreases |centers|
  {
    if |centers| == 0 then None
    else if selectedId == Some(centers[0].id) then Some(0)
    else match FindCostCenter(centers[1..], selectedId)
      case None => None
      case Some(k) => Some(k + 1)
  }

  datatype ExtractedCollections = ExtractedCollections(collectionsOrg: seq<Collection>, collectionsCC: seq<Collection>)

  /** The collections of the cost center `FindCostCenter` picks, or none when it picks none. */
  function MatchedCollections(data: OrganizationRecord, selectedId: Option<string>): (r: seq<NamedRef>)
    ensures var centers := data.costCentersObj.GetOr([]);
      (forall j :: 0 <= j < |centers| ==> selectedId != Some(centers[j].id)) ==> r == []
    ensures var centers := data.costCentersObj.GetOr([]);
      forall k :: (&& 0 <= k < |centers| && selectedId == Some(centers[k].id)
                   && forall j :: 0 <= j < k ==> selectedId != Some(centers[j].id))
        ==> r == centers[k].collections.GetOr([])
  {
    var centers := data.costCentersObj.GetOr([]);
    match FindCostCenter(centers, selectedId)
    case None => []
    case Some(k) => centers[k].collections.GetOr([])
  }

  /**
    Both candidate lists, renamed to `collectionId`: the organization's own and
    the selected cost center's. With no fetched organization both are empty.
   */
  function ExtractCollections(data: Option<OrganizationRecord>, state: SelectionState): (r: ExtractedCollections)
    ensures data.None? ==> r == ExtractedCollections([], [])
    ensures data.Some? ==> SaveCollections(r.collectionsOrg) == data.value.collections.GetOr([])
    ensures data.Some? ==> SaveCollections(r.collectionsCC) == MatchedCollections(data.value, SelectedId(state))
  {
    if data.None? then ExtractedCollections([], [])
    else
      var org := data.value.collections.GetOr([]);
      var cc := MatchedCollections(data.value, SelectedId(state));
      CollectionsRoundTrip(org);
      CollectionsRoundTrip(cc);
      ExtractedCollections(LoadCollections(org), LoadCollections(cc))
  }

  /** The list the collections tab shows: the organization's in organization view, otherwise the cost center's. */
  function ActiveCollections(data: Option<OrganizationRecord>, state: SelectionState, routeId: string): (r: seq<Collection>)
    ensures data.None? ==> r == []
    ensures data.Some? && IsOrganizationView(state, routeId) ==> SaveCollections(r) == data.value.collections.GetOr([])
    ensures data.Some? && !IsOrganizationView(state, routeId) ==> SaveCollections(r) == MatchedCollections(data.value, SelectedId(state))
  {
    var group := ExtractCollections(data, state);
    if IsOrganizationView(state, routeId) then group.collectionsOrg else group.collectionsCC
  }

  /**
    The collections shown for a target, in the service's shape: the
    organization's own list in organization view, and otherwise the list of the
    first cost center with the chosen id, empty when none has it.
   */
  lemma ActiveCollectionsSource(data: OrganizationRecord, state: SelectionState, routeId: string)
    ensures IsOrganizationView(state, routeId) ==>
      SaveCollections(ActiveCollections(Some(data), state, routeId)) == data.collections.GetOr([])
    ensures !IsOrganizationView(state, routeId) ==>
      SaveCollections(ActiveCollections(Some(data), state, routeId)) == MatchedCollections(data, SelectedId(state))
    ensures (&& !IsOrganizationView(state, routeId)
             && forall j :: 0 <= j < |data.costCentersObj.GetOr([])| ==> SelectedId(state) != Some(data.costCentersObj.GetOr([])[j].id))
      ==> ActiveCollections(Some(data), state, routeId) == []
  {
    if !IsOrganizationView(state, routeId) {
      var centers := data.costCentersObj.GetOr([]);
      if FindCostCenter(centers, SelectedId(state)).Some? {
        var k := FindCostCenter(centers, SelectedId(state)).value;
        assert SelectedId(state) == Some(centers[k].id);
      }
    }
  }

  /**
    Switching to a cost center and back to the organization restores the
    organization's list from the same fetched data, without a new fetch.
   */
  lemma SwitchBackRestores(data: Option<OrganizationRecord>, costCenterId: string, routeId: string)
    ensures ActiveCollections(data, ChooseTarget(ChooseTarget(NoSelection, costCenterId), routeId), routeId)
         == ActiveCollections(data, NoSelection, routeId)
  {
    OrganizationViewIff(ChooseTarget(NoSelection, costCenterId), routeId, routeId);
    OrganizationViewIff(NoSelection, routeId, routeId);
  }
}
