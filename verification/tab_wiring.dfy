/**
  How a choice in the collections tab's target dropdown reaches the page that
  owns the selected-target object. The page hands the tab its object and
  setter, but the tab reads neither and keeps a selection object of its own,
  so as written a choice never reaches the page. Both the wiring as written
  and the intended wiring are modelled; the rest of the model reads the
  page's object as the intended wiring sets it.
 */
module TabWiring {
  import opened Optional
  import Text
  import opened Items
  import opened Organization
  import opened Reconciler
  import opened OrganizationForm
  import opened SaveAction
  import opened Dropdown

  /** The page's selected-target object and the collections tab's own one. */
  datatype Selections = Selections(page: SelectionState, tab: SelectionState)

  const InitialSelections: Selections := Selections(NoSelection, NoSelection)

  /** As written: the dropdown's change handler calls the tab's local setter only. */
  function OnTargetChangeAsWritten(s: Selections, v: string): (r: Selections)
    ensures r.page == s.page
    ensures SelectedId(r.tab) == Some(v)
  {
    s.(tab := ChooseTarget(s.tab, v))
  }

  /** Intended: the tab updates the page's object it was handed and shows that one. */
  function OnTargetChange(s: Selections, v: string): (r: Selections)
    ensures SelectedId(r.page) == Some(v)
    ensures r.tab == r.page
  {
    var next := ChooseTarget(s.page, v);
    Selections(next, next)
  }

  function RunAsWritten(s: Selections, choices: seq<string>): (r: Selections)
    decreases |choices|
  {
    if |choices| == 0 then s
    else OnTargetChangeAsWritten(RunAsWritten(s, choices[..|choices| - 1]), choices[|choices| - 1])
  }

  function Run(s: Selections, choices: seq<string>): (r: Selections)
    decreases |choices|
  {
    if |choices| == 0 then s
    else OnTargetChange(Run(s, choices[..|choices| - 1]), choices[|choices| - 1])
  }

  /** As written, no sequence of dropdown choices changes the page's object. */
  lemma {:induction false} AsWrittenPageNeverChanges(s: Selections, choices: seq<string>)
    ensures RunAsWritten(s, choices).page == s.page
    decreases |choices|
  {
    if |choices| > 0 {
      AsWrittenPageNeverChanges(s, choices[..|choices| - 1]);
    }
  }

  /** As written, the page stays in organization view whatever is chosen, so it never saves a cost center. */
  lemma AsWrittenAlwaysOrganizationView(choices: seq<string>, routeId: string, form: FormState, details: Option<CostCenterDetails>)
    ensures IsOrganizationView(RunAsWritten(InitialSelections, choices).page, routeId)
    ensures var r := ManageOrgCostCenterUpdate(form, RunAsWritten(InitialSelections, choices).page, routeId, details);
      !(r.request.Some? && r.request.value.UpdateCostCenter?)
  {
    AsWrittenPageNeverChanges(InitialSelections, choices);
  }

  /** Organization "org-1", cost center "cc-1" chosen: as written the save still updates the organization. */
  lemma AsWrittenCounterexample()
    ensures var s := RunAsWritten(InitialSelections, ["cc-1"]);
      && SelectedId(s.tab) == Some("cc-1")
      && IsOrganizationView(s.page, "org-1")
      && ManageOrgCostCenterUpdate(InitialForm.(name := "Acme"), s.page, "org-1", None).request.value.UpdateOrganization?
  {
    var s := RunAsWritten(InitialSelections, ["cc-1"]);
    assert s == OnTargetChangeAsWritten(InitialSelections, "cc-1");
    assert !Text.IsWhitespace("Acme"[0]);
    assert !Text.IsBlank("Acme");
    assert s.page == NoSelection;
  }

  /** With the intended wiring, the page follows the last choice, and is in organization view exactly when that choice is the organization. */
  lemma {:induction false} RunFollowsLastChoice(choices: seq<string>, routeId: string)
    requires |choices| > 0
    ensures SelectedId(Run(InitialSelections, choices).page) == Some(choices[|choices| - 1])
    ensures IsOrganizationView(Run(InitialSelections, choices).page, routeId) <==> choices[|choices| - 1] == routeId
  {
    var before := Run(InitialSelections, choices[..|choices| - 1]);
    OrganizationViewIff(before.page, choices[|choices| - 1], routeId);
  }

  /** Organization "org-1", cost center "cc-1" chosen: with the intended wiring the save updates "cc-1". */
  lemma CorrectedCounterpart()
    ensures var s := Run(InitialSelections, ["cc-1"]);
      && !IsOrganizationView(s.page, "org-1")
      && var r := ManageOrgCostCenterUpdate(InitialForm.(name := "Acme"), s.page, "org-1", None);
      && r.request.value.UpdateCostCenter?
      && r.request.value.costCenter.id == Some("cc-1")
  {
    RunFollowsLastChoice(["cc-1"], "org-1");
  }

  /**
    Choosing an entry of the combined dropdown (intended wiring) selects its
    target: the first entry keeps the organization view; a cost center's entry,
    when its id differs from the organization's, switches to that cost center
    and to the collections recorded for it.
   */
  lemma PickingAnOptionSelectsItsTarget(org: OrganizationRecord, centers: seq<CostCenterSummary>, previousOrg: seq<DropdownOption>, previousCC: seq<DropdownOption>, k: int)
    requires |centers| > 0
    requires 0 <= k < 1 + |centers|
    ensures var all := CombinedOptions(OrganizationOptions(Some(org), previousOrg), CostCenterOptions(Some(centers), previousCC));
      var page := OnTargetChange(InitialSelections, all[k].value).page;
      && (k == 0 ==> IsOrganizationView(page, org.id))
      && (k > 0 && centers[k - 1].id != org.id ==>
            && !IsOrganizationView(page, org.id)
            && SelectedId(page) == Some(centers[k - 1].id)
            && SaveCollections(ActiveCollections(Some(org), page, org.id)) == MatchedCollections(org, Some(centers[k - 1].id)))
  {
    CombinedOptionsShape(org, centers, previousOrg, previousCC);
    var all := CombinedOptions(OrganizationOptions(Some(org), previousOrg), CostCenterOptions(Some(centers), previousCC));
    var page := OnTargetChange(InitialSelections, all[k].value).page;
    OrganizationViewIff(NoSelection, all[k].value, org.id);
    ActiveCollectionsSource(org, page, org.id);
  }
}
