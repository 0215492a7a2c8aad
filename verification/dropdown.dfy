/**
  The target dropdown of the collections tab: the organization's option
  followed by one option per cost center.
 */
module Dropdown {
  import opened Optional
  import opened Organization

  /** A dropdown entry; its `label` is called `text` here (`label` is a Dafny keyword). */
  datatype DropdownOption = DropdownOption(text: string, value: string)

  /** One entry of `getCostCentersByOrganizationId.data`. */
  datatype CostCenterSummary = CostCenterSummary(id: string, name: string)

  /** Appended to a cost center's name in its option text. */
  const CostCenterSuffix: string := " - CC"

  /** The organization's single option once it is fetched; until then the previous options stay. */
  function OrganizationOptions(data: Option<OrganizationRecord>, previous: seq<DropdownOption>): (r: seq<DropdownOption>)
    ensures data.None? ==> r == previous
    ensures data.Some? ==> |r| == 1 && r[0].text == data.value.name && r[0].value == data.value.id
  {
    if data.None? then previous else [DropdownOption(data.value.name, data.value.id)]
  }

  /**
    One option per fetched cost center, in order, its text the name with the
    suffix and its value the id; an absent or empty answer keeps the previous options.
   */
  function CostCenterOptions(data: Option<seq<CostCenterSummary>>, previous: seq<DropdownOption>): (r: seq<DropdownOption>)
    ensures data.None? || |data.value| == 0 ==> r == previous
    ensures data.Some? && |data.value| > 0 ==>
      && |r| == |data.value|
      && forall i :: 0 <= i < |r| ==> r[i].text == data.value[i].name + CostCenterSuffix && r[i].value == data.value[i].id
  {
    if data.None? || |data.value| == 0 then previous
    else
      var centers := data.value;
      seq(|centers|, i requires 0 <= i < |centers| => DropdownOption(centers[i].name + CostCenterSuffix, centers[i].id))
  }

  /** The dropdown's list: the organization's options first, then the cost centers'. */
  function CombinedOptions(orgOptions: seq<DropdownOption>, costCenterOptions: seq<DropdownOption>): (r: seq<DropdownOption>)
    ensures |r| == |orgOptions| + |costCenterOptions|
    ensures r[..|orgOptions|] == orgOptions && r[|orgOptions|..] == costCenterOptions
    ensures forall o :: o in r <==> o in orgOptions || o in costCenterOptions
  {
    orgOptions + costCenterOptions
  }

  /**
    With both answers in, the dropdown lists the organization first and then
    every cost center in the order fetched.
   */
  lemma CombinedOptionsShape(org: OrganizationRecord, centers: seq<CostCenterSummary>, previousOrg: seq<DropdownOption>, previousCC: seq<DropdownOption>)
    requires |centers| > 0
    ensures var all := CombinedOptions(OrganizationOptions(Some(org), previousOrg), CostCenterOptions(Some(centers), previousCC));
      && |all| == 1 + |centers|
      && all[0] == DropdownOption(org.name, org.id)
      && forall i :: 0 <= i < |centers| ==> all[i + 1] == DropdownOption(centers[i].name + CostCenterSuffix, centers[i].id)
  {
  }
}
