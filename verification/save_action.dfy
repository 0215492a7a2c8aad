/**
  The save button: the name guard, the organization and cost-center update
  payloads, and the dispatch between them on the selected target.
 */
module SaveAction {
  import opened Optional
  import opened Text
  import opened Items
  import opened FieldMerge
  import opened Permissions
  import opened Organization
  import opened Reconciler
  import opened OrganizationForm
  import opened AssignmentList

  datatype OrganizationPayload = OrganizationPayload(
    id: string,
    name: string,
    tradeName: string,
    status: string,
    collections: seq<NamedRef>,
    paymentTerms: seq<NamedRef>,
    priceTables: seq<string>,
    customFields: seq<CustomField>,
    salesChannel: Option<string>,
    sellers: seq<NamedRef>,
    permissions: map<string, bool>)

  /**
    The cost-center query's answer, as far as the update forwards it.
    `hasAddresses` says whether the answer carries an `addresses` list; the
    addresses themselves are not modelled.
   */
  datatype CostCenterDetails = CostCenterDetails(name: string, phoneNumber: string, businessDocument: string, hasAddresses: bool)

  /** The handler reads `addresses.sort` on a fetched answer, which throws before anything is sent when the list is missing. */
  predicate CanSendCostCenter(details: Option<CostCenterDetails>) {
    details.None? || details.value.hasAddresses
  }

  /** Fields read from an absent cost-center answer are `undefined`, so `None`. */
  datatype CostCenterPayload = CostCenterPayload(
    id: Option<string>,
    name: Option<string>,
    collections: seq<NamedRef>,
    phoneNumber: Option<string>,
    businessDocument: Option<string>)

  datatype UpdateRequest =
    | UpdateOrganization(organization: OrganizationPayload)
    | UpdateCostCenter(costCenter: CostCenterPayload)

  /** The error shown after the click, and the mutation issued, if any. */
  datatype SaveOutcome = SaveOutcome(error: ErrorState, request: Option<UpdateRequest>)

  /** `!name || name.trim().length === 0`: exactly the blank names are refused. */
  function NameMissing(name: string): (r: bool)
    ensures r <==> IsBlank(name)
  {
    TrimEmptyIffBlank(name);
    |name| == 0 || |Trim(name)| == 0
  }

  /** An empty selected sales channel is sent as `null`. */
  function SalesChannelValue(salesChannel: string): (r: Option<string>)
    ensures r.None? <==> salesChannel == ""
    ensures r.Some? ==> r.value == salesChannel
  {
    if salesChannel == "" then None else Some(salesChannel)
  }

  /**
    Saving the organization: a blank name sets the error and sends nothing;
    any other name clears the error and sends the form, each list renamed back
    to the service's `{ name, id }` shape.
   */
  function HandleUpdateOrganization(form: FormState, routeId: string): (r: SaveOutcome)
    ensures r.request.None? <==> IsBlank(form.name)
    ensures IsBlank(form.name) ==> r.error == NameRequired
    ensures !IsBlank(form.name) ==> r.error == NoError && r.request.value.UpdateOrganization?
    ensures r.request.Some? ==>
      var p := r.request.value.organization;
      && p.id == routeId && p.name == form.name && p.tradeName == form.tradeName && p.status == form.status
      && LoadCollections(p.collections) == form.collections
      && LoadPaymentTerms(p.paymentTerms) == form.paymentTerms
      && LoadSellers(p.sellers) == form.sellers
      && p.priceTables == form.priceTables
      && p.customFields == form.customFields
      && (p.salesChannel.None? <==> form.salesChannel == "")
      && (p.salesChannel.Some? ==> p.salesChannel.value == form.salesChannel)
      && p.permissions == PermissionsRecord(form.permissionsOptions)
      && p.permissions.Keys == Texts(form.permissionsOptions)
      && forall i :: IsLastOfText(form.permissionsOptions, i) ==>
           p.permissions[form.permissionsOptions[i].text] == form.permissionsOptions[i].value
  {
    PermissionsRecordLastWins(form.permissionsOptions);
    if NameMissing(form.name) then SaveOutcome(NameRequired, None)
    else
      CollectionsRoundTripBack(form.collections);
      PaymentTermsRoundTripBack(form.paymentTerms);
      SellersRoundTripBack(form.sellers);
      SaveOutcome(NoError, Some(UpdateOrganization(OrganizationPayload(
        routeId,
        form.name,
        form.tradeName,
        form.status,
        SaveCollections(form.collections),
        SavePaymentTerms(form.paymentTerms),
        form.priceTables,
        form.customFields,
        SalesChannelValue(form.salesChannel),
        SaveSellers(form.sellers),
        PermissionsRecord(form.permissionsOptions)))))
  }

  /**
    Saving the selected cost center: the collections list renamed back to
    `{ name, id }`, sent unless a fetched answer lacks its addresses list (the
    handler then throws and sends nothing); the error shown is left as it was.
   */
  function HandleUpdateCostCenter(form: FormState, state: SelectionState, details: Option<CostCenterDetails>): (r: SaveOutcome)
    ensures r.error == form.error
    ensures r.request.Some? <==> CanSendCostCenter(details)
    ensures r.request.Some? ==> r.request.value.UpdateCostCenter?
    ensures r.request.Some? ==>
      var p := r.request.value.costCenter;
      && p.id == SelectedId(state)
      && LoadCollections(p.collections) == form.collections
      && (details.None? ==> p.name.None? && p.phoneNumber.None? && p.businessDocument.None?)
      && (details.Some? ==> p.name == Some(details.value.name) && p.phoneNumber == Some(details.value.phoneNumber)
                            && p.businessDocument == Some(details.value.businessDocument))
  {
    CollectionsRoundTripBack(form.collections);
    if !CanSendCostCenter(details) then SaveOutcome(form.error, None)
    else SaveOutcome(form.error, Some(UpdateCostCenter(CostCenterPayload(
      SelectedId(state),
      if details.Some? then Some(details.value.name) else None,
      SaveCollections(form.collections),
      if details.Some? then Some(details.value.phoneNumber) else None,
      if details.Some? then Some(details.value.businessDocument) else None))))
  }

  /** The save button: the organization update in organization view, the cost-center update otherwise. */
  function ManageOrgCostCenterUpdate(form: FormState, state: SelectionState, routeId: string, details: Option<CostCenterDetails>): (r: SaveOutcome)
    ensures IsOrganizationView(state, routeId) ==> r == HandleUpdateOrganization(form, routeId)
    ensures !IsOrganizationView(state, routeId) ==> r == HandleUpdateCostCenter(form, state, details)
  {
    if IsOrganizationView(state, routeId) then HandleUpdateOrganization(form, routeId)
    else HandleUpdateCostCenter(form, state, details)
  }

  /**
    A cost-center update is issued exactly when a target other than the
    organization is selected and its answer, if any, lists addresses.
   */
  lemma DispatchFollowsTarget(form: FormState, state: SelectionState, routeId: string, details: Option<CostCenterDetails>)
    ensures var r := ManageOrgCostCenterUpdate(form, state, routeId, details);
      && (r.request.Some? && r.request.value.UpdateCostCenter? <==> !IsOrganizationView(state, routeId) && CanSendCostCenter(details))
      && (IsOrganizationView(state, routeId) ==> (r.request.None? <==> IsBlank(form.name)))
  {
  }

  /**
    Loading an organization in organization view and saving it right away sends
    back what was fetched: the same lists in the service's shape, missing lists
    as empty ones, and a missing or empty sales channel as `null`.
   */
  lemma LoadThenSaveOrganization(form: FormState, data: OrganizationRecord, state: SelectionState, routeId: string, details: Option<CostCenterDetails>)
    requires IsOrganizationView(state, routeId)
    requires !IsBlank(data.name)
    ensures var loaded := OnOrganizationData(form, Some(data), state, routeId);
      var r := ManageOrgCostCenterUpdate(loaded, state, routeId, details);
      && r.error == NoError
      && r.request.Some? && r.request.value.UpdateOrganization?
      && var p := r.request.value.organization;
      && p.id == routeId && p.name == data.name && p.status == data.status
      && p.tradeName == data.tradeName.GetOr("")
      && p.collections == data.collections.GetOr([])
      && p.paymentTerms == data.paymentTerms.GetOr([])
      && p.sellers == data.sellers.GetOr([])
      && p.priceTables == data.priceTables.GetOr([])
      && p.salesChannel == (if data.salesChannel == Some("") then None else data.salesChannel)
  {
    var loaded := OnOrganizationData(form, Some(data), state, routeId);
    ActiveCollectionsSource(data, state, routeId);
    CollectionsRoundTripBack(loaded.collections);
    PaymentTermsRoundTrip(data.paymentTerms.GetOr([]));
    SellersRoundTrip(data.sellers.GetOr([]));
  }

  /**
    Loading a cost center's view and saving it right away sends back the
    collections of the first cost center with the chosen id, unless the
    handler throws on a missing addresses list.
   */
  lemma LoadThenSaveCostCenter(form: FormState, data: OrganizationRecord, state: SelectionState, routeId: string, details: Option<CostCenterDetails>)
    requires !IsOrganizationView(state, routeId)
    ensures var loaded := OnOrganizationData(form, Some(data), state, routeId);
      var r := ManageOrgCostCenterUpdate(loaded, state, routeId, details);
      CanSendCostCenter(details) ==>
        (&& r.request.Some? && r.request.value.UpdateCostCenter?
         && r.request.value.costCenter.id == SelectedId(state)
         && r.request.value.costCenter.collections == MatchedCollections(data, SelectedId(state)))
  {
    var loaded := OnOrganizationData(form, Some(data), state, routeId);
    ActiveCollectionsSource(data, state, routeId);
    CollectionsRoundTripBack(loaded.collections);
  }

  /**
    The "already assigned" marks of the catalog tables agree with what the
    organization update sends: a seller or price table by id, a collection or
    payment term by name.
   */
  lemma AssignedMarksMatchPayload(form: FormState, routeId: string, sellerId: string, tableId: string, name: string)
    requires !IsBlank(form.name)
    ensures var p := HandleUpdateOrganization(form, routeId).request.value.organization;
      && (IsSellerAssigned(form.sellers, sellerId) <==> exists i :: 0 <= i < |p.sellers| && p.sellers[i].id == sellerId)
      && (IsPriceTableAssigned(form.priceTables, tableId) <==> tableId in p.priceTables)
      && (IsCollectionAssigned(form.collections, name) <==> exists i :: 0 <= i < |p.collections| && p.collections[i].name == name)
      && (IsPaymentTermAssigned(form.paymentTerms, name) <==> exists i :: 0 <= i < |p.paymentTerms| && p.paymentTerms[i].name == name)
  {
    var p := HandleUpdateOrganization(form, routeId).request.value.organization;
    assert p.sellers == SaveSellers(form.sellers) && p.collections == SaveCollections(form.collections)
        && p.paymentTerms == SavePaymentTerms(form.paymentTerms);
  }
}
