/**
  The organization page's edit state and the effects that fill it from
  fetched data: the organization query, its completion callback (permissions),
  the cost-center query, and the custom-field merge.
 */
module OrganizationForm {
  import opened Optional
  import opened Items
  import opened FieldMerge
  import opened Permissions
  import opened Organization
  import opened Reconciler

  /** The inline error: none, or the "organization name required" message. */
  datatype ErrorState = NoError | NameRequired

  datatype FormState = FormState(
    name: string,
    tradeName: string,
    status: string,
    collections: seq<Collection>,
    paymentTerms: seq<PaymentTerm>,
    priceTables: seq<string>,
    salesChannel: string,
    sellers: seq<Seller>,
    customFields: seq<CustomField>,
    permissionsOptions: seq<PermissionOption>,
    error: ErrorState)

  const InitialForm: FormState := FormState("", "", "", [], [], [], "", [], [], [], NoError)

  /**
    The effect run when the organization data or the selected target changes:
    nothing without data; otherwise every organization field is reloaded, `null`
    fields becoming `''` or `[]`, and the collections list is the active one.
    Custom fields, permissions and the error are left alone.
   */
  function OnOrganizationData(form: FormState, data: Option<OrganizationRecord>, state: SelectionState, routeId: string): (r: FormState)
    ensures data.None? ==> r == form
    ensures data.Some? ==> && r.name == data.value.name
                           && r.tradeName == data.value.tradeName.GetOr("")
                           && r.status == data.value.status
                           && r.priceTables == data.value.priceTables.GetOr([])
                           && r.salesChannel == data.value.salesChannel.GetOr("")
                           && r.collections == ActiveCollections(data, state, routeId)
                           && SavePaymentTerms(r.paymentTerms) == data.value.paymentTerms.GetOr([])
                           && SaveSellers(r.sellers) == data.value.sellers.GetOr([])
    ensures r.customFields == form.customFields && r.permissionsOptions == form.permissionsOptions && r.error == form.error
  {
    if data.None? then form
    else
      var d := data.value;
      PaymentTermsRoundTrip(d.paymentTerms.GetOr([]));
      SellersRoundTrip(d.sellers.GetOr([]));
      form.(
        name := d.name,
        tradeName := d.tradeName.GetOr(""),
        status := d.status,
        collections := ActiveCollections(data, state, routeId),
        paymentTerms := LoadPaymentTerms(d.paymentTerms.GetOr([])),
        priceTables := d.priceTables.GetOr([]),
        salesChannel := d.salesChannel.GetOr(""),
        sellers := LoadSellers(d.sellers.GetOr([])))
  }

  /**
    The effect run when the cost-center query answers: once it carries its
    organization, the collections list is re-derived from the organization data
    for the current target; nothing else changes.
   */
  function OnCostCenterData(form: FormState, hasOrganization: bool, data: Option<OrganizationRecord>, state: SelectionState, routeId: string): (r: FormState)
    ensures !hasOrganization ==> r == form
    ensures hasOrganization ==> r == form.(collections := ActiveCollections(data, state, routeId))
  {
    if !hasOrganization then form
    else form.(collections := ActiveCollections(data, state, routeId))
  }

  /**
    The organization query's completion callback: without a permissions object
    nothing changes; otherwise the options list holds exactly the object's
    entries other than `__typename`.
   */
  function OnPermissionsFetched(form: FormState, data: Option<OrganizationRecord>): (r: FormState)
    ensures data.None? || data.value.permissions.None? ==> r == form
    ensures r == form.(permissionsOptions := r.permissionsOptions)
    ensures data.Some? && data.value.permissions.Some? ==>
      forall o :: o in r.permissionsOptions <==> o.text != TypenameKey && PermissionEntry(o.text, o.value) in data.value.permissions.value
  {
    if data.None? || data.value.permissions.None? then form
    else form.(permissionsOptions := PermissionOptions(data.value.permissions.value))
  }

  /**
    The custom fields shown: the organization's own fields merged with the
    configured defaults, each missing list counting as empty.
   */
  function OnCustomFields(form: FormState, data: Option<OrganizationRecord>, defaults: Option<seq<CustomField>>): (r: FormState)
    ensures r == form.(customFields := r.customFields)
    ensures UniqueNames(r.customFields)
    ensures var own := if data.Some? then data.value.customFields.GetOr([]) else [];
      && Names(r.customFields) == Names(own) + Names(defaults.GetOr([]))
      && (forall i :: IsFirstOfName(own, i) ==> own[i] in r.customFields)
      && (forall f :: f in r.customFields && f.name in Names(own) ==> f in own)
      && r.customFields == UniqBy(own, {}) + UniqBy(defaults.GetOr([]), Names(own))
  {
    var own := if data.Some? then data.value.customFields.GetOr([]) else [];
    form.(customFields := JoinById(own, defaults.GetOr([])))
  }

  /** The catalog marks of the price-tables, payment-terms and sellers tabs; collections are marked in AssignmentList. */
  function IsPriceTableAssigned(priceTables: seq<string>, tableId: string): (r: bool)
    ensures r <==> exists i :: 0 <= i < |priceTables| && priceTables[i] == tableId
  {
    tableId in priceTables
  }

  function IsPaymentTermAssigned(paymentTerms: seq<PaymentTerm>, name: string): (r: bool)
    ensures r <==> exists p :: p in paymentTerms && p.name == name
  {
    exists i :: 0 <= i < |paymentTerms| && paymentTerms[i].name == name
  }

  function IsSellerAssigned(sellers: seq<Seller>, sellerId: string): (r: bool)
    ensures r <==> exists s :: s in sellers && s.sellerId == sellerId
  {
    exists i :: 0 <= i < |sellers| && sellers[i].sellerId == sellerId
  }
}
