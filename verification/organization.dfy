/**
  The organization as the `getOrganizationById` query returns it. Every field
  the service may leave `null` is an `Option`.
 */
module Organization {
  import opened Optional
  import opened Items
  import opened FieldMerge
  import opened Permissions

  /** One entry of `costCentersObj`: a cost center and its own collections. */
  datatype CostCenterRecord = CostCenterRecord(id: string, collections: Option<seq<NamedRef>>)

  datatype OrganizationRecord = OrganizationRecord(
    id: string,
    name: string,
    tradeName: Option<string>,
    status: string,
    collections: Option<seq<NamedRef>>,
    paymentTerms: Option<seq<NamedRef>>,
    priceTables: Option<seq<string>>,
    salesChannel: Option<string>,
    sellers: Option<seq<NamedRef>>,
    customFields: Option<seq<CustomField>>,
    costCentersObj: Option<seq<CostCenterRecord>>,
    permissions: Option<seq<PermissionEntry>>)
}
