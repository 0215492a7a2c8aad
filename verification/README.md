# B2B organization details: verified model of the assignment logic

This project models the pure list and arithmetic logic of the organization
details page of a B2B commerce admin panel. An organization, or one of its
cost centers, has collections, payment terms, price tables, sellers, custom
fields and permission flags assigned to it. The page loads these from the
GraphQL service, lets the admin edit them, and saves them back. The model
covers:

- the collections tab's add and remove bulk actions on the assigned list,
  and the "already assigned" marks of the catalog tables;
- the catalog pager: `{ page, pageSize }`, its prev / next / rows-change
  transitions with the refetch each one issues, and the "from-to of total"
  window;
- the choice of target (organization or cost center), and the collections
  list derived for it from the fetched organization;
- the custom-field merge (lodash `unionBy` keyed on `name`);
- the save button: the name guard, the organization and cost-center update
  payloads with their field renames, the `salesChannel` `''` to `null` rule,
  and the permissions round trip;
- the target dropdown's options.

Everything is a pure function over immutable datatypes. The page's React state
cells become fields of `OrganizationForm.FormState`, and each effect becomes a
function from the old state and the fetched data to the new state. JavaScript
objects that the code inspects by key are modelled as maps. The selected-target
object is `map<string, string>`, so `Object.keys(x).length` is the map's size.
A field the service may leave `null` is an `Optional.Option`.

One module per component, one file per module: `Optional`, `Seqs` (filter and
subsequence), `Text` (`trim`), `Items` (records and renames), `AssignmentList`,
`CatalogPager`, `FieldMerge`, `Permissions`, `Organization` (the fetched
record), `Reconciler`, `OrganizationForm`, `SaveAction`, `Dropdown` and
`TabWiring`.

Where the code does something a reader might not expect, the model follows the
code:

- `handleAddCollections` checks each selected row only against the list as it
  was before the click. Two selected rows with the same new id are therefore
  both appended. Duplicate-freedom of the result needs distinct selected ids
  (`AssignmentList.AddKeepsUniqueIds`).
- The catalog marks a collection as assigned by matching its name, not its id.
  So the mark and the add action's dedupe can disagree when two collections
  share a name.
- `unionBy` also dedupes inside the organization's own fields. The first
  occurrence of a name wins, whether it comes from the organization's fields
  or from the defaults.
- Before the catalog has been fetched its total is `undefined`. Then
  `undefined < n` is false, so the window's last item is `page * pageSize` while
  the total shown is 0.
- The page treats a cost center whose id equals the organization's id as the
  organization (`Reconciler.OrganizationViewIff`).
- A cost center's collections come from the first entry of the fetched
  `costCentersObj` list with the chosen id. A chosen id with no entry gives
  an empty list, not an error.
- `handleUpdateCostCenter` reads `costCenterDetails?.addresses.sort(...)`. The optional chain guards only a missing answer, so an answer without an `addresses` list throws and nothing is sent.
- Nothing stops "next" from moving past the last page. Such a window starts
  after the total.

## Model

| member | source | states |
|---|---|---|
| `Text.Trim` | react/admin/OrganizationDetails.tsx:220 | `trim` gives the slice of the input between a blank leading stretch and a blank trailing stretch; when non-empty, that slice neither starts nor ends with whitespace |
| `Text.TrimEmptyIffBlank` | react/admin/OrganizationDetails.tsx:220 | `name.trim().length === 0` holds exactly when every character of the name is ECMAScript whitespace or a line terminator |
| `Items.LoadCollections` | react/admin/OrganizationDetails.tsx:283-289 | the load rename: the result has the input's length and each element keeps the name and carries the service's `id` as `collectionId`; the same rename is used for the cost center's list (:297-303) and the catalog page (OrganizationDetailsCollections.tsx:147-150) |
| `Items.SaveCollections` | react/admin/OrganizationDetails.tsx:228-230 | the save rename: the result has the input's length and each element keeps the name and carries `collectionId` as `id`; the cost-center save uses the same rename (:178-180) |
| `Items.LoadPaymentTerms` | react/admin/OrganizationDetails.tsx:405-410 | the result has the input's length and each element keeps the name and carries the service's `id` as `paymentTermId` |
| `Items.SavePaymentTerms` | react/admin/OrganizationDetails.tsx:232-234 | the result has the input's length and each element keeps the name and carries `paymentTermId` as `id` |
| `Items.LoadSellers` | react/admin/OrganizationDetails.tsx:419-426 | the result has the input's length and each element keeps the name and carries the service's `id` as `sellerId` |
| `Items.SaveSellers` | react/admin/OrganizationDetails.tsx:246-249 | the result has the input's length and each element keeps the name and carries `sellerId` as `id` |
| `Items.CollectionsRoundTrip` | react/admin/OrganizationDetails.tsx:228-230 | the save rename `collectionId`→`id` undoes the load rename, giving back the fetched `{name, id}` list |
| `Items.CollectionsRoundTripBack` | react/admin/OrganizationDetails.tsx:283-289 | the load rename `id`→`collectionId` undoes the save rename |
| `Items.PaymentTermsRoundTrip` | react/admin/OrganizationDetails.tsx:232-234 | the save rename `paymentTermId`→`id` undoes the load rename |
| `Items.PaymentTermsRoundTripBack` | react/admin/OrganizationDetails.tsx:405-410 | the load rename `id`→`paymentTermId` undoes the save rename |
| `Items.SellersRoundTrip` | react/admin/OrganizationDetails.tsx:246-249 | the save rename `sellerId`→`id` undoes the load rename |
| `Items.SellersRoundTripBack` | react/admin/OrganizationDetails.tsx:419-426 | the load rename `id`→`sellerId` undoes the save rename |
| `AssignmentList.RemoveCollections` | react/admin/OrganizationDetails/OrganizationDetailsCollections.tsx:194-207 | the result holds exactly the assigned collections whose id is not among the selected rows' ids, with their multiplicities, as a subsequence of the state; an empty selection changes nothing |
| `AssignmentList.AddCollections` | react/admin/OrganizationDetails/OrganizationDetailsCollections.tsx:256-271 | the state is kept as a prefix; what follows is exactly the selected rows whose id the state lacked, each as many times as it was selected, as a subsequence of the selection; afterwards every selected id is present |
| `AssignmentList.AddIdempotent` | react/admin/OrganizationDetails/OrganizationDetailsCollections.tsx:260-270 | adding the same selection twice gives the same list as adding it once |
| `AssignmentList.AddKeepsUniqueIds` | react/admin/OrganizationDetails/OrganizationDetailsCollections.tsx:260-270 | a list without duplicate ids stays so when the selected rows have distinct ids |
| `AssignmentList.RemoveAfterAdd` | react/admin/OrganizationDetails/OrganizationDetailsCollections.tsx:202-204 | removing a selection after adding it equals removing it from the original list |
| `AssignmentList.RemoveUndoesAdd` | react/admin/OrganizationDetails/OrganizationDetailsCollections.tsx:202-204 | when none of the selected ids was assigned, removing the selection after adding it restores the original list |
| `AssignmentList.RemoveIdempotent` | react/admin/OrganizationDetails/OrganizationDetailsCollections.tsx:202-204 | removing the same selection twice equals removing it once |
| `AssignmentList.IsCollectionAssigned` | react/admin/OrganizationDetails.tsx:333-335 | a catalog collection is marked assigned exactly when some assigned collection has its name |
| `AssignmentList.AddedRowsShowAssigned` | react/admin/OrganizationDetails.tsx:333-335 | after an add, every selected row is marked assigned in the catalog, provided assigned collections with a selected id carry that row's name |
| `AssignmentList.RemoveOnlyUnmarks` | react/admin/OrganizationDetails.tsx:333-335 | a remove never marks a catalog row assigned that was not marked before |
| `AssignmentList.CatalogRows` | react/admin/OrganizationDetails/OrganizationDetailsCollections.tsx:142-153 | a non-empty fetched page replaces the catalog rows with its items renamed to `collectionId`; an absent or empty page leaves the rows as they were |
| `CatalogPager.PrevClick` | react/admin/OrganizationDetails/OrganizationDetailsCollections.tsx:209-223 | on page 1 nothing changes and nothing is refetched; otherwise the page goes down by one, the size is kept, and the new state is refetched |
| `CatalogPager.NextClick` | react/admin/OrganizationDetails/OrganizationDetailsCollections.tsx:225-237 | the page goes up by one, the size is kept, and the new state is refetched |
| `CatalogPager.RowsChange` | react/admin/OrganizationDetails/OrganizationDetailsCollections.tsx:239-253 | the state becomes page 1 with the chosen size and is refetched |
| `CatalogPager.PageStaysPositive` | react/admin/OrganizationDetails/OrganizationDetailsCollections.tsx:209-237 | from any state on page 1 or later, every sequence of transitions stays on page 1 or later |
| `CatalogPager.PageSizeIsLastRowsChange` | react/admin/OrganizationDetails/OrganizationDetailsCollections.tsx:209-253 | after any sequence of transitions the size is the last rows-change value, or the starting size if there was none |
| `CatalogPager.ReachableStatesAreValid` | react/admin/OrganizationDetails/OrganizationDetailsCollections.tsx:63-66 | from the initial `{1, 25}`, with sizes from the offered options, the page is at least 1 and the size is 25 or 50 |
| `CatalogPager.NextThenPrev` | react/admin/OrganizationDetails/OrganizationDetailsCollections.tsx:209-237 | on page 1 or later, next then prev returns to the same state |
| `CatalogPager.PrevThenNext` | react/admin/OrganizationDetails/OrganizationDetailsCollections.tsx:209-237 | off page 1, prev then next returns to the same state |
| `CatalogPager.DisplayWindow` | react/admin/OrganizationDetails/OrganizationDetailsCollections.tsx:327-340 | the first item is `(page-1)*pageSize + 1`; the last item is at most the page end and at most the total, and equals one of them; with no total the last item is the page end and the total shown is 0 |
| `CatalogPager.WindowSpan` | react/admin/OrganizationDetails/OrganizationDetailsCollections.tsx:327-337 | a window spans at most one page, and exactly one page while the total reaches the page end |
| `CatalogPager.NextWindowFollows` | react/admin/OrganizationDetails/OrganizationDetailsCollections.tsx:327-337 | after next, the window starts right after the current full window ends |
| `CatalogPager.RowsChangeWindow` | react/admin/OrganizationDetails/OrganizationDetailsCollections.tsx:327-337 | after a rows change the window runs from 1 to the smaller of the total and the new size |
| `CatalogPager.EmptyCatalogWindow` | react/admin/OrganizationDetails/OrganizationDetailsCollections.tsx:327-340 | an empty catalog on page 1 shows items 1 to 0 |
| `CatalogPager.ThirdPageWindow` | react/admin/OrganizationDetails/OrganizationDetailsCollections.tsx:327-337 | page 3 of size 25 with total 60 shows items 51 to 60 |
| `FieldMerge.JoinById` | react/admin/OrganizationDetails.tsx:64-70 | each name appears once; the names are those of both inputs; for each name the organization's first entry is kept and no default of that name survives; the order is the organization's deduplicated fields, then the defaults with unseen names, in their order |
| `FieldMerge.EntityFieldsArePrefix` | react/admin/OrganizationDetails.tsx:69 | organization fields with distinct names come out unchanged as the merge's prefix |
| `FieldMerge.JoinByIdExample` | react/admin/OrganizationDetails.tsx:69 | merging `[x:1]` with defaults `[x:2, y:3]` gives `[x:1, y:3]` |
| `Permissions.PermissionOptions` | react/admin/OrganizationDetails.tsx:128-139 | the options are exactly the fetched entries other than `__typename`, as text/value pairs |
| `Permissions.PermissionsRecord` | react/admin/OrganizationDetails.tsx:250-254 | the record's keys are exactly the option texts |
| `Permissions.PermissionsRecordLastWins` | react/admin/OrganizationDetails.tsx:250-254 | each key of the record holds the value of the last option with that text |
| `Permissions.PermissionsRoundTrip` | react/admin/OrganizationDetails.tsx:128-139 | building options from the fetched object and reducing them back gives the object without `__typename`: same keys, same values |
| `Reconciler.ChooseTarget` | react/admin/OrganizationDetails/OrganizationDetailsCollections.tsx:286-288 | choosing a target sets `id` and keeps every other key of the selection object |
| `Reconciler.IsOrganizationView` | react/admin/OrganizationDetails.tsx:114 | an object with no keys is organization view; an object with an `id` is organization view exactly when that id is the route's; an object with keys but no `id` is not |
| `Reconciler.OrganizationViewIff` | react/admin/OrganizationDetails.tsx:114 | with no selection object keys the view is the organization's; after a choice it is exactly when the chosen id equals the route's organization id |
| `Reconciler.FindCostCenter` | react/admin/OrganizationDetails.tsx:292-295 | returns the first cost center whose id is the selected id, or none when no cost center has it or nothing is selected |
| `Reconciler.MatchedCollections` | react/admin/OrganizationDetails.tsx:292-295 | the collections of the first cost center whose id is the selected id, `[]` for a missing list, and `[]` when no cost center has that id |
| `Reconciler.ExtractCollections` | react/admin/OrganizationDetails.tsx:276-306 | without an organization both lists are empty; otherwise the organization list renames back to the fetched collections (same length and order), and the cost-center list renames back to the matched cost center's collections |
| `Reconciler.ActiveCollections` | react/admin/OrganizationDetails.tsx:403-404 | without an organization the list is empty; in organization view it renames back to the organization's collections, otherwise to the matched cost center's |
| `Reconciler.ActiveCollectionsSource` | react/admin/OrganizationDetails.tsx:403-404 | the shown collections come from the organization in organization view and otherwise from the matched cost center, and are empty when no cost center matches |
| `Reconciler.SwitchBackRestores` | react/admin/OrganizationDetails.tsx:403-404 | choosing a cost center and then the organization again shows the same list as before any choice |
| `OrganizationForm.OnOrganizationData` | react/admin/OrganizationDetails.tsx:400-427 | without data the form is unchanged; otherwise name and status are the fetched ones, trade name, price tables and sales channel are the fetched ones with `''` or `[]` for a missing value, the collections are the active list, payment terms and sellers rename back to the fetched ones, and custom fields, permissions and the error are untouched |
| `OrganizationForm.OnCostCenterData` | react/admin/OrganizationDetails.tsx:429-434 | only the collections list changes, and only when the cost-center answer carries its organization |
| `OrganizationForm.OnPermissionsFetched` | react/admin/OrganizationDetails.tsx:123-140 | without a permissions object the form is unchanged; otherwise the options are exactly the object's entries other than `__typename`; nothing else in the form changes |
| `OrganizationForm.OnCustomFields` | react/admin/OrganizationDetails.tsx:436-442 | only the custom fields change; they have distinct names, the names of the organization's fields and the defaults; the organization's first entry for a name is kept and is the one shown for that name; the order is the organization's deduplicated fields, then the defaults with unseen names |
| `OrganizationForm.IsPriceTableAssigned` | react/admin/OrganizationDetails.tsx:316 | a price table is marked assigned exactly when its id is in the form's list |
| `OrganizationForm.IsPaymentTermAssigned` | react/admin/OrganizationDetails.tsx:351-353 | a payment term is marked assigned exactly when some assigned payment term has its name |
| `OrganizationForm.IsSellerAssigned` | react/admin/OrganizationDetails.tsx:369-371 | a seller is marked assigned exactly when some assigned seller has its id |
| `SaveAction.NameMissing` | react/admin/OrganizationDetails.tsx:220 | a name is refused exactly when every character is whitespace, the empty name included |
| `SaveAction.SalesChannelValue` | react/admin/OrganizationDetails.tsx:245 | the sales channel is sent as `null` exactly when it is `''`, and otherwise as it is |
| `SaveAction.HandleUpdateOrganization` | react/admin/OrganizationDetails.tsx:217-256 | a blank name sets the name-required error and sends nothing; any other name clears the error and sends the form, with lists that rename back to the form's lists and permissions whose keys are the option texts, each holding the value of the last option with that text |
| `SaveAction.HandleUpdateCostCenter` | react/admin/OrganizationDetails.tsx:175-198 | sends an update exactly when there is no fetched answer or the answer lists addresses; the update is for the selected id, with collections that rename back to the form's list and the answer's name, phone number and business document; the error shown is unchanged |
| `SaveAction.ManageOrgCostCenterUpdate` | react/admin/OrganizationDetails.tsx:165-173 | organization view saves the organization; any other view saves the cost center |
| `SaveAction.DispatchFollowsTarget` | react/admin/OrganizationDetails.tsx:165-173 | a cost-center update is issued exactly outside organization view when the answer, if any, lists addresses; in organization view nothing is sent exactly when the name is blank |
| `SaveAction.LoadThenSaveOrganization` | react/admin/OrganizationDetails.tsx:228-254 | loading an organization and saving it at once sends back the fetched lists, trade name and status, with missing lists as empty ones and a missing or empty sales channel as `null` |
| `SaveAction.LoadThenSaveCostCenter` | react/admin/OrganizationDetails.tsx:178-192 | loading a cost center's view and saving it at once sends back that cost center's fetched collections, unless the handler throws on a missing addresses list |
| `SaveAction.AssignedMarksMatchPayload` | react/admin/OrganizationDetails.tsx:308-385 | a catalog row is marked assigned exactly when the organization update sends it: sellers and price tables by id, collections and payment terms by name |
| `Dropdown.OrganizationOptions` | react/admin/OrganizationDetails/OrganizationDetailsCollections.tsx:130-140 | a fetched organization becomes the single option, showing its name with its id as the value; without one the options stay as they were |
| `Dropdown.CostCenterOptions` | react/admin/OrganizationDetails/OrganizationDetailsCollections.tsx:155-169 | one option per cost center, in order, showing `name + " - CC"` with the id as the value; an absent or empty answer keeps the previous options |
| `Dropdown.CombinedOptions` | react/admin/OrganizationDetails/OrganizationDetailsCollections.tsx:171-173 | the combined list is the organization's options followed by the cost centers' options, and holds nothing else |
| `Dropdown.CombinedOptionsShape` | react/admin/OrganizationDetails/OrganizationDetailsCollections.tsx:171-173 | the dropdown lists the organization first, then every cost center in fetched order |
| `TabWiring.OnTargetChangeAsWritten` | react/admin/OrganizationDetails/OrganizationDetailsCollections.tsx:68 | as written, a dropdown choice sets only the tab's own selection object; the page's object is untouched |
| `TabWiring.OnTargetChange` | react/admin/OrganizationDetails/OrganizationDetailsCollections.tsx:286-288 | with the intended wiring, a choice sets the page's selection object and the tab shows that object |
| `TabWiring.AsWrittenPageNeverChanges` | react/admin/OrganizationDetails/OrganizationDetailsCollections.tsx:39-47 | as written, no sequence of choices changes the page's selection object |
| `TabWiring.AsWrittenAlwaysOrganizationView` | react/admin/OrganizationDetails.tsx:114 | as written, the page stays in organization view and never issues a cost-center update |
| `TabWiring.AsWrittenCounterexample` | react/admin/OrganizationDetails/OrganizationDetailsCollections.tsx:286-288 | as written, choosing cost center `cc-1` on organization `org-1` still saves the organization |
| `TabWiring.RunFollowsLastChoice` | react/admin/OrganizationDetails.tsx:114 | with the intended wiring the page follows the last choice, and is in organization view exactly when that choice is the organization |
| `TabWiring.CorrectedCounterpart` | react/admin/OrganizationDetails.tsx:165-173 | with the intended wiring, choosing `cc-1` on `org-1` saves cost center `cc-1` |
| `TabWiring.PickingAnOptionSelectsItsTarget` | react/admin/OrganizationDetails/OrganizationDetailsCollections.tsx:281-288 | picking the first entry keeps organization view; picking a cost center's entry, when its id differs from the organization's, selects that cost center and shows its recorded collections |

## Findings

| source | as written | input that shows it | evidently intended | confidence | as-written member | corrected member |
|---|---|---|---|---|---|---|
| react/admin/OrganizationDetails/OrganizationDetailsCollections.tsx:39-68 | The page passes `orgCostCenterState` and `setOrgCostCenterState` to the collections tab. The tab reads neither and keeps a selection object of its own, so a dropdown choice never reaches the page. The page stays in organization view, and the cost-center save path at react/admin/OrganizationDetails.tsx:165-215 can never run. | organization `org-1`, choose cost center `cc-1`, press save | the choice sets the page's selection object, the tab shows the cost center's collections, and save updates `cc-1` | not executed; high that the choice stays local to the tab, as the tab's props list shows | `TabWiring.AsWrittenCounterexample` | `TabWiring.CorrectedCounterpart` |

## Left out

- react/admin/utils/organizationBulkAction.ts: it only packs the callbacks and translated labels into the table's bulk-action descriptor. There is no logic in it.
- GraphQL queries, mutations and `refetch`: they are network calls. Fetched data enters as parameters. A mutation becomes the `SaveAction.UpdateRequest` it would send, and a refetch becomes the `CatalogPager.Transition.refetch` variables.
- The success and failure of a save, toasts, `console` output and loading flags: these are side effects and asynchronous plumbing.
- React effect scheduling and dependency arrays, including the unusual dependency expression at react/admin/OrganizationDetails.tsx:443-448. Each effect is a function the caller applies when its inputs change.
- JSX rendering, tabs, `HashRouter`/`useHashRouter` tab persistence and the design-system widgets: these are UI framework behaviour.
- `formatMessage`: the name-required message is the tag `NameRequired`, and the other texts are not modelled.
- Addresses in `handleUpdateCostCenter` (react/admin/OrganizationDetails.tsx:182-191): it sorts them with a one-argument comparator, whose result depends on the engine, and deletes `checked` in place. The model keeps only whether a fetched answer has an `addresses` list. Without one, `addresses.sort` throws a TypeError and nothing is sent (`SaveAction.CanSendCostCenter`). The cost-center payload carries the collections rename and passes name, phone number and business document through; the addresses it would send are not modelled.
- The other tabs' own components (price tables, payment terms, sellers, settings) and their editing actions are not part of this model. Only the marks and payload fields this page computes for them are modelled.
- `const { selectedRows = [] } = rowParams`: the caller passes the empty sequence for a missing selection. Both list operations leave the list unchanged on it.
- `+value` in `handleRowsChange`: the model receives the chosen size already converted to an integer.
- JavaScript numbers are unbounded integers here. Page arithmetic never comes near 2^53, and floating point is not modelled.
- The value of the `__typename` entry is typed as a boolean like the other entries. It is filtered out before use.
- Discarding a stale page response after a target switch: the code has no such logic, and the data client handles responses.
- Permissions.PermissionOptions: states which options appear, not that they keep the order of `Object.entries`.
- OrganizationForm.OnPermissionsFetched: states which options appear, not their order.
