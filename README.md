# Construction dashboard core, modelled in Dafny

This project models the data logic of the constructora side of a
construction-management web app and proves properties of it. A
constructora (a construction company, the tenant) has obras (building
sites), residentes (site engineers) and subscription payments. The model
covers:

- **Dashboard** (`dashboard.dfy`). It maps the backend rows of the tenant,
  its obras, residentes, payments and plan catalogue to view entities. It
  adds up the spend rows of the obras in progress. It derives the summary
  cards: active counts, total budget, spent percentage and the colour of
  the spend bar. It also records a sample payment.
- **Residentes tab** (`residentes.dfy`). It shows each residente's current
  obra, taken from the last open assignment row. It creates and deletes
  residentes. It reassigns a residente: list the residente's assignments,
  close each open one, create a new open one, then patch the local lists.
- **Obras tab** (`obras.dfy`). It keeps the tenant's obras and names each
  one's responsable from the active assignments. It follows deletes and
  the two dialogs' callbacks.
- **Obra dialogs** (`edit_obra.dfy`, `create_obra.dfy`). They build the
  payload from the form, map the backend's answer, and tell the parent
  what happened, in order.
- **Reports tab** (`reports.dfy`). It keeps the recipient list and the
  local copy of the reports the edit dialog changes.

Shared pieces:

- `wire.dfy`: JavaScript's `||`, `??` and `Number(x || 0)` on optional
  fields.
- `text.dfy`: `trim`, `split(' ')`, `join(' ')`, the display-name rule and
  ASCII lower-casing.
- `lists.dfy`: `filter`, `map`, sums, `find`, the dictionaries a `forEach`
  loop fills (the last row written wins), and delete-by-id and
  replace-by-id.
- `types.dfy`: the view entities and the backend row shapes.
- `mappers.dfy`: the obra mapping that four components repeat.
- `assignments.dfy`: the assignment rows, the two "active" resolvers, and
  the backend assignment table as an in-memory store.

The backend, the clock and the random generator are parameters:

- Each request's outcome is a `Response<T>`: either the parsed body or an
  error.
- `now` stands for `new Date().toISOString()`. `monthAgo` stands for the
  date 30 days earlier.
- Generated ids and payment references are arguments.
- In the reassignment, `failAt` is the number of the backend call that
  throws, if any. The list call is 0, each update is the next number, and
  the create comes last.

The dashboard, the residentes tab, the obras tab and the reports tab are
classes. Their fields are the `useState` values the modelled handlers
change, and each such handler is a method whose `ensures` gives the whole
new state. The two obra dialogs are modelled as functions of their form
and the backend's answer, not as classes. The dashboard's pay form
(`payMethod`, `payAmount`) is passed to `Pay` as arguments.

Where the code differs from what one would expect, the model follows the
code:

- The total budget adds up every obra, whatever its status. The spend
  adds up only the obras in progress.
- A spending threshold of 0 counts as unset, because the test is
  `if (max && ...)`.
- `trim` does not collapse inner spaces. A full name is split at its
  first space only.
- With a negative maximum, zero spend already turns the bar red.
- A reassignment that fails part-way leaves the rows it already closed
  closed.
- The residentes tab maps with `??` where the dashboard uses `||`. An
  empty `created_at` is therefore kept by the tab and replaced by `now` on
  the dashboard.

## Model

| member | source | states |
|---|---|---|
| Wire.NonEmpty | src/components/constructora/EditObraDialog.tsx:43-44 | the empty string is sent as null, any other text as itself |
| Wire.Amount | src/pages/ConstructoraDashboard.tsx:131 | `Number(x \|\| 0)`: a missing or empty amount is 0, a numeric one keeps its value |
| Wire.OptionalAmount | src/pages/ConstructoraDashboard.tsx:119-120 | a threshold is undefined exactly when the field is missing, and otherwise is the field's number |
| Text.Trim | src/pages/ConstructoraDashboard.tsx:139 | the result has no whitespace at either end, is a contiguous piece of the input with only whitespace cut off, and is the input itself when that was already trimmed |
| Text.TrimIdempotent | src/pages/ConstructoraDashboard.tsx:139 | trimming twice is trimming once |
| Text.Split | src/components/constructora/ResidentesTab.tsx:120 | splitting gives at least one piece, and no piece contains the separator |
| Text.JoinSplit | src/components/constructora/ResidentesTab.tsx:120-121 | joining the pieces of a split with the same separator gives back the text |
| Text.SplitJoin | src/components/constructora/ResidentesTab.tsx:120-121 | splitting the join of separator-free pieces gives back the pieces |
| Text.DisplayName | src/pages/ConstructoraDashboard.tsx:139 | the name is trimmed; it is empty with neither part, the trimmed part with one, and the trimmed "nombre apellidos" with both |
| Text.SplitName | src/components/constructora/ResidentesTab.tsx:120-121 | the first name, taken from the trimmed text split at spaces, holds no space |
| Text.SplitNameShape | src/components/constructora/ResidentesTab.tsx:120-121 | nombre holds no space, and the trimmed name is nombre alone or nombre, a space, then apellidos |
| Text.NameRoundTrip | src/components/constructora/ResidentesTab.tsx:120-121 | splitting a name into nombre and apellidos and joining them with the display-name rule gives the trimmed name back |
| Text.LowerChar | src/pages/ConstructoraDashboard.tsx:104 | an ASCII capital becomes the matching small letter; every other character is kept |
| Text.ToLower | src/pages/ConstructoraDashboard.tsx:104 | same length, every ASCII capital lower-cased, no ASCII capital left; other characters kept |
| Text.ToLowerKeepsLowerCase | src/pages/ConstructoraDashboard.tsx:104 | text without ASCII capitals is unchanged |
| Text.ToLowerIdempotent | src/pages/ConstructoraDashboard.tsx:104 | lower-casing twice is lower-casing once |
| Types.PaymentCastsKeepText | src/pages/ConstructoraDashboard.tsx:154-155 | the unchecked status and method casts keep the backend's text, whether or not it is a listed value |
| Lists.Filter | src/pages/ConstructoraDashboard.tsx:211 | a filter never yields more elements than it is given |
| Lists.FilterMembership | src/pages/ConstructoraDashboard.tsx:192 | an element is in the filtered list exactly when it is in the list and passes |
| Lists.FilterPositions | src/components/residente/ReportsTab.tsx:151 | one position per kept element |
| Lists.FilterPositionsSound | src/components/residente/ReportsTab.tsx:151 | each kept element is the element at its position, and the positions strictly increase, so order is kept |
| Lists.FilterConcat | src/pages/ConstructoraDashboard.tsx:200-201 | filtering a concatenation is concatenating the filtered parts |
| Lists.FilterKeepsAll | src/pages/ConstructoraDashboard.tsx:211 | when every element passes, the filter is the identity |
| Lists.FilterDropsAll | src/pages/ConstructoraDashboard.tsx:192-193 | when no element passes, the filter is empty |
| Lists.FilterFull | src/pages/ConstructoraDashboard.tsx:211-212 | the filter keeps every element exactly when every element passes |
| Lists.FilterDropsOne | src/components/residente/ReportsTab.tsx:151 | when only one element fails, the filter removes just that one |
| Lists.Count | src/pages/ConstructoraDashboard.tsx:211 | `filter(p).length` is at most the length |
| Lists.Map | src/pages/ConstructoraDashboard.tsx:124 | same length, and element k is f of element k |
| Lists.SumConcat | src/pages/ConstructoraDashboard.tsx:200-202 | the sum of a flattened list is the sum of the parts' sums |
| Lists.SumNonNegative | src/pages/ConstructoraDashboard.tsx:213 | summing non-negative terms gives a non-negative total |
| Lists.SumFilterSplit | src/pages/ConstructoraDashboard.tsx:213 | a sum over a filter splits into the sums over two disjoint filters that cover it |
| Lists.FirstIndex | src/components/constructora/ResidentesTab.tsx:173 | `find` stops at the first element that passes; no element before it passes |
| Lists.IndexLastWins | src/components/constructora/ResidentesTab.tsx:102-107 | the `forEach` dictionary has a key exactly when some kept row has it, and the value there comes from the last such row |
| Lists.IndexKeys | src/components/constructora/ResidentesTab.tsx:102-107 | the dictionary has a key exactly when some kept row has that key |
| Lists.IndexValues | src/components/constructora/ResidentesTab.tsx:102-107 | the value under a key comes from the last kept row with that key |
| Lists.IndexAppend | src/components/constructora/ResidentesTab.tsx:200 | one more kept row overwrites its key and nothing else |
| Lists.BuildIndex | src/components/constructora/ResidentesTab.tsx:103-107 | the `forEach` loop builds exactly the last-row-wins dictionary |
| Lists.FilterKeepsUnique | src/pages/ConstructoraDashboard.tsx:192 | filtering a list with unique ids keeps the ids unique |
| Lists.IdsOfUniqueHaveNoDuplicates | src/pages/ConstructoraDashboard.tsx:192 | the ids of a list with unique ids have no duplicates |
| Lists.RemoveById | src/components/constructora/ResidentesTab.tsx:164 | an element is kept exactly when it was in the list and does not have that id |
| Lists.RemoveByIdExactlyOne | src/components/constructora/ObrasTab.tsx:105 | with unique ids, deleting an element's id drops exactly that position |
| Lists.RemoveByIdAbsent | src/components/constructora/ObrasTab.tsx:105 | deleting an id nobody has changes nothing |
| Lists.ReplaceById | src/components/constructora/ObrasTab.tsx:176 | same length; every position keeps its id, and each element with the new element's id becomes that element while the others stay, as `map` does even for repeated ids |
| Lists.ReplaceByIdExactlyOne | src/components/constructora/ObrasTab.tsx:176 | with unique ids, replacing changes exactly the element at that position |
| Lists.ReplaceByIdAbsent | src/components/constructora/ObrasTab.tsx:176 | replacing an id nobody has changes nothing |
| Lists.ReplaceByIdIdempotent | src/components/residente/ReportsTab.tsx:66 | replacing twice with the same value is replacing once |
| Lists.ReplaceByIdKeepsUnique | src/components/residente/ReportsTab.tsx:66 | replacing keeps the ids unique |
| Mappers.ObraStatusOf | src/pages/ConstructoraDashboard.tsx:130 | an obra is in progress exactly when active, and paused exactly when not |
| Mappers.ObraFromRow | src/pages/ConstructoraDashboard.tsx:124-135 | id, name and tenant are copied; address, dates and description through `\|\| ''`; status follows `is_active`; the budget is `Number(presupuesto \|\| 0)`, 0 exactly for a missing, empty or zero amount; the given responsable is kept |
| Mappers.ResidenteStatusOf | src/pages/ConstructoraDashboard.tsx:146 | a residente is active exactly when `is_active` |
| Mappers.FormBudget | src/components/constructora/EditObraDialog.tsx:45 | `budget \|\| 0`: 0 exactly for NaN or 0, the number otherwise |
| Mappers.FieldsOf | src/components/constructora/EditObraDialog.tsx:39-46 | texts are sent as typed, empty dates as null, and the budget through `budget \|\| 0`: the typed number, or 0 for NaN |
| Assignments.ActiveByResidente | src/components/constructora/ResidentesTab.tsx:102-107 | a residente has an entry exactly when one of its rows is open |
| Assignments.ActiveByResidenteIsLastOpen | src/components/constructora/ResidentesTab.tsx:102-107 | a residente has a current obra exactly when one of its rows is open, and it is the obra of its last open row |
| Assignments.ActiveByObra | src/components/constructora/ObrasTab.tsx:65-70 | an obra has an entry exactly when one of its rows is open |
| Assignments.ActiveByObraIsLastOpen | src/components/constructora/ObrasTab.tsx:65-70 | an obra has an active residente exactly when one of its rows is open, and it is the residente of its last open row |
| Assignments.Closed | src/components/constructora/ResidentesTab.tsx:193 | the closed row keeps its id, residente, obra and start, is no longer open and ends at `now` |
| Assignments.CloseOpenOf | src/components/constructora/ResidentesTab.tsx:191-195 | rows of other residentes are untouched, ids are kept, and no row of the residente stays open |
| Assignments.OnlyNewRowOpen | src/components/constructora/ResidentesTab.tsx:190-197 | after closing and creating, the created row is the residente's only open row |
| Assignments.AssignmentStore.ListOf | src/components/constructora/ResidentesTab.tsx:190 | the list call returns the residente's rows in table order |
| Assignments.AssignmentStore.Update | src/components/constructora/ResidentesTab.tsx:193 | only the row with that id gets the new `is_active` and `fecha_fin`; ids stay distinct |
| Assignments.AssignmentStore.Create | src/components/constructora/ResidentesTab.tsx:197 | the created row gets a fresh id and is appended; ids stay distinct |
| Dashboard.PlanName | src/pages/ConstructoraDashboard.tsx:101-108 | the plan name never holds an ASCII capital |
| Dashboard.PlanNameWithoutMatch | src/pages/ConstructoraDashboard.tsx:103-104 | with no plan of that id, the plan is "basico" |
| Dashboard.PlanNameFromFirstMatch | src/pages/ConstructoraDashboard.tsx:103-104 | the first plan with that id decides: its name lower-cased, or "basico" when it has none |
| Dashboard.MapConstructora | src/pages/ConstructoraDashboard.tsx:110-122 | the name is `nombre_empresa \|\| "Constructora"`, so never empty; rfc, e-mail, phone and address through `\|\| ''`; the plan from the catalogue; each threshold is missing exactly when its field is, and is the field's number otherwise; a present date is kept and a missing one becomes `now` |
| Dashboard.MapObra | src/pages/ConstructoraDashboard.tsx:124-135 | id, name and tenant copied; status follows `is_active`; budget is `Number(presupuesto \|\| 0)`; texts fall back to ''; no responsable |
| Dashboard.MapResidente | src/pages/ConstructoraDashboard.tsx:137-147 | display name, no obra, position "Residente", active exactly when `is_active`; e-mail and phone through `\|\| ''`; a present `created_at` kept, a missing or empty one replaced by `now` |
| Dashboard.MapPayment | src/pages/ConstructoraDashboard.tsx:149-158 | amount through `Number(x \|\| 0)`; status "pendiente" and method "tarjeta" when missing, the backend's text otherwise; concept `concepto \|\| "Suscripción"`, so never empty; date `fecha_pago \|\| now`; reference `referencia_pago \|\| ''` |
| Dashboard.DemoPayments | src/pages/ConstructoraDashboard.tsx:161-184 | two sample payments of 999 for the tenant, with different ids |
| Dashboard.MapPaymentsWithDemo | src/pages/ConstructoraDashboard.tsx:149-184 | the rows are mapped one for one, or the sample payments are shown when there are none |
| Dashboard.ActiveObras | src/pages/ConstructoraDashboard.tsx:211 | at most the number of obras, and equal to it exactly when every obra is in progress |
| Dashboard.ActiveResidentes | src/pages/ConstructoraDashboard.tsx:212 | at most the number of residentes, and equal to it exactly when every one is active |
| Dashboard.TotalBudget | src/pages/ConstructoraDashboard.tsx:213 | the total budget is the in-progress budget plus the budget of all other obras, with no status filter |
| Dashboard.TotalBudgetNonNegative | src/pages/ConstructoraDashboard.tsx:213 | non-negative budgets give a non-negative total |
| Dashboard.ActiveObraIds | src/pages/ConstructoraDashboard.tsx:192 | an id is listed exactly when some obra in progress has it |
| Dashboard.GastosOfObras | src/pages/ConstructoraDashboard.tsx:193-201 | the flattened per-obra lists hold exactly the spend rows of the listed obras |
| Dashboard.TotalSpent | src/pages/ConstructoraDashboard.tsx:191-203 | the spend of the obras in progress is never negative when no spend row is |
| Dashboard.SpentOverIds | src/pages/ConstructoraDashboard.tsx:193-202 | one request per distinct obra id, flattened and summed, counts each spend row of those obras exactly once |
| Dashboard.TotalSpentIsActiveSpend | src/pages/ConstructoraDashboard.tsx:191-203 | with unique obra ids, the accumulated spend is the sum over exactly the spend rows of obras in progress |
| Dashboard.NoActiveObraSpendsNothing | src/pages/ConstructoraDashboard.tsx:204-206 | with no obra in progress, the spend is 0 |
| Dashboard.SpentPercent | src/pages/ConstructoraDashboard.tsx:214 | the percentage lies in [0, 100]; it is 0 without a positive budget, spend over budget times 100 in between, and 100 from the budget on |
| Dashboard.SpentPercentExample | src/pages/ConstructoraDashboard.tsx:214 | 450 000 spent of 3 000 000 is 15 % |
| Dashboard.ProgressColor | src/pages/ConstructoraDashboard.tsx:215-221 | red exactly from 90 % of a set maximum; amber exactly from a set minimum when not red; green exactly when neither |
| Dashboard.NoThresholdsIsSuccess | src/pages/ConstructoraDashboard.tsx:215-221 | without thresholds (missing or 0) the bar is green |
| Dashboard.ColorMonotone | src/pages/ConstructoraDashboard.tsx:215-221 | for any thresholds, spending more never makes the bar less severe |
| Dashboard.ZeroSpendIsSuccess | src/pages/ConstructoraDashboard.tsx:215-221 | with positive or unset thresholds, nothing spent is green |
| Dashboard.NewPayment | src/pages/ConstructoraDashboard.tsx:421-431 | the recorded payment is completed, for the chosen amount and method, and for the tenant or "demo" |
| Dashboard.SpentAfterLoad | src/pages/ConstructoraDashboard.tsx:191-206 | the spend is 0 without obras in progress, their accumulated spend when the requests succeed, and unchanged when one fails |
| Dashboard.ConstructoraDashboard.Load | src/pages/ConstructoraDashboard.tsx:89-206 | without a tenant, or when a request fails, nothing changes; otherwise every list is the mapped rows (or the sample payments) and the spend is set as above |
| Dashboard.ConstructoraDashboard.Pay | src/pages/ConstructoraDashboard.tsx:420-432 | the new payment goes first and nothing else changes |
| Residentes.TabResidente | src/components/constructora/ResidentesTab.tsx:78-88 | display name, no obra, position "Residente", active exactly when `is_active`; e-mail and phone through `?? ''`; `now` only for a missing date, a present date (even '') kept |
| Residentes.TabResidenteAgreesWithDashboard | src/components/constructora/ResidentesTab.tsx:78-88 | the tab's mapping equals the dashboard's, except that an empty `created_at` is kept here |
| Residentes.TabObra | src/components/constructora/ResidentesTab.tsx:89-100 | status follows `is_active`; no responsable |
| Residentes.TabObraAgreesWithDashboard | src/components/constructora/ResidentesTab.tsx:89-100 | with '' as the fallback, `??` and `\|\|` give the same obra |
| Residentes.AssignedObra | src/components/constructora/ResidentesTab.tsx:110 | the residente's current obra, or '' when it has none |
| Residentes.ObraName | src/components/constructora/ResidentesTab.tsx:172-174 | the first obra with that id decides: its name, or "Sin asignar" when that name is empty or no obra has the id; never empty |
| Residentes.ResidentePayload | src/components/constructora/ResidentesTab.tsx:122-131 | tenant, phone, e-mail and obra as given; an empty password is left out; active exactly when the form says so |
| Residentes.PayloadNameRoundTrip | src/components/constructora/ResidentesTab.tsx:120-126 | the payload's nombre has no space, and the display name of nombre and apellidos is the trimmed full name |
| Residentes.CreatedResidente | src/components/constructora/ResidentesTab.tsx:134-144 | the backend's id, name, tenant and status; the form's obra or ''; the form's position, or exactly "Residente" when it is empty; the answer's e-mail and phone, or the form's when the answer has none; the answer's `created_at` or `now` |
| Residentes.ClosedRowsWereOpen | src/components/constructora/ResidentesTab.tsx:191-194 | every row closed so far was an open row of the residente |
| Residentes.OpenRowWasCollected | src/components/constructora/ResidentesTab.tsx:191-194 | every open row of the residente is in its list, so the loop closes it |
| Residentes.ClosedAllOpenRows | src/components/constructora/ResidentesTab.tsx:191-195 | once the loop ends, the table is exactly `CloseOpenOf` |
| Residentes.CloseOpenAssignments | src/components/constructora/ResidentesTab.tsx:190-195 | on success every open row of the residente is closed at `now` and nothing else changes; on a failure only open rows of the residente were closed; without a failing call it succeeds |
| Residentes.CloseOpenOfIsPartlyClosed | src/components/constructora/ResidentesTab.tsx:205-208 | a failure after all the closes still leaves only that residente's open rows closed |
| Residentes.ReassignedRows | src/components/constructora/ResidentesTab.tsx:190-200 | after a reassignment the new row is the residente's only open row, and both resolvers pair residente and obra |
| Residentes.ResidentesTab.Load | src/components/constructora/ResidentesTab.tsx:70-116 | without a tenant or on a failure nothing changes; otherwise each residente shows the obra of its last open assignment |
| Residentes.ResidentesTab.Create | src/components/constructora/ResidentesTab.tsx:118-159 | without a tenant nothing is sent; otherwise the payload is sent, and the created residente goes first when the backend answers |
| Residentes.ResidentesTab.Delete | src/components/constructora/ResidentesTab.tsx:161-170 | once the backend confirms, the residente with that id is dropped |
| Residentes.ResidentesTab.OpenEdit | src/components/constructora/ResidentesTab.tsx:176-181 | the dialog opens with the residente's current obra selected, or none |
| Residentes.ResidentesTab.SelectObra | src/components/constructora/ResidentesTab.tsx:314 | the picked obra becomes the selection |
| Residentes.ResidentesTab.PatchAssignment | src/components/constructora/ResidentesTab.tsx:199-204 | only the reassigned residente moves to the new obra; the dialog closes and the selection clears |
| Residentes.ResidentesTab.SaveAssignment | src/components/constructora/ResidentesTab.tsx:183-209 | without a selection nothing happens; on success the old open rows are closed, one new open row exists and is the only open one, both resolvers agree, and the local patch is made; on a failure nothing local changes and only open rows of that residente were closed |
| Obras.ResidentesById | src/components/constructora/ObrasTab.tsx:61-64 | an id has an entry exactly when some residente row has it |
| Obras.Responsable | src/components/constructora/ObrasTab.tsx:74-76 | "Sin asignar" without an active residente id or without its row; otherwise the residente's joined name |
| Obras.ResponsableFromRows | src/components/constructora/ObrasTab.tsx:61-76 | "Sin asignar" without an open assignment or without a row for its residente; otherwise the name from the residente's last row |
| Obras.ObrasTab.Load | src/components/constructora/ObrasTab.tsx:51-96 | without a tenant or on a failure nothing changes; otherwise exactly the tenant's obras, in order, each with its responsable |
| Obras.ObrasTab.Delete | src/components/constructora/ObrasTab.tsx:103-106 | once the backend confirms, the obra with that id is dropped |
| Obras.ObrasTab.OnObraCreated | src/components/constructora/ObrasTab.tsx:167 | the created obra goes last |
| Obras.ObrasTab.OnObraUpdated | src/components/constructora/ObrasTab.tsx:175-176 | the obra with the same id is replaced in place |
| EditObra.InitialForm | src/components/constructora/EditObraDialog.tsx:25-34 | the form starts with the obra's fields and budget |
| EditObra.UpdatedObra | src/components/constructora/EditObraDialog.tsx:49-60 | the answer's id, name, status and budget, its address, dates and description through `\|\| ''`; the edited obra's tenant when the answer has none; its responsable, or exactly "Sin asignar" when that was empty |
| EditObra.Submit | src/components/constructora/EditObraDialog.tsx:36-63 | the form's fields are sent; on an answer the parent gets the updated obra and then the dialog closes; on a failure nothing more happens |
| EditObra.UnchangedEditRoundTrip | src/components/constructora/EditObraDialog.tsx:25-60 | submitting an unchanged form to a backend that stores what it is sent gives back the edited obra |
| CreateObra.CreatedObra | src/components/constructora/CreateObraDialog.tsx:42-53 | the answer's id, name and tenant; address, dates and description through `\|\| ''`; status from `is_active`; budget `Number(presupuesto \|\| 0)`; responsable "Sin asignar" |
| CreateObra.Submit | src/components/constructora/CreateObraDialog.tsx:26-56 | without a tenant nothing is sent; otherwise an active obra of the tenant is sent, and the parent is told something exactly when the backend answers |
| CreateObra.SavedCount | src/components/constructora/CreateObraDialog.tsx:54-55 | no obra is handed over exactly when no effect is an `onObraCreated` call |
| CreateObra.CreatedOnceThenClosed | src/components/constructora/CreateObraDialog.tsx:54-55 | a successful submit hands over the obra exactly once, and closing comes last |
| Reports.WithRecipient | src/components/residente/ReportsTab.tsx:134 | the address is in the list afterwards; a listed address changes nothing; a new one is appended |
| Reports.WithRecipientIdempotent | src/components/residente/ReportsTab.tsx:134 | adding an address twice is adding it once |
| Reports.WithRecipientKeepsNoDuplicates | src/components/residente/ReportsTab.tsx:134 | adding keeps the list free of duplicates |
| Reports.WithoutRecipient | src/components/residente/ReportsTab.tsx:151 | the address is gone, and every other address stays listed |
| Reports.WithoutRecipientDropsOne | src/components/residente/ReportsTab.tsx:151 | in a duplicate-free list, removing an address drops exactly its position |
| Reports.WithoutRecipientKeepsNoDuplicates | src/components/residente/ReportsTab.tsx:151 | removing keeps the list free of duplicates |
| Reports.AddThenRemove | src/components/residente/ReportsTab.tsx:132-151 | removing an address just added to a list without it gives the list back |
| Reports.ReportsTab.constructor | src/components/residente/ReportsTab.tsx:44-48 | no recipients, an empty input, the given reports, nothing selected |
| Reports.ReportsTab.SetNewEmail | src/components/residente/ReportsTab.tsx:128 | typing changes only the input |
| Reports.ReportsTab.AddEmail | src/components/residente/ReportsTab.tsx:132-136 | an empty input changes nothing; otherwise the address is added once and the input clears; the list stays duplicate-free |
| Reports.ReportsTab.RemoveEmail | src/components/residente/ReportsTab.tsx:151 | the address is removed and the list stays duplicate-free |
| Reports.ReportsTab.OpenEdit | src/components/residente/ReportsTab.tsx:59-62 | the report is selected and the dialog opens |
| Reports.ReportsTab.EditSelected | src/components/residente/ReportsTab.tsx:368 | the edit inputs change the selected report's title, type and description |
| Reports.ReportsTab.UpdateReport | src/components/residente/ReportsTab.tsx:64-69 | with nothing selected nothing happens; otherwise reports with its id are replaced and the dialog closes |

## Left out

- Network I/O, `Promise.all` concurrency and `async` ordering. Each request is a `Response` parameter, and the requests of one batch are taken to succeed or fail together.
- Values that are NaN. `Number` of a non-numeric text is left out of the wire numbers. In the dialogs, a NaN budget input is `None`.
- Toasts, dialog open flags and selections other than those of the residentes and reports edit dialogs (including the obras tab's `selectedObra`, `isEditDialogOpen` and `handleEdit`), the obra dialogs' own form state, loading indicators, and everything that is only rendering.
- Resetting the create form after a residente is created. Only the list change is modelled.
- `Math.random` and `Date.now`: the payment reference and id are arguments.
- Stale closures between renders. Each handler sees the state it is called on.
- The per-obra spend requests are one `Response`. Any one of them failing is a failed response.
- Residentes.ResidentesTab.SaveAssignment: the outcome is promised to be `Saved` only when no call fails. With `failAt` past the last call, it is `Saved` or `BackendError` without the contract saying which.
- Reports.ReportsTab.EditSelected: the three inputs (lines 368, 376 and 398) are modelled as one step that sets all three fields. Each input sets one field and keeps the others, which is this step with the other two passed unchanged. The inputs exist only while a report is selected, so with nothing selected the step changes nothing.
- Floating point. Amounts, budgets and percentages are exact reals, not IEEE doubles. Rounding at the red threshold `totalSpent >= 0.9 * max` (src/pages/ConstructoraDashboard.tsx:218) and in `(totalSpent / totalBudget) * 100` (line 214) is not modelled, so a value right at a threshold may compare differently in the browser.
- The clock inside a save. The source calls `new Date()` once per request: for each closing update, for the new assignment's start, and for a created residente's fallback date. The model passes one `now` to Residentes.CloseOpenAssignments, Residentes.ResidentesTab.SaveAssignment and Residentes.ResidentesTab.Create, so all timestamps of one save are equal.
- Text.ToLower: only the ASCII capitals A-Z are lower-cased. JavaScript's `toLowerCase` also lower-cases other capitals ("Plan Élite" gives "plan élite"), while the model keeps them ("plan Élite"). Unicode case mapping is not modelled. Dashboard.PlanName inherits this.
- The other tabs (payments, configuration, spend dialog) and the residente's own dashboard are not part of this model.
