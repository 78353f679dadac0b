# SwiftParcel frontend: a Dafny model of the parcel logic

SwiftParcel is a parcel-delivery web client written in TypeScript and React.
Senders create parcels and follow them. Receivers see what is coming and
confirm deliveries. Admins manage parcels, users and delivery personnel.
Anyone can track a parcel by its tracking id.

This project models the logic behind those pages, one Dafny module per
source file:

- the parcel vocabulary of `src/lib/parcels.ts`: the twelve statuses, the
  status colours and labels, and the delivery-cost formula;
- the badge colours of `src/lib/admin.ts`;
- the activity states, the roles and the role redirect of `src/lib/auth.ts`;
- the delivery-person record of `src/types/delivery_man.type.ts`;
- the role sidebar of `src/utils/getSidebarItems.ts`;
- the session reducer of `src/context/auth-context.tsx`;
- the page and component logic: search and status filters, counters,
  previews, request building, and the dialog state each page changes on
  its buttons.

Pure helpers become functions with contracts. A page's state becomes a
class whose methods update it. Every remote call becomes a parameter saying
how it ended (`CallResult`, `Lookup`, `CreateResponse`). Module `Common`
holds the shared vocabulary: `Option`, `Array.prototype.filter` as
`Filter`, ASCII lower- and upper-casing, substring search and decimal
digits. Module `NumberInput` holds `Number.parseInt` and
`Number.parseFloat`, which the numeric form inputs use.

No page checks a status transition against a graph of
allowed moves: the admin's update dialog accepts any offered status after
any other (`ParcelsManagement.AnyOfferedStatusAccepted`). Terminal states
are likewise not enforced, so the model enforces neither.

## Model

| member | source | states |
|---|---|---|
| Parcels.StatusName | src/lib/parcels.ts:1-14 | the string each status is sent and compared as, the enum's own value; `ParseStatusName`, `StatusNameInjective` and `StatusNameShape` state its properties |
| Parcels.ParseStatus | src/lib/parcels.ts:1-14 | a string names at most one status, and the status it names is spelled exactly that way |
| Parcels.ParseStatusName | src/lib/parcels.ts:1-14 | every status name reads back as its own status |
| Parcels.StatusNameInjective | src/lib/parcels.ts:1-14 | two statuses share a name only if they are the same status |
| Parcels.StatusColor | src/lib/parcels.ts:107-125 | each colour is given to exactly the status strings of its case; every other string is gray |
| Parcels.GrayStatuses | src/lib/parcels.ts:107-125 | of the real statuses, PICKED_UP, DISPATCHED, RETURNED, HELD and BLOCKED are gray, and only they |
| Parcels.Split | src/lib/parcels.ts:129 | `split` always yields at least one part |
| Parcels.JoinSplit | src/lib/parcels.ts:128-131 | joining the parts of a split with the same separator gives back the original string |
| Parcels.StatusLabel | src/lib/parcels.ts:127-132 | `getStatusLabel`: split at hyphens, each word capitalised, joined with spaces; `SplitLabel`, `StatusLabelChars`, `StatusLabelShape` and `StatusLabelIdempotent` state its properties |
| Parcels.SplitLabel | src/lib/parcels.ts:127-132 | the split, capitalise and join pipeline equals a character-by-character rewrite: hyphens become spaces, the character after each is upper-cased |
| Parcels.StatusLabelChars | src/lib/parcels.ts:127-132 | `getStatusLabel` is that rewrite starting at a word start |
| Parcels.LabelFromShape | src/lib/parcels.ts:127-132 | the rewrite keeps the length and leaves no hyphen |
| Parcels.LabelFromNoHyphen | src/lib/parcels.ts:127-132 | on text without hyphens only the first character can change |
| Parcels.StatusLabelShape | src/lib/parcels.ts:127-132 | a label is as long as its input and has no hyphen |
| Parcels.StatusLabelIdempotent | src/lib/parcels.ts:127-132 | labelling a label changes nothing |
| Parcels.StatusNameShape | src/lib/parcels.ts:1-14 | status names start with a capital and contain no hyphen |
| Parcels.StatusLabelOfName | src/lib/parcels.ts:127-132 | every status name is its own label |
| Parcels.RoundHalfUp | src/lib/parcels.ts:151 | `Math.round` gives the integer within half a unit, halves rounding up |
| Parcels.RoundHalfUpMonotone | src/lib/parcels.ts:151 | rounding keeps the order of its inputs |
| Parcels.Multiplier | src/lib/parcels.ts:141-149 | express doubles and same-day triples the cost; every other delivery type pays the single rate |
| Parcels.DeliveryCostCents | src/lib/parcels.ts:136-152 | the cost in cents is within half a cent of base rate plus weight rate plus volume rate, times the multiplier |
| Parcels.DeliveryCost | src/lib/parcels.ts:136-152 | the cost is a whole number of cents, within half a cent of the exact tiered cost |
| Parcels.DeliveryCostExample | src/lib/parcels.ts:136-152 | 2 kg in a 10 cm cube at standard rate costs 11.49, and 1 kg in a 20 cm cube by express costs 24.98 |
| Parcels.ScaledCostMonotone | src/lib/parcels.ts:151 | scaling two ordered costs by a tier and to cents keeps their order |
| Parcels.CostMonotoneInWeight | src/lib/parcels.ts:136-152 | more weight never costs less |
| Parcels.CostMonotoneInDimensions | src/lib/parcels.ts:139 | larger non-negative dimensions never cost less |
| Parcels.VolumeMonotone | src/lib/parcels.ts:139 | the volume grows with each non-negative dimension |
| Parcels.TierOrder | src/lib/parcels.ts:141-151 | for a parcel with non-negative measures, standard costs at most express, which costs at most same-day |
| Parcels.CostAtLeastBase | src/lib/parcels.ts:137-151 | with non-negative measures the cost is at least the base rate times the multiplier |
| Parcels.Statuses | src/lib/parcels.ts:16-63 | the statuses of a parcel list, position by position |
| Parcels.CountIn | src/pages/Sender/SenderDashboard.tsx:15-22 | a count of the parcels whose status is in a set never exceeds the list's length |
| Parcels.CountInFilter | src/pages/Sender/SenderDashboard.tsx:15-22 | any `filter(...).length` whose test accepts exactly a set of statuses equals the count over that set |
| Parcels.CountInSingle | src/pages/Sender/SenderDashboard.tsx:15-22 | counting a single status gives that status's tally |
| Parcels.CountInUnion | src/pages/Sender/SenderDashboard.tsx:15-22 | counts over disjoint sets of statuses add up to the count over their union |
| Parcels.CountInPair | src/pages/Receiver/ReceiverDashboard.tsx:19-26 | counting two different statuses together adds their tallies |
| Parcels.CountInAll | src/pages/Sender/SenderDashboard.tsx:15-22 | counting a set that holds every parcel's status counts every parcel |
| Admin.StatusBadgeColor | src/lib/admin.ts:25-43 | each badge colour goes to exactly the status strings of its case (purple to PICKED_UP); every other string is gray |
| Admin.BadgeColorAgreesWithStatusColor | src/lib/admin.ts:25-43 | the badge map and `getStatusColor` agree on every string except PICKED and PICKED_UP, whose purple and gray are swapped |
| Admin.RoleBadgeColor | src/lib/admin.ts:45-56 | admins are red, senders blue, receivers green, and any other role gray |
| Auth.ParseIsActive | src/lib/auth.ts:3-7 | a string names at most one activity state, spelled exactly that way |
| Auth.IsActiveValues | src/lib/auth.ts:3-7 | exactly ACTIVE, INACTIVE and BLOCKED name activity states, and each names back its own state |
| Auth.RedirectPath | src/lib/auth.ts:37-48 | admin, sender and receiver land on their own section; every other role lands on "/"; each path starts with "/" |
| Auth.UserRolesRedirectHome | src/lib/auth.ts:13-48 | the comparison is case-sensitive, so every upper-case role a `User` carries lands on "/" |
| Sidebar.SidebarItems | src/utils/getSidebarItems.ts:7-20 | each role gets its own groups; a super admin gets the admin, sender and receiver groups in that order; an absent or unknown role gets none |
| Sidebar.SidebarLinksUnderRole | src/routes/adminSidebarItems.ts:13-37 | every link a single-role sidebar offers lies under that role's own section |
| Sidebar.SuperAdminSeesAll | src/utils/getSidebarItems.ts:15-16 | a super admin sees a group exactly when some single role sees it |
| AuthContext.Reduce | src/context/auth-context.tsx:21-47 | only a login or a restored session signs in, only a logout signs out, and a consistent state stays consistent |
| AuthContext.LoginIsRestore | src/context/auth-context.tsx:23-31 | a login and a restored session leave the same signed-in, no-longer-loading state |
| AuthContext.LogoutIdempotent | src/context/auth-context.tsx:32-38 | a logout gives one and the same signed-out state from any state, so a second logout changes nothing |
| AuthContext.SetLoadingOnlyLoading | src/context/auth-context.tsx:39-45 | SET_LOADING changes only the loading flag, and an action of any other type changes nothing |
| AuthContext.RunConsistent | src/context/auth-context.tsx:21-47 | every sequence of actions keeps the session consistent: signed in only with both a user and a token |
| AuthContext.InitialConsistent | src/context/auth-context.tsx:49-54 | the initial state is consistent, loading and signed out, and stays consistent under any actions |
| AuthContext.AuthStore.constructor | src/context/auth-context.tsx:57 | the store starts in the initial state |
| AuthContext.AuthStore.Dispatch | src/context/auth-context.tsx:57 | dispatching moves the store to the reducer's result for its old state |
| DeliveryMan.DeliveryStatusNameInjective | src/types/delivery_man.type.ts:3-7 | distinct delivery statuses have distinct names |
| DeliveryPersonnel.MatchesSearch | src/pages/Admin/AdminDeliveryPersonnel.tsx:75-77 | the lower-cased search occurs in the lower-cased name or location; an absent field matches nothing (`EmptySearchShowsNamed`) |
| DeliveryPersonnel.MatchesStatus | src/pages/Admin/AdminDeliveryPersonnel.tsx:78-79 | "all", or the person's status name equals the filter; a person without a status matches only "all" (`StatusFilterSelects`) |
| DeliveryPersonnel.ShownPersonnel | src/pages/Admin/AdminDeliveryPersonnel.tsx:74-81 | the table shows exactly the people matching both the search and the status, none when the list is absent |
| DeliveryPersonnel.EmptySearchShowsNamed | src/pages/Admin/AdminDeliveryPersonnel.tsx:74-81 | with an empty search and "all", a person is listed exactly when they have a name or a location |
| DeliveryPersonnel.StatusFilterSelects | src/pages/Admin/AdminDeliveryPersonnel.tsx:78-79 | choosing a status shows only people with that status |
| DeliveryPersonnel.Stats | src/pages/Admin/AdminDeliveryPersonnel.tsx:212-223 | the total is the list length and each counter is the number of people with its own status (AVAILABLE, BUSY, OFFLINE); the three never count anyone twice: they add up to at most the total, and to the total when everyone has a status |
| DeliveryPersonnel.PersonnelBadgeColor | src/pages/Admin/AdminDeliveryPersonnel.tsx:198-209 | green, yellow and red go to exactly AVAILABLE, BUSY and OFFLINE; anything else is gray |
| DeliveryPersonnel.BadgeColorByStatus | src/pages/Admin/AdminDeliveryPersonnel.tsx:479-482 | only a person without a status gets a gray badge, and two people share a badge colour exactly when they share a status |
| DeliveryPersonnel.NewPerson | src/pages/Admin/AdminDeliveryPersonnel.tsx:87-92 | a new person starts with no assigned parcels, no deliveries and a rating of 5 |
| DeliveryPersonnel.EditForm | src/pages/Admin/AdminDeliveryPersonnel.tsx:185-195 | the form shows the person's name, location, phone and email, each absent one as the empty string, and the person's status, AVAILABLE when absent |
| DeliveryPersonnel.EditFormOfNewPerson | src/pages/Admin/AdminDeliveryPersonnel.tsx:87-92 | editing a person just built from a form shows that same form again |
| DeliveryPersonnel.EditFormKeepsPresentFields | src/pages/Admin/AdminDeliveryPersonnel.tsx:185-195 | a person with every field present is edited with their own values |
| DeliveryPersonnel.StatusChangeRequest | src/pages/Admin/AdminDeliveryPersonnel.tsx:152-163 | nothing is sent without an id or a status; otherwise exactly that id and that status are sent |
| DeliveryPersonnel.DeliveryPersonnelState.constructor | src/pages/Admin/AdminDeliveryPersonnel.tsx:51-71 | an empty search, "all", both dialogs closed, nobody selected and an empty form |
| DeliveryPersonnel.DeliveryPersonnelState.ToggleAddDialog | src/pages/Admin/AdminDeliveryPersonnel.tsx:253-263 | the form is reset to the empty AVAILABLE form and the add dialog flips open or shut |
| DeliveryPersonnel.DeliveryPersonnelState.UpdateForm | src/pages/Admin/AdminDeliveryPersonnel.tsx:326-331 | the form holds what was typed |
| DeliveryPersonnel.DeliveryPersonnelState.AddPersonnel | src/pages/Admin/AdminDeliveryPersonnel.tsx:84-119 | the person built from the form is sent; only a response with data closes the dialog and resets the form |
| DeliveryPersonnel.DeliveryPersonnelState.OpenEditDialog | src/pages/Admin/AdminDeliveryPersonnel.tsx:185-195 | the person is selected, the form shows their values and the edit dialog opens |
| DeliveryPersonnel.DeliveryPersonnelState.EditPersonnel | src/pages/Admin/AdminDeliveryPersonnel.tsx:122-149 | nothing is sent without a selected person; otherwise the whole form is sent under their id, and the dialog closes unless the call raised |
| UsersManagement.MatchesSearch | src/components/modules/Admin/UsersManagement.tsx:41-43 | the lower-cased search occurs in the lower-cased name or email |
| UsersManagement.FilteredUsers | src/components/modules/Admin/UsersManagement.tsx:40-49 | the table shows exactly the users matching the search, the role and the status |
| UsersManagement.StatusFilterSelects | src/components/modules/Admin/UsersManagement.tsx:46 | choosing an activity state shows only users in that state |
| UsersManagement.ToggleNeverForAdmins | src/components/modules/Admin/UsersManagement.tsx:190 | no admin, super admin or other role is offered the block toggle |
| UsersManagement.ToggleTarget | src/components/modules/Admin/UsersManagement.tsx:224 | an active user is blocked, and anyone else is made active |
| UsersManagement.ToggleTwice | src/components/modules/Admin/UsersManagement.tsx:224 | two toggles bring an active or blocked user back to where they started, but leave an inactive user blocked |
| UsersManagement.ToggleRequest | src/components/modules/Admin/UsersManagement.tsx:51-62 | an absent or empty id sends nothing; otherwise exactly that id and the new state are sent |
| UsersManagement.FormatLastActivity | src/components/modules/Admin/UsersManagement.tsx:72-81 | under an hour (or in the future) is "Just now", under a day is the hour count, under two days is "Yesterday", and the rest or an unreadable date is a formatted date |
| UsersManagement.LastActivityMonotone | src/components/modules/Admin/UsersManagement.tsx:72-81 | as time passes a timestamp only moves to later buckets, and its hour count never goes down |
| UsersManagement.HoursAgoText | src/components/modules/Admin/UsersManagement.tsx:78 | the hour text is decimal digits followed by "h ago", and its digits read back as the hour count |
| UsersManagement.Summary | src/components/modules/Admin/UsersManagement.tsx:242-249 | the summary appears only for a non-empty table, shows the shown and total counts, counts the shown ACTIVE users as active and the shown BLOCKED users as blocked, and those two counts add up to at most the shown count |
| UsersManagement.SummaryUnderActiveFilter | src/components/modules/Admin/UsersManagement.tsx:242-249 | with the ACTIVE filter every shown user counts as active and none as blocked |
| AdminAnalytics.Field | src/pages/Admin/AdminAnalytics.tsx:21-45 | a missing statistic, or one of absent stats, reads as 0; a present one reads as itself |
| AdminAnalytics.GenerateChartData | src/pages/Admin/AdminAnalytics.tsx:14-50 | six months January to June with the same totals each month; every figure is the statistic its label names, read as 0 when missing (delivered, pending and cancelled parcels, revenue, total parcels, delivery time, success rate), a fixed satisfaction of 90, and four status slices Delivered, In Transit, Pending, Cancelled in that order with fixed colours, each valued by its own statistic |
| AdminAnalytics.MissingStatDrawnAsZero | src/pages/Admin/AdminAnalytics.tsx:19-45 | a statistic the server left out, or absent stats, is drawn as 0 in every month and slice that uses it; a statistic it sent is drawn as itself everywhere |
| AdminAnalytics.TrendsAgreeWithSlices | src/pages/Admin/AdminAnalytics.tsx:19-39 | every month's delivered, pending and cancelled figures equal the matching status slices |
| AdminAnalytics.ChartDataWithoutStats | src/pages/Admin/AdminAnalytics.tsx:14-50 | without stats every figure is 0 except the fixed satisfaction |
| CreateParcelForm.FormValid | src/components/modules/sender/CreateParcelForm.tsx:38-67 | `createParcelSchema`: the minimum lengths of name, phone, type and address parts, the minimum weight, sides and value, and one of the three delivery types (`DefaultValuesInvalid`, `ValidFormHasEstimate`) |
| CreateParcelForm.DefaultValuesInvalid | src/components/modules/sender/CreateParcelForm.tsx:38-99 | the untouched form fails the schema and has no cost estimate |
| CreateParcelForm.ValidFormHasEstimate | src/components/modules/sender/CreateParcelForm.tsx:104-143 | a form that passes the schema always gets an estimate of at least the base rate times its multiplier |
| CreateParcelForm.AddressLine | src/components/modules/sender/CreateParcelForm.tsx:181 | the pickup address as one line of its four parts (`AddressLineParts`) |
| CreateParcelForm.AddressLineParts | src/components/modules/sender/CreateParcelForm.tsx:181 | the history location is street, city, state and zip joined by ", " |
| CreateParcelForm.CreationRequest | src/components/modules/sender/CreateParcelForm.tsx:148-189 | the request `onSubmit` builds from the form, the estimate, the user id and the time (`CreationRequestShape`) |
| CreateParcelForm.CreationRequestShape | src/components/modules/sender/CreateParcelForm.tsx:145-199 | a new parcel is PENDING with one PENDING history entry by its sender at the pickup address, costs the estimate (0 without one), and copies the form |
| CreateParcelForm.CreateParcelFormState.constructor | src/components/modules/sender/CreateParcelForm.tsx:77-102 | the form starts at its default values with no estimate |
| CreateParcelForm.CreateParcelFormState.EnterWeight | src/components/modules/sender/CreateParcelForm.tsx:441-444 | the weight becomes the text read as a decimal number, 0 when it holds none; nothing else changes |
| CreateParcelForm.CreateParcelFormState.EnterLength | src/components/modules/sender/CreateParcelForm.tsx:470-474 | the length becomes the text read as a whole number, 0 when it holds none; nothing else changes |
| CreateParcelForm.CreateParcelFormState.EnterWidth | src/components/modules/sender/CreateParcelForm.tsx:494-498 | the width becomes the text read as a whole number, 0 when it holds none; nothing else changes |
| CreateParcelForm.CreateParcelFormState.EnterHeight | src/components/modules/sender/CreateParcelForm.tsx:518-522 | the height becomes the text read as a whole number, 0 when it holds none; nothing else changes |
| CreateParcelForm.CreateParcelFormState.EnterValue | src/components/modules/sender/CreateParcelForm.tsx:545-548 | the declared value becomes the text read as a decimal number, 0 when it holds none; nothing else changes |
| CreateParcelForm.CreateParcelFormState.CalculateCost | src/components/modules/sender/CreateParcelForm.tsx:104-143 | a zero weight or dimension is reported and keeps the old estimate; otherwise the estimate becomes the delivery cost of the form |
| CreateParcelForm.CreateParcelFormState.Submit | src/components/modules/sender/CreateParcelForm.tsx:145-224 | the request is sent exactly when the form passes the schema and a user is signed in; otherwise nothing changes; a returned tracking id leads to "/sender/parcels", and form and estimate are reset exactly when a sent call returned |
| NumberInput.Scale | src/components/modules/sender/CreateParcelForm.tsx:443 | scaling by a power of ten keeps a non-negative magnitude non-negative, and exponent 0 leaves it unchanged |
| NumberInput.ParseIntOrZero | src/components/modules/sender/CreateParcelForm.tsx:472 | `parseInt(text)`, 0 when no number is there: leading white space skipped, an optional sign, the leading digit run, and 0 when no digit follows; its properties are `NoDigitsReadsZeroInt`, `ReadIntOfRun` and `ParseIntReadsLeadingNumber` |
| NumberInput.ParseFloatOrZero | src/components/modules/sender/CreateParcelForm.tsx:443 | `parseFloat(text)`, 0 when no number is there: leading white space skipped, an optional sign, digits with an optional fraction and exponent; its properties are `NoDigitsReadsZeroFloat`, `ParseFloatReadsWhole`, `ParseFloatReadsDigits` and `ParseFloatReadsDecimal` |
| NumberInput.ReadMagnitude | src/components/modules/sender/CreateParcelForm.tsx:443 | the unsigned number read at the start of the text is never negative |
| NumberInput.NoDigitsReadsZeroInt | src/components/modules/sender/CreateParcelForm.tsx:472 | text without a digit is stored as 0 by the length, width and height inputs |
| NumberInput.NoDigitsReadsZeroFloat | src/components/modules/sender/CreateParcelForm.tsx:443 | text without a digit is stored as 0 by the weight and value inputs |
| NumberInput.ReadIntOfRun | src/components/modules/sender/CreateParcelForm.tsx:472 | text starting with a digit run, or a sign and one, reads as that run's value, negated after a minus |
| NumberInput.ParseIntReadsLeadingNumber | src/components/modules/sender/CreateParcelForm.tsx:472 | a rendered whole number followed by a non-digit ("12.7", "12cm") reads as that number, and as its negation after a minus |
| NumberInput.ParseFloatReadsWhole | src/components/modules/sender/CreateParcelForm.tsx:443 | a rendered whole number reads back as itself |
| NumberInput.ParseFloatReadsDigits | src/components/modules/sender/CreateParcelForm.tsx:443 | text made only of digits reads as their value |
| NumberInput.ParseFloatReadsDecimal | src/components/modules/sender/CreateParcelForm.tsx:443 | digits, a point and digits read as the whole part plus the fraction |
| ParcelsManagement.AdminFilter | src/components/modules/Admin/ParcelsManagement.tsx:69-79 | the table shows exactly the parcels whose id, sender name or sender email holds the search and whose status matches the filter |
| ParcelsManagement.AdminFilterShowsAll | src/components/modules/Admin/ParcelsManagement.tsx:69-79 | an empty search with "all" shows every parcel, in order |
| ParcelsManagement.StatusPatch | src/components/modules/Admin/ParcelsManagement.tsx:90-102 | the status update: the new status and the parcel's history with one entry appended (`StatusPatchAppends`, `ResubmitDuplicates`) |
| ParcelsManagement.StatusPatchAppends | src/components/modules/Admin/ParcelsManagement.tsx:90-102 | an update sends the new status and the old history with one entry appended: that status, the note, the location and the admin, with no timestamp |
| ParcelsManagement.AnyOfferedStatusAccepted | src/components/modules/Admin/ParcelsManagement.tsx:317-338 | every offered status can be sent after any status; no transition is refused |
| ParcelsManagement.ResubmitDuplicates | src/components/modules/Admin/ParcelsManagement.tsx:284-286 | sending back the preselected current status duplicates the last history status |
| ParcelsManagement.AssignPatch | src/components/modules/Admin/ParcelsManagement.tsx:132-137 | the assignment: the delivery person's id alone (`AssignPatchOnlyPersonnel`) |
| ParcelsManagement.AssignPatchOnlyPersonnel | src/components/modules/Admin/ParcelsManagement.tsx:132-137 | an assignment sends only the delivery person and never touches status or history |
| ParcelsManagement.AssignablePersonnel | src/components/modules/Admin/ParcelsManagement.tsx:432-436 | the assignment dialog offers exactly the AVAILABLE people, none when the list is absent |
| ParcelsManagement.ParcelsManagementState.constructor | src/components/modules/Admin/ParcelsManagement.tsx:55-67 | nothing selected, no dialog open, no update running and every text empty |
| ParcelsManagement.ParcelsManagementState.OpenUpdateDialog | src/components/modules/Admin/ParcelsManagement.tsx:284-286 | the parcel is selected, its current status preselected, the note cleared and the update dialog opened; nothing else changes |
| ParcelsManagement.ParcelsManagementState.EditUpdate | src/components/modules/Admin/ParcelsManagement.tsx:317-338 | the dialog holds the chosen status, note and location |
| ParcelsManagement.ParcelsManagementState.CancelUpdate | src/components/modules/Admin/ParcelsManagement.tsx:371-375 | Cancel closes the update dialog and clears the chosen status and the note |
| ParcelsManagement.ParcelsManagementState.CancelAssign | src/components/modules/Admin/ParcelsManagement.tsx:457-460 | Cancel closes the assignment dialog and clears the chosen person |
| ParcelsManagement.ParcelsManagementState.HandleUpdateStatus | src/components/modules/Admin/ParcelsManagement.tsx:81-120 | a patch is sent exactly when a parcel and a status are chosen; only a response with data closes the dialog and clears the form; nothing else changes |
| ParcelsManagement.ParcelsManagementState.OpenAssignDialog | src/components/modules/Admin/ParcelsManagement.tsx:400-403 | the parcel is selected, its current delivery person preselected and the assignment dialog opened; nothing else changes |
| ParcelsManagement.ParcelsManagementState.ChoosePersonnel | src/components/modules/Admin/ParcelsManagement.tsx:432-436 | the chosen available person's id is selected |
| ParcelsManagement.ParcelsManagementState.StartAssign | src/components/modules/Admin/ParcelsManagement.tsx:122-137 | the assignment is sent exactly when a parcel and a person are chosen, and then the update flag goes up |
| ParcelsManagement.ParcelsManagementState.FinishAssign | src/components/modules/Admin/ParcelsManagement.tsx:138-152 | the update flag comes down; unless the call raised, the dialog closes and the choice is cleared |
| IncomingParcels.ReceiverFilter | src/components/modules/receiver/IncomingParcels.tsx:69-79 | the table shows exactly the parcels whose id, sender name or type holds the search and whose status matches the filter |
| IncomingParcels.CanConfirmByName | src/components/modules/receiver/IncomingParcels.tsx:103-105 | only a parcel out for delivery can be confirmed |
| IncomingParcels.DisplayedEta | src/components/modules/receiver/IncomingParcels.tsx:201-208 | the parcel's own estimate, else three days after creation, else none |
| IncomingParcels.DisplayedEtaAfterCreation | src/components/modules/receiver/IncomingParcels.tsx:201-208 | the fallback estimate always lies after creation |
| IncomingParcels.IncomingParcelsState.constructor | src/components/modules/receiver/IncomingParcels.tsx:60-66 | nothing selected, not confirming, an empty note and the dialog closed |
| IncomingParcels.IncomingParcelsState.OpenConfirmDialog | src/components/modules/receiver/IncomingParcels.tsx:410-420 | a confirmable parcel is selected and the dialog opens |
| IncomingParcels.IncomingParcelsState.CancelConfirm | src/components/modules/receiver/IncomingParcels.tsx:453-456 | the dialog closes and the note is cleared |
| IncomingParcels.IncomingParcelsState.StartConfirm | src/components/modules/receiver/IncomingParcels.tsx:81-84 | the confirming flag goes up and the request carries the note but no parcel id |
| IncomingParcels.IncomingParcelsState.FinishConfirm | src/components/modules/receiver/IncomingParcels.tsx:84-100 | the flag comes down; a success clears the note and closes the dialog, a failure keeps both |
| IncomingParcels.ConfirmCallAlwaysRaises | src/components/modules/receiver/IncomingParcels.tsx:38-44 | `confirmDelivery` is not among the names src/lib/parcels.ts exports, so calling it raises whatever the server would answer |
| IncomingParcels.IncomingParcelsState.HandleConfirmAsWritten | src/components/modules/receiver/IncomingParcels.tsx:81-101 | as written, a confirmation always ends in the failure branch: the flag comes down, and the note and the open dialog stay |
| IncomingParcels.IncomingParcelsState.HandleConfirm | src/components/modules/receiver/IncomingParcels.tsx:81-101 | with an existing endpoint, a confirmation the server accepts clears the note and closes the dialog, and a refused one keeps both |
| ParcelsTable.SenderFilterAsWritten | src/components/modules/sender/ParcelsTable.tsx:38-47 | the list as written is never longer than the parcels |
| ParcelsTable.SenderFilterAsWrittenKeepsAll | src/components/modules/sender/ParcelsTable.tsx:46 | as written, every parcel is kept whatever the search and the filter |
| ParcelsTable.StatusOptionsNeverMatch | src/components/modules/sender/ParcelsTable.tsx:102-110 | as written, no status option but "all" matches any parcel |
| ParcelsTable.OptionStatus | src/components/modules/sender/ParcelsTable.tsx:102-110 | only an offered option stands for a status |
| ParcelsTable.SenderFilter | src/components/modules/sender/ParcelsTable.tsx:38-47 | corrected, the table shows exactly the parcels matching the search and the chosen option's status |
| ParcelsTable.SenderFilterSelects | src/components/modules/sender/ParcelsTable.tsx:102-110 | corrected, each option shows exactly the parcels of its status, and "all" shows every parcel |
| ParcelsTable.ShowingCounts | src/components/modules/sender/ParcelsTable.tsx:306-310 | the footer appears only for a non-empty list and shows its length and the total |
| ParcelsTable.ShowingAllAsWritten | src/components/modules/sender/ParcelsTable.tsx:306-310 | as written the footer always reads "m of m" |
| ParcelsTable.ParcelsTableState.constructor | src/components/modules/sender/ParcelsTable.tsx:33-36 | an empty search, "all", nothing selected and no cancellation running |
| ParcelsTable.ParcelsTableState.StartCancel | src/components/modules/sender/ParcelsTable.tsx:51-52 | the cancellation flag goes up and the parcel's own id is sent |
| ParcelsTable.ParcelsTableState.FinishCancel | src/components/modules/sender/ParcelsTable.tsx:53-64 | the flag comes down; the parent refreshes and the success toast shows exactly when the call did not raise |
| SenderDashboard.TotalCost | src/pages/Sender/SenderDashboard.tsx:21 | the costs summed from the left, 0 for no parcels (`TotalCostAppend`, `TotalCostFront`, `TotalCostBounds`) |
| SenderDashboard.TotalCostAppend | src/pages/Sender/SenderDashboard.tsx:15-22 | the total cost of two lists is the sum of their totals |
| SenderDashboard.TotalCostFront | src/pages/Sender/SenderDashboard.tsx:15-22 | peeling off the first parcel gives the same total as the left fold |
| SenderDashboard.TotalCostBounds | src/pages/Sender/SenderDashboard.tsx:15-22 | with no negative cost the total is non-negative and at least each parcel's cost |
| SenderDashboard.Stats | src/pages/Sender/SenderDashboard.tsx:10-22 | each counter tallies its statuses and the total spent is the costs summed from the left; the four counters are disjoint and add up to at most the total; without data every counter and the total spent are 0 |
| SenderDashboard.FourClassesDisjoint | src/pages/Sender/SenderDashboard.tsx:15-22 | the four counted classes share no status, so their counts add up to at most the number of parcels |
| SenderDashboard.SuccessRate | src/pages/Sender/SenderDashboard.tsx:59 | the delivered share as a percentage, rounded to the nearest whole number; 0 with no parcels |
| SenderDashboard.SuccessRateRange | src/pages/Sender/SenderDashboard.tsx:59 | the rate lies between 0 and 100, is 100 when every parcel is delivered and 0 when none is |
| SenderDashboard.SuccessRateMonotone | src/pages/Sender/SenderDashboard.tsx:59 | more deliveries out of the same total never lower the rate |
| SenderDashboard.RecentParcels | src/pages/Sender/SenderDashboard.tsx:104-119 | the first five parcels in order, with "View all" exactly when some are not shown |
| SenderDashboard.ReplaceFirstHyphen | src/pages/Sender/SenderDashboard.tsx:115 | position by position, the hyphen with no hyphen before it becomes a space and every other character, later hyphens included, stays; so exactly one hyphen fewer remains, and text without a hyphen is unchanged |
| SenderDashboard.RecentStatusUnchanged | src/pages/Sender/SenderDashboard.tsx:115 | status strings use underscores, so the replacement never changes them |
| ReceiverDashboard.Stats | src/pages/Receiver/ReceiverDashboard.tsx:16-26 | each counter tallies its statuses; delivered, in transit and pending are disjoint; those awaiting confirmation are among those in transit |
| ReceiverDashboard.Incoming | src/pages/Receiver/ReceiverDashboard.tsx:28 | the incoming list holds exactly the parcels not delivered |
| ReceiverDashboard.DeliveredList | src/pages/Receiver/ReceiverDashboard.tsx:29 | the delivered list holds exactly the delivered parcels |
| ReceiverDashboard.DeliveredListCount | src/pages/Receiver/ReceiverDashboard.tsx:19-29 | the delivered list is as long as the Delivered counter |
| ReceiverDashboard.IncomingDeliveredPartition | src/pages/Receiver/ReceiverDashboard.tsx:16-29 | the two lists split the parcels: together they hold each parcel as often as the list does, and their lengths add up to the total |
| ReceiverDashboard.Preview | src/pages/Receiver/ReceiverDashboard.tsx:121-185 | a card previews its first three parcels, with "view all" exactly when more exist |
| ReceiverDashboard.PreviewsDisjoint | src/pages/Receiver/ReceiverDashboard.tsx:121-185 | no parcel is previewed on both cards |
| ReceiverDeliveryHistory.Fetched | src/pages/Receiver/ReceiverDeliveryHistory.tsx:11-15 | a skipped query yields nothing; otherwise it yields the server's list |
| ReceiverDeliveryHistory.HistoryList | src/pages/Receiver/ReceiverDeliveryHistory.tsx:17 | the history holds exactly the delivered parcels, and is absent while nothing was fetched |
| ReceiverDeliveryHistory.HistoryCards | src/pages/Receiver/ReceiverDeliveryHistory.tsx:42 | only delivered parcels become cards |
| ReceiverDeliveryHistory.EmptyHistoryShownIff | src/pages/Receiver/ReceiverDeliveryHistory.tsx:34 | the empty message appears exactly when data arrived and none of it is delivered |
| ReceiverDeliveryHistory.HistoryAsWrittenShowsNothing | src/pages/Receiver/ReceiverDeliveryHistory.tsx:14 | as written, a receiver with an email never fetches, so sees neither cards nor the empty message |
| ReceiverDeliveryHistory.HistoryShowsDelivered | src/pages/Receiver/ReceiverDeliveryHistory.tsx:11-42 | corrected, a receiver with an email sees every delivered parcel, and the empty message exactly when there is none |
| ReceiverIncomingParcel.IncomingList | src/pages/Receiver/ReceiverIncomingParcel.tsx:10-36 | the table gets exactly the fetched parcels that are not delivered, none while nothing was fetched |
| ReceiverIncomingParcel.IncomingListKeepsOrder | src/pages/Receiver/ReceiverIncomingParcel.tsx:14 | the list keeps the fetched order: two batches are filtered one after the other |
| ReceiverIncomingParcel.IncomingListWhole | src/pages/Receiver/ReceiverIncomingParcel.tsx:12-14 | when nothing fetched is delivered, the whole list is passed on unchanged |
| RegisterForm.PasswordIssues | src/components/modules/Authentication/RegisterForm.tsx:34-52 | each password message appears exactly when its check fails, and none appears exactly for a long password with a capital and a special character |
| RegisterForm.Unless | src/components/modules/Authentication/RegisterForm.tsx:29-62 | a check contributes its message exactly when it fails |
| RegisterForm.FieldIssues | src/components/modules/Authentication/RegisterForm.tsx:29-58 | the field checks report exactly the failing field messages |
| RegisterForm.Validate | src/components/modules/Authentication/RegisterForm.tsx:29-62 | the form passes the schema exactly when every field is acceptable and the passwords match |
| RegisterForm.ValidateMember | src/components/modules/Authentication/RegisterForm.tsx:29-62 | a schema message is a field message, or the mismatch message of a form whose role is valid |
| RegisterForm.NameAndEmailMessages | src/components/modules/Authentication/RegisterForm.tsx:31-33 | each name message and the email message appear exactly when their check fails |
| RegisterForm.FieldMessage | src/components/modules/Authentication/RegisterForm.tsx:29-62 | a message outside the password fields appears in the schema's result exactly when its field check lists it |
| RegisterForm.RoleAndConfirmMessages | src/components/modules/Authentication/RegisterForm.tsx:55-62 | the role message appears exactly for a role other than SENDER or RECEIVER; the mismatch message appears exactly when the passwords differ and the role is valid |
| RegisterForm.PasswordMessages | src/components/modules/Authentication/RegisterForm.tsx:34-52 | the messages under the password field are exactly those of its own checks |
| RegisterForm.AdminCannotRegister | src/components/modules/Authentication/RegisterForm.tsx:55-57 | nobody can sign up as an admin or a super admin |
| RegisterForm.DefaultValuesRefused | src/components/modules/Authentication/RegisterForm.tsx:75-82 | the untouched form is refused for its names and password, never for its role |
| RegisterForm.UserInfo | src/components/modules/Authentication/RegisterForm.tsx:86-91 | the sent name is the first name, one space and the last name; email, password and role are passed on |
| RegisterForm.SplitAtFirstSpace | src/components/modules/Authentication/RegisterForm.tsx:89 | a name splits at its first space into a space-free head and the rest |
| RegisterForm.SplitJoined | src/components/modules/Authentication/RegisterForm.tsx:89 | joining two parts with a space and splitting at the first space gives them back when the first has no space |
| RegisterForm.UserInfoNameSplits | src/components/modules/Authentication/RegisterForm.tsx:89 | a first name without a space and the last name can be read back from the sent name |
| RegisterForm.Submit | src/components/modules/Authentication/RegisterForm.tsx:85-94 | a form is sent exactly when it passes the schema, and then as its `userInfo` (its email, its password, the first and last name joined by a space, its role), with a self-service role and a confirmed password of at least eight characters |
| RegisterForm.AfterRegister | src/components/modules/Authentication/RegisterForm.tsx:93-100 | exactly a response with data goes to "/verify" with the email; `.unwrap()` turns an error payload into a failure, and a failure stays on the form |
| Track.TrimEnd | src/pages/Track.tsx:64 | the result is a prefix of the text that does not end in white space |
| Track.TrimEndCutsOnlySpace | src/pages/Track.tsx:64 | only white space is cut off the end |
| Track.Trim | src/pages/Track.tsx:64 | the trimmed id is one stretch of the text, neither starting nor ending with white space, and only white space is cut before and after it |
| Track.TrimUnpadded | src/pages/Track.tsx:64 | text without surrounding white space is left unchanged |
| Track.TrimIdempotent | src/pages/Track.tsx:64 | trimming twice is trimming once |
| Track.AcceptedIdCanTrimShort | src/pages/Track.tsx:36-41 | the schema counts untrimmed characters, so an accepted id can be shorter than three once trimmed |
| Track.StatusDescription | src/pages/Track.tsx:126-143 | "Status update" is given exactly to strings other than the six named statuses |
| Track.FindStepFrom | src/pages/Track.tsx:154-156 | `findIndex` gives -1 or the first position at or after the start whose status is the one sought |
| Track.FindStep | src/pages/Track.tsx:154-156 | the found position is -1 or a position on the course |
| Track.StepEntries | src/pages/Track.tsx:157-163 | each future step becomes one entry, in order |
| Track.FutureSteps | src/pages/Track.tsx:145-164 | at most five predicted steps, none completed, each at an estimated place and time |
| Track.FutureStepsAfter | src/pages/Track.tsx:145-164 | for a status on the course, the predicted steps are exactly the course after its position |
| Track.StepsDistinct | src/pages/Track.tsx:146-152 | no status occurs twice on the course |
| Track.FutureStepsOffCourse | src/pages/Track.tsx:154-157 | a status off the course is found nowhere, so all five steps are predicted, starting with PENDING |
| Track.FutureStepsFromInTransit | src/pages/Track.tsx:145-164 | from IN_TRANSIT the page predicts OUT_FOR_DELIVERY, then DELIVERED |
| Track.LogEntries | src/pages/Track.tsx:95-109 | one entry per history item from the start position on, in order |
| Track.HistoryTimeline | src/pages/Track.tsx:95-109 | one completed entry per history item, with its status and timestamp, in order |
| Track.HistoryTimelineFallbacks | src/pages/Track.tsx:97-108 | a note and a location are used when given; otherwise the status description, and the pickup city for the first item or the delivery city for later ones |
| Track.TrackEstimatedDelivery | src/pages/Track.tsx:85 | an estimate exists exactly when the creation date does, and lies three days after it |
| Track.FullTimelineShape | src/pages/Track.tsx:95-114 | the history comes first and in order, exactly its entries are completed, at most five predicted steps follow, and none for a delivered or cancelled parcel |
| Track.PushAll | src/pages/Track.tsx:113 | pushing the steps appends them in order |
| Track.BuildTrackingView | src/pages/Track.tsx:74-114 | the view of the parcel with the full timeline |
| Track.TrackPage.constructor | src/pages/Track.tsx:54-55 | no error and no result |
| Track.TrackPage.Submit | src/pages/Track.tsx:59-122 | the trimmed id is looked up; exactly one of an error and a result is shown: the parcel's view, a not-found message or a failure message |
| Track.LoweredColor | src/pages/Track.tsx:166-181 | a lower-cased status gets green exactly for "delivered", blue exactly for "in transit" and "out for delivery", yellow exactly for "pending" and "picked up", red exactly for "cancelled", and gray for every other string |
| Track.TrackStatusColorAsWritten | src/pages/Track.tsx:166-181 | as written, every status gets one of five colours |
| Track.LowerIs | src/pages/Track.tsx:167 | lower-casing can be checked character by character |
| Track.SpacedLowerIs | src/pages/Track.tsx:167 | lower-casing of the spaced words can be checked character by character |
| Track.ColorThroughWords | src/pages/Track.tsx:166-181 | the corrected colour of a status is read off its lower-cased words |
| Track.LowerKeepsUnderscore | src/pages/Track.tsx:167 | an underscore survives lower-casing |
| Track.TrackStatusColorAsWrittenMisses | src/pages/Track.tsx:166-181 | as written, a status containing an underscore is always gray |
| Track.SpacedWords | src/pages/Track.tsx:170-174 | every underscore becomes a space and nothing else changes |
| Track.TrackStatusColor | src/pages/Track.tsx:166-181 | corrected, every status gets one of five colours |
| Track.DeliveredIsGreen | src/pages/Track.tsx:168-169 | corrected, DELIVERED is green |
| Track.MovingIsBlue | src/pages/Track.tsx:170-172 | corrected, IN_TRANSIT and OUT_FOR_DELIVERY are blue |
| Track.WaitingIsYellow | src/pages/Track.tsx:173-175 | corrected, PENDING and PICKED_UP are yellow |
| Track.CancelledIsRed | src/pages/Track.tsx:176-177 | CANCELLED is red |
| Track.CancelledNameIsRed | src/pages/Track.tsx:176-177 | "cancelled" reaches the red case |
| Track.TrackStatusColorIntended | src/pages/Track.tsx:166-181 | corrected, every status the switch names gets the colour of its case |
| Track.TrackStatusColorAsWrittenDiffers | src/pages/Track.tsx:170-174 | PICKED_UP, IN_TRANSIT and OUT_FOR_DELIVERY are gray as written but coloured once corrected |
| Track.TrackStatusColorKeepsWords | src/pages/Track.tsx:166-181 | on text without underscores the correction changes nothing |

## Left out

- The network layer: every query and mutation becomes a parameter saying how the call ended (with data, without data, raised, or a found or missing parcel). Retries, caching and refetching are not modelled.
- Toasts are not modelled, except the cancellation toast text in `ParcelsTable.ParcelsTableState.FinishCancel`. Loading spinners, navigation history, `localStorage`, the `AuthProvider` effects and console output are not modelled either.
- The randomness of `generateTrackingId` (`src/lib/parcels.ts:154-156`) is left out; a tracking id is an arbitrary string.
- Prices, weights and dimensions are exact reals, not IEEE doubles. `Math.round` is modelled on the exact value, so a half cent that floating point would represent slightly off is not modelled.
- Dates are integer milliseconds since the epoch. `toLocaleDateString` and `formatDate` are not modelled, and the formatted date is only a bucket (`UsersManagement.FormattedDate`). Daylight-saving effects of date arithmetic are not modelled.
- Zod's `.email()` check is not modelled. Whether an email is well formed is a parameter (`emailValid`, `emailOk`).
- Upper- and lower-casing cover ASCII letters only. Lengths count characters, not UTF-16 code units.
- `Number.parseFloat` is modelled for decimal text with an optional sign, point and exponent. "Infinity" and overflow to infinity are not modelled, and neither are radix prefixes of `Number.parseInt`. `NaN || 0` and `0 || 0` both give 0, and that is what the model keeps.
- AdminAnalytics.Field: a server statistic that is 0 or not a number is read as absent, since `|| 0` turns both into 0. The server's other statistics are not modelled.
- src/constants/role is not part of this model. The role values are taken as "ADMIN", "SENDER", "RECEIVER" and "SUPER_ADMIN", the strings the `User` type and the sign-up defaults use.
- Chart rendering and the chart components are not modelled; the series they receive are.
- The sidebar arrays are fresh copies in the source. The model returns values, so aliasing between calls does not arise.
- ParcelsManagement.ParcelsManagementState.EditUpdate: requires an offered status because the select offers nothing else. Free text for the status is not modelled.
- IncomingParcels.IncomingParcelsState.StartConfirm: the page imports `confirmDelivery` from src/lib/parcels.ts, which exports no such function (see "## Findings"), so there is no confirmation endpoint to model, only the request the page builds. That request never carries a parcel id, because the page reads `selectedParcel.id` while a parcel's id field is `_id`.
- ReceiverDeliveryHistory.HistoryCards: its contract states one direction. The other direction, for a fetched list, is `ReceiverDeliveryHistory.HistoryShowsDelivered`.
- No status transition graph and no terminal states are enforced, because no page enforces them.
- The layout, the home, about, login and settings pages, and the tracking form's rendering are not modelled.

## Findings

| source | as written | input that shows it | evidently intended | confidence | as-written member | corrected member |
|---|---|---|---|---|---|---|
| src/components/modules/sender/ParcelsTable.tsx:46 | the filter callback ends in an or with an empty array literal, which is truthy | any parcel with the search "zzz" and a status other than "all": it is still listed | keep a parcel only when it matches both the search and the status | high (not executed) | ParcelsTable.SenderFilterAsWrittenKeepsAll | ParcelsTable.SenderFilter |
| src/components/modules/sender/ParcelsTable.tsx:102-110 | the status options are lower case with hyphens ("in-transit") and are compared with upper-case status strings | the option "in-transit" against a parcel IN_TRANSIT: no match | each option keeps the parcels of its own status | high (not executed) | ParcelsTable.StatusOptionsNeverMatch | ParcelsTable.SenderFilterSelects |
| src/pages/Receiver/ReceiverDeliveryHistory.tsx:14 | the query is skipped when the user's email is present | a receiver signed in as "r@x.io": the query is skipped and no history is shown | skip only when there is no email, as on the receiver's overview | high (not executed) | ReceiverDeliveryHistory.HistoryAsWrittenShowsNothing | ReceiverDeliveryHistory.HistoryShowsDelivered |
| src/pages/Track.tsx:166-181 | the lower-cased status is compared with space-separated names ("in transit") | the status IN_TRANSIT lower-cases to "in_transit" and falls through to gray | compare the status's words, so IN_TRANSIT is blue | high (not executed) | Track.TrackStatusColorAsWrittenDiffers | Track.TrackStatusColorIntended |
| src/components/modules/receiver/IncomingParcels.tsx:38-44 | `confirmDelivery` is imported from src/lib/parcels.ts, which exports no such name; a bundler refuses the import, and where it is bound at all it is `undefined`, so the call at line 84 raises | confirming any parcel out for delivery: the failure toast shows and the dialog stays open | call an exported confirmation endpoint, so an accepted confirmation closes the dialog | high (not executed) | IncomingParcels.IncomingParcelsState.HandleConfirmAsWritten | IncomingParcels.IncomingParcelsState.HandleConfirm |
