# Pulse Industry store model

A Dafny model of the deterministic core of the Pulse Industry store-management web
app. It covers:

- the store role policy: the owner, admin and manager roles, the permission
  identifiers and the read-only table that maps each role to its permissions;
- how a member's role is derived from a store record, and the AND-semantics
  permission check built on it;
- the team views derived from a store: the admin and manager buckets, the team list
  with its placeholder for the viewer, and the acting member;
- the snapshot retention of `useEnsuredStore`, as a class whose field outlives renders;
- the records written when a store, a product or a team member is added, and the
  product pager's cursor and replace-on-non-empty rule;
- the validation schemas of the product and sign-up forms, including the password
  expression, read literally;
- the product form's tag editor, submission and prefill, and the product page's
  permission gating;
- the add-member page's role options, duplicate guard and member record;
- the store settings page's gates, team rows, "(You)" marker and role tags;
- the responsive range resolver of the `Inline` layout component.

Files:

- `js_util.dfy` (module `JsUtil`) holds the pieces of JavaScript semantics the code
  relies on: `x || fallback` on strings, `indexOf`, UTF-16 `length`, `trim` and
  `slice`.
- `policy.dfy` is the role table.
- `stores.dfy` covers the store derivations and writes.
- `ensured_store.dfy` (module `Retention`) is the retention class.
- `products.dfy` covers product records and paging.
- `product_forms.dfy` holds the form shared by the add-product and product pages.
- `signup.dfy`, `team_invite.dfy` and `store_settings.dfy` are the three pages.

Database reads and writes are modelled as plain values:

- a snapshot is an `Option<Store>`;
- the writes are returned as records;
- each awaited result (user existence, user profile, save result, write result) is a parameter, which either resolves or rejects with a message.

Where the source's own documentation and its code disagree, the model follows the
code:

- Without a signed-in user, the acting member's id is the literal `"id"`, not empty.
  So the permission check answers with the role that `"id"` gets in the store, which
  is usually the manager's, and not with false (`Stores.NoViewerActsAsManager`).
- `useRef(storeData)` seeds the retained store with the first snapshot even when that
  snapshot has no name. Only later snapshots are filtered by name.

## Model

| member | source | states |
|---|---|---|
| Policy.GetStoreRoleDetails | src/data/store.ts:168-170 | the table entry of a role carries that role as its id |
| Policy.GrantedMatchesReference | src/data/store.ts:313-369 | for every role and permission, the table grants exactly what an independent per-permission policy says |
| Policy.PolicyTableExact | src/data/store.ts:313-369 | each role's permission set written out: owner 8 permissions, admin 6 (with ADD_MANAGER_ONLY), manager only UPDATE_INVENTORY |
| Policy.RolesNotNested | src/data/store.ts:313-369 | admin's set is not below the owner's (ADD_MANAGER_ONLY), the manager's permission is held by all, owner minus admin is exactly ADD_MEMBER, DELETE_STORE, UPDATE_STORE |
| Policy.PermissionListsDistinct | src/data/store.ts:313-369 | no entry lists a permission twice |
| JsUtil.IndexOf | src/data/store.ts:181 | -1 exactly when absent; otherwise the position of the first occurrence |
| JsUtil.Trim | src/data/store.ts:116 | the result is a slice of the input whose cut prefix and cut suffix are whitespace only, and it neither starts nor ends with whitespace |
| JsUtil.Slice | src/components/Inline.tsx:78 | in-range indices give the ordinary subsequence; an end at or before the start gives the empty list |
| JsUtil.JsLength | src/pages/AddNewProduct.tsx:49-57 | the UTF-16 length is at least the number of characters, and equal when all are in the basic plane |
| Stores.GetStoreRoleDetailsForMember | src/data/store.ts:172-190 | empty id gives manager; otherwise owner iff the owner id, admin iff not owner and in the admins list, else manager; the result is that role's table entry |
| Stores.EveryListed | src/data/store.ts:206 | true iff every requested permission is in the granted list |
| Stores.CheckIfTeamMemberCan | src/data/store.ts:196-207 | false for an empty id; otherwise true iff every requested permission is granted to the member's role |
| Stores.CheckConcat | src/data/store.ts:206 | asking for two lists at once is asking for each (AND semantics) |
| Stores.CheckFailsOnAnyMissingPermission | src/data/store.ts:206 | one missing permission among several makes the check fail |
| Stores.CheckByRole | src/data/store.ts:172-207 | the owner may do everything except ADD_MANAGER_ONLY, even when also listed as admin; a manager only UPDATE_INVENTORY; an admin all but ADD_MEMBER, DELETE_STORE, UPDATE_STORE; an empty request succeeds |
| Stores.ScenarioChecks | src/data/store.ts:172-207 | a concrete store with owner, admin and manager answers each role's checks as the table says |
| Stores.MembersListedInMembership | src/data/store.ts:227-234 | a member is in a bucket iff it is in the team and its id is in the store's list |
| Stores.MembersListedInAppend | src/data/store.ts:227-234 | bucketing keeps team order: it works piecewise over concatenation |
| Stores.MembersListedInExtremes | src/data/store.ts:228-232 | an absent id list gives an empty bucket; a list holding every id gives the whole team |
| Stores.InvolvedTeamWithRoles | src/data/store.ts:218-240 | the loop's admins and managers are the team members listed in the store's admins and managers, in team order, and the owner is the store's owner snapshot |
| Stores.MemberInBothLists | src/data/store.ts:227-234 | a member listed in both store lists lands in both buckets |
| Stores.ScenarioBuckets | src/data/store.ts:218-240 | a concrete team is bucketed as its ids say, and unlisted members are dropped |
| Stores.InvolvedTeam | src/data/store.ts:242-254 | empty without a viewer; the viewer's placeholder ("You", empty email and phone) for an empty team; the team itself otherwise |
| Stores.SelfPlaceholder | src/data/store.ts:245-252 | the viewer's uid, the display name or "You", the email and phone or "", and no join stamp |
| Stores.FirstIndexOfId | src/data/store.ts:257 | the first position with that id, or -1 when there is none |
| Stores.FindById | src/data/store.ts:257 | the first member with the id, or None when no member has it |
| Stores.FallbackMember | src/data/store.ts:258-267 | the record used when the viewer is not listed: its id is never empty (the uid, or "id"), its name never empty (the display name, or "User"), phone and join stamp from the account |
| Stores.AuthTeamMemberDetails | src/data/store.ts:256-268 | the first team-list entry with the viewer's id when there is one, else the fallback record; the id is the viewer's non-empty uid, or "id" without a viewer |
| Stores.CheckIfAuthenticatedTeamMemberCan | src/data/store.ts:270-279 | true iff the acting id is non-empty and its role holds the first and every further permission |
| Stores.ViewerActsWithOwnRole | src/data/store.ts:256-279 | a signed-in viewer is checked with its own uid's role whatever the team list holds |
| Stores.EmptyTeamActingIsPlaceholder | src/data/store.ts:242-268 | with an empty team the acting member is the viewer's placeholder |
| Stores.NoViewerActsAsManager | src/data/store.ts:260-268 | without a viewer the acting id "id" gets the manager's permissions, not a refusal |
| Stores.AddTeamMemberWrites | src/data/store.ts:371-402 | the member document keeps the given fields and gets the join stamp; the id is appended to sharedWith and to the admins list for admin or the managers list otherwise, an absent list counting as empty |
| Stores.ApplyStoreUpdate | src/data/store.ts:394-398 | the merge writes sharedWith and the one role list the update carries; the other role list, the name, address, owner and ids stay as they were |
| Stores.AddedMemberTakesRole | src/data/store.ts:382-398 | after the update the new id is shared and has the requested role (the owner stays owner), no other id changes role, and nothing is de-duplicated |
| Stores.AddedMemberJoinsBucket | src/data/store.ts:227-234 | the new member document lands at the end of its role's bucket |
| Stores.NewStore | src/data/store.ts:102-131 | the store record: document id, trimmed name, the creator as owner id, owner snapshot and sole sharer, no admin or manager list |
| Stores.CreatorIsOwner | src/data/store.ts:113-126 | the creator's role is owner with every owner permission, and the new store's buckets are empty |
| Retention.NextRetained | src/data/store.ts:156-161 | a snapshot with a name replaces the retained store; any other keeps it |
| Retention.RenderResult | src/data/store.ts:162-165 | "Store not found" iff nothing is retained; otherwise the retained store, flagged deleted iff the current snapshot is missing or nameless |
| Retention.EnsuredStore.constructor | src/data/store.ts:154 | the ref is seeded with the first snapshot as it is, with or without a name |
| Retention.EnsuredStore.Render | src/data/store.ts:149-166 | the field is updated and the render answered as the two functions above say |
| Retention.IsLive | src/data/store.ts:156 | a snapshot counts iff it exists and has a non-empty name; its use is stated by NextRetained and RenderResult |
| Retention.RetainedAfter | src/data/store.ts:154-161 | the ref after a series of renders; what it holds is stated by RetainedIsLastLive |
| Retention.LastLive | src/data/store.ts:156 | a snapshot with a name that no later snapshot of the series follows with a name, or None exactly when none has one |
| Retention.RetainedIsLastLive | src/data/store.ts:154-161 | after any series of renders the retained store is the last snapshot with a name, or the seed when there is none |
| Retention.NotFoundOnlyIfNeverRetained | src/data/store.ts:162-164 | the error is raised iff the seed was empty and no snapshot so far had a name |
| Retention.BlankNamedStoreReadsDeleted | src/data/store.ts:116 | a store created with a whitespace-only name is stored nameless and so always reads as deleted |
| Products.NewProduct | src/data/products.ts:85-111 | id and store id as given; non-empty tags kept, else []; inventory total = left = available stock with sold 0, so total = sold + left; addedBy is the uid or "missing" |
| Products.StartAfterDoc | src/data/products.ts:50 | null on page 1 or below; `products[currentPage - 2]` when that index exists; undefined past the end |
| Products.ProductPager.constructor | src/data/products.ts:47-48 | the pager starts on page 1 with no products |
| Products.ProductPager.FetchMore | src/data/products.ts:68-70 | the page grows by exactly one and the list is kept |
| Products.ProductPager.OnResult | src/data/products.ts:62-66 | a non-empty result replaces the list; an empty one leaves it |
| Products.SecondPageCursorIsFirstProduct | src/data/products.ts:50 | page 2 starts after the first product on screen, and a short list gives an undefined cursor further on |
| ProductForms.NameIssues | src/pages/AddNewProduct.tsx:45-50 | no issue iff the name has at least 4 UTF-16 units; all issues sit on the name |
| ProductForms.DescriptionIssues | src/pages/AddNewProduct.tsx:51-57 | no issue iff the description has 50 to 300 units |
| ProductForms.NonNegativeIssues | src/pages/AddNewProduct.tsx:58-63 | no issue iff the number is non-negative |
| ProductForms.RefinementIssues | src/pages/AddNewProduct.tsx:65-79 | a price below 1 gives only the price issue; the stock issue comes only with a price of at least 1; none iff both are at least 1 |
| ProductForms.ProductFormIssues | src/pages/Product.tsx:48-85 | the field checks, then the refinement; which inputs it accepts and which fields it reports are stated by ProductFormAccepted and ProductFormIssuesPerField |
| ProductForms.ProductFormAccepted | src/pages/AddNewProduct.tsx:43-80 | the schema accepts iff name has at least 4 units, description 50 to 300, price and stock at least 1 |
| ProductForms.ProductFormIssuesPerField | src/pages/Product.tsx:48-85 | which fields are reported: the stock field for a value below 0, or below 1 only once the price is valid |
| ProductForms.AppendTag | src/pages/AddNewProduct.tsx:204-212 | the current text is appended to the list, an absent or empty list counting as empty, with no empty or duplicate check |
| ProductForms.RemoveTag | src/pages/AddNewProduct.tsx:237-239 | the tag no longer occurs and every other tag keeps its number of occurrences |
| ProductForms.RemoveTagConcat | src/pages/AddNewProduct.tsx:237-239 | removal works piecewise over concatenation, so the rest keeps its order |
| ProductForms.RemoveAbsentTag | src/pages/AddNewProduct.tsx:237-239 | removing a tag that is not there changes nothing |
| ProductForms.RemoveAfterAppend | src/pages/AddNewProduct.tsx:204-239 | adding a tag then closing its chip removes it everywhere; a new tag's round trip restores the list |
| ProductForms.ApplyEdit | src/pages/AddNewProduct.tsx:126-265 | each form action sets its own field and leaves every other field and the tag text as they were; Enter appends and clears the text |
| ProductForms.ProductForm.constructor | src/pages/AddNewProduct.tsx:84-88 | the form starts with the given values, an empty tag input and not saving |
| ProductForms.ProductForm.Edit | src/pages/AddNewProduct.tsx:126-265 | the form object changes as `ApplyEdit` says |
| ProductForms.SubmitPayload | src/pages/AddNewProduct.tsx:96-101 | name, description, price and tags as in the form; the stock goes out as availableStock |
| ProductForms.PrefilledValues | src/pages/Product.tsx:111-119 | the product's own fields, with stock = inventory.left, or 0 when absent |
| ProductForms.ProductForm.Prefill | src/pages/Product.tsx:111-119 | with a product the form holds its prefilled values; without one the form is unchanged |
| ProductForms.ProductForm.SubmitNewProduct | src/pages/AddNewProduct.tsx:93-116 | nothing is sent on a schema issue; otherwise the payload is sent, a truthy id clears the form to name "", description "", 0, 0, [], an empty id leaves it saving, and an error ends saving |
| ProductForms.ProductForm.SubmitUpdate | src/pages/Product.tsx:121-139 | the same gate and payload; the values are kept and saving ends unless the id is empty |
| ProductForms.ClearedFormIsRejected | src/pages/AddNewProduct.tsx:102-109 | the cleared form fails the schema on name and price but not on stock |
| ProductForms.ProductAddedFromForm | src/pages/AddNewProduct.tsx:96-101 | a product added from an accepted form costs at least 1, stocks the form's count with none sold, and carries the form's tags or [] |
| ProductForms.PrefillRoundTrip | src/pages/Product.tsx:111-129 | opening a newly added product and saving it unchanged sends back its name, description, price, stock and tags |
| ProductForms.ProductPage | src/pages/Product.tsx:162-178 | edit button iff not editing; save button iff editing; the banner chosen by UPDATE_PRODUCT, then UPDATE_INVENTORY, else ""; and the negations of the `disabled` values Product.tsx computes: product inputs iff editing and UPDATE_PRODUCT, stock iff editing and UPDATE_INVENTORY (the input components do not apply them: EditEnabledAsWritten) |
| ProductForms.ProductPageFor | src/pages/Product.tsx:141-146 | the page is gated by the acting member's UPDATE_PRODUCT and UPDATE_INVENTORY; its meaning by role is ProductPageByRole |
| ProductForms.EditEnabledAsWritten | src/components/Forms.tsx:8-30 | as written every action reaches the form: `InputField` and `InputAreaField` take no `disabled` prop and the chip close icon has no gate |
| ProductForms.ProductPageByRole | src/pages/Product.tsx:141-146 | the computed flags by role: owners and admins have every input computed as enabled in edit mode, a manager only the stock with the inventory banner, an id-less member none |
| ProductForms.ManagerEditsAnyFieldAsWritten | src/pages/Product.tsx:191-298 | as written a manager, in edit mode or not, renames the product, rewrites its description and price and removes a tag, every one of these actions refused by the intended gate |
| ProductForms.DisabledFieldsStayUnchanged | src/pages/Product.tsx:191-318 | with the intended gate, while product inputs are disabled any series of allowed actions changes only the stock |
| ProductForms.ManagerEditsOnlyInventory | src/pages/Product.tsx:141-146 | with the intended gate (the computed `disabled` values applied, the chip included), a manager's edits change only the stock |
| Signup.PasswordRegexIsStrongPassword | src/pages/Signup.tsx:25-26 | the expression read literally, lookaheads stopping at line terminators, matches exactly the passwords of at least 8 allowed characters with a letter, a digit and one of @$!%*?& |
| Signup.PasswordIssues | src/pages/Signup.tsx:39-58 | no issue on a password field iff the password is strong |
| Signup.MismatchIssues | src/pages/Signup.tsx:60-68 | differing passwords give exactly one issue, on the confirmation, "The passwords did not match" |
| Signup.FullNameIssues | src/pages/Signup.tsx:30-32 | every issue is on the name field, and there is none iff the name is non-empty |
| Signup.EmailIssues | src/pages/Signup.tsx:33-38 | every issue is on the email field, and there is none iff the email is non-empty and address-shaped |
| Signup.ConfirmationIssues | src/pages/Signup.tsx:48-68 | every issue is on the confirmation, and there is none iff the confirmation is strong and equals the password |
| Signup.SignupIssues | src/pages/Signup.tsx:28-68 | the name is reported iff empty, the email iff empty or not address-shaped, the password iff not strong, the confirmation iff not strong or different from the password |
| Signup.FieldsReported | src/pages/Signup.tsx:28-68 | a list made of one run of issues per field reports a field iff that field's run is non-empty |
| Signup.SignupAccepted | src/pages/Signup.tsx:28-68 | accepted iff name and email are non-empty, the email is address-shaped, the password is strong and the confirmation equals it |
| Signup.MismatchReportedOnce | src/pages/Signup.tsx:60-68 | two different strong passwords produce the mismatch issue and nothing else |
| Signup.SignupSubmission | src/pages/Signup.tsx:79-86 | registration is called iff the form is accepted, with email, password and name only |
| Signup.RegisteredPasswordIsStrong | src/pages/Signup.tsx:79-86 | every registered password is strong and equals its confirmation |
| Signup.PasswordExamples | src/pages/Signup.tsx:25-26 | "abcdefg1!" passes; eight letters, or a password with a space, fail |
| TeamInvite.AdminOptionShownAsWritten | src/pages/AddTeamMember.tsx:74-76 | the admin radio is rendered iff the acting member is not allowed ADD_MANAGER_ONLY; by role, AdminOptionByRoleAsWritten |
| TeamInvite.AdminOptionByRoleAsWritten | src/pages/AddTeamMember.tsx:74-76 | as written the admin option is shown iff the acting member is not an admin, which includes managers and id-less members |
| TeamInvite.ManagerOfferedAdminAsWritten | src/pages/AddTeamMember.tsx:155-165 | as written a manager, who holds neither add permission, is offered the admin role |
| TeamInvite.AdminOptionOnlyForOwner | src/pages/AddTeamMember.tsx:155-165 | with the intended gate only owners see the admin option, and the gates differ exactly for managers and id-less members |
| TeamInvite.FirstIndexOfEmail | src/pages/AddTeamMember.tsx:82 | the first member whose email is the typed one, or -1; members without an email never match |
| TeamInvite.MemberRecord | src/pages/AddTeamMember.tsx:101-109 | user id, with name, email and phone taken from the profile or "" when falsy |
| TeamInvite.AddMemberDecision | src/pages/AddTeamMember.tsx:78-118 | "already exist" iff the first email match has a truthy id; then a rejected existence lookup fails with its message; "does not exist" iff the lookup says so; then a rejected profile lookup fails with its message; "Something went wrong" iff no profile; else the record with the selected role |
| TeamInvite.ListedEmailNeverAdded | src/pages/AddTeamMember.tsx:81-88 | an email held by a team member with an id is never added again |
| TeamInvite.OwnEmailOnEmptyTeam | src/pages/AddTeamMember.tsx:81-88 | with an empty team a viewer typing their own email is told they are already in the store |
| TeamInvite.RolePanelFor | src/pages/AddTeamMember.tsx:176-195 | the panel is the selected role's title and description lists from the table |
| TeamInvite.AddMemberPage.constructor | src/pages/AddTeamMember.tsx:56-76 | the page starts on the manager role with both radios unchecked, an empty email and not adding, and shows the admin radio iff the acting member lacks ADD_MANAGER_ONLY, as the code is written |
| TeamInvite.Click | src/pages/AddTeamMember.tsx:147-165 | a click checks its radio and, only if it was unchecked, selects its role; a click on a checked radio changes nothing; no radio is unchecked |
| TeamInvite.SettledOnceBothChecked | src/pages/AddTeamMember.tsx:147-165 | once both radios have been clicked, no series of clicks changes the selected role |
| TeamInvite.AdminManagerAdminEndsOnManager | src/pages/AddTeamMember.tsx:147-165 | clicking admin, manager, admin leaves the manager role selected |
| TeamInvite.AddMemberPage.ClickManager | src/pages/AddTeamMember.tsx:147-154 | the radio state moves as Click says for the manager radio; the email and adding state are kept |
| TeamInvite.AddMemberPage.ClickAdmin | src/pages/AddTeamMember.tsx:155-165 | callable whenever the admin radio is rendered, which includes managers and id-less members; the radio state moves as Click says |
| TeamInvite.AddMemberPage.TypeEmail | src/pages/AddTeamMember.tsx:126-145 | the email field takes the typed text |
| TeamInvite.AddMemberPage.Submit | src/pages/AddTeamMember.tsx:78-118 | nothing happens on a schema failure; otherwise the decision is taken with the selected role, a rejected lookup or write ends as a failure with its message, only an addition whose writes resolve clears the email, the radios are kept, and adding ends on every outcome |
| TeamInvite.InvitedAdminOnlyByOwner | src/pages/AddTeamMember.tsx:147-165 | with the intended gate the admin role is submitted only by an owner |
| TeamInvite.InitialPanelIsManager | src/pages/AddTeamMember.tsx:176-195 | the page opens on the manager's panel, its three restrictions listed |
| StoreSettings.Gates | src/pages/StoreSettings.tsx:53-61 | the delete, add and remove controls follow DELETE_STORE, ADD_MEMBER or ADD_MANAGER_ONLY, and REMOVER_MEMBER; by role, GatesByRole |
| StoreSettings.GatesByRole | src/pages/StoreSettings.tsx:53-61 | delete iff owner; add button and remove permission iff owner or admin |
| StoreSettings.RoleTagFor | src/pages/StoreSettings.tsx:237-266 | success colours iff owner, warning iff manager, primary iff admin |
| StoreSettings.RoleTagsDistinct | src/pages/StoreSettings.tsx:242-259 | different roles get different backgrounds and text colours |
| StoreSettings.RowCaption | src/pages/StoreSettings.tsx:213 | the name, a space and "(You)" on the viewer's row only |
| StoreSettings.RowCaptionMarksViewer | src/pages/StoreSettings.tsx:213 | a caption ends in " (You)" iff it is the viewer's row |
| StoreSettings.BucketRows | src/pages/StoreSettings.tsx:128-155 | one row per bucket member, in bucket order, with the bucket's role |
| StoreSettings.MemberRows | src/pages/StoreSettings.tsx:122-155 | one row for the owner plus one per admin and manager |
| StoreSettings.MemberRowsLayout | src/pages/StoreSettings.tsx:122-155 | owner first without remove, then admins, then managers; "(You)" iff the viewer's row; remove iff a non-owner row, remove allowed, and not the viewer; tag per role |
| StoreSettings.ManagerSeesNoControls | src/pages/StoreSettings.tsx:53-78 | a manager sees no delete action, no add button and no remove control |
| ResponsiveRange.IndexOfIsPosition | src/components/css/theme.ts:123-134 | each breakpoint's index in the order is its position, with no repeats |
| ResponsiveRange.ResolveResponsiveRangeProps | src/components/Inline.tsx:58-88 | six flags; all false with neither bound; otherwise flag i iff start ≤ i ≤ end |
| ResponsiveRange.IndicesBounded | src/components/Inline.tsx:74-77 | start lies in 0..6 and end in -1..5, each one past or before its bound's position |
| ResponsiveRange.SliceMembership | src/components/Inline.tsx:78 | the i-th name is in the slice iff i lies in it |
| ResponsiveRange.InRangeIffBetween | src/components/Inline.tsx:78-87 | a name is in the resolved range iff its position is between the indices |
| ResponsiveRange.BelowOnly | src/components/Inline.tsx:75-78 | `below` alone sets exactly the breakpoints before it |
| ResponsiveRange.AboveOnly | src/components/Inline.tsx:74-78 | `above` alone sets exactly the breakpoints after it |
| ResponsiveRange.EmptyWhenBoundsTooClose | src/components/Inline.tsx:74-78 | bounds less than two positions apart set nothing |
| ResponsiveRange.FlagsContiguous | src/components/Inline.tsx:78-87 | the set flags form one contiguous run |
| ResponsiveRange.BelowMdExample | src/components/Inline.tsx:58-88 | `below: "md"` gives xs and sm only |
| ResponsiveRange.InlineFlexDirection | src/components/Inline.tsx:34-44 | a caller's flexDirection wins; otherwise "col" at xs, sm, md exactly where the first three flags are set |
| ResponsiveRange.CollapseBelowStacksSmallerBreakpoints | src/components/Inline.tsx:34-44 | collapsing below b stacks exactly the breakpoints before b among xs, sm, md; without it the layout is a row |

## Left out

- Database reads, writes, subscriptions and server timestamps. Snapshots, lookups and save results are parameters, and writes are returned as records. A join stamp is a string parameter.
- The team list's ordering by name. That ordering is done by the database query, so the model takes the team in the order it is given.
- React hook memoisation and re-render timing. Each render is one call of the model.
- TeamInvite.AddMemberPage: `adminOptionShown` is fixed when the page is built, while the source recomputes `canAddManagersOnly` on every render. A role change while the page is open, which can unmount the admin radio with "admin" still selected, is not modelled.
- The no-user path of `useAddStore`. The model takes the creator as present.
- `Stores.AuthTeamMemberDetails`: the fallback record's extra `uid` key is not part of `TeamMember`.
- `useRemoveMember`. It deletes only the team document. The model leaves `admins`, `managers` and `sharedWith` untouched, and no operation removes a member.
- Reverse geocoding and browser geolocation. These are network and browser calls.
- The identity-provider wrappers behind register, login, logout, profile and user-existence lookup. They are foreign calls; their answers are parameters.
- Locale number formatting. It needs `Intl`.
- Styling tables, rendering components, routing and the discarded `<Navigate>` expressions in the product page. They carry no behaviour. The exception is which props `InputField` and `InputAreaField` pass on: they drop `disabled`, `checked` and `readonly`, and the model states the consequences (`ProductForms.EditEnabledAsWritten`, `TeamInvite.Click`).
- The validation library's `.email()` test. It is a parameter, `emailShaped`.
- Errors for fields left unset. The form values are always present.
- The library's default messages. They are None.
- How the validation library sequences a refinement after a type failure.
- The password expression duplicated on the login page. It is the same expression.
- The paging query itself: filter, order, `startAfter` with an undefined cursor, and the limit of 4. Only the cursor argument and the list update are modelled.
- Toasts, loading spinners and the CSS capitalisation of the role tag text. These are display only.
- `Products.ProductPager.FetchMore`: page numbers are unbounded integers. JavaScript's number precision is not modelled.

## Findings

| source | as written | input that shows it | evidently intended | confidence | as-written member | corrected member |
|---|---|---|---|---|---|---|
| src/pages/AddTeamMember.tsx:74-76, 155-165 | the admin radio is shown whenever the acting member lacks ADD_MANAGER_ONLY | a manager (or a member without an id) opens the add-member page: ADD_MANAGER_ONLY is not held, so the admin role is offered and can be submitted | only a member holding ADD_MEMBER (the owner) is offered the admin role | medium, not executed | TeamInvite.ManagerOfferedAdminAsWritten | TeamInvite.AdminOptionOnlyForOwner |
| src/pages/Product.tsx:191-318 | the page computes `disabled` for every input from isEdit, UPDATE_PRODUCT and UPDATE_INVENTORY, but `InputField` and `InputAreaField` (src/components/Forms.tsx:8-30, 169-189) take no `disabled` prop, and the tag chip's close icon has no gate at all | a manager opens a product and, without pressing "Edit Product", types a new name, or closes the chip of the tag "organic": the form takes the change, and Save in edit mode sends it | each input is disabled as the page computes, the chip included, so a manager's edits change only the stock | medium, not executed | ProductForms.ManagerEditsAnyFieldAsWritten | ProductForms.ManagerEditsOnlyInventory |

The add-member page class, `TeamInvite.AddMemberPage`, follows the code as written: its admin radio is built with `TeamInvite.AdminOptionShownAsWritten`. The corrected gate is `TeamInvite.AdminOptionShown`. `TeamInvite.InvitedAdminOnlyByOwner`, which takes the gate as a parameter, states what the corrected gate guarantees.
