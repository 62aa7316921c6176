# Admin panel page logic, modelled in Dafny

The admin panel is a set of React screens over a REST backend: a dashboard, a
campaign list, a user list and user detail page, a restriction page that
restricts, suspends or activates users, and a billing page that edits, adds
and removes plans. The screens hold no algorithm, but each embeds small,
deterministic rules. This project states those rules as pure Dafny functions
over immutable records and proves what they guarantee:

- the campaign filter (exact status filter AND a view mode), its buckets and
  button counts, and the engagement-tier and status colour tables;
- the restriction page's user-to-row transform, the "rewrite only the matching
  row" status update, and what each action button does after a successful or
  failed PATCH;
- the generic table component's header and body grid;
- the billing page's per-plan edit map, its `saving` / `removing` flags, and
  the save, add and remove handlers;
- the plan-code labels of three screens, role, status and activity badges, the
  period selector, and the render precedence of every screen;
- the dashboard's `|| default` normalisation and its "No data" fallback rows.

JavaScript semantics the rules depend on are modelled explicitly in `js.dfy`:
truthiness, the `||` operator, and the conversion of a value to an object
property key. The last one matters: UserDetail's `planNumberToName` is written
with numeric keys only, yet `'2'` finds `premium` there because object keys
are strings. `Users.PlanKeys` proves that exactly the numbers and digit
strings 1, 2 and 3 hit the table, and nothing else does.

Each async handler is a pure transition. Its input is the state before the
click and an outcome saying which await failed, if any. Its result is the
state after the `finally` block. Each awaited request is a `Js.Outcome`:
`Success(payload)` or `Failure`.

Notes on what the source does, which a reader might expect otherwise:

- The restriction page changes a row's status only after the PATCH succeeds.
  It is not an optimistic update, and on failure the list is unchanged.
- The dashboard awaits its three reads one after another, not concurrently.
  A rejection skips the remaining reads.
- Adding or removing a plan re-reads only the plan list, not the billing table.
- A save whose final billing refresh fails has already cleared the edit and
  refreshed the plans. So "on failure the edit is kept" holds only when the
  PATCH or the plans refresh fails.
- If an add's POST succeeds but its plans refresh fails, the form is already
  reset, yet the failure message is shown. The same holds for a remove: its
  DELETE succeeded, but the failure message is shown.
- A failed statistics read on the user detail page keeps the previous period's
  figures, now labelled with the newly selected period.

## Model

| member | source | states |
|---|---|---|
| Js.Or | src/pages/RestrictionPage.jsx:23 | `a \|\| b` is truthy iff either operand is; it yields the first operand when that is truthy, otherwise the second |
| Js.NatToStringRoundTrip | src/pages/admin/UserDetail.jsx:17 | reading back the decimal key a number is stored under gives the number, so distinct numbers have distinct keys |
| Js.NumKeyIsDigit | src/pages/RestrictionPage.jsx:100 | a number is found under a one-digit key exactly when it equals that digit; `-1`, `10` or `21` never hit key `'1'` or `'2'` |
| Js.StringOnlyKey | src/pages/admin/UserList.jsx:42 | a key containing a letter, other than the literals undefined/null/true/false, is reached only by that very string |
| Js.Lookup | src/pages/admin/UserList.jsx:84 | an object-literal lookup finds an entry iff the value's property key is one of the table's keys |
| Text.Capitalise | src/pages/Billing.jsx:181 | capitalisation keeps the length, upper-cases only the first character, keeps the rest, and maps "" to "" |
| Text.CapitaliseIdempotent | src/pages/Billing.jsx:181 | capitalising a displayed plan name again changes nothing |
| Text.CapitaliseFixesCapitalised | src/pages/Billing.jsx:39 | a name that does not start with a lower-case letter is displayed exactly as stored |
| Text.CapitaliseCollapsesFirstCase | src/pages/Billing.jsx:181 | two plan names display alike iff they differ at most in the case of their first letter |
| Seqs.Filter | src/pages/app/CampaignList.jsx:55-60 | the filtered list is no longer than the input; it holds only accepted elements of the input, and every accepted element as many times as the input holds it |
| Seqs.FilterIsSubsequence | src/pages/app/CampaignList.jsx:55-60 | filtering yields an order-preserving subsequence of the input |
| Seqs.FilterKeepsAll | src/pages/app/CampaignList.jsx:55-60 | a predicate accepting every element returns the input list itself |
| Seqs.FilterExtensional | src/pages/app/CampaignList.jsx:62-63 | predicates that agree on every element give the same filtered list |
| Seqs.FilterConjunction | src/pages/app/CampaignList.jsx:55-60 | filtering by p then by q equals filtering once by p AND q |
| Seqs.DisjointFiltersFit | src/pages/app/CampaignList.jsx:62-63 | two filters that never accept the same element keep at most the input's length between them |
| Screen.Mounted | src/pages/admin/UserList.jsx:8-10 | a page mounts loading, with no error and its initial data |
| Screen.Render | src/pages/admin/UserList.jsx:49-58 | loading wins over an error, an error (a non-empty message) wins over the content |
| Screen.Settle | src/pages/admin/UserList.jsx:13-23 | after the read settles the page is no longer loading; a success stores the payload, a rejection stores the page's message and keeps the initial data |
| Screen.PromiseAll | src/pages/app/CampaignList.jsx:19-22 | the joined read succeeds iff both reads do, with both payloads |
| Screen.MountedShowsLoading | src/pages/admin/UserList.jsx:49-53 | a freshly mounted page shows its placeholder |
| Screen.SettledView | src/pages/admin/UserList.jsx:13-58 | once settled a page shows the payload, or the message on rejection, and never the placeholder again |
| Badges.VerifiedBadge | src/pages/admin/UserList.jsx:27-32 | "Active" (green) iff `isVerified` is truthy, else "Inactive" (red); UserDetail.jsx:52-59 is the same rule |
| Badges.RoleKeys | src/pages/admin/UserList.jsx:36-41 | only the strings themselves reach the admin, active, restricted and default entries of the role table |
| Badges.RoleColour | src/pages/admin/UserList.jsx:36-42 | purple iff the role is "admin", blue iff "active", orange iff "restricted", grey for every other value |
| Badges.RoleBadge | src/pages/admin/UserList.jsx:43 | the badge text is the role when truthy, else "Not set" (grey), and is never blank; UserDetail.jsx:70 is the same |
| Badges.ActivityKeys | src/pages/admin/UserDetail.jsx:75-80 | only the strings themselves reach the sent, reply, ai-reply and manual-reply entries |
| Badges.ActivityBadge | src/pages/admin/UserDetail.jsx:73-83 | blue, green, purple, orange exactly for sent, reply, ai-reply, manual-reply; grey for anything else; the text is the type |
| Users.PlanKeys | src/pages/RestrictionPage.jsx:100 | the plan table is hit exactly by the numbers and digit strings 1, 2 and 3 |
| Users.PlanCodeName | src/pages/admin/UserList.jsx:47 | codes 1/'1', 2/'2', 3/'3' name basic, premium, premiumPlus; every other value finds nothing |
| Users.PlanCodeValue | src/pages/admin/UserDetail.jsx:155 | the lookup result is truthy iff the plan is a code, and then it is the plan's name |
| CampaignList.FilteredCampaigns | src/pages/app/CampaignList.jsx:55-60 | the shown campaigns are an order-preserving subsequence; a campaign is kept, as often as it is fetched, iff it matches the status filter (empty, or exact equality) AND its view mode (all; active or paused; completed) |
| CampaignList.UnfilteredShowsAll | src/pages/app/CampaignList.jsx:12-13 | the screen opens with an empty status filter in mode "all" (lines 12-13), which by the filter at lines 55-60 shows exactly the fetched list |
| CampaignList.FilterIsConjunction | src/pages/app/CampaignList.jsx:55-60 | the filter equals the status filter followed by the view-mode filter |
| CampaignList.ActiveCampaigns | src/pages/app/CampaignList.jsx:62 | the active bucket holds exactly the active or paused campaigns of the list, each as often as the list holds it |
| CampaignList.FinishedCampaigns | src/pages/app/CampaignList.jsx:63 | the finished bucket holds exactly the completed campaigns of the list, each as often as the list holds it |
| CampaignList.BucketsFit | src/pages/app/CampaignList.jsx:62-63 | the buckets are disjoint, so the active and finished counts sum to at most the total |
| CampaignList.ModeCount | src/pages/app/CampaignList.jsx:119-123 | a mode button's count never exceeds the number of campaigns |
| CampaignList.ModeCountIsRowCount | src/pages/app/CampaignList.jsx:119-123 | a mode button's count is the number of rows that mode shows with no status filter |
| CampaignList.StatusBadge | src/pages/app/CampaignList.jsx:36-46 | green iff active, yellow iff paused, blue iff completed, grey for draft and any other status |
| CampaignList.StatusBadgeMatchesBuckets | src/pages/app/CampaignList.jsx:36-46 | a status badge is green or yellow iff its campaign is in the active bucket (line 62), and blue iff it is in the finished bucket (line 63) |
| CampaignList.RateOf | src/pages/app/CampaignList.jsx:209 | a present engagement rate is used as it is; a missing one is read as 0 |
| CampaignList.EngagementColour | src/pages/app/CampaignList.jsx:48-53 | total and exclusive tiers: green iff rate ≥ 10, yellow iff 5 ≤ rate < 10, red iff rate < 5 |
| CampaignList.EngagementMonotone | src/pages/app/CampaignList.jsx:48-53 | a higher rate never earns a lower tier |
| CampaignList.MissingRateIsRed | src/pages/app/CampaignList.jsx:209 | a campaign without a rate is shown red |
| CampaignList.RowOf | src/pages/app/CampaignList.jsx:170-215 | name and sender are copied; the "Language:" line shows iff the language is truthy, with that language; the creator name and email are the populated user's when truthy, else "Unknown" and "No email", so never blank; sent, to-send, replies and duration fall back to 0 when falsy; the engagement colour is the tier of the rate |
| CampaignList.LoadCampaigns | src/pages/app/CampaignList.jsx:15-31 | either read's rejection leaves no campaigns and the error "Failed to fetch campaigns"; both succeeding store both payloads |
| CampaignList.PageOf | src/pages/app/CampaignList.jsx:115-248 | the mode counts are the mode buttons' counts: the total and the sizes of the active and finished buckets, with active + finished ≤ total; one row per filtered campaign in order; the empty notice shows iff no row does |
| CampaignList.CampaignScreen | src/pages/app/CampaignList.jsx:65-83 | the placeholder shows iff loading; otherwise a set error shows its message instead of the page; the page, built from the stored data, shows iff neither |
| DataTable.Cell | src/components/DataTableStop.jsx:21 | a cell is `render(row)` when the column has a renderer, else `row[key]`, undefined when the row lacks the key |
| DataTable.Render | src/components/DataTableStop.jsx:3-30 | one header cell per column showing its label, in column order; one body row per data row, in data order; each row has one cell per column |
| DataTable.UniformCellCount | src/components/DataTableStop.jsx:17-25 | rows of equal width w hold w × rows cells in all |
| DataTable.GridSize | src/components/DataTableStop.jsx:17-25 | the body holds columns × rows cells |
| RestrictionPage.ToRow | src/pages/RestrictionPage.jsx:19-27 | id, name, email and role are copied; status is "active" iff `isVerified` is truthy, else "inactive"; plan is the user's plan when truthy, else "Free" |
| RestrictionPage.ToRows | src/pages/RestrictionPage.jsx:19-27 | one row per user, in fetched order |
| RestrictionPage.LoadUsers | src/pages/RestrictionPage.jsx:12-39 | a success stores the transformed rows; a rejection leaves none and the error "Failed to fetch users data" |
| RestrictionPage.UpdateUserStatus | src/pages/RestrictionPage.jsx:42-50 | length and order are kept; matching rows get the new status and nothing else changes in them; other rows are untouched |
| RestrictionPage.UpdateLastWins | src/pages/RestrictionPage.jsx:42-50 | two updates of the same user leave the second status |
| RestrictionPage.UpdateIdempotent | src/pages/RestrictionPage.jsx:42-50 | applying an update twice equals applying it once |
| RestrictionPage.UpdatesCommute | src/pages/RestrictionPage.jsx:42-50 | updates of two different users commute |
| RestrictionPage.HandleAction | src/pages/RestrictionPage.jsx:52-89 | a declined confirmation changes nothing and sends nothing; otherwise the action's PATCH is sent to /users/:id; only a successful PATCH rewrites the matching rows' status; a failure keeps the rows and shows the failure alert |
| RestrictionPage.StatusBadge | src/pages/RestrictionPage.jsx:91-98 | "Active" (green) exactly for status "active"; any other status shows "Inactive" (red) |
| RestrictionPage.StatusBadgeOfRow | src/pages/RestrictionPage.jsx:19-27 | the badge a row's status gets (lines 91-98) is the badge the user list and detail page give the raw `isVerified` |
| RestrictionPage.ActionBadge | src/pages/RestrictionPage.jsx:52-98 | after a confirmed successful action the target's rows show "Active" iff the action was activate; other rows are unchanged |
| RestrictionPage.PlanCell | src/pages/RestrictionPage.jsx:100-104 | codes 1/'1', 2/'2', 3/'3' show basic, premium, premiumPlus; any other value is shown unchanged |
| RestrictionPage.PlanCellNeverBlank | src/pages/RestrictionPage.jsx:104 | because rows carry `plan \|\| 'Free'` (line 23), the plan column is never blank and shows "Free" for a falsy plan |
| RestrictionPage.ApplyPatch | src/pages/RestrictionPage.jsx:55-81 | a PATCH body sets exactly the fields it names on the user record |
| RestrictionPage.LocalStatusMatchesReload | src/pages/RestrictionPage.jsx:52-86 | suspend and activate write the status a reload of the patched user would show; restrict does so only for an unverified user |
| RestrictionPage.VerifiedPremiumUserRow | src/pages/RestrictionPage.jsx:19-27 | a verified user with plan 2 is listed as premium and Active |
| Billing.LoadBilling | src/pages/Billing.jsx:7-35 | the billing table is stored before the plans are read; either rejection sets "Failed to fetch billing data"; loading ends either way; edits, Save/Remove flags, the add form and its message keep their initial values |
| Billing.LoadedBillingScreen | src/pages/Billing.jsx:18-35 | after the mount-time reads the page shows the tables iff both reads succeed, and "Failed to fetch billing data" otherwise |
| Billing.BillingScreen | src/pages/Billing.jsx:114-134 | the placeholder shows iff loading; otherwise a set error shows its message instead of the tables; the tables show iff neither |
| Billing.DisplayedLimit | src/pages/Billing.jsx:186 | the limit input shows the pending edit when defined, else the plan's server limit |
| Billing.HandlePlanEdit | src/pages/Billing.jsx:46-48 | the edited plan's entry becomes the typed value; every other plan's entry is unchanged |
| Billing.EditIsDisplayed | src/pages/Billing.jsx:46-48 | after typing, the row's input shows what was typed |
| Billing.SetFlag | src/pages/Billing.jsx:51 | setting one plan's flag leaves every other plan's flag as it was |
| Billing.BeginSave | src/pages/Billing.jsx:51 | while a save is in flight its plan's Save button is disabled; nothing else changes |
| Billing.FinishSave | src/pages/Billing.jsx:52-66 | after the save the plan's flag is false whatever happened; other plans' flags are unchanged |
| Billing.HandleSavePlan | src/pages/Billing.jsx:50-67 | the PATCH carries the pending edit; a failed PATCH or plans refresh keeps edits and plans and alerts; past the plans refresh the plans are replaced and this plan's edit is cleared (others kept); only full success refreshes the billing table without an alert; nothing but the Save flags, edits, plans and billing table changes |
| Billing.SavedShowsServerLimit | src/pages/Billing.jsx:58 | after a successful save the row falls back to the server's limit |
| Billing.FailedSaveKeepsEdit | src/pages/Billing.jsx:62-63 | a save rejected at its PATCH keeps showing the typed value |
| Billing.SaveFlagsIndependent | src/pages/Billing.jsx:51-65 | finishing one plan's save leaves another in-flight save's flag set |
| Billing.SetFormField | src/pages/Billing.jsx:69-72 | the named form field takes the typed value; the other fields are unchanged |
| Billing.BeginAdd | src/pages/Billing.jsx:76-77 | adding starts with the button busy and the message cleared; nothing else changes |
| Billing.FinishAdd | src/pages/Billing.jsx:78-94 | a rejected POST keeps the form; once the POST succeeds the form is empty; the success message and new plans need the refresh too; the busy flag ends either way |
| Billing.HandleAddPlan | src/pages/Billing.jsx:74-95 | a successful add resets the form and reports success; a failed POST keeps the form; once the POST succeeds the form is reset even if the refresh fails; any failure reports the failure message; nothing but the busy flag, message, form and plans changes |
| Billing.AddLeavesRowsAlone | src/pages/Billing.jsx:74-95 | adding a plan leaves the billing table, pending edits and Save/Remove flags as they were; the plan list changes only to a successfully refreshed one |
| Billing.BeginRemove | src/pages/Billing.jsx:99-100 | a confirmed removal disables only that plan's Remove button and clears the message; nothing else changes |
| Billing.FinishRemove | src/pages/Billing.jsx:101-111 | the plan's flag ends false; the success message and new plans need both the DELETE and the refresh; edits, save flags and form are unchanged |
| Billing.HandleRemovePlan | src/pages/Billing.jsx:97-112 | declining the confirmation leaves the whole state unchanged; otherwise the flag ends false and the message reports the result; nothing but the Remove flags, message and plans changes |
| Billing.RemoveLeavesRowsAlone | src/pages/Billing.jsx:97-112 | removing a plan leaves pending edits, Save flags, the add form, the billing table, loading and the page error as they were; the plan list is replaced only after a confirmed DELETE and refresh both succeed |
| UserList.PlanLabel | src/pages/admin/UserList.jsx:84 | the label is the code's name for 1/2/3 (number or string), else "Free"; a raw plan value never shows |
| UserList.RowOf | src/pages/admin/UserList.jsx:79-91 | a row shows the username, email, role badge, plan label and the verified badge ("Active" in green iff verified, else "Inactive" in red), and links to /user/:id |
| UserList.Rows | src/pages/admin/UserList.jsx:79-80 | one row per user, in fetched order |
| UserList.LoadUsers | src/pages/admin/UserList.jsx:12-25 | a success stores the users; a rejection leaves none and the error "Failed to fetch users" |
| UserList.UserListScreen | src/pages/admin/UserList.jsx:49-58 | the placeholder shows iff loading; otherwise a set error shows its message instead of the rows; one row per stored user shows iff neither |
| UserDetail.PlanLabel | src/pages/admin/UserDetail.jsx:155 | the code's name for 1/2/3, else the raw plan when truthy, else "Free"; never blank |
| UserDetail.ListAndDetailPlanLabels | src/pages/admin/UserDetail.jsx:155 | the list and detail labels agree iff the plan is a code, falsy, or the string "Free" |
| UserDetail.RestrictionAndDetailPlanLabels | src/pages/admin/UserDetail.jsx:155 | the restriction table's plan column always equals the detail page's label |
| UserDetail.PeriodLabel | src/pages/admin/UserDetail.jsx:184 | a period button's label is the period name with its first letter upper-cased and the rest unchanged |
| UserDetail.PeriodLabels | src/pages/admin/UserDetail.jsx:176-186 | the three buttons read Day, Week and Month |
| UserDetail.StatsRequest | src/pages/admin/UserDetail.jsx:38-49 | the statistics effect sends a request only for a non-empty route id, and then to the period's path |
| UserDetail.StatsPathsDistinct | src/pages/admin/UserDetail.jsx:38 | different periods request different statistics resources |
| UserDetail.SettleUser | src/pages/admin/UserDetail.jsx:20-30 | loading ends; a success stores the payload, a null one included; a rejection sets "Failed to fetch user details" |
| UserDetail.Mount | src/pages/admin/UserDetail.jsx:10-50 | the page mounts loading the user, with no statistics, in period "month"; for a non-empty id it requests `?period=month` and shows the statistics spinner |
| UserDetail.SelectPeriod | src/pages/admin/UserDetail.jsx:176-181 | a click stores the period; since the effect depends on `[id, period]` (line 50), a click on the current period changes nothing and sends nothing; another period is requested with the spinner on; nothing else changes |
| UserDetail.ReselectIsNoOp | src/pages/admin/UserDetail.jsx:50 | clicking the same period button twice sends at most one request: the second click is a no-op |
| UserDetail.SettleStats | src/pages/admin/UserDetail.jsx:35-45 | the spinner ends; a success stores the payload as it is, a null one included; a rejection keeps the statistics already shown |
| UserDetail.FailedReadKeepsOldFigures | src/pages/admin/UserDetail.jsx:35-45 | after a period change whose read fails, the previous figures remain under the new period |
| UserDetail.Section | src/pages/admin/UserDetail.jsx:190-272 | spinner iff loading statistics; the no-data notice iff none are stored; otherwise the sent, created and total figures as received, one activity badge with its count per type, one count per day, and per campaign status its count and its id when truthy, else "No Status" |
| UserDetail.DetailScreen | src/pages/admin/UserDetail.jsx:85-288 | loading first; then an error (its message) or a missing user ("User not found"); the profile iff neither, with the user's name, email, badges, plan label, the activity section of the stored statistics and period, and the login provider iff it is truthy |
| UserDetail.UserReadOutcomes | src/pages/admin/UserDetail.jsx:20-105 | a rejected user read shows the fetch error, a null user shows "User not found", a user shows the profile |
| Dashboard.NormaliseStats | src/pages/Dashboard.jsx:34-39 | each count is the response value when truthy, else 0; the health is the value when truthy, else "Healthy", so never blank |
| Dashboard.NormaliseIdempotent | src/pages/Dashboard.jsx:34-39 | normalised stats are a fixed point of the normalisation |
| Dashboard.LoadDashboard | src/pages/Dashboard.jsx:28-55 | the error is set iff a read fails or the `/stats` body is missing; loading ends; the chart falls back to [] and the breakdown to empty lists; later reads are skipped after a failure |
| Dashboard.AnyFailureShowsError | src/pages/Dashboard.jsx:28-74 | whichever read fails, or with no `/stats` body, the dashboard screen shows "Failed to fetch dashboard data"; three good reads show the page |
| Dashboard.BreakdownRows | src/pages/Dashboard.jsx:113-122 | an empty list renders exactly one "No data" row; otherwise one row per entry, in order, with its count and its name when truthy, else "Unknown" |
| Dashboard.BreakdownRowCount | src/pages/Dashboard.jsx:136-144 | a table has max(1, entries) rows, and "No data" appears iff there are no entries |
| Dashboard.DashboardScreen | src/pages/Dashboard.jsx:60-100 | the placeholder shows iff loading; otherwise a set error shows its message instead of the page; the page shows iff neither, with the chart of the stored points iff there are any and both tables from the breakdown rows |

## Left out

- HTTP (`src/services/api.js`) is not modelled. Every request is an abstract outcome: `Success(payload)` or `Failure`.
- Interleavings of concurrent requests are not modelled. This covers `Promise.all` beyond its join result, state updates after unmount, and out-of-order statistics responses when the period changes quickly. The `saving` / `removing` maps are modelled as per-plan flags. `Billing.SaveFlagsIndependent` covers overlapping saves of different plans only as nested calls.
- `window.confirm` is a boolean input. `alert` is an optional message in the result. `console.error` and the recharts chart are not modelled.
- Dates (`toLocaleDateString`, `toLocaleTimeString`) and `toLocaleString` on limits are not modelled. They depend on the host's locale and time zone.
- Js.Value: numbers are unbounded integers, not doubles. Fractional numbers and NaN are not modelled; a fractional or NaN plan code never matches the table anyway. `String(n)` prints numbers of magnitude 10^21 or more in exponent notation, which `Js.IntToString` does not. Objects and arrays are not values of the model, so a plan such as `[2]`, whose key is `"2"`, is not covered.
- Js.PropertyKey: keys inherited from `Object.prototype` (such as `toString`) are not modelled. A plan or role with such a name would find an inherited member.
- Text.Capitalise: upper-cases ASCII letters only. JavaScript's `toUpperCase` also maps other letters, and a few of them grow (`ß` becomes `SS`).
- Billing.HandleSavePlan: the request carries the pending edit as text. It does not model `Number(...)`, which turns a missing edit into NaN (sent as null) and a non-numeric edit into NaN.
- Billing.HandleAddPlan: the POST payload and its `Number(...)` coercion of limit and price are not modelled.
- Billing's billing table uses `src/components/DataTable.jsx`, which is not part of this model. Only the capitalised plan column is modelled, through `Text.Capitalise`.
- The campaign overview cards print the overview fields as they are. The model carries them but proves nothing about them.
- List payloads are assumed to be arrays. A null or non-array body for the campaigns, users or plans makes `campaigns.filter`, `users.map` or `plans.map` throw during rendering, which crashes the page; the model's payloads are always sequences.
- Billing.BillingRow: the plan is a string. A numeric, null or missing plan makes the Plan column's `row.plan.charAt` throw a TypeError during rendering, which crashes the page; that path is not modelled.
- Dashboard.Breakdown: a breakdown body without `byCampaign` or `byUser` lists makes `.length` throw during rendering; the model's breakdown always has both lists.
- CampaignList status values are strings. A missing status behaves like a string that no filter option selects.
- RestrictionPage.ApplyPatch is a model of what the backend does with a PATCH. It is used only to compare the local status with a reload.
- Navigation (`src/App.js`, `src/pages/Layout.jsx`) and the presentational components are not modelled. They contain no logic.
