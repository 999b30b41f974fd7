# ImpactTracker portal logic, in Dafny

ImpactTracker is a browser demo portal for NGO project management, with
dashboards for an administrator, a project lead (`chef_projet`) and a donor
(`donateur`). All of its data is held in memory. This project models the
parts of the portal that carry logic, and proves what they promise:

- **The authentication session store** (`auth_store.dfy`, module `Auth`).
  The class `AuthStore` has the four fields `user`, `isAuthenticated`,
  `isLoading` and `error`, and one method per store action. Sign-in is split
  into `BeginLogin`, which turns loading on and clears the error, and
  `CompleteLogin`, which decides the outcome; `Login` runs both. The decision
  is the function `Authenticate`: it looks up the first demo user whose
  e-mail is exactly the one typed, then compares the password with the one
  password all demo accounts share. `Settle` gives the state the store ends
  in for each outcome. `Partialize` and `Rehydrate` describe what is saved to
  browser storage and what a new store starts from. Every operation keeps
  the invariant "signed in exactly when a user is set" (`Consistent`, `Valid`).
- **The sign-in page** (`login_page.dfy`, module `LoginPage`). It covers the
  role-to-landing-page table with its `/` fallback, the rule for when the
  page redirects, the rule for when the Sign In button is enabled, and the
  submit handler.
- **The administrator's pages** (`admin_projects.dfy`, `admin_users.dfy`).
  The page state is a class holding a `seq` of records; saving and deleting
  reassign it. The search filters, status badge, counts and sums are pure
  functions.
- **The role-scoped views** (`chef_indicators.dfy`, `donor_dashboard.dfy`).
  These are pure selections: a lead's own projects and their indicators,
  with an optional single-project filter, and a donor's funded projects with
  their totals, status counts and chart data.

The shared vocabulary is in `common.dfy` and `records.dfy`. `Filter` is
JavaScript's `Array.prototype.filter`: its contract says that the result is
an order-preserving subsequence holding exactly the matching elements, each
as often as in the input. `Lower` and `Contains` are ASCII `toLowerCase` and
`includes`. `SumOf` is a left-fold `reduce`. The demo fixture (`mockUsers`,
`mockProjects` and the application store's lists) is an input sequence.

Two details of the store are worth stating outright:
- The invalid-password message is `Invalid password. Try "Demo@12345!"`
  (client/src/store/authStore.ts:46).
- A failed sign-in sets only `isLoading` and `error`
  (client/src/store/authStore.ts:35-38, 44-47), so `user` and
  `isAuthenticated` keep the values they held before.

## Model

| member | source | states |
|---|---|---|
| `Auth.FindByEmail` | client/src/store/authStore.ts:32 | finds nothing exactly when no demo user has that e-mail (case-sensitive); otherwise returns the first user with that e-mail |
| `Auth.Authenticate` | client/src/store/authStore.ts:30-57 | user-not-found exactly when no e-mail matches; invalid-password exactly when some e-mail matches and the password is not the shared demo password; otherwise signs in the first matching user, and only with the demo password |
| `Auth.Settle` | client/src/store/authStore.ts:34-57 | every outcome ends with loading off; both failures set their own message and leave `user` and `isAuthenticated` as they were; success sets the user, the signed-in flag and no error; the invariant is kept, and success establishes it |
| `Auth.Partialize` | client/src/store/authStore.ts:91-94 | the saved record is enough to restore the user and the signed-in flag: reloading it gives back the state with loading off and no error |
| `Auth.Rehydrate` | client/src/store/authStore.ts:89-95 | a reloaded store is not loading and has no error; it takes `user` and `isAuthenticated` from the saved record, or is the initial state when there is none |
| `Auth.PersistRoundTrip` | client/src/store/authStore.ts:89-95 | the saved record holds exactly `user` and `isAuthenticated`; reloading it gives them back with loading off and no error; a missing record reloads as the initial state, which is consistent |
| `Auth.PersistAfterLogin` | client/src/store/authStore.ts:51-57 | after a successful sign-in the saved record is the matched user with the signed-in flag set |
| `Auth.AuthStore.constructor` | client/src/store/authStore.ts:16-22 | a new store starts from the saved record merged over the initial state (no user, signed out, not loading, no error) |
| `Auth.AuthStore.BeginLogin` | client/src/store/authStore.ts:25 | loading on and error cleared; user and signed-in flag unchanged; invariant kept |
| `Auth.AuthStore.CompleteLogin` | client/src/store/authStore.ts:30-57 | the new state is `Settle` of the old one for the outcome of `Authenticate`; loading off; invariant kept |
| `Auth.AuthStore.Login` | client/src/store/authStore.ts:24-64 | a sign-in run to its end: the same final state as `CompleteLogin`, whatever loading and error held before |
| `Auth.AuthStore.Logout` | client/src/store/authStore.ts:66-72 | no user, signed out, no error; loading unchanged; invariant holds |
| `Auth.AuthStore.SetUser` | client/src/store/authStore.ts:74-79 | sets the user, and the signed-in flag to whether a user was given; loading and error unchanged; invariant holds |
| `Auth.AuthStore.SetError` | client/src/store/authStore.ts:81-83 | only the error changes |
| `Auth.AuthStore.ClearError` | client/src/store/authStore.ts:85-87 | only the error changes, to none; when there was no error, nothing changes |
| `LoginPage.RoleRoute` | client/src/pages/Login.tsx:24-29 | admin, chef_projet and donateur go to their dashboards; the root page exactly for any other role |
| `LoginPage.RedirectTarget` | client/src/pages/Login.tsx:23-29 | a redirect happens exactly when signed in with a user set, and it goes to that user's role route |
| `LoginPage.ConsistentStoreRedirects` | client/src/pages/Login.tsx:23 | in a store that keeps its invariant, the page redirects exactly when the store says someone is signed in |
| `LoginPage.CanSubmit` | client/src/pages/Login.tsx:183 | the button is enabled exactly when not loading and both e-mail and password are non-empty |
| `LoginPage.LoginThenRedirect` | client/src/pages/Login.tsx:22-31 | after a successful sign-in the page redirects to the matched user's role route |
| `LoginPage.FailedLoginKeepsRedirect` | client/src/pages/Login.tsx:22-31 | a failed sign-in does not change where, or whether, the page redirects |
| `LoginPage.HandleSubmit` | client/src/pages/Login.tsx:33-36 | the typed e-mail and password go unchanged to the store's sign-in |
| `AdminProjects.ReplaceById` | client/src/pages/admin/Projects.tsx:32 | same length and order; every project with the saved id becomes the saved project; every other project is unchanged |
| `AdminProjects.RemoveById` | client/src/pages/admin/Projects.tsx:47 | an order-preserving subsequence without the id that keeps every other project, each as often as before |
| `AdminProjects.DeleteAbsentIsNoop` | client/src/pages/admin/Projects.tsx:47 | deleting an id no project has leaves the list unchanged |
| `AdminProjects.DeleteAfterEdit` | client/src/pages/admin/Projects.tsx:29-48 | saving an edit and then deleting its id is the same as deleting the id |
| `AdminProjects.CreateThenDelete` | client/src/pages/admin/Projects.tsx:33-48 | creating a project with a fresh id and then deleting it restores the list |
| `AdminProjects.FilterProjects` | client/src/pages/admin/Projects.tsx:39-43 | an order-preserving subsequence holding exactly the projects whose lower-cased name or description contains the lower-cased term, each as often as in the input |
| `AdminProjects.EmptySearchKeepsAll` | client/src/pages/admin/Projects.tsx:39-43 | the empty term keeps every project |
| `AdminProjects.SearchIgnoresTermCase` | client/src/pages/admin/Projects.tsx:39-43 | searching for a term and for its lower-cased form give the same list |
| `AdminProjects.ActiveCount` | client/src/pages/admin/Projects.tsx:168-173 | the Active figure is the number of projects whose status is exactly `active`, counted one by one; at most the Total Projects figure; zero exactly when no project is active |
| `AdminProjects.StatusColor` | client/src/pages/admin/Projects.tsx:51-59 | a non-empty badge class exactly for active, planning, completed and paused |
| `AdminProjects.ProjectsPage.constructor` | client/src/pages/admin/Projects.tsx:14-17 | the page starts with the initial projects, no project being edited and the form closed |
| `AdminProjects.ProjectsPage.HandleAddProject` | client/src/pages/admin/Projects.tsx:19-22 | opens the form in create mode; projects unchanged |
| `AdminProjects.ProjectsPage.HandleEditProject` | client/src/pages/admin/Projects.tsx:24-27 | opens the form in edit mode for that project; projects unchanged |
| `AdminProjects.ProjectsPage.HandleSaveProject` | client/src/pages/admin/Projects.tsx:29-37 | in edit mode the list is replaced by id; in create mode the project is appended and the totals grow by its budget and spending; the mode, not the id, decides |
| `AdminProjects.ProjectsPage.HandleDelete` | client/src/pages/admin/Projects.tsx:45-49 | a confirmed delete removes the id; an unconfirmed one changes nothing |
| `Records.TotalBudget` | client/src/pages/admin/Projects.tsx:178 | the Total Budget figure is the first budget plus the total of the rest, and is not negative when no budget is |
| `Records.TotalSpent` | client/src/pages/admin/Projects.tsx:182 | the Total Spent figure is the first spending plus the total of the rest, and is not negative when no spending is |
| `Records.TotalsAppend` | client/src/pages/admin/Projects.tsx:178-182 | appending a project adds its budget to Total Budget and its spending to Total Spent |
| `Records.IndicatorsOf` | client/src/pages/donateur/Dashboard.tsx:25-27 | an order-preserving subsequence holding exactly the indicators whose project id is the id of one of the given projects, each as often as in the input |
| `AdminUsers.FilterUsers` | client/src/pages/admin/Users.tsx:15-19 | an order-preserving subsequence holding exactly the users whose lower-cased name or e-mail contains the lower-cased term, each as often as in the input |
| `AdminUsers.EmptySearchKeepsAll` | client/src/pages/admin/Users.tsx:15-19 | the empty term keeps every user |
| `AdminUsers.RemoveUserById` | client/src/pages/admin/Users.tsx:23 | an order-preserving subsequence without the id that keeps every other user, each as often as before |
| `AdminUsers.DeleteAbsentIsNoop` | client/src/pages/admin/Users.tsx:21-25 | deleting an id no user has leaves the list unchanged |
| `AdminUsers.AdminCount` | client/src/pages/admin/Users.tsx:135 | the Admins figure is the number of users whose role is exactly `admin`, counted one by one; at most the Total Users figure; zero exactly when there is no admin |
| `AdminUsers.ChefCount` | client/src/pages/admin/Users.tsx:139 | the Project Managers figure is the number of users whose role is exactly `chef_projet`, counted one by one; at most the Total Users figure; zero exactly when there is none |
| `AdminUsers.RoleCountsBounded` | client/src/pages/admin/Users.tsx:131-139 | the Admins and Project Managers figures add up to at most the Total Users figure |
| `AdminUsers.RoleLabel` | client/src/pages/admin/Users.tsx:94 | same length as the role; only the first underscore becomes a space; a role without an underscore is shown unchanged |
| `AdminUsers.UsersPage.constructor` | client/src/pages/admin/Users.tsx:13 | the page starts with the initial users |
| `AdminUsers.UsersPage.HandleDelete` | client/src/pages/admin/Users.tsx:21-25 | a confirmed delete removes the id; an unconfirmed one changes nothing |
| `ChefIndicators.MyProjects` | client/src/pages/chef/Indicators.tsx:15 | an order-preserving subsequence holding exactly the projects led by the signed-in user, each as often as in the input; empty when nobody is signed in |
| `ChefIndicators.MyIndicators` | client/src/pages/chef/Indicators.tsx:16-18 | an order-preserving subsequence holding exactly the indicators of projects led by the signed-in user, each as often as in the input |
| `ChefIndicators.FilterIndicators` | client/src/pages/chef/Indicators.tsx:20-22 | with no selection (or the empty id) all of the lead's indicators; with a selection exactly those of the selected project, in order, each as often as among the lead's indicators |
| `ChefIndicators.ForeignSelectionIsEmpty` | client/src/pages/chef/Indicators.tsx:15-22 | selecting a project the lead does not own shows nothing |
| `ChefIndicators.ShownInOriginalOrder` | client/src/pages/chef/Indicators.tsx:15-22 | what the page shows is always a subsequence of the full indicator list |
| `DonorDashboard.FundedProjects` | client/src/pages/donateur/Dashboard.tsx:24 | an order-preserving subsequence holding exactly the projects whose donor list holds the donor's id, or the empty string when nobody is signed in, each as often as in the input |
| `DonorDashboard.FundedTotalsBounded` | client/src/pages/donateur/Dashboard.tsx:29-30 | with no negative amounts, the donor's invested and spent totals never exceed those of all projects |
| `DonorDashboard.RemainingIsSumOfRemainders` | client/src/pages/donateur/Dashboard.tsx:29-30 | the difference of the two totals is the sum over the projects of budget minus spent |
| `DonorDashboard.RemainingBudget` | client/src/pages/donateur/Dashboard.tsx:176 | the Remaining Budget figure is what the funded projects have left between them, and is not negative when no project has overspent |
| `DonorDashboard.ProjectsByStatus` | client/src/pages/donateur/Dashboard.tsx:38-42 | three slices named Active, Completed and Planning; with the projects of any other status (paused) they count every funded project once, so they sum to at most the funded count; each slice's value is the number of funded projects with that exact status, counted one by one |
| `DonorDashboard.Take` | client/src/pages/donateur/Dashboard.tsx:47 | `substring(0, n)`: a prefix of the string, of length n or the whole string when it is shorter |
| `DonorDashboard.BudgetData` | client/src/pages/donateur/Dashboard.tsx:46-50 | one bar per funded project, in order; each label is the first min(10, length) characters of the name; budget and spent are copied |
| `DonorDashboard.BudgetDataTotals` | client/src/pages/donateur/Dashboard.tsx:46-50 | the bars' budgets and spending add up to the dashboard's totals |

## Left out

- The 800 ms simulated delay and the `async`/`await` in `login` are not modelled. Sign-in is the two steps `BeginLogin` and `CompleteLogin`. Two sign-ins racing each other are not modelled.
- The `catch` branch of `login` and its generic error message are not modelled. The lookup and the comparison over a fixed list cannot throw.
- Writing to browser storage under the key `auth-store` is I/O and is not modelled. Only the saved projection (`Partialize`) and the restore (`Rehydrate`) are.
- The pages subscribe to the store and re-render when it changes; the model only computes the new state. `navigate` is not modelled: `RedirectTarget` returns the destination instead.
- `RoleRoute` treats the role table as a closed mapping. A JavaScript object lookup with an inherited key such as `constructor` is not modelled, because roles come from a closed set.
- StatusColor: treats the colour table as a closed mapping. In the source, `colors[status] || ''` gives a non-empty value for a status naming an inherited `Object.prototype` member (`toString`, `constructor`, `__proto__` and the like). This is not modelled, because statuses come from the closed set of four values that the project form offers.
- BudgetData: labels are cut by `Take` after ten Unicode scalar values, while `substring(0, 10)` counts ten UTF-16 code units. The two differ for names holding characters outside the Basic Multilingual Plane (emoji, for instance), where JavaScript can keep fewer characters or split a surrogate pair. Dafny strings here are sequences of scalar values, so UTF-16 is not modelled.
- Take: counts Unicode scalar values, not UTF-16 code units, for the reason given for `BudgetData`.
- `confirm()` dialogs are modelled as a boolean parameter.
- The form closing (`onClose`) and the contents of the form are not modelled. `ProjectFormModal` is not part of this model.
- Floating-point figures are not modelled: progress percentages, `Math.round` and `Math.min` clamps, `avgProgress`, and the spent/budget bar widths. Budgets and spending are unbounded integers.
- Date formatting (`date-fns`), avatars, creation dates, project dates, and indicator values and units are only rendered. They are left out of the records.
- Case folding beyond ASCII is not modelled: `toLowerCase` is modelled on `A`–`Z` only.
- The Add User and Edit buttons on the users page have no handler in the source, so there is nothing to model.
- `client/src/pages/chef/ProjectDetails.tsx` is not part of this model. It holds chart rendering, a floating-point average and route-parameter guards.
- The application store, the mock data contents, `PasswordStrengthIndicator` and all rendering, animation and charts are not part of this model.
