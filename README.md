# Project tracker client core, in Dafny

This project models the client-side state layer of a project/activity
tracker that keeps its data in a hosted database service. It covers four
pieces:

- **Activity store**: a local mirror of the `activities` table. It also holds
  the filter criteria (`urgency`, `assigned`, `sortBy`) and the derived
  `filteredActivities` view, which filters the mirror and then sorts it
  descending on one of four keys. Create, update, delete and fetch patch the
  mirror from the server's answers.
- **Project store**: the same mirror discipline for `projects`, plus a
  `selectedProject` marker that a delete of that project clears.
- **Auth store**: the current identity. `signIn`, `signOut` and
  `getCurrentUser` set or clear it, and `displayName` derives the shown name.
- **Route guard**: decides each navigation from the route's `requiresAuth` and
  `requiresAdmin` flags, the refreshed identity and the `admin_users` lookup.
  The three outcomes are: proceed, go to `/login`, or go to `/dashboard`.

Every call to the remote service is a parameter: the answer it resolved to
(`Gateway.Response`: data or an error; for the admin lookup, `Router.AdminLookup`:
a row, no row, or an exception; for the identity refresh, `Auth.UserLookup`).
The stores are classes whose fields are the source's reactive refs. Their
methods take the gateway's answer and state the whole new state. Where the
source returns a value, the methods return it; where it throws, they return
`Gateway.Failure`. Create and update also return the row they submit (`sent`).

Modules and files:

| file | module | models |
|---|---|---|
| wrappers.dfy | Wrappers | `Option`, for null/undefined |
| gateway.dfy | Gateway | gateway answers, thrown errors, `data \|\| []`, `data[0]` |
| mirror.dfy | Mirror | `filter`, `findIndex`, replace-first-match, remove-by-id, and id uniqueness |
| activities.dfy | Activities | `src/stores/activities.js` |
| projects.dfy | Projects | `src/stores/projects.js` |
| auth.dfy | Auth | `src/stores/auth.js` |
| router.dfy | Router | `src/router/index.js` |

The sort is a stable insertion sort on an integer key, so ties stay in mirror
order, as JavaScript's stable `Array.prototype.sort` keeps them.
`Activities.SortedStableUnique` shows that only one sequence is both sorted on
that key and keeps ties in mirror order. So every stable sort with this
comparator gives the same view as this model, whatever algorithm it uses.

## Model

| member | source | states |
|---|---|---|
| Activities.ActivityStore.constructor | src/stores/activities.js:6-12 | The mirror starts empty, `loading` starts false, and the criteria start as no urgency filter, no assignment filter and sort by `created_at`. |
| Activities.FilteredActivities | src/stores/activities.js:14-49 | The view holds exactly the mirror entries that pass both criteria, each as many times as in the mirror. It is non-increasing in the `sortBy` key. Entries with equal keys keep their mirror order. |
| Activities.Passes | src/stores/activities.js:18-29 | With no criteria every entry passes. A set urgency admits only that exact urgency. `"true"` admits only assigned entries, and any other non-empty assignment admits only unassigned ones. |
| Activities.TwoFilters | src/stores/activities.js:17-30 | The two filters, each applied only when its criterion is non-empty, keep the same entries in the same order as the single filter `Passes`. An empty urgency matches everything; otherwise the match is exact. An empty assignment matches everything, `"true"` keeps assigned entries, and any other value keeps unassigned ones. |
| Activities.NoCriteriaKeepsAll | src/stores/activities.js:18-30 | With both criteria empty, the view holds every mirror entry. |
| Activities.UrgencyRank | src/stores/activities.js:36-37 | The rank is 3 exactly for `High`, 2 exactly for `Medium`, 1 exactly for `Low`, and 0 for any other urgency. |
| Activities.Key | src/stores/activities.js:34-45 | The sort key per `sortBy`: the urgency rank for `"urgency"`, the progress value for `"progress"`, `expected_time` for `"expected_time"`, and `created_at` for every other value, as the `default` branch does. |
| Activities.Comparator | src/stores/activities.js:33-46 | The comparator, written one `switch` arm per `sortBy` as the source does (`default` sharing `created_at`), is the second entry's key minus the first's. |
| Activities.ComparatorOrdersByKey | src/stores/activities.js:33-46 | The comparator the source hands to `sort` (second key minus first, case by case) puts `a` first exactly when `a`'s key is larger, and ties exactly the entries with equal keys. So descending key order with ties kept is the order that comparator asks for. |
| Activities.Sort | src/stores/activities.js:33-46 | The result is a permutation of its input and is non-increasing in the key. |
| Activities.InsertCount | src/stores/activities.js:33-46 | Inserting one entry adds exactly that entry and drops nothing. |
| Activities.InsertSorted | src/stores/activities.js:33-46 | Inserting into a sorted sequence keeps it sorted. |
| Activities.SortStable | src/stores/activities.js:33-46 | For every key value, the entries with that key appear in the same order before and after sorting. |
| Activities.SortedStableUnique | src/stores/activities.js:33-46 | Two sequences that are both sorted and agree, key by key, on the order of their entries are equal. So any stable sort gives the same result. |
| Activities.FilteredActivitiesUnique | src/stores/activities.js:14-49 | Any sequence that is sorted and keeps each key's selected entries in mirror order is the view. |
| Activities.UrgencyOrder | src/stores/activities.js:35-37 | With `sortBy` `"urgency"`, the view is non-increasing in rank (High 3, Medium 2, Low 1). |
| Activities.NumericOrder | src/stores/activities.js:38-41 | With `sortBy` `"progress"` or `"expected_time"`, the view is non-increasing in that number. |
| Activities.RecencyOrder | src/stores/activities.js:42-44 | With any other `sortBy`, the initial `"created_at"` included, the most recent `created_at` comes first. |
| Activities.PairView | src/stores/activities.js:14-49 | Two entries that both pass the criteria and have different keys are viewed larger key first, whichever order the mirror holds them in. |
| Activities.ExampleByUrgency | src/stores/activities.js:35-37 | With a High entry at 50% and a Low entry at 90%, sorting by urgency puts the High entry first. |
| Activities.ExampleByProgress | src/stores/activities.js:38-39 | With the same two entries, sorting by progress puts the 90% entry first. |
| Activities.ProgressValue | src/stores/activities.js:39 | The number read from a progress text is -1 (NaN) exactly when the text does not start with a digit; otherwise it is at least 0. |
| Activities.LeadingDigits | src/stores/activities.js:39 | The number part `parseFloat` reads is the longest prefix of digits: a prefix that is all digits and is followed by a non-digit or by the end. |
| Activities.NatToText | src/stores/activities.js:83 | A number's text is what `toString` writes for an integer below 10^21: non-empty, all decimal digits, no leading zero (unless it is `0`), and denoting the number. |
| Activities.CanonicalDecimal | src/stores/activities.js:83 | Every non-empty digit string without a leading zero is the text of the number it denotes. So the contract of `NatToText` has exactly one solution per number. |
| Activities.ProgressRoundTrip | src/stores/activities.js:83 | Progress sent as the text of a number reads back, when sorting, as that same number. |
| Activities.ProgressText | src/stores/activities.js:83 | Progress goes out as text. A numeric progress becomes its decimal text, as `toString` writes it below 10^21: all digits, no leading zero, denoting the number, and read back as that number when sorting. A text progress goes out unchanged. |
| Activities.Payload | src/stores/activities.js:80-90 | The submitted row copies the required fields. Its progress is `ProgressText` of the input: a number's decimal text, or the text unchanged. Absent `notes`, `assigned_to_who` and `created_by` become `""`, an absent `assigned` becomes false, and present values are kept. |
| Activities.ActivityStore.Filtered | src/stores/activities.js:14-49 | The computed view over the store's current state holds exactly the mirror entries passing the current criteria, each as many times as in the mirror, in descending order of the current `sortBy` key, with entries of equal key in mirror order. |
| Activities.ActivityStore.FetchActivities | src/stores/activities.js:51-73 | On success the mirror becomes the returned rows, or `[]` when no data came back. On an error the mirror is kept and the error is rethrown. Either way `loading` ends false and the criteria are unchanged. |
| Activities.ActivityStore.CreateActivity | src/stores/activities.js:75-104 | It submits `Payload(input)`. It returns the first returned row, or undefined when no row came back. It throws when the service sent no data or reported an error. The mirror gains exactly the returned row at its head, and only when a row came back. |
| Activities.ActivityStore.UpdateActivity | src/stores/activities.js:106-139 | It submits `Payload(input)` and returns the server's row. When a row came back, the first mirror entry with that id is replaced by it. The mirror is unchanged when no entry has the id, when no row came back, or on an error. |
| Activities.ActivityStore.DeleteActivity | src/stores/activities.js:141-159 | On success every entry with that id is removed. On an error the mirror is kept and the error is rethrown. |
| Activities.ActivityStore.SetFilters | src/stores/activities.js:161-163 | The criteria become the shallow merge of the old criteria and the patch. The mirror and `loading` are unchanged. |
| Activities.Merge | src/stores/activities.js:162 | The shallow spread: each key the patch supplies takes the patch's value, and each key it omits keeps the old value. |
| Activities.MergeNoChange | src/stores/activities.js:162 | Merging a patch that supplies no key leaves the criteria as they were. |
| Activities.MergeIdempotent | src/stores/activities.js:162 | Merging the same patch twice is the same as merging it once. |
| Activities.MergeThen | src/stores/activities.js:162 | Two merges in a row equal one merge of the combined patch, where the later patch wins on each key it supplies. |
| Gateway.RowsOrEmpty | src/stores/activities.js:66 | `data \|\| []`: the returned rows when data came back, and no rows otherwise. |
| Gateway.FirstRow | src/stores/activities.js:94-97 | `data[0]` throws exactly when the service sent no data. It is a row exactly when rows came back, and then it is the first row. |
| Mirror.FilterCount | src/stores/activities.js:152 | Filtering keeps every entry that passes the test, as many times as it occurs, and drops every entry that fails it. An entry is in the result exactly when it is in the input and passes. |
| Mirror.FilterTwice | src/stores/activities.js:17-30 | Filtering twice equals filtering once by the conjunction of the two tests. |
| Mirror.FilterAgree | src/stores/activities.js:17-30 | Two tests that agree on every entry give the same filter. |
| Mirror.FilterConcat | src/stores/activities.js:152 | Filtering a concatenation equals concatenating the filtered parts. |
| Mirror.FilterKeepsAll | src/stores/activities.js:15 | A filter that every entry passes returns the sequence unchanged, as the copy does when no criterion is set. |
| Mirror.FindIndex | src/stores/activities.js:128 | `findIndex` gives -1 exactly when no entry has the id. Otherwise it gives an entry with the id such that no earlier entry has it. |
| Mirror.ReplaceFirst | src/stores/activities.js:128-131 | Replacing keeps the length, puts the row at the first matching position only, and leaves every other entry as it was. |
| Mirror.RemoveId | src/stores/activities.js:152 | Removing an id drops every entry with that id and keeps each other entry as many times as it occurs. |
| Mirror.RemoveIdKeepsOrder | src/stores/projects.js:87 | The entries left after removing an id are a subsequence of the mirror, so their order is kept. |
| Mirror.FilterIsSubsequence | src/stores/activities.js:19-21 | Filtering never reorders entries. |
| Mirror.RemovePrepended | src/stores/projects.js:40 | Deleting the id of a just-prepended row gives the same mirror as deleting that id before the create. |
| Mirror.PrependKeepsUnique | src/stores/projects.js:40 | Prepending a row whose id is new keeps every id in the mirror unique. |
| Mirror.ReplaceFirstKeepsUnique | src/stores/projects.js:66 | Replacing an entry by a row with the same id keeps ids unique. |
| Mirror.FilterKeepsUnique | src/stores/activities.js:19-29 | Filtering keeps ids unique. |
| Mirror.RemoveIdKeepsUnique | src/stores/projects.js:87 | Deleting keeps ids unique. |
| Projects.ProjectStore.constructor | src/stores/projects.js:6-8 | The mirror starts empty, `loading` starts false and nothing is selected. |
| Projects.Payload | src/stores/projects.js:33-35 | The submitted row is the name alone. |
| Projects.PayloadIgnoresOtherFields | src/stores/projects.js:33-35 | Two inputs with the same name submit the same row, whatever other fields they hold. |
| Projects.ProjectStore.FetchProjects | src/stores/projects.js:10-26 | On success the mirror becomes the returned rows, or `[]` when no data came back. On an error the mirror is kept and the error is rethrown. `loading` ends false and the selection is unchanged. |
| Projects.ProjectStore.CreateProject | src/stores/projects.js:28-49 | It submits only the name. The returned row is prepended and returned. No data is an error (TypeError). An empty answer returns undefined and leaves the mirror alone. An error leaves the mirror alone and is rethrown. |
| Projects.ProjectStore.UpdateProject | src/stores/projects.js:51-75 | The first project with the id is replaced by the server's row. The mirror is unchanged when no project has the id, and the server's row is returned either way. |
| Projects.ProjectStore.DeleteProject | src/stores/projects.js:77-97 | On success every project with the id is removed, and the selection becomes null if it had that id (otherwise it is unchanged). On an error nothing changes and the error is rethrown. `loading` ends false. |
| Projects.ProjectStore.SelectProject | src/stores/projects.js:99-101 | The selection becomes the given project or null. The mirror and `loading` are unchanged. |
| Auth.AuthStore.constructor | src/stores/auth.js:6-7 | No one is signed in and `loading` is false. |
| Auth.LocalPart | src/stores/auth.js:12 | `split('@')[0]` is a prefix of the email that contains no `@` and is followed by an `@` or by the end. |
| Auth.LocalPartOfAddress | src/stores/auth.js:12 | The local part of `local@domain` is `local` when `local` contains no `@`. |
| Auth.DisplayName | src/stores/auth.js:9-14 | The shown name is never empty, and it is `"User"` when there is no user. |
| Auth.DisplayNameIsFirstNonEmpty | src/stores/auth.js:9-14 | The shown name is the first non-empty value of `display_name`, then `full_name`, then the email's local part, or `"User"` when all three are empty. |
| Auth.DisplayNameFallback | src/stores/auth.js:10-13 | When both metadata names are missing or empty and the email's local part is empty, the shown name is `"User"`. |
| Auth.DisplayNameFromEmail | src/stores/auth.js:12 | A user with no metadata names and the email `local@domain` is shown as `local`. |
| Auth.AuthStore.Name | src/stores/auth.js:9-14 | The store's `displayName` is never empty and is `"User"` when no one is signed in. Otherwise it is the first non-empty candidate of the current user. |
| Auth.AuthStore.IsAuthenticated | src/stores/auth.js:16-18 | True exactly when a user is stored. When false, the shown name is `"User"`. |
| Auth.AuthStore.SignIn | src/stores/auth.js:21-36 | On success it stores `data.user`, so the store is authenticated exactly when the answer carried a user, and returns `data`. On an error it keeps the identity and rethrows. `loading` is false afterwards in both cases. |
| Auth.AuthStore.SignOut | src/stores/auth.js:38-42 | On success the identity becomes null, so the store is no longer authenticated and shows `"User"`. On an error it is kept and the error is rethrown. |
| Auth.AuthStore.GetCurrentUser | src/stores/auth.js:44-54 | It stores and returns the user the service reports, possibly null, and the store is authenticated exactly when that user is present. When the call throws it stores and returns null, and it never throws. |
| Router.Normalize | src/router/index.js:39-42 | The router compares paths in lower case and with one trailing slash dropped. Those are its defaults, since the router is created without `sensitive` or `strict`. |
| Router.Match | src/router/index.js:9-42 | The matched route is in the table and has the requested path up to case and a trailing slash. No match means no route has that path in that sense. |
| Router.Target | src/router/index.js:11-12 | A navigation's target differs from the requested path only when the matched route redirects, and a matched redirect route always sends to its target. |
| Router.MetaOf | src/router/index.js:9-37 | A path with no route has no flags. Otherwise its flags are the matched route's. |
| Router.TablePathsNormal | src/router/index.js:9-37 | The table's paths are already lower case without a trailing slash. |
| Router.MatchTable | src/router/index.js:9-37 | Each path reaches the one table route whose path is its lower-cased, trailing-slash-free form, or no route. |
| Router.RouteTable | src/router/index.js:9-37 | For every spelling of each path: `/` redirects to `/dashboard`, and `/login` has no flags. `/dashboard` and `/profile` require a user, and `/admin` requires a user and an admin. Every other path has no flags and no redirect. |
| Router.CaseAndSlashVariants | src/router/index.js:39-42 | `/Admin` and `/admin/` compare as `/admin`, and `/Dashboard/` compares as `/dashboard`. |
| Router.VariantsOfAdminGuarded | src/router/index.js:48-53 | A visitor with no user who asks for `/Admin` or `/admin/` is sent to `/login`, like one who asks for `/admin`. |
| Router.AdminRoutesRequireAuth | src/router/index.js:9-37 | No route requires admin without also requiring a user. |
| Router.AdminRouteNeedsAdminUser | src/router/index.js:48-77 | The guard proceeds to a `requiresAdmin` route only when a user is signed in and the `admin_users` lookup found a row for that user. |
| Router.Guard | src/router/index.js:45-78 | It proceeds exactly when the route requires no user, or a user is present and either the route does not require admin or the admin row was found. It goes to `/login` exactly when a user is required and absent. It goes to `/dashboard` exactly when admin is required, a user is present, and the lookup found no row or threw. It asks for the user exactly when the route requires one, and asks `admin_users`, for that user's id, exactly when admin is also required and a user is present. |
| Router.PublicRoutesIgnoreIdentity | src/router/index.js:48 | A route without `requiresAuth` proceeds for every identity and every admin answer, and asks for neither. |
| Router.NoUserIgnoresAdmin | src/router/index.js:49-53 | Without a user, the admin answer does not affect the decision. |
| Router.SignedOutToDashboard | src/router/index.js:49-53 | A navigation to `/dashboard` with no user goes to `/login`. |
| Router.NonAdminToAdmin | src/router/index.js:64-73 | A signed-in user with no admin row, or whose lookup throws, who goes to `/admin` is sent to `/dashboard`. |
| Router.Navigate | src/router/index.js:45-78 | The route is found up to case and a trailing slash. A route that requires a user refreshes the identity through the auth store, which then holds the refreshed user. A public route leaves the auth store untouched. The outcome is the guard's decision. |

## Left out

- Query building and transport are left out: `.from`, `.select`, `.eq`, `.order`, `.single`, and the server-side ordering and project-name filter. Each call is an abstract answer passed in. For the same reason `fetchActivities`' optional project name is not a parameter, because it only shapes the server query.
- Gateway credentials are not modelled: `signIn`'s email and password only reach the service, so the sign-in answer stands in for them.
- Concurrency is left out: each store operation is one atomic step, so calls in flight at the same time, and the shared `loading` flag being cleared by one of them while another is pending, are not modelled.
- Projects.ProjectStore.FetchProjects: states that `loading` is false afterwards, but not that it was true while the call was outstanding; an atomic step has no such moment. The same holds for CreateProject, UpdateProject, DeleteProject, and the activity store's operations and `signIn`.
- Activities.ProgressValue: `parseFloat` is modelled only for leading decimal digits. Whitespace, signs, decimal points, exponents and `Infinity` are not modelled. Every text with no leading digit is given the value -1, so it sorts below every number. Where it is a text `parseFloat` cannot read, JavaScript's comparator returns NaN for it, which makes the comparator inconsistent and the order implementation-defined. `parseFloat` also rounds a digit string longer than about 16 digits to the nearest double, so two long texts can tie in JavaScript; the model reads digits exactly and orders them.
- Activities.UrgencyRank: an urgency other than High, Medium or Low ranks 0, below Low. In JavaScript it yields a NaN comparison, another inconsistent comparator.
- Activities.NatToText: JavaScript numbers are doubles. `toString` writes exponent form from 10^21 on (`"1e+21"`), and integers above 2^53 are not held exactly. The model takes progress as an unbounded natural number and writes every value in plain digits, so it agrees with the source only below 10^21, and only for values a double holds exactly.
- Activities.ProgressText: numeric progress is a natural number. Fractions and negative numbers, and `.toString()` on other JavaScript values (a missing progress throws), are not modelled.
- `created_at` is an integer timestamp; date parsing by `new Date(...)` is not modelled.
- Activities.Activity: `expected_time` is modelled as an integer. A JavaScript value there can be fractional, null or missing, and the comparator subtracts it as such: a null time subtracts as 0 and a missing one gives NaN; the field is an `int`, so neither is captured, and fractional times are not captured either.
- JavaScript truthiness in the `||` defaults is modelled only for the field types above: an optional string is falsy when absent or empty, and an optional boolean when absent or false.
- Activities.ActivityStore.SetFilters: a patch can only supply string values. A key present with the value `undefined`, which the spread would copy over the old value, is not modelled.
- Router.Normalize: lower-casing covers ASCII letters only. The router's case-insensitive regular expressions also fold other letters, and these are not modelled.
- Router.Match: a navigation's query string, hash and encoded characters are not modelled; the path is taken as given. A redirect the guard issues starts a new navigation, which is guarded again; the model decides one navigation at a time.
- Vue reactivity (`ref`, `computed`), Pinia's `defineStore`, `createRouter`/`createWebHistory`, the view components and `console.error` logging are framework plumbing.
- `src/main.js` is app bootstrap and a global error handler with no logic, so it is not part of this model.
