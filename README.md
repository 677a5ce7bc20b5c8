# Dashboard view state, modelled in Dafny

This project models the dashboard screen of the Quick.AI client
(`client/src/pages/Dashboard.jsx`). The screen holds two state cells:
`creations`, which starts as `[]`, and `loading`, which starts as `true`. On
mount it runs `getDashboardData` once. That function acquires a Clerk token
and issues one GET for the user's creations. It then settles the screen:

- on `success` the list is replaced;
- on `success: false` a toast is raised;
- on a thrown error a toast is raised;
- in every case `loading` is cleared in `finally`.

The markup shows three things: the number of creations, the plan label
("Premium" or "Free"), and either a spinner, the list of creations, or
"No creations found.".

Files:

- `wrappers.dfy`: the `Option` type, which stands for a JavaScript field that may be absent.
- `dashboard.dfy`: module `Dashboard`. It holds:
  - the outcome of the fetch as an input datatype (`Success`, `ServerFail`, `Thrown`);
  - JavaScript's `||` fallback chain over optional strings (`Coalesce`) and the two toast messages built from it;
  - the screen state and its transitions as functions (`Settle`, `Commit`, `Commits`) with lemmas;
  - the render projections (`PlanLabel`, `RecentCreations`, `Render`);
  - the component as a class `DashboardView`. Its fields are the state cells, its methods overwrite them the way `setCreations`/`setLoading` do, and each method is proved against the functions above.

A message operand is "truthy" when it is present and non-empty. So an empty
`data.message` or `error.message` falls through to the next operand, as
JavaScript's `||` does.

## Model

| member | source | states |
|---|---|---|
| Dashboard.Coalesce | client/src/pages/Dashboard.jsx:32-38 | `a \|\| b \|\| ... \|\| fallback`: the result is the first truthy operand. It is the fallback when no operand is truthy, so it is never empty when the fallback is not. |
| Dashboard.ServerFailMessage | client/src/pages/Dashboard.jsx:32 | The toast is `data.message` when that is non-empty, otherwise "Unable to fetch data". It is never empty. |
| Dashboard.ThrownMessage | client/src/pages/Dashboard.jsx:35-39 | The toast is the first non-empty of `error.response.data.message` and `error.message`, otherwise "Something went wrong". It is never empty. |
| Dashboard.ToastFor | client/src/pages/Dashboard.jsx:29-39 | A toast is raised exactly when the outcome is not a success. Its text is the server-fail or thrown message, and it is non-empty. |
| Dashboard.Settle | client/src/pages/Dashboard.jsx:20-43 | After settling, `loading` is false. On success `creations` is exactly the response list, in order, and no toast is added. Otherwise `creations` is unchanged and exactly one toast is appended: the `data.message` or thrown-error fallback chosen by `ToastFor`, which is non-empty. |
| Dashboard.Commit | client/src/pages/Dashboard.jsx:45-47 | The empty-dependency effect: once it has fired, a commit leaves the screen unchanged. On the first commit it fires and settles the screen: `loading` becomes false, the list is replaced on success and kept otherwise, and a toast is appended exactly on failure. |
| Dashboard.CommitsAfterEffect | client/src/pages/Dashboard.jsx:45-47 | After the empty-dependency effect has run, later commits leave the screen unchanged. |
| Dashboard.SettlesOncePerMount | client/src/pages/Dashboard.jsx:13-47 | From the initial state (`[]`, `loading = true`), any run of commits settles once, with the first fetch's outcome. Afterwards `loading` is false and at most one toast was raised. |
| Dashboard.PlanLabel | client/src/pages/Dashboard.jsx:68 | The label is "Premium" iff the user, their metadata and the plan are all present and the plan equals "premium". Otherwise it is "Free". |
| Dashboard.RecentCreations | client/src/pages/Dashboard.jsx:78-91 | The spinner is shown iff loading. Once settled, the area shows one `CreationItem` per creation, keyed by its id, in order, when the list is non-empty. Otherwise it shows "No creations found.". |
| Dashboard.Render | client/src/pages/Dashboard.jsx:56-91 | The displayed "Total Creations" count is the length of `creations`. The "Active Plan" label is `PlanLabel` of the user. The recent area is `RecentCreations` of the state, so the spinner shows exactly while loading. |
| Dashboard.SettledPage | client/src/pages/Dashboard.jsx:29-33 | After settling, the page shows no spinner. After a success with N records, the count is N and the items appear in response order, or the empty message when N = 0. After a failure, the previous count is kept. |
| Dashboard.DashboardView.constructor | client/src/pages/Dashboard.jsx:13-14 | A fresh mount starts with an empty list, `loading = true`, no toasts and the effect not yet run. |
| Dashboard.DashboardView.GetDashboardData | client/src/pages/Dashboard.jsx:20-43 | Overwrites the state cells and the toast log exactly as `Settle` prescribes for the given outcome. |
| Dashboard.DashboardView.AfterCommit | client/src/pages/Dashboard.jsx:45-47 | Runs `getDashboardData` after the first commit only, as `Commit` prescribes. |

## Left out

- The axios GET, the global `axios.defaults.baseURL` assignment and the bearer header (lines 10, 23-27): these are network I/O. The response or the error they produce is the `Outcome` parameter.
- Clerk's `getToken` and `useUser` (lines 16-17, 22): this is the external authentication provider. A failing `getToken` is a `Thrown` outcome. A null token is sent unchanged, because the code does not check it. The user is an `Option<User>` parameter of the render functions.
- `toast.error` is an external side effect. It is modelled as appending the message to a log.
- async/await suspension and React scheduling: settling is one atomic step. Re-renders that happen while the fetch is pending are not modelled. A request that never resolves (the view stays loading forever) is not modelled either.
- React's development-mode double invocation of effects is a runtime detail and is not modelled.
- The code has no unmount or cancellation guard: a fetch that resolves after unmount still calls `setCreations` and `setLoading`. The model has no guard either, and it does not model unmounting.
- The code does not classify error kinds (authentication, server-reported, transport). It raises one toast chosen by the `||` chains above, and the model does the same.
- Message fields are modelled as strings. A non-string truthy `message` value (a number or an object) is not modelled.
- A truthy `success` with a missing `creations` field would crash on `.length` in the code. The model assumes the field is always a list on success.
- JSX markup, CSS classes, icons and the internals of `CreationItem` (lines 49-95) are presentation only. Only the abstract page (`Page`, `Recent`, `ItemView`) is modelled.
