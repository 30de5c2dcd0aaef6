# Transellia admin dashboard — a Dafny model of its core

The dashboard is a React/TypeScript single-page application through which
administrators manage subscription plans, users, stores and payments of the
Transellia platform. This project models the logic of the application and
proves properties of it. Rendering is left out. The model covers:

- the **persisted session store** (`userStore.ts`): four fields, the actions
  that overwrite them, the snapshot that is saved, and the one-shot
  rehydration at start-up. It is modelled as the class
  `UserStore.SessionStore`, each method proved to perform a transition
  function on `SessionState`;
- the **auth controller** (`AuthProvider.tsx`): the loading flag around the
  login call, the `ADMIN`-only role gate, the backend-to-frontend user
  mapping, and the structured result;
- the **API client** (`api.ts`): header construction, the three-way
  normalisation of every transport outcome into one `ApiResponse`, and the
  verb and path of every wrapper;
- the **subscription plan form** and the **user form**: defaults merged with
  initial data, field-by-field validation (including the email pattern as an
  explicit predicate), the feature-list updaters, input routing, and the
  submit sequence. The component state is a class;
- the **subscription plans page**: the request mapping, the update id guard,
  and the delete-dialog state machine (the class `SubscriptionsPage.PageState`);
- the **list components** (plans, payments, users, stores): case-insensitive
  substring search combined with a status filter, the completed-payments
  total, the duration label, the role label, the stores column and the
  feature preview.

Modules follow the source files: `UserStore`, `AuthProvider`, `Api`,
`SubscriptionForm`, `UserForm`, `SubscriptionsPage`, `SubscriptionList`,
`PaymentHistory`, `UserList` and `StoreList`. Three shared modules hold the
JavaScript primitives. `Text` has `trim`, `toLowerCase` and `includes`.
`Sequences` has `filter` and the index-based updates. `Wrappers` has `Option`
and `Result`.

Some behaviours of the code are easy to misread:

- Start-up happens in two steps. The `persist` middleware reads the key
  `transellia-user-storage` when the store is created
  (src/stores/userStore.ts:23-58) and restores user, token and
  isAuthenticated verbatim. Then the module's own block
  (src/stores/userStore.ts:63-85) reads the same key again. That block
  restores a session only when the stored user and token are *truthy*
  (line 68), but by then the middleware has already restored the three fields.
  So the whole start-up brings back any parsed snapshot, an empty token or
  an inconsistent one included, and the block's test decides only
  `isLoading` (`UserStore.StartupRestoresSnapshotVerbatim`).
- A 2xx reply whose body says `success: false` with no message resolves to
  a failure without a message (src/services/api.ts:187-193,
  `Api.OkReplyMayFailWithoutMessage`). The other failure paths always
  carry one.
- When the backend is unreachable, `login` reports the API client's own
  English network-error message (src/services/api.ts:194-201). The
  fallback text at src/components/auth/AuthProvider.tsx:44-50 is never
  reached on that path (`AuthProvider.TransportFailureReportsApiMessage`).
- The authentication invariant is preserved by `login`, `logout` and
  `setLoading`. It can be broken by `setUser`, by `setToken`, and by a
  stored snapshot whose `isAuthenticated` disagrees with its user and token,
  because start-up copies that field verbatim.

## Model

| member | source | states |
|---|---|---|
| `UserStore.GuardedStepPreservesConsistent` | src/stores/userStore.ts:35-49 | `login`, `logout` and `setLoading` each keep "authenticated iff user and token present" |
| `UserStore.GuardedRunPreservesConsistent` | src/stores/userStore.ts:35-49 | any sequence of `login`/`logout`/`setLoading` calls keeps the invariant |
| `UserStore.SetUserCanBreakConsistent` | src/stores/userStore.ts:31 | clearing the user of a logged-in session with `setUser` breaks the invariant |
| `UserStore.SetTokenCanBreakConsistent` | src/stores/userStore.ts:33 | clearing the token of a logged-in session with `setToken` breaks the invariant |
| `UserStore.LogoutIdempotent` | src/stores/userStore.ts:42-47 | `logout` gives the same state from any state, and twice is once |
| `UserStore.PersistIgnoresLoading` | src/stores/userStore.ts:53-57 | two states have the same snapshot iff they agree on user, token and isAuthenticated; isLoading is never saved |
| `UserStore.RehydrationEndsLoading` | src/stores/userStore.ts:63-85 | every start-up branch (restored, incomplete, unparseable, absent) ends with isLoading false |
| `UserStore.PersistRehydrateRoundTrip` | src/stores/userStore.ts:53-74 | saving a session with a user and a non-empty token, then rehydrating, restores the three saved fields |
| `UserStore.IncompleteSnapshotStaysLoggedOut` | src/stores/userStore.ts:68-77 | the start-up block alone, applied to the initial state, restores nothing from a snapshot without a user or without a truthy token |
| `UserStore.EmptyTokenSessionNotRestored` | src/stores/userStore.ts:68 | a session logged in with the empty token is authenticated, yet the start-up block alone would not restore it |
| `UserStore.RehydrateFromConsistentSnapshot` | src/stores/userStore.ts:68-74 | rehydrating a consistent session's own snapshot gives a consistent state |
| `UserStore.RehydrateCopiesAuthenticatedVerbatim` | src/stores/userStore.ts:72 | a snapshot with user and token but isAuthenticated false rehydrates to an inconsistent state |
| `UserStore.StartupRestoresSnapshotVerbatim` | src/stores/userStore.ts:23-85 | middleware then start-up block: every parsed snapshot comes back verbatim with isLoading false; the block's truthiness test decides only isLoading |
| `UserStore.StartupWithoutSnapshotLoggedOut` | src/stores/userStore.ts:23-85 | with an absent or unparseable entry the whole start-up ends logged out and not loading |
| `UserStore.StartupKeepsEmptyTokenAndInconsistentSessions` | src/stores/userStore.ts:23-85 | a session saved with the empty token is restored unchanged, and a snapshot with a token but no user restores an inconsistent state |
| `UserStore.SessionStore.constructor` | src/stores/userStore.ts:26-29 | a fresh store has no user, no token, is not authenticated and is loading |
| `UserStore.SessionStore.SetUser` | src/stores/userStore.ts:31 | only the user field changes |
| `UserStore.SessionStore.SetToken` | src/stores/userStore.ts:33 | only the token field changes |
| `UserStore.SessionStore.Login` | src/stores/userStore.ts:35-40 | sets user, token, authenticated and not loading; the new state is consistent |
| `UserStore.SessionStore.Logout` | src/stores/userStore.ts:42-47 | clears user and token, not authenticated, not loading; the new state is consistent |
| `UserStore.SessionStore.SetLoading` | src/stores/userStore.ts:49 | only isLoading changes, so consistency is kept |
| `UserStore.SessionStore.Partialize` | src/stores/userStore.ts:53-57 | the saved snapshot is exactly user, token and isAuthenticated of the current state |
| `UserStore.SessionStore.HydrateFromStorage` | src/stores/userStore.ts:23-58 | the middleware's hydration: a parsed entry's user, token and isAuthenticated are copied verbatim, isLoading is kept; otherwise nothing changes |
| `UserStore.SessionStore.Rehydrate` | src/stores/userStore.ts:63-85 | the store takes the state the start-up block gives from its old state and ends not loading |
| `UserStore.Startup` | src/stores/userStore.ts:23-85 | a new store is hydrated by the middleware, then read once by the start-up block; a parsed snapshot is restored verbatim, otherwise the store ends logged out, never loading |
| `AuthProvider.RoleGate` | src/components/auth/AuthProvider.tsx:24-38 | passes iff the role is exactly `ADMIN`; the mapped user keeps id and email, takes the detail name or "Admin User", and has role admin; otherwise the access-denied message |
| `AuthProvider.Login` | src/components/auth/AuthProvider.tsx:13-59 | isLoading is raised before the call; the result is the decision's result; a commit logs the store in, a rejection only clears isLoading; isLoading ends false |
| `AuthProvider.Logout` | src/components/auth/AuthProvider.tsx:61-63 | delegates to the store's logout and calls no endpoint |
| `AuthProvider.CommitIffAdmin` | src/components/auth/AuthProvider.tsx:19-43 | a login commits iff the response succeeded with data whose user has role exactly `ADMIN` |
| `AuthProvider.NonAdminRejected` | src/components/auth/AuthProvider.tsx:24-30 | a successful response for any other role is refused with the access-denied message |
| `AuthProvider.AdminCommitted` | src/components/auth/AuthProvider.tsx:33-43 | an admin login commits the mapped user and the response token, or "" without one |
| `AuthProvider.UnsuccessfulResponseRejected` | src/components/auth/AuthProvider.tsx:44-50 | an unsuccessful or data-less response is refused with its non-empty message or the fixed fallback |
| `AuthProvider.DecisionsAreWellFormed` | src/components/auth/AuthProvider.tsx:24-57 | every refusal carries a non-empty message and every committed user is an admin |
| `AuthProvider.TransportFailureReportsApiMessage` | src/components/auth/AuthProvider.tsx:44-50 | when fetch fails, login reports the API client's network-error message |
| `AuthProvider.AdminScenario` | src/components/auth/AuthProvider.tsx:19-43 | an ADMIN named Ann with token tok1 is committed as admin Ann with tok1 |
| `Api.Normalise` | src/services/api.ts:167-201 | a raise gives the fixed network error; a non-2xx reply gives failure, the body message or "Request failed", and the body errors or []; a 2xx reply copies success, message, content and errors, and a token only for POST |
| `Api.FailurePathsHaveMessage` | src/services/api.ts:178-201 | a transport failure or non-2xx reply always has success false and a non-empty message |
| `Api.OkReplyMayFailWithoutMessage` | src/services/api.ts:187-193 | a 2xx reply whose body fails without a message resolves to a failure without a message |
| `Api.OnlyPostSurfacesToken` | src/services/api.ts:187-193 | a result carries a token only for a 2xx POST |
| `Api.GetHeaders` | src/services/api.ts:152-165 | content type and API key are always set; `Authorization: Bearer <token>` is present iff the store's token is truthy; no other header |
| `Api.NatTextRoundTrip` | src/services/api.ts:319-320 | the decimal rendering of a page or limit reads back as that number |
| `Api.DefaultNumbersText` | src/services/api.ts:319-320 | the default page and limit render as "1" and "10" |
| `Api.DefaultPaging` | src/services/api.ts:319-342 | without arguments both list wrappers GET `?page=1&limit=10` |
| `Api.PagedRouteReadsBack` | src/services/api.ts:319-342 | the list paths are `?page=P&limit=L` with the plain renderings, which read back as page and limit |
| `Api.UpdateUserSubscriptionShape` | src/services/api.ts:360-394 | a PATCH to `/v1/users/{id}/subscription` with the same three-way normalisation and no token |
| `Api.TokenOnlyFromPostWrappers` | src/services/api.ts:310-357 | only login, register and the two creates can surface a token |
| `SubscriptionForm.Merge` | src/components/subscriptions/SubscriptionForm.tsx:95-98 | each of the fourteen fields is taken from the partial data when present and kept from the base otherwise; no fields gives the base |
| `SubscriptionForm.InitialFormDataSpec` | src/components/subscriptions/SubscriptionForm.tsx:71-98 | no initial data gives the defaults; initial data is spread over the defaults field by field |
| `SubscriptionForm.ErrorsUpToSpec` | src/components/subscriptions/SubscriptionForm.tsx:106-133 | after the first n checks, a key is in the error map iff its check failed, with its own message, and no other key is |
| `SubscriptionForm.ExpectedErrorsSpec` | src/components/subscriptions/SubscriptionForm.tsx:103-136 | each of the seven checks reports under exactly its own key with its own message, and nothing else is reported |
| `SubscriptionForm.NoErrorsIffValid` | src/components/subscriptions/SubscriptionForm.tsx:103-136 | the error map is empty iff name and description are non-blank, price, duration, max stores and max products are positive, and some feature is non-blank |
| `SubscriptionForm.ValidateForm` | src/components/subscriptions/SubscriptionForm.tsx:103-137 | builds exactly the expected error map, and reports valid iff it is empty iff the form is valid |
| `SubscriptionForm.AddFeature` | src/components/subscriptions/SubscriptionForm.tsx:162-167 | appends one "" and changes no other field |
| `SubscriptionForm.RemoveFeatureSpec` | src/components/subscriptions/SubscriptionForm.tsx:169-174 | drops exactly entry i when it exists, keeping the order; an out-of-range index changes nothing |
| `SubscriptionForm.RemoveUndoesAdd` | src/components/subscriptions/SubscriptionForm.tsx:162-174 | removing the appended entry gives back the form |
| `SubscriptionForm.UpdateFeatureSpec` | src/components/subscriptions/SubscriptionForm.tsx:176-181 | replaces only entry i, keeps the length and every other field; out of range it is the identity |
| `SubscriptionForm.AddFeatureKeepsValidity` | src/components/subscriptions/SubscriptionForm.tsx:162-167 | appending the empty entry never changes validity |
| `SubscriptionForm.ValidFeatures` | src/components/subscriptions/SubscriptionForm.tsx:130 | an order-preserving sub-sequence holding each non-blank feature exactly as often as the input and nothing else; empty iff no feature is non-blank |
| `SubscriptionForm.Cleaned` | src/components/subscriptions/SubscriptionForm.tsx:148-151 | the submitted data is the form with exactly its non-blank features, in order and with their repetitions; a valid form submits at least one |
| `SubscriptionForm.SubscriptionFormComponent.constructor` | src/components/subscriptions/SubscriptionForm.tsx:95-101 | the form starts from the merged initial data, no errors, not submitting |
| `SubscriptionForm.SubscriptionFormComponent.SyncInitialData` | src/components/users/UserForm.tsx:54-61 | the re-read of changed initial data the plan form lacks: present data is spread over the current form, absent data changes nothing |
| `SubscriptionForm.SubscriptionFormComponent.AddFeatureEntry` | src/components/subscriptions/SubscriptionForm.tsx:162-167 | the form data becomes `AddFeature` of the old data; errors and the submitting flag are kept |
| `SubscriptionForm.SubscriptionFormComponent.RemoveFeatureEntry` | src/components/subscriptions/SubscriptionForm.tsx:169-174 | the form data becomes `RemoveFeature` of the old data; nothing else changes |
| `SubscriptionForm.SubscriptionFormComponent.UpdateFeatureEntry` | src/components/subscriptions/SubscriptionForm.tsx:176-181 | the form data becomes `UpdateFeature` of the old data; nothing else changes |
| `SubscriptionForm.SubscriptionFormComponent.HandleSubmit` | src/components/subscriptions/SubscriptionForm.tsx:139-160 | records the expected errors; submits the cleaned data iff valid; closes only when valid and onSubmit did not throw; isSubmitting ends false after a submission |
| `UserForm.Merge` | src/components/users/UserForm.tsx:45-61 | top-level keys of the partial data override, the others are kept; a present userDetails replaces the whole object |
| `UserForm.InitialFormDataWellTyped` | src/components/users/UserForm.tsx:25-48 | the defaults, or initial data of the declared types, give a well-typed form; the email is the initial one when given, else empty; the defaults start with empty email, password and name |
| `UserForm.EmailPatternIffShape` | src/components/users/UserForm.tsx:68 | the pattern accepts exactly strings with no white space, one `@` after a non-empty part, and a `.` inside the domain with a character on each side |
| `UserForm.EmailErrorSpec` | src/components/users/UserForm.tsx:66-70 | a blank email is required, a non-blank one of the wrong shape is invalid, and there is no error iff the shape holds |
| `UserForm.EditModeHasNoPasswordError` | src/components/users/UserForm.tsx:72-76 | edit mode never reports a password error |
| `UserForm.CreateModePasswordRules` | src/components/users/UserForm.tsx:72-76 | in create mode a missing or blank password is required, a non-blank one under six UTF-16 code units (untrimmed) is too short, and the rest pass |
| `UserForm.PasswordLengthCountsCodeUnits` | src/components/users/UserForm.tsx:74 | three emoji (six code units) pass the length check, three letters do not |
| `UserForm.ExpectedErrorsSpec` | src/components/users/UserForm.tsx:63-84 | email, password and name report under their own keys with their own messages, and nothing else is reported |
| `UserForm.NoErrorsIffValid` | src/components/users/UserForm.tsx:63-84 | the error map is empty iff the email has the shape, the create-mode password rules hold, and the name is non-blank |
| `UserForm.ValidateForm` | src/components/users/UserForm.tsx:63-84 | builds exactly the expected error map, and reports valid iff it is empty iff the form is valid |
| `UserForm.SplitDot` | src/components/users/UserForm.tsx:111 | the parts contain no dot, and there are at least two iff the name has a dot |
| `UserForm.SplitJoinRoundTrip` | src/components/users/UserForm.tsx:111 | joining the parts with dots gives back the name |
| `UserForm.DetailsNameHasSegment` | src/components/users/UserForm.tsx:110-111 | a name containing `userDetails.` has a second segment |
| `UserForm.DetailsRouting` | src/components/users/UserForm.tsx:110-118 | a `userDetails.X` name sets only detail X, to the value or the checked flag |
| `UserForm.SubscriptionIdRouting` | src/components/users/UserForm.tsx:119-123 | `subscriptionId` becomes null for "" and the chosen id otherwise; nothing else changes |
| `UserForm.TopLevelRouting` | src/components/users/UserForm.tsx:124-129 | any other name sets only that top-level field, to the value or the checked flag |
| `UserForm.TextChangeKeepsWellTyped` | src/components/users/UserForm.tsx:105-129 | a text or select change keeps the shape the checks read |
| `UserForm.UserFormComponent.constructor` | src/components/users/UserForm.tsx:45-51 | the form starts from the merged initial data, no errors, not submitting |
| `UserForm.UserFormComponent.SyncInitialData` | src/components/users/UserForm.tsx:54-61 | present initial data is merged over the current form; absent data changes nothing |
| `UserForm.UserFormComponent.HandleInputChange` | src/components/users/UserForm.tsx:105-130 | the form data becomes the routed update of the old data; nothing else changes |
| `UserForm.UserFormComponent.HandleSubmit` | src/components/users/UserForm.tsx:86-103 | records the expected errors; submits the form iff valid; closes only when valid and onSubmit did not throw; isSubmitting ends false after a submission |
| `SubscriptionsPage.ToRequestIffSameFields` | src/pages/SubscriptionsPage.tsx:19-27 | two forms give the same request iff they agree on name, description, price, currency, duration, features and status |
| `SubscriptionsPage.AfterResponse` | src/pages/SubscriptionsPage.tsx:31-37 | reloads iff the response succeeded, else throws the response message or the fallback |
| `SubscriptionsPage.HandleCreate` | src/pages/SubscriptionsPage.tsx:16-44 | posts the seven-field request to the create endpoint; the response decides reload or throw |
| `SubscriptionsPage.ThrownMessagesNonEmpty` | src/pages/SubscriptionsPage.tsx:35-77 | every thrown outcome of the create and update handlers carries a non-empty message |
| `SubscriptionsPage.HandleUpdateSpec` | src/pages/SubscriptionsPage.tsx:51-87 | a request is made iff the edited record has a non-empty id, and it is the PUT of the request to that id; otherwise the missing-id error is thrown |
| `SubscriptionsPage.AsWrittenEditNeverUpdates` | src/pages/SubscriptionsPage.tsx:53-56 | after the list's edit button as written, every update throws the missing-id error and makes no request |
| `SubscriptionsPage.EditReachesUpdateEndpoint` | src/pages/SubscriptionsPage.tsx:53-69 | with the plan id handed over, the update PUTs to that plan and reloads iff the backend succeeds |
| `SubscriptionsPage.PageState.constructor` | src/pages/SubscriptionsPage.tsx:10-14 | form closed, nothing edited, no dialog, nothing selected, not deleting; the one plan form is mounted with no initial data, so it holds the defaults |
| `SubscriptionsPage.PageState.Mode` | src/pages/SubscriptionsPage.tsx:162 | the form is in edit mode iff a record is being edited |
| `SubscriptionsPage.PageState.SubmitHandler` | src/pages/SubscriptionsPage.tsx:160 | the update handler is wired iff the mode is edit |
| `SubscriptionsPage.PageState.OpenCreate` | src/pages/SubscriptionsPage.tsx:139 | opens the form and changes nothing else |
| `SubscriptionsPage.PageState.HandleEditSubscription` | src/pages/SubscriptionsPage.tsx:46-49 | remembers the record, opens the form in edit mode wired to the update handler, and leaves the mounted form's data as it was |
| `SubscriptionsPage.PageState.HandleEditSubscriptionWithSync` | src/pages/SubscriptionsPage.tsx:46-49 | the same, with the form spreading the record's data over what it holds |
| `SubscriptionsPage.PageState.HandleDeleteSubscription` | src/pages/SubscriptionsPage.tsx:89-92 | remembers the plan and opens the dialog |
| `SubscriptionsPage.PageState.ConfirmDelete` | src/pages/SubscriptionsPage.tsx:94-119 | with nothing selected answers false and changes nothing; otherwise deletes the selected id with isDeleting set, answers the backend's success, and ends with the dialog closed, nothing selected, not deleting |
| `SubscriptionsPage.PageState.CancelDelete` | src/pages/SubscriptionsPage.tsx:121-124 | closes the dialog and clears the selection |
| `SubscriptionsPage.PageState.HandleCloseForm` | src/pages/SubscriptionsPage.tsx:126-129 | closes the form and leaves edit mode, so the create handler is wired again |
| `SubscriptionsPage.EditShowsPlanAsWritten` | src/pages/SubscriptionsPage.tsx:157-163 | after the edit button the opened form shows the defaults, not the plan: a plan with a name is shown without it |
| `SubscriptionsPage.EditShowsPlanWithSync` | src/pages/SubscriptionsPage.tsx:157-163 | with the sync the opened form shows the plan's fields and fixed values, and the default trial period |
| `SubscriptionList.FilterSubscriptions` | src/components/subscriptions/SubscriptionList.tsx:29-32 | an order-preserving sub-sequence holding exactly the plans whose lowercased name or description contains the lowercased term |
| `SubscriptionList.EmptySearchKeepsAll` | src/components/subscriptions/SubscriptionList.tsx:29-32 | the empty term keeps every plan in order |
| `SubscriptionList.StatusIgnored` | src/components/subscriptions/SubscriptionList.tsx:29-32 | the status plays no part in the search |
| `SubscriptionList.SearchTermNotTrimmed` | src/components/subscriptions/SubscriptionList.tsx:29-32 | the term is not trimmed: " pro" does not find "pro" |
| `SubscriptionList.FormatDuration` | src/components/subscriptions/SubscriptionList.tsx:42-44 | for every value: the number's text, a space, the unit, and a trailing `s` exactly when the value exceeds one |
| `SubscriptionList.FormatDurationSpec` | src/components/subscriptions/SubscriptionList.tsx:42-44 | the label's digits read back as the value, then a space and the unit, and it ends in `s` iff the value exceeds one |
| `SubscriptionList.FormatDurationExamples` | src/components/subscriptions/SubscriptionList.tsx:42-44 | "1 month" and "3 months" |
| `SubscriptionList.EditPayload` | src/components/subscriptions/SubscriptionList.tsx:49-63 | copies name, description, price, duration, features and status; fixes IDR, 5, 1000, priority, advanced; the two flags hold iff the features name them |
| `SubscriptionList.HandleEditAsWritten` | src/components/subscriptions/SubscriptionList.tsx:46-66 | nothing without onEdit; otherwise the payload with no id |
| `SubscriptionList.HandleEdit` | src/components/subscriptions/SubscriptionList.tsx:46-66 | nothing without onEdit; otherwise the payload with the plan's id |
| `SubscriptionList.EditPrefillsForm` | src/components/subscriptions/SubscriptionList.tsx:49-63 | spreading the edit payload over any form (the defaults for a form mounted with it) gives the plan's fields, the fixed values and the feature flags, and keeps the trial period |
| `SubscriptionList.Preview` | src/components/subscriptions/SubscriptionList.tsx:140-149 | at most the first three features, and a `+n more` count of length − 3 iff there are more than three |
| `SubscriptionList.PreviewAccountsForAll` | src/components/subscriptions/SubscriptionList.tsx:140-149 | the shown features and the counted rest make up the whole list |
| `PaymentHistory.FilteredPayments` | src/components/payments/PaymentHistory.tsx:15-23 | an order-preserving sub-sequence holding exactly the payments matching the search in user name, email or plan name and the status filter |
| `PaymentHistory.DateRangeHasNoEffect` | src/components/payments/PaymentHistory.tsx:13-23 | the date-range control never changes the list |
| `PaymentHistory.EmptySearchAllStatusKeepsAll` | src/components/payments/PaymentHistory.tsx:15-23 | an empty term with status `all` keeps every payment |
| `PaymentHistory.ReduceCompletedSpec` | src/components/payments/PaymentHistory.tsx:50-54 | the reduction adds exactly the completed payments' amounts to its start value |
| `PaymentHistory.TotalIsSumOfCompleted` | src/components/payments/PaymentHistory.tsx:50-54 | the total is the sum of the completed payments' amounts |
| `PaymentHistory.ReduceCompletedAppend` | src/components/payments/PaymentHistory.tsx:51-53 | reducing a concatenation continues from where the first list ended |
| `PaymentHistory.TotalAppend` | src/components/payments/PaymentHistory.tsx:50-54 | the total of two lists in a row is the sum of their totals |
| `PaymentHistory.TotalIgnoresFilters` | src/components/payments/PaymentHistory.tsx:15-54 | a completed payment hidden by the search still counts in the total |
| `UserList.FilteredUsers` | src/components/users/UserList.tsx:10-20 | an order-preserving sub-sequence holding, as often as in the input, exactly the users whose lowercased name or email contains the lowercased, trimmed term and who pass the status filter |
| `UserList.BlankSearchAllStatusKeepsAll` | src/components/users/UserList.tsx:10-20 | a blank or whitespace-only term with status `all` keeps every user |
| `UserList.SearchIsCaseInsensitiveAndTrimmed` | src/components/users/UserList.tsx:11-15 | " ANN " normalises to "ann" and finds the user Ann |
| `UserList.RoleLabel` | src/components/users/UserList.tsx:88 | "Administrator" iff the role is admin, otherwise "User" |
| `UserList.StoresCell` | src/components/users/UserList.tsx:121 | the number of stores for a list, the value itself otherwise |
| `StoreList.FilteredStores` | src/components/stores/StoreList.tsx:10-21 | an order-preserving sub-sequence holding, as often as in the input, exactly the stores whose lowercased name, description or owner name contains the normalised term and that pass the status filter |
| `StoreList.BlankSearchAllStatusKeepsAll` | src/components/stores/StoreList.tsx:11-18 | a blank term with status `all` keeps every store |
| `StoreList.OwnerEmailNotSearched` | src/components/stores/StoreList.tsx:13-16 | changing a store's owner email never changes whether it is listed |
| `StoreList.EmailOnlyMatchIsDropped` | src/components/stores/StoreList.tsx:13-16 | a store matching only through its owner email is not listed |
| `Text.Trim` | src/components/subscriptions/SubscriptionForm.tsx:106 | the result is a slice of the input with only white space cut off before and after it, has no white space at either end, and is empty iff the input is all white space |
| `Text.Utf16Length` | src/components/users/UserForm.tsx:74 | `length` counts UTF-16 code units: between one and two per character, one each when all lie in the Basic Multilingual Plane |
| `Text.SearchTermEmptyIffBlank` | src/components/users/UserList.tsx:11 | the lowercased, trimmed term is empty iff the raw term is blank |
| `Sequences.Filter` | src/components/subscriptions/SubscriptionForm.tsx:130 | an order-preserving sub-sequence with every kept value as often as in the input and nothing else; the input itself when all are kept |
| `Sequences.RemoveIndexSpec` | src/components/subscriptions/SubscriptionForm.tsx:172 | filtering out index i drops exactly that element when in range, else nothing |
| `Sequences.ReplaceIndexSpec` | src/components/subscriptions/SubscriptionForm.tsx:179 | mapping index i to v is the update at i in range, else the identity |

## Left out

- Network I/O. `fetch`, `response.json()`, `credentials` and the base URL are not modelled. A transport outcome is an input: it raised, or it replied with `ok` and a decoded body. `Api.Route` gives the path after the base URL.
- The `get`, `put` and `delete` methods of the API client share the `post` body except for the token. They are modelled by the one function `Api.Normalise`, keyed by the verb.
- Browser storage. `localStorage`, `JSON.parse` and the zustand `persist` middleware's write-back after each action are not modelled. The stored entry is an input: absent (or empty), unparseable, or a parsed snapshot. Both readers of it see the same entry. The middleware's hydration, which has restored user, token and isAuthenticated before the start-up block runs, is modelled only as that verbatim copy; its versioning, migration and merge options are not modelled.
- `window.location.reload()` and `console.*` calls are not modelled. A reload is recorded as the outcome `Reloaded`.
- Asynchrony and React state batching are not modelled: each handler runs to completion in sequence. The loading and deleting flags during a call are recorded in ghost out-parameters.
- Number, date and currency formatting (`Intl.NumberFormat`, `toLocaleDateString`, `new Date`), the payment-method icon, status colours and all JSX rendering are left out. So are Toast timers and Modal key listeners.
- The `parseFloat`/`parseInt` coercions in the subscription form's input handlers are left out. Those handlers live in the JSX.
- `toLowerCase` is modelled on ASCII letters only. `trim` strips exactly the ECMAScript white-space and line-terminator set. No other Unicode case mapping is modelled. Strings are sequences of Unicode characters; the one `length` the checks read is counted in UTF-16 code units (`Text.Utf16Length`).
- SubscriptionList.FormatDuration: renders integer values only. A fractional JavaScript number such as 1.5 is not modelled.
- PaymentHistory.TotalAmount: amounts are integers summed exactly. Floating-point rounding of large or fractional amounts is not modelled.
- SubscriptionForm.InitialFormData: a key present in `initialData` with the value `undefined` overrides the default in JavaScript. The model treats it as absent.
- UserForm.Routed: an input literally named `userDetails` would overwrite the whole details object in JavaScript. The model keeps the details as a separate map.
- UserForm.ValidateForm: requires the form to hold strings where the declared type says so. A value of another type would make `.trim()` throw, and that is not modelled.
- UserForm.UserFormComponent.HandleSubmit: requires the same declared shape as UserForm.ValidateForm, for the same reason.
- The list's delete button only logs the plan id (src/components/subscriptions/SubscriptionList.tsx:160-161). The page passes an `onDelete` prop that the list does not declare. So the delete dialog, modelled as the page defines it, is never opened from the list.
- `LoginForm.tsx` treats `login`'s result as a boolean, but `AuthProvider.login` returns an object that is always truthy. The form is not modelled.
- ProtectedRoute, AuthContext and mockData are not part of this model. The lists' data arrive as parameters.
- The income chart and the presentational components (Button, Input, Card, Badge, LoadingSpinner, StatCard, Sidebar, Header, AppLayout, PageHeader, ConfirmDialog, Modal, Toast), the other pages and the routing are left out. They hold no logic the modelled components depend on.

## Findings

| source | as written | input that shows it | evidently intended | confidence | as-written member | corrected member |
|---|---|---|---|---|---|---|
| src/components/subscriptions/SubscriptionList.tsx:46-66 | `handleEdit` hands `onEdit` the form data without the plan's `id`, and `handleUpdateSubscription` (src/pages/SubscriptionsPage.tsx:53-56) throws when `editingSubscription.id` is missing | any plan, edit button, then submit: the update throws "Subscription ID is required for update" and no request is made | the record handed to `onEdit` carries the plan's id, so the update PUTs to `/v1/subscriptions/{id}` | high (not executed) | `SubscriptionList.HandleEditAsWritten`, `SubscriptionsPage.AsWrittenEditNeverUpdates` | `SubscriptionList.HandleEdit`, `SubscriptionsPage.EditReachesUpdateEndpoint` |
| src/components/subscriptions/SubscriptionForm.tsx:95-98 | the form reads `initialData` only as its initial state. The page mounts its one form while `editingSubscription` is undefined (src/pages/SubscriptionsPage.tsx:157-163), and no effect re-reads the prop | open the page, then press edit on any plan with a name: the form opens showing the default data with an empty name | the form spreads a changed `initialData` over its data, as src/components/users/UserForm.tsx:54-61 does, and shows the plan | high (not executed) | `SubscriptionsPage.PageState.HandleEditSubscription`, `SubscriptionsPage.EditShowsPlanAsWritten` | `SubscriptionForm.SubscriptionFormComponent.SyncInitialData`, `SubscriptionsPage.PageState.HandleEditSubscriptionWithSync`, `SubscriptionsPage.EditShowsPlanWithSync`, `SubscriptionList.EditPrefillsForm` |
