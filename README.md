# React Technical Challenge — a Dafny model of its core

This project models the logic behind a small user-management front end in
Dafny. The front end is a React/TypeScript single-page application over a public
JSON API, and the model covers:

- **the form controller** (`useForm`): per-field validation against a rule
  table, and the `values`/`errors`/`touched`/`isSubmitting` state with
  `setValue`, `setTouched`, `validateAll`, `handleSubmit`, `reset` and
  `isValid`. The user and post forms' rule tables and their regular
  expressions are written out as data (`FormExamples`).
- **the async-request controller** (`useApi`): the `data`/`loading`/`error`/
  `status` cells, `execute` split at its `await` into a beginning and a
  completion, `reset`, and the immediate first call.
- **the HTTP client** (`HttpClient`): the configuration merge, how a
  request ends as a decoded body or one `ApiError` (with one exception: a
  text body that cannot be read is passed on as the raw rejection),
  `handleErrorResponse`, and the verb helpers' body encoding.
- **the environment configuration**: `getEnvVar`, `getBooleanEnvVar`,
  `getNumberEnvVar` with a model of `parseInt`, the defaults, and
  `validateEnvironment`.
- **the user search filter** of the user list.
- **the view navigation** of the application shell: six handlers and the
  fallback of `renderCurrentView`.

Files:

- `wrappers.dfy`: Option, Result, Outcome.
- `text.dfy`: the JavaScript string operations used, namely `trim`,
  `toLowerCase`, `includes`, number rendering and `join`.
- `types.dfy`: the shared records.
- `environment.dfy`, `http_client.dfy`, `use_api.dfy`, `use_form.dfy`,
  `form_examples.dfy`, `user_list.dfy`, `app.dfy`: one per part above.

Stateful code is modelled as classes whose methods update their fields:

- `FormController` for the form;
- `ApiController` for the request controller;
- `HttpClient`, whose configuration is fixed at construction;
- `App` for navigation.

Each method's postcondition ties the new state to a pure transition function
(`Settle`, `Render`, …) or to a specification function (`AllErrors`,
`AllTouched`, `Settles`). The lemmas about those functions state what the
code promises. The two loops of the form controller (`forEach` in
`validateAll`, `reduce` in `handleSubmit`) are `while` loops with invariants.

The environment is a parameter: a map from variable name to value, where a
missing name is `undefined`. What `fetch` did, whether a body could be
read, and how an awaited call settled are inputs to the methods that consume
them.

Three behaviours of the code are easy to misread, and the model states them:

- `data` is not tied to the success state. The last loaded data stays
  visible through later loading and error states
  (`UseApi.DataOutlivesSuccess`).
- An error message goes with the error status only for one call at a time
  (`UseApi.SingleCallErrorIffErrored`). With overlapping calls, a stale
  failure's message can stay beside a later success
  (`UseApi.OverlapShowsErrorWithSuccess`).
- A missing `VITE_API_BASE_URL` fails validation, but src/App.tsx:8-12 only
  logs that failure, and the client still gets the public default URL
  (`Environment.MissingBaseUrlStillConfigured`).

## Model

| member | source | states |
|---|---|---|
| Environment.GetEnvVar | src/config/environment.ts:21-23 | a set, non-empty variable is returned; an undefined or empty one gives the default, so the result is empty only if the default is |
| Environment.GetBooleanEnvVar | src/config/environment.ts:28-32 | the default exactly when the variable is undefined; otherwise true exactly for the text `true` |
| Environment.ParseInt | src/config/environment.ts:40 | `parseInt(value, 10)`: NaN for a blank value or one that starts with a character other than white space, a sign or a digit; a non-negative number when it starts with a digit |
| Environment.ParseSigned | src/config/environment.ts:40 | after the white space: NaN exactly when no digit follows the optional sign; negative only after `-`, never positive after it |
| Environment.DigitPrefix | src/config/environment.ts:40 | the part `parseInt` reads: the longest prefix of decimal digits |
| Environment.ParseDigits | src/config/environment.ts:40 | the digits read are a non-negative number |
| Environment.DigitPrefixOfDigitsThenRest | src/config/environment.ts:40 | the digit prefix of digits followed by a non-digit is exactly those digits |
| Environment.ParseIntOfIntToStringThenRest | src/config/environment.ts:40 | `parseInt` reads back any rendered integer, ignoring a suffix that does not start with a digit (such as `ms`) |
| Environment.ParseIntOfIntToString | src/config/environment.ts:40 | `parseInt` is a left inverse of integer rendering |
| Environment.TrimStartSkipsWhiteSpace | src/config/environment.ts:40 | leading white space is removed whatever follows it |
| Environment.ParseIntSkipsWhiteSpace | src/config/environment.ts:40 | leading white space does not change what `parseInt` reads |
| Environment.ParseIntNaNIff | src/config/environment.ts:40-41 | `parseInt` is NaN exactly when no digit follows the white space and optional sign |
| Environment.GetNumberEnvVar | src/config/environment.ts:37-42 | the default when the variable is undefined or does not start with a number, otherwise its leading integer |
| Environment.LoadEnvironment | src/config/environment.ts:47-57 | the base URL, application name and version are never empty |
| Environment.LoadEnvironmentDefaults | src/config/environment.ts:47-57 | with nothing set: the public API URL, 10000 ms, "React Technical Challenge", "1.0.0", debug off |
| Environment.LoadEnvironmentTimeout | src/config/environment.ts:50 | a time-out written as an integer, even with a unit suffix, is the configured time-out |
| Environment.LoadEnvironmentTimeoutNotANumber | src/config/environment.ts:50 | a time-out that is not a number, or is empty, falls back to 10000 |
| Environment.MissingVars | src/config/environment.ts:63-65 | the names among the required ones that are undefined or empty, never more than were required |
| Environment.ValidateEnvironment | src/config/environment.ts:62-72 | fails exactly when some required variable is undefined or empty; the message starts with "Missing required environment variables: " and names every such variable |
| Environment.ValidateEnvironmentNamesEveryMissing | src/config/environment.ts:65-70 | every required variable that is undefined or empty makes validation fail and is named in the message |
| Environment.ValidateEnvironmentFailsIff | src/config/environment.ts:62-72 | validation fails exactly when `VITE_API_BASE_URL` is undefined or empty, and names it in the message |
| Environment.MissingBaseUrlStillConfigured | src/config/environment.ts:47-72 | a missing base URL fails validation while the configuration still holds the default URL |
| HttpClient.StatusLine | src/services/httpClient.ts:77 | the synthesised message starts with `HTTP ` |
| HttpClient.CatchToApiError | src/services/httpClient.ts:61-73 | an `ApiError` is rethrown unchanged; an `AbortError` becomes "Request timeout" with status 408 and no details; any other `Error` becomes "Network error" with status 0 and its message as details; a non-`Error` becomes "Network error" with status 0 and details "Unknown error" |
| HttpClient.EncodeBody | src/services/httpClient.ts:100 | a body is sent exactly when the data is truthy, and it is the data's JSON text |
| HttpClient.HttpClient.constructor | src/services/httpClient.ts:16-25 | each supplied field replaces the default wholesale: the environment's base URL and time-out, and the two JSON headers |
| HttpClient.HttpClient.HandleErrorResponse | src/services/httpClient.ts:76-89 | the error has the response status, the body's truthy `message` or else `HTTP <status> <text>`, and the body's truthy `details` or else the empty string; a body that does not parse gives exactly the status line |
| HttpClient.HttpClient.Request | src/services/httpClient.ts:28-74 | sends `baseURL + endpoint` with the configured headers; a rejection is a time-out (408) or network error (0); a non-ok response becomes its `ApiError`; an ok response is JSON-decoded exactly when its content type says so, else returned as text; every error is an `ApiError` with a message, except a failed read of a text body, which is passed on unchanged |
| HttpClient.HttpClient.Get | src/services/httpClient.ts:91-95 | a GET without body to `baseURL + endpoint`, settled as `Request` settles |
| HttpClient.HttpClient.Post | src/services/httpClient.ts:97-102 | a POST whose body is the encoded data, settled as `Request` settles |
| HttpClient.HttpClient.Put | src/services/httpClient.ts:104-109 | a PUT whose body is the encoded data, settled as `Request` settles |
| HttpClient.HttpClient.Patch | src/services/httpClient.ts:111-116 | a PATCH whose body is the encoded data, settled as `Request` settles |
| HttpClient.HttpClient.Delete | src/services/httpClient.ts:118-122 | a DELETE without body, settled as `Request` settles |
| HttpClient.SettlesIsDeterministic | src/services/httpClient.ts:39-73 | a request settles in exactly one way for each `fetch` outcome |
| HttpClient.SettledErrorIsNormalized | src/services/httpClient.ts:51-72 | every error except a failed text read is an `ApiError` with a non-empty message and status 408, 0 or that of the non-ok response; a failed text read is the raw rejection |
| HttpClient.TextReadFailureEscapes | src/services/httpClient.ts:60 | as written, a 200 text response whose body read fails settles with the raw `TypeError`, not an `ApiError` |
| HttpClient.AwaitedErrorIsNormalized | src/services/httpClient.ts:55-72 | with the text read awaited, every error is an `ApiError` with a message and status 408, 0 or that of the non-ok response; a failed read becomes "Network error" with status 0 and the read failure's message as details (a read cannot fail with an `AbortError`, because line 49 clears the time-out before any body is read) |
| HttpClient.AwaitingChangesOnlyTextReadFailure | src/services/httpClient.ts:39-73 | awaiting the text read changes nothing except how a failed read of a text body settles |
| HttpClient.Settles | src/services/httpClient.ts:39-73 | how `request` settles as written: every failure is an `ApiError` except a failed text read, which settles with the raw `Error` |
| HttpClient.SettlesAwaited | src/services/httpClient.ts:55-73 | the corrected form of line 60, with the text read awaited: every failure it settles with is an `ApiError` |
| HttpClient.MemberlessBodyReadsLikeUnparseable | src/services/httpClient.ts:80-88 | a body that parses to a value without `message` and `details` (such as `null`) gives the same error as one that does not parse: the status line, the status and empty details |
| HttpClient.NotFoundWithoutJsonBody | src/services/httpClient.ts:76-88 | a 404 with a non-JSON body is `HTTP 404 Not Found` with status 404 and empty details |
| UseApi.ErrorMessage | src/hooks/useApi.ts:48-52 | the intended rule, not the code as written (see "## Findings"): an error's own message for `ApiError` and `Error` rejections, else "An unexpected error occurred" |
| UseApi.ApiController.constructor | src/hooks/useApi.ts:27-32 | starts with no data, not loading, no error, idle; with `immediate` the first call has begun; the invariant holds |
| UseApi.ApiController.Execute | src/hooks/useApi.ts:35-37 | beginning a call sets loading, clears the error and keeps the data |
| UseApi.ApiController.Complete | src/hooks/useApi.ts:39-62 | with the intended `catch` (see "## Findings"): success stores the result and the success status; failure stores the message and the error status; a throwing `onSuccess` leaves the new result with the error message and status, and `onError` gets that message; loading ends in every case; the callbacks get the result or exactly the shown message |
| UseApi.ApiController.Reset | src/hooks/useApi.ts:65-70 | back to the initial state |
| UseApi.Begin | src/hooks/useApi.ts:35-37 | the state a call begins from keeps the data and satisfies the invariant: loading, no error |
| UseApi.Settle | src/hooks/useApi.ts:39-62 | with the intended `catch` (see "## Findings"): loading ends; the status is success exactly for a plain resolve; a rejection keeps the data, a resolve stores its value; the invariant is kept |
| UseApi.BeginKeepsData | src/hooks/useApi.ts:35-37 | beginning keeps data, sets loading and the loading status, clears the error |
| UseApi.SuccessStoresResult | src/hooks/useApi.ts:35-46 | a call that succeeds ends with the result, no error, not loading, success status |
| UseApi.FailureKeepsData | src/hooks/useApi.ts:47-62 | with the intended `catch` (see "## Findings"): a failure keeps the previous data and shows the message |
| UseApi.TransitionsKeepValid | src/hooks/useApi.ts:27-70 | `loading` mirrors the loading status, the error status has a message, idle/loading show none, through every transition |
| UseApi.SingleCallErrorIffErrored | src/hooks/useApi.ts:35-62 | with the intended `catch` (see "## Findings"): for one call at a time, an error is shown exactly in the error status |
| UseApi.DataOutlivesSuccess | src/hooks/useApi.ts:35-62 | with the intended `catch` (see "## Findings"): loaded data stays visible while the next call runs and after it fails |
| UseApi.LastCompletionWins | src/hooks/useApi.ts:34-63 | with two overlapping calls, the last completion decides status and, when it resolved, data |
| UseApi.OverlapShowsErrorWithSuccess | src/hooks/useApi.ts:34-63 | with the intended `catch` (see "## Findings"): a stale failure's message survives a later success of an overlapping call |
| UseApi.CompletionAfterReset | src/hooks/useApi.ts:65-70 | `reset` does not cancel a call in flight; its completion lands on the reset state |
| UseApi.FailedRequestShowsMessage | src/hooks/useApi.ts:47-55 | with the intended `catch` (see "## Findings"): a request the HTTP client failed leaves the error status and the error's message: the client's non-empty `ApiError` message, or the read failure's own message for a text body that could not be read |
| UseApi.ThrowingOnSuccessShowsErrorWithData | src/hooks/useApi.ts:40-62 | a resolved call whose `onSuccess` throws ends with the new data, the thrown error's message and the error status; as written it ends as a plain success |
| UseApi.SettleAsWritten | src/hooks/useApi.ts:39-62 | the completion as written: a success as intended; after a rejection or a throwing `onSuccess` the `catch` sets nothing, so error, status and data are left as they were before the `catch` and only loading ends |
| UseApi.AsWrittenRejectionLosesError | src/hooks/useApi.ts:47-62 | as written, a rejection leaves loading status with `loading` false and no error; the corrected completion keeps the invariant |
| UseForm.ValidateField | src/hooks/useForm.ts:38-75 | no rule gives no error; a blank value is "is required" or fine, before any other check |
| UseForm.AllErrors | src/hooks/useForm.ts:98-107 | one entry for every field that has a value |
| UseForm.AllTouched | src/hooks/useForm.ts:120-123 | every field that has a value, marked touched |
| UseForm.FormController.IsValid | src/hooks/useForm.ts:153-155 | `isValid` holds whenever no error is recorded, as in the initial state |
| UseForm.NoErrorsAdd | src/hooks/useForm.ts:101-110 | recording one more field keeps the form free of errors exactly when that field's error text is empty |
| UseForm.FormController.constructor | src/hooks/useForm.ts:30-35 | initial values, no errors, nothing touched, not submitting, so valid |
| UseForm.FormController.SetValue | src/hooks/useForm.ts:78-85 | stores the value; clears the field's error only if it had one; nothing is validated, so a valid form stays valid |
| UseForm.FormController.SetTouched | src/hooks/useForm.ts:88-94 | marks the field touched and records its validation result; other fields unchanged; valid afterwards exactly when this field passes and no other field had an error |
| UseForm.FormController.ValidateAll | src/hooks/useForm.ts:97-111 | the errors become the validation of every field with a value; true exactly when none failed, which is exactly when `isValid` then holds |
| UseForm.FormController.MarkAllTouched | src/hooks/useForm.ts:120-124 | every field with a value becomes touched |
| UseForm.FormController.HandleSubmit | src/hooks/useForm.ts:114-142 | without `onSubmit` nothing changes; otherwise all fields are touched and validated, and `onSubmit` is called once with the values exactly when no field fails; submission ends not submitting even when it throws; with `onSubmit`, it is called exactly when the form is then valid |
| UseForm.FormController.CallOnSubmit | src/hooks/useForm.ts:133-141 | records one call of `onSubmit` with the current values and ends not submitting, whether the call resolved or threw |
| UseForm.FormController.Reset | src/hooks/useForm.ts:145-150 | back to the initial values with nothing recorded, and valid |
| UseForm.UnruledFieldIsValid | src/hooks/useForm.ts:42 | a field without a rule never has an error |
| UseForm.BlankValueShortCircuits | src/hooks/useForm.ts:44-52 | a blank required field is "is required"; a blank optional one passes whatever else its rule says |
| UseForm.NonBlankCheckOrder | src/hooks/useForm.ts:54-74 | for a non-blank value: minimum length, maximum length, pattern, custom, first failure wins, lengths untrimmed |
| UseForm.ZeroBoundIsSkipped | src/hooks/useForm.ts:54-62 | a length bound of 0 behaves as no bound |
| UseForm.SameActiveBoundsValidateAlike | src/hooks/useForm.ts:54-62 | only truthy length bounds matter: rules that agree on them and on the other checks validate alike |
| UseForm.AllErrorsEmptyIff | src/hooks/useForm.ts:101-107 | validation passes exactly when every field's error text is empty |
| UseForm.BlankRequiredFieldBlocksSubmit | src/hooks/useForm.ts:45-47 | a blank required field blocks submission |
| UseForm.PristineFormReadsValid | src/hooks/useForm.ts:153-155 | `isValid` reads only recorded errors: a pristine form with a blank required field is valid though validation would fail it |
| FormExamples.UsernameCharsAreVisible | src/components/UserForm.tsx:46 | the characters the username pattern allows are neither white space nor `@`, so a non-empty run of them is not blank |
| FormExamples.UsernamePattern | src/components/UserForm.tsx:46 | a matching username is not blank and has no white space or `@` |
| FormExamples.PhonePattern | src/components/UserForm.tsx:54 | a matching phone number has no letters; any non-empty run of digits matches |
| FormExamples.EmailPattern | src/components/UserForm.tsx:50 | a matching address has at least 5 characters and an `@`, and starts with neither white space nor `@` |
| FormExamples.WebsitePattern | src/components/UserForm.tsx:58 | a matching website is non-empty, starts and ends with a letter or digit, and has only letters, digits, hyphens and dots |
| FormExamples.UserFormRules | src/components/UserForm.tsx:36-60 | the five fields; all but the website required; name 2-50 and username 3-20 characters; the four patterns; no custom check |
| FormExamples.PostFormRules | src/components/PostForm.tsx:31-42 | title 5-100 and body 10-1000 characters, both required, no pattern or custom check |
| FormExamples.IndexOf | src/components/UserForm.tsx:58 | the first position of a character, or the length |
| FormExamples.ShortUsernameReportsLength | src/components/UserForm.tsx:42-47 | a username under 3 characters is too short, reported before the pattern |
| FormExamples.UsernameWithSpaceIsMalformed | src/components/UserForm.tsx:42-47 | `ab cd` fails the username pattern |
| FormExamples.EmptyWebsiteIsFine | src/components/UserForm.tsx:56-59 | an empty or blank website passes |
| FormExamples.BlankNameIsRequired | src/components/UserForm.tsx:37-41 | a name of spaces is required |
| FormExamples.LengthIsUntrimmed | src/components/UserForm.tsx:37-41 | ` a` meets the minimum of 2 |
| FormExamples.ShortPostTitle | src/components/PostForm.tsx:33-37 | any title that is not blank but under 5 characters, such as `Hi`, is too short |
| FormExamples.LongPostBody | src/components/PostForm.tsx:38-42 | any body that is not blank and over 1000 characters is too long |
| FormExamples.BlankUserFormIsValidUntilSubmitted | src/components/UserForm.tsx:28-60 | a pristine blank user form is valid yet fails validation |
| FormExamples.TouchThenType | src/hooks/useForm.ts:78-94 | touching an empty name records "name is required"; typing clears it |
| FormExamples.SubmitBlankUserForm | src/hooks/useForm.ts:114-131 | a blank user form is valid before submission; submitting it calls nothing, touches all five fields and leaves it invalid |
| UserList.KeepMatching | src/components/UserList.tsx:32-36 | a subsequence of the users holding every matching user exactly as often as the list does, and no other |
| UserList.FilterUsers | src/components/UserList.tsx:28-37 | unchanged with no users or no term; otherwise exactly the matching users with their multiplicities, in order, never more than the total shown |
| UserList.KeepMatchingKeepsAllMatching | src/components/UserList.tsx:32-36 | users that all match are all kept |
| UserList.FilterUsersIdempotent | src/components/UserList.tsx:28-37 | filtering the filtered list again changes nothing |
| UserList.FilterUsersIgnoresCase | src/components/UserList.tsx:31 | terms differing only in letter case filter alike |
| App.App.constructor | src/App.tsx:15-16 | starts on the user list with no user selected |
| App.App.HandleUserSelect | src/App.tsx:18-21 | selects the user and shows the details |
| App.App.HandleCreateUser | src/App.tsx:23-26 | clears the selection and opens the creation form |
| App.App.HandleEditUser | src/App.tsx:28-31 | selects the user and opens the edit form |
| App.App.HandleBackToUsers | src/App.tsx:33-36 | clears the selection and shows the list |
| App.App.HandleUserFormSuccess | src/App.tsx:38-41 | selects the saved user and shows the details |
| App.App.HandleUserFormCancel | src/App.tsx:43-49 | details if a user is selected, else the list; selection unchanged |
| App.App.RenderCurrentView | src/App.tsx:51-103 | the screen for the view; a view needing a user with none selected renders nothing and switches to the list |
| App.Initial | src/App.tsx:15-16 | the start state is consistent and renders the list |
| App.Select | src/App.tsx:18-21 | consistent, and renders the chosen user's details |
| App.Create | src/App.tsx:23-26 | consistent, no selection, and renders the empty form |
| App.Edit | src/App.tsx:28-31 | consistent, and renders the form for the chosen user |
| App.Back | src/App.tsx:33-36 | consistent, no selection, and renders the list |
| App.FormSuccess | src/App.tsx:38-41 | consistent, and renders the saved user's details |
| App.FormCancel | src/App.tsx:43-49 | consistent, the selection kept, and renders that user's details or else the list |
| App.Render | src/App.tsx:51-103 | leaves a consistent state; a consistent state is kept and shows a screen; otherwise nothing is shown and the view becomes the list |
| App.HandlersKeepConsistent | src/App.tsx:15-103 | the start state, every handler and every render leave a state whose view has the user it needs |
| App.SelectShowsDetails | src/App.tsx:18-21 | selecting or saving a user shows that user's details |
| App.CreateEditBackScreens | src/App.tsx:23-36 | creation shows an empty form, editing a form for the user, back the list with no selection |
| App.CancelReturnsToOrigin | src/App.tsx:43-49 | cancelling an edit returns to the user's details, a creation to the list |
| App.ConsistentRenderKeepsState | src/App.tsx:51-103 | in a consistent state a render changes nothing and shows a screen |
| App.FallbackShowsListNext | src/App.tsx:61-65 | the fallback renders nothing, switches to the list, and the next render shows it |
| Text.TrimStart | src/hooks/useForm.ts:45 | removes exactly the leading white space |
| Text.TrimEnd | src/hooks/useForm.ts:45 | removes exactly the trailing white space |
| Text.BlankIffAllWhiteSpace | src/hooks/useForm.ts:45 | a value is blank exactly when all its characters are white space |
| Text.ToLower | src/components/UserList.tsx:31 | keeps the length, maps each ASCII capital to its lower-case letter and keeps every other character |
| Text.Contains | src/components/UserList.tsx:33-35 | `includes`: what occurs is never longer than the string |
| Text.ContainsIffOccurs | src/components/UserList.tsx:33-35 | `includes` holds exactly when the substring occurs at some position |
| Text.Join | src/config/environment.ts:69 | no parts give the empty string, one part itself; otherwise the first part and the separator come first |
| Text.ContainsInSuffix | src/components/UserList.tsx:33-35 | what occurs in a string occurs in any string that ends with it |
| Text.PrefixedJoinContainsEveryPart | src/config/environment.ts:69 | every part occurs in any text that ends with the joined parts |
| Text.JoinContainsEveryPart | src/config/environment.ts:69 | every part occurs in the joined string |
| Text.NatToString | src/hooks/useForm.ts:56 | non-empty decimal digits without a leading zero |
| Text.DigitsValueOfNatToString | src/hooks/useForm.ts:56 | the rendered digits read back as the number |
| Text.IntToString | src/hooks/useForm.ts:56 | a minus sign exactly for a negative number |

## Left out

- `fetch`, `AbortController` and the time-out timer are not modelled. What
  `fetch` did is an input; the timer is seen only through an `AbortError`
  rejection. Everything they do outside the client is also left out.
- JSON parsing and `JSON.stringify` are abstract. A body parses or fails with
  a message; request data is seen only through its truthiness and its JSON
  text. A parsed body is seen through its value and the string values of
  its `message` and `details` members. A member that is not a string, such
  as a number or an object, is not modelled; the source would pass a truthy
  one on as it is. A body that parses to `null` is a value without either
  member: the error path then reads it like a body that does not parse,
  because reading a member of `null` throws into the same `catch`, and the
  ok JSON path returns it as the value.
- Headers passed by a caller are not merged over the configured ones, because
  no verb helper passes any.
- A `Partial` configuration that spells out a member as `undefined` is not
  distinguished from one that omits it.
- src/services/apiService.ts is not part of this model. Its endpoint wrappers
  only forward to the client.
- General regular expressions are not modelled. A rule's `pattern` is any
  predicate; only the user form's four patterns are written out.
- Text.ToLower: lowercases ASCII letters only, not the full Unicode case
  mapping of `toLowerCase`.
- Lengths are counted in characters, not UTF-16 code units.
- Numbers are unbounded integers. JavaScript's floating-point numbers,
  fractional length bounds, and `parseInt` of digit runs too long to be exact
  are not modelled.
- React scheduling is not modelled: batching, stale closures, and effects
  re-running when a dependency changes identity. The immediate `useApi` call
  is made once, at mount. The user list (src/components/UserList.tsx:25) and
  the user details (src/components/UserDetails.tsx:27) both pass a new
  function with `immediate` on every render, and the source would start the
  call again on each render.
- A throwing `onError` is not modelled. The cells are already set when it
  runs, and `finally` still ends loading; its throw only rejects the
  promise `execute` returns, which no caller awaits.
- Overlapping requests are modelled as any interleaving of beginnings and
  completions. No cancellation exists, and none is modelled.
- The awaited `onSubmit` call of `handleSubmit` is one step. It ends in the
  same state whether it resolves or throws, because a throw is caught and only
  logged, so the two are not told apart.
- Console logging, `preventDefault`, and the `try`/`catch` around start-up
  validation are left out. The catch only logs the error.
- The default branch of `renderCurrentView` is not modelled, because the view
  type has only the four handled values.
- The nested address and company records of a user are not modelled, because
  the core never reads them.
- `useDebounce`, `useLocalStorage`, the views' rendering, and the UI
  components are left out, because none is part of this core.

## Findings

| source | as written | input that shows it | evidently intended | confidence | as-written member | corrected member |
|---|---|---|---|---|---|---|
| src/hooks/useApi.ts:47-57 | `err instanceof ApiError` names `ApiError`, which line 6 imports with `import type` and which is declared only as an interface; built without type checking (as a transpile-only bundler does), the name is unbound, so the test throws a `ReferenceError` inside `catch`, and only `finally` runs | any rejected call, e.g. a 404 from the client | show the error's message and set the error status, as for any `Error` | medium; not executed; depends on the build transpiling without type checks (a type-checking build rejects the file instead) | UseApi.AsWrittenRejectionLosesError | UseApi.TransitionsKeepValid |
| src/services/httpClient.ts:60 | `return response.text()` returns the promise without `await`, so a rejection of the body read settles the async function after the `try` has been left and bypasses the `catch` at lines 61-73 | a 200 response without a JSON content type whose connection drops while the body is read: the caller gets the raw `TypeError` instead of an `ApiError` | `return await response.text()`, so that the failure becomes a network error with status 0 and the failure's message, as a failed `fetch` does | high for the language rule, though the failure needs a body read to fail; not executed | HttpClient.TextReadFailureEscapes | HttpClient.AwaitedErrorIsNormalized |
