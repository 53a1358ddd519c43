# Revenue dashboard client: a Dafny model

This project models the logic of a mobile business-reporting client. The client is a React Native app with a Redux store. It models:

- the **revenue fetch workflow** (`fetchRevenue`). It builds the summary URL from optional `day`, `month` and `year` values. It picks the weekly or monthly detail endpoint, or none for a day view. It normalises the sparse detail list into 4 weeks or 12 months, with zero-filled buckets when the detail call fails. It makes at most 3 attempts, so at most 2 retries, waiting 1000 ms and then 2000 ms between them. It never retries an authentication-classified error;
- the **store slices**: revenue, auth, products, users and dashboard. Each reducer is a pure function over an immutable record;
- the **screen-side decisions**: the dashboard's revenue total, its 25% profit figure and profit series; the login form's ordered checks and its alert text; the profile page's role and gender labels and the change-password form.

One module corresponds to each source file. The revenue slice is split into `RevenueRequest` (URLs), `RevenueDetails` (bucket normalisation), `RevenueFetch` (the attempt and the retry loop) and `RevenueSlice` (reducers). There are three helper modules:

- `Common` holds `Option` and JavaScript truthiness. A number is truthy when present and non-zero; a string is truthy when present and non-empty.
- `Text` holds `includes`, index search, and integer text with its parser.
- `Query` renders and parses `name=value&...` query strings. It is the partner that states what a built URL carries.

The network is a parameter. Each attempt of the retry loop is described by three values: the stored token, the summary call's outcome (ok body, non-ok status with body, or exception) and the detail call's outcome. The retry loop is a recursive function. It returns the outcome, the list of delays it waited and the number of attempts. Clock readings are integer parameters.

Notes on the code's behaviour:

- The profit ratio is 0.25.
- Nothing checks that a requested date lies in the past, so no such check is modelled.
- The dashboard screen reads the dashboard slice's sample table and never dispatches `fetchRevenue`.
- `login.fulfilled` marks the session authenticated even when the response has no token. `AuthSlice.AuthenticatedWithoutToken` shows this.
- A failed login sets `isAuthenticated` to false rather than leaving the session untouched.
- Errors are classified by message text, not by status. A non-401 error whose body mentions `token` or `đăng nhập` is never retried. `RevenueFetch.ServerErrorClassification` states this.
- `logout` only clears the store. Token persistence and the start-up auth check do not appear in these files.

## Model

| member | source | states |
|---|---|---|
| Text.Utf16Length | src/pages/LoginPage/LoginPage.jsx:21 | `.length` counts between one and two code units per character |
| Text.Utf16LengthAppend | src/pages/LoginPage/LoginPage.jsx:21 | the code-unit length of a concatenation is the sum of the lengths |
| Text.Utf16LengthBmp | src/pages/LoginPage/LoginPage.jsx:21 | text within the Basic Multilingual Plane has one code unit per character |
| Text.AstralCountsTwice | src/pages/LoginPage/LoginPage.jsx:21 | `a😀` has length 3 |
| Text.Contains | src/redux/features/revenueSlice.js:126 | `includes` holds exactly when the needle occurs at some position of the text |
| Query.RoundTrip | src/redux/features/revenueSlice.js:23-29 | parsing the `&`-joined `name=value` text gives back the same parameter list, in order |
| Query.SplitJoin | src/redux/features/revenueSlice.js:28 | splitting the `&`-joined text at `&` gives back the pieces when no piece contains `&` |
| Query.JoinAvoids | src/redux/features/revenueSlice.js:28 | a character other than `&` that no piece contains does not occur in the joined text |
| Query.ParseFieldsRoundTrip | src/redux/features/revenueSlice.js:23-25 | each rendered `name=value` piece parses back to its parameter, in order |
| RevenueRequest.SummaryParams | src/redux/features/revenueSlice.js:22-27 | the parameter list is empty exactly when no date part is truthy (so the URL gets no `?`); every name is well formed |
| RevenueRequest.SummaryParamsSent | src/redux/features/revenueSlice.js:23-25 | each of `day`, `month`, `year` is sent exactly when truthy, under its own name and with its own value; nothing else is sent |
| RevenueRequest.SummaryParamsOrdered | src/redux/features/revenueSlice.js:23-25 | the parameters sent come in the order day, month, year |
| RevenueRequest.SummaryUrl | src/redux/features/revenueSlice.js:21-30 | see SummaryUrlCarriesParams: the endpoint, then `?` and the rendered parameters exactly when there are any |
| RevenueRequest.SummaryUrlCarriesParams | src/redux/features/revenueSlice.js:22-30 | the URL targets the revenue endpoint; it has a `?` exactly when some date part is truthy, and its query parses back to the summary parameters |
| RevenueRequest.DayQueryExample | src/redux/features/revenueSlice.js:23-29 | a full date sends day, month and year in that order |
| RevenueRequest.DetailUrl | src/redux/features/revenueSlice.js:59-70 | see DetailUrlShape and DetailUrlParts: no URL for a day view; otherwise the weekly or monthly path with its query |
| RevenueRequest.DetailGranularity | src/redux/features/revenueSlice.js:59-70 | no detail call when `day` is truthy; weekly when `month` is truthy; monthly otherwise |
| RevenueRequest.DetailUrlShape | src/redux/features/revenueSlice.js:59-70 | a month view asks `/weekly` for `year` then `month`; a year view asks `/monthly` for `year`; an absent year is sent as `undefined` |
| RevenueRequest.DetailUrlParts | src/redux/features/revenueSlice.js:61-70 | the detail URL's path is the chosen endpoint and its query parses back to the detail parameters |
| RevenueDetails.FindRevenue | src/redux/features/revenueSlice.js:90 | a revenue is found exactly when some element has the period, and it is the first such element's revenue |
| RevenueDetails.Normalize | src/redux/features/revenueSlice.js:89-104 | exactly 4 or 12 buckets, in ascending period order: bucket i is period i+1, built by the per-period lookup |
| RevenueDetails.NormalizeContents | src/redux/features/revenueSlice.js:89-104 | the revenue of bucket i is that of the first returned element for period i+1, and 0 when no element has that period |
| RevenueDetails.ZeroFill | src/redux/features/revenueSlice.js:109-111 | the fallback has 4 or 12 buckets, periods 1.. in order, all with revenue 0 |
| RevenueDetails.ZeroFillIsEmptyResponse | src/redux/features/revenueSlice.js:106-118 | the fallback equals the normalisation of an empty response |
| RevenueDetails.NormalizeIgnoresOutOfRange | src/redux/features/revenueSlice.js:89-104 | dropping elements whose key is missing or outside 1..4 (1..12) does not change the result |
| RevenueDetails.NormalizeFirstWins | src/redux/features/revenueSlice.js:90-99 | elements after the response can only fill periods it left empty |
| RevenueDetails.ResolveDetails | src/redux/features/revenueSlice.js:82-119 | an ok detail response gives the normalised list; a non-ok status or an exception gives all-zero buckets of the same length |
| RevenueDetails.SparseWeeksExample | src/redux/features/revenueSlice.js:89-95 | weeks 1 and 2 returned give weeks 1..4, with weeks 3 and 4 at 0 |
| RevenueFetch.ServerErrorMessage | src/redux/features/revenueSlice.js:47 | see ServerErrorClassification: the status prefix, then the body when non-empty, else the default text |
| RevenueFetch.IsAuthMessage | src/redux/features/revenueSlice.js:126 | see MessagesAreAuthClassified and ServerErrorClassification: a message stops the retries exactly when it contains `token` or `đăng nhập` |
| RevenueFetch.RunAttempt | src/redux/features/revenueSlice.js:15-122 | a missing or empty token throws the missing-token message; a 401 throws the session-expired message; any other error status throws the `Lỗi <status>: <body or default>` message; a thrown summary call rethrows its own message; the attempt succeeds exactly when there is a token and the summary is ok, and then carries the summary |
| RevenueFetch.SuccessfulAttemptDetails | src/redux/features/revenueSlice.js:53-120 | a success has no breakdown exactly for a day view; otherwise it has 4 weeks (month given) or 12 months, normalised or zero-filled |
| RevenueFetch.FetchFrom | src/redux/features/revenueSlice.js:12-136 | at most the remaining attempts run; the wait before attempt k+1 is 1000·k ms; every attempt before the last failed retryably; the last attempt's result is the outcome; stopping early means an auth-classified error |
| RevenueFetch.FetchRevenue | src/redux/features/revenueSlice.js:4-18 | 1 to 3 attempts; the delays are a prefix of [1000, 2000]; every attempt before the last failed retryably; the outcome is the last attempt's data or message; stopping before the third attempt on an error means the error is auth-classified |
| RevenueFetch.FirstSuccessIsFinal | src/redux/features/revenueSlice.js:122 | a first-attempt success ends the fetch with no wait |
| RevenueFetch.MessagesAreAuthClassified | src/redux/features/revenueSlice.js:126-128 | the missing-token and session-expired messages are both auth-classified |
| RevenueFetch.AuthFailureIsNotRetried | src/redux/features/revenueSlice.js:16-46 | a missing token or a 401 ends the fetch after one attempt, with no delay, rejected with its message |
| RevenueFetch.RetriesExhausted | src/redux/features/revenueSlice.js:130-135 | three retryable failures give three attempts, delays 1000 and 2000, and the third attempt's message |
| RevenueFetch.ServerErrorClassification | src/redux/features/revenueSlice.js:42-48 | a non-401 status error is auth-classified exactly when its non-empty body mentions `token` or `đăng nhập` |
| RevenueFetch.ServerErrorIsRetried | src/redux/features/revenueSlice.js:126-135 | a non-401 status whose body mentions neither phrase is a retryable failure |
| RevenueFetch.DayViewHasNoDetails | src/redux/features/revenueSlice.js:53-59 | a successful day-view fetch has `details` null |
| RevenueFetch.DetailFailureStillSucceeds | src/redux/features/revenueSlice.js:106-119 | a failed detail call still fulfils, with the summary and four zero weeks |
| RevenueFetch.MonthViewExample | src/redux/features/revenueSlice.js:59-122 | March 2024 with weeks 1 and 2 returned fulfils with revenue 90000 and weeks 1..4 |
| RevenueSlice.Initial | src/redux/features/revenueSlice.js:141-152 | empty data with revenue 0 and no details, idle, no error, year filter, not yet updated |
| RevenueSlice.SetSelectedDate | src/redux/features/revenueSlice.js:158-163 | only the selected timestamp changes |
| RevenueSlice.SetFilterType | src/redux/features/revenueSlice.js:164-166 | only the filter type changes |
| RevenueSlice.ClearError | src/redux/features/revenueSlice.js:167-169 | only `error` changes, to null |
| RevenueSlice.Pending | src/redux/features/revenueSlice.js:173-176 | loading on and error cleared; nothing else changes |
| RevenueSlice.Fulfilled | src/redux/features/revenueSlice.js:177-182 | data replaced wholesale by the payload, loading off, no error, update time recorded |
| RevenueSlice.Rejected | src/redux/features/revenueSlice.js:183-186 | loading off; error is the payload when non-empty, else the default text; nothing else changes |
| RevenueSlice.SettleLifecycle | src/redux/features/revenueSlice.js:171-187 | for any outcome, pending then settling leaves nothing loading; success shows the data and no error; failure keeps the previous data beside an error; date and filter are kept |
| RevenueSlice.FetchLifecycle | src/redux/features/revenueSlice.js:171-187 | after pending and settling a fetch, nothing loads; success shows the fetched data and no error; failure keeps the previous data beside an error |
| RevenueSlice.ClearErrorIdempotent | src/redux/features/revenueSlice.js:167-169 | clearing twice is clearing once |
| RevenueSlice.RejectThenClear | src/redux/features/revenueSlice.js:167-186 | a rejection then `clearError` changes only `loading` and `error` |
| AuthSlice.SerializeError | src/redux/features/authSlice.js:17-24 | the rejected login carries the thrown error's message without its response |
| AuthSlice.InitialIsSignedOut | src/redux/features/authSlice.js:28-34 | no user, no token, not authenticated, idle, no error |
| AuthSlice.Logout | src/redux/features/authSlice.js:40-44 | user and token null, not authenticated; `loading` and `error` unchanged |
| AuthSlice.ClearError | src/redux/features/authSlice.js:45-47 | only `error` changes, to null |
| AuthSlice.LoginPending | src/redux/features/authSlice.js:51-54 | loading on and error cleared; user, token and authentication unchanged |
| AuthSlice.LoginFulfilled | src/redux/features/authSlice.js:55-61 | user and token copied from the payload; authenticated, idle, no error |
| AuthSlice.LoginRejected | src/redux/features/authSlice.js:62-66 | not authenticated, idle, error is the message; user and token untouched |
| AuthSlice.LogoutIdempotent | src/redux/features/authSlice.js:40-44 | logging out twice is logging out once |
| AuthSlice.AuthenticatedWithoutToken | src/redux/features/authSlice.js:55-61 | a login response without a token still authenticates the session |
| AuthSlice.AuthenticatedIffLastLoginSucceeded | src/redux/features/authSlice.js:36-68 | from the initial state, the session is authenticated exactly when the latest logout, login success or login failure was a success, and then it holds that response's user and token |
| ProductSlice.Unwrap | src/redux/features/productSlice.js:14-18 | the list is `data.data.$values` when every link is present, else [] |
| ProductSlice.UnwrapWrap | src/redux/features/productSlice.js:14-16 | a list in the envelope unwraps to itself |
| ProductSlice.HasValuesIsWrapped | src/redux/features/productSlice.js:14 | a body passing the check is exactly an enveloped list |
| ProductSlice.FetchProducts | src/redux/features/productSlice.js:9-23 | a received body always fulfils with the unwrapped list; a thrown error rejects with its message |
| ProductSlice.InitialIsEmpty | src/redux/features/productSlice.js:26-30 | no products, idle, no error |
| ProductSlice.Pending | src/redux/features/productSlice.js:38-41 | loading on, error cleared, products kept |
| ProductSlice.Fulfilled | src/redux/features/productSlice.js:42-46 | products are the payload; idle, no error |
| ProductSlice.Rejected | src/redux/features/productSlice.js:47-51 | idle, error recorded, products reset to [] |
| ProductSlice.FetchLifecycle | src/redux/features/productSlice.js:36-52 | after a fetch the list is the unwrapped body, or empty on an error |
| UserSlice.FetchUsers | src/redux/features/userSlice.js:6-14 | a parsed body fulfils with its `$values` field as is, missing included; an error rejects |
| UserSlice.InitialIsEmpty | src/redux/features/userSlice.js:19-23 | no users, idle, no error |
| UserSlice.Pending | src/redux/features/userSlice.js:27-30 | loading on, error cleared, users kept |
| UserSlice.Fulfilled | src/redux/features/userSlice.js:31-34 | users are the payload, idle, `error` untouched |
| UserSlice.Rejected | src/redux/features/userSlice.js:35-38 | idle, error recorded, previous users kept |
| UserSlice.FetchLifecycle | src/redux/features/userSlice.js:25-39 | a failure keeps the previous list; a body without `$values` leaves no list |
| DashboardSlice.MockDataShape | src/redux/features/dashboardSlice.js:4-21 | keys exactly day, week, month, year; labels and figures of equal length 7, 4, 4, 4 |
| DashboardSlice.InitialSelectsDay | src/redux/features/dashboardSlice.js:23-28 | the day filter, idle, no error, the sample table |
| DashboardSlice.SetSelectedFilter | src/redux/features/dashboardSlice.js:34-36 | only the selected filter changes; the table is never modified |
| DashboardView.FoldAdd | src/pages/Homepage/Dashboard.jsx:16 | the left fold from `acc` equals `acc` plus the reference sum |
| DashboardView.TotalRevenue | src/pages/Homepage/Dashboard.jsx:16 | the sum of the selected series, 0 for an empty one |
| DashboardView.TotalProfit | src/pages/Homepage/Dashboard.jsx:17 | four times the profit is the revenue |
| DashboardView.ProfitSeries | src/pages/Homepage/Dashboard.jsx:90 | one profit point per revenue point, each a quarter of it |
| DashboardView.ProfitSeriesSumsToTotal | src/pages/Homepage/Dashboard.jsx:16-90 | the profit points add up to the profit of the total |
| DashboardView.PressesKeepFilterDefined | src/pages/Homepage/Dashboard.jsx:24-28 | after any filter-button presses, the selected filter has a series in the unchanged table |
| DashboardView.InitialFigures | src/pages/Homepage/Dashboard.jsx:16-17 | the first screen shows 40000 revenue and 10000 profit |
| LoginPage.Validate | src/pages/LoginPage/LoginPage.jsx:17-34 | login is dispatched exactly when the username has at least 3 and the password at least 6 UTF-16 code units (`.length`); a username message is reported exactly when the username fails |
| LoginPage.FirstFailureReported | src/pages/LoginPage/LoginPage.jsx:17-34 | empty, then short username, then empty, then short password: the first failure is the one reported |
| LoginPage.UsernameFailureIgnoresPassword | src/pages/LoginPage/LoginPage.jsx:17-24 | a failing username is reported whatever the password |
| LoginPage.BoundaryLengthsPass | src/pages/LoginPage/LoginPage.jsx:21-31 | 3 and 6 characters pass; 2 and 5 fail |
| LoginPage.AstralCharactersCountTwice | src/pages/LoginPage/LoginPage.jsx:21-31 | a character outside the Basic Multilingual Plane counts twice, so `a😀` is a long-enough username and `1234😀` a long-enough password |
| LoginPage.AlertMessage | src/pages/LoginPage/LoginPage.jsx:42 | the server's message if non-empty, else the error's message if non-empty, else the fixed fallback |
| LoginPage.HandleLoginAsWritten | src/pages/LoginPage/LoginPage.jsx:15-45 | invalid input alerts the first failure; a successful login alerts nothing; a refused login alerts the request error's own message, or the fallback when it is empty |
| LoginPage.ResponseIgnoredAsWritten | src/pages/LoginPage/LoginPage.jsx:38-43 | as written, two refused logins whose errors share a message give the same alert, whatever their response bodies |
| LoginPage.ServerMessageLostAsWritten | src/pages/LoginPage/LoginPage.jsx:38-43 | as written, a refused login with a server message shows the generic request-failure text instead |
| LoginPage.HandleLogin | src/pages/LoginPage/LoginPage.jsx:15-45 | invalid input alerts the first failure; success alerts nothing; a refused login alerts the message chosen from the thrown error |
| LoginPage.ServerMessageShown | src/pages/LoginPage/LoginPage.jsx:42-43 | with the error passed through, a server message is the alert text |
| ProfilePage.RoleLabel | src/pages/ProfilePage/ProfilePage.jsx:67 | `Admin` exactly for role 1, `Staff` exactly for role 2, `Member` otherwise or when missing |
| ProfilePage.GenderLabel | src/pages/ProfilePage/ProfilePage.jsx:100 | `Nam` exactly when gender is true, else `Nữ` |
| ProfilePage.Open | src/pages/ProfilePage/ProfilePage.jsx:104-106 | the modal shows with its fields as they were |
| ProfilePage.Cancel | src/pages/ProfilePage/ProfilePage.jsx:147-150 | the modal hides and no field is cleared |
| ProfilePage.ChangePassword | src/pages/ProfilePage/ProfilePage.jsx:23-39 | a mismatch alerts and leaves the form as it was; a match reports success, hides the modal and clears all three fields |
| ProfilePage.CurrentPasswordIgnored | src/pages/ProfilePage/ProfilePage.jsx:23-28 | the current password plays no part in the decision |
| ProfilePage.EmptyPasswordAccepted | src/pages/ProfilePage/ProfilePage.jsx:24-35 | two empty new-password fields are accepted, and resubmitting the cleared form succeeds again |
| ProfilePage.MismatchKeepsInput | src/pages/ProfilePage/ProfilePage.jsx:24-27 | a mismatch leaves the submitted form unchanged and shows an error |

## Left out

- I/O is out of scope: `AsyncStorage.getItem`, `fetch`, `axios`, `response.json()`/`text()` and console logging. Each call becomes an outcome value in the model's input.
- Timers and the clock are out of scope. `delay`'s waits are returned as a list of milliseconds. `new Date()` readings are integer parameters, and `lastUpdated`'s ISO text is an opaque integer.
- `setSelectedDate`'s `instanceof Date` conversion is out of scope: the payload is taken as a timestamp. Locale date formatting (`formatDate`) is also out of scope.
- Overlapping thunks are out of scope. Reducers are applied one action at a time.
- Navigation, the static list and detail screens, the settings toggle, store wiring, charts, styling and `toLocaleString` are out of scope. None of them holds logic.
- Floating point is out of scope. Revenue and profit figures are exact `int` and `real` values.
- Integer text covers integers only. JavaScript's exponent form for very large numbers and fractional date parts is not modelled.
- `null` and `undefined` are one absent value. A `null` year would render as `null` in the detail URL, not `undefined`.
- Only the `id` and `revenue` fields of the summary payload are modelled. Its other fields would be carried along unchanged by the spread.
- Detail elements are records with a numeric revenue. A non-array detail body or an element without `revenue` is not modelled. The first would throw and so zero-fill; the second would store `undefined`.
- The retry loop's exit after three failures is left out. The third failure always returns, so the code path is unreachable.
- The `catch` branch of `handleChangePassword` is left out. Nothing in its `try` can throw, since the password API call is a TODO in the code.

## Findings

| source | as written | input that shows it | evidently intended | confidence | as-written member | corrected member |
|---|---|---|---|---|---|---|
| src/pages/LoginPage/LoginPage.jsx:42 | the alert reads `error.response?.data?.message` from the error `unwrap()` rethrows; the login thunk rethrows the request error without `rejectWithValue`, so the rejected action carries only the serialized error (name, message, stack, code) | a login refused with status 401 and body `{ message: "Sai mật khẩu" }`, request error message "Request failed with status code 401" | the alert shows the server's message "Sai mật khẩu" | medium, not executed; it depends on how the thunk library serializes rejections | LoginPage.HandleLoginAsWritten (shown by LoginPage.ServerMessageLostAsWritten) | LoginPage.HandleLogin (proved by LoginPage.ServerMessageShown) |
