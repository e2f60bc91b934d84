# AegisX front end: a Dafny model of its logic

This project models the parts of the AegisX front end (a React site for a
fintech security dashboard) that hold real logic, and proves properties of
that model:

- the global loading counter and its subscribers, the token-refresh queue and
  response normalisation (`src/utils/interceptors.js`, module `Interceptors`);
- token storage, the authentication endpoints' effect on it, the 401
  response interceptor, error classification and the authentication check
  (`src/utils/api.js`, module `Api`);
- the blockchain service's bookkeeping: the `initialized` flag, the
  connection status and its saved copy, the transaction history, and mock
  transaction generation (`src/utils/blockchain-service.js`, module
  `Blockchain`);
- client-side routing over the browser's session history (`src/App.jsx`,
  module `App`);
- the sign-up wizard, the log-in check and the dashboard page's handlers
  (`src/pages/Signup.jsx`, `src/pages/Login.jsx`, `src/pages/Dashboard.jsx`;
  modules `Signup`, `Login`, `Dashboard`);
- the classifications the dashboard components compute
  (`src/components/dashboard/BlockchainCard.jsx`, `TransactionModal.jsx`,
  `BlockchainTransactions.jsx`; module `Components`).

Module `Js` holds the small part of JavaScript's semantics that the rest
needs. This covers dynamic values with truthiness, `||` and `??`, property
reads, `String(n)`, `includes`, `split` and `substring`.

Objects that the source updates in place are classes: `LoadingHandler`,
the refresh queue, the axios client with `localStorage`, the router,
`BlockchainService` and the three page components. Their methods state the
new value of every field they may change. Pure expressions are functions
with lemmas.

The world outside the program is passed in as parameters:
- the HTTP transport is an outcome per call;
- the connector is its answer per call;
- `atob` + `JSON.parse` is an abstract partial decoder;
- `Date.now()` is an integer;
- the `Math.random()` draws are bounded integers.

Behaviour that disagrees with the obvious reading of the design is modelled
as the code has it:
- there is no session gate; `navigate` commits any path, and `/dashboard`
  renders the home page;
- `endLoading` notifies `false` again when the counter was already 0;
- logging out removes only the token, so the stored `user` profile stays and
  the dashboard still shows it;
- a callback that throws in `onRefreshSuccess` ends the `forEach`: later
  entries are not called and the queue is not emptied.

## Model

| member | source | states |
|---|---|---|
| Js.Split | src/utils/api.js:292 | `token.split('.')` always yields at least one part |
| Js.SplitCount | src/utils/api.js:292-293 | the number of parts is one more than the number of '.' characters |
| Js.SplitPartsLackSeparator | src/utils/api.js:292 | no part contains a '.' |
| Js.JoinSplit | src/utils/api.js:292 | joining the parts of a split with the separator gives back the string |
| Js.AbsentChar | src/utils/api.js:236-240 | a URL that lacks one character of a pattern does not include the pattern |
| Js.OnlyOccurrenceTooEarly | src/utils/api.js:236-240 | a pattern whose needed character occurs only too early in the URL is not included |
| Interceptors.Deliveries | src/utils/interceptors.js:81-89 | one notification calls every subscriber, in registration order, with the same state |
| Interceptors.DeliveriesAppend | src/utils/interceptors.js:81-89 | notifying a concatenation of subscriber lists is notifying each list in turn |
| Interceptors.Throwing | src/utils/interceptors.js:83-87 | the logged exceptions are exactly those of the subscribers that throw, in order |
| Interceptors.ThrowingAppend | src/utils/interceptors.js:83-87 | the exceptions logged for a concatenation are each part's, in turn |
| Interceptors.Without | src/utils/interceptors.js:50-53 | the unsubscribe filter never lengthens the list |
| Interceptors.WithoutRemovesExactly | src/utils/interceptors.js:50-53 | unsubscribing removes every registration of that callback and no other, and changes nothing when it was not registered |
| Interceptors.WithoutKeepsOrder | src/utils/interceptors.js:50-53 | the filter distributes over concatenation, so the other callbacks keep their order |
| Interceptors.WithoutIdempotent | src/utils/interceptors.js:50-53 | unsubscribing twice is the same as unsubscribing once |
| Interceptors.Step | src/utils/interceptors.js:59-74 | start adds one and notifies `true` exactly when the count becomes 1; end floors at 0 and notifies `false` exactly when the count is 0 afterwards |
| Interceptors.RunAppend | src/utils/interceptors.js:59-74 | running two call sequences in turn composes their counts and notifications |
| Interceptors.StartsRaise | src/utils/interceptors.js:59-64 | k starts raise the count by k and notify `true` once, only from idle |
| Interceptors.EndsLower | src/utils/interceptors.js:69-74 | k ends from a count of at least k lower it by k and notify `false` once, only on reaching 0 |
| Interceptors.BalancedCallsRestoreCount | src/utils/interceptors.js:59-74 | n starts then n ends restore the count; from idle they notify exactly `true` then `false` |
| Interceptors.EndsWhenIdle | src/utils/interceptors.js:70-73 | unbalanced ends keep the count at 0 and each notifies `false` again |
| Interceptors.DeliveriesStep | src/utils/interceptors.js:82-84 | one more subscriber adds its delivery at the end |
| Interceptors.ThrowingStep | src/utils/interceptors.js:83-87 | one more subscriber adds itself to the error log exactly when it throws |
| Interceptors.CallEach | src/utils/interceptors.js:81-89 | the notification loop calls every subscriber in order and logs each exception without stopping |
| Interceptors.LoadingHandler.constructor | src/utils/interceptors.js:38-41 | the counter starts at 0 with no subscribers |
| Interceptors.LoadingHandler.IsLoading | src/utils/interceptors.js:95-97 | loading exactly when the count is positive |
| Interceptors.LoadingHandler.OnLoadingStateChange | src/utils/interceptors.js:48-49 | appends exactly one subscriber and changes nothing else |
| Interceptors.LoadingHandler.Unsubscribe | src/utils/interceptors.js:50-53 | the subscriber list becomes the filtered list |
| Interceptors.LoadingHandler.NotifyLoadingState | src/utils/interceptors.js:81-89 | records one delivery per subscriber and logs the throwing ones; count and subscribers unchanged |
| Interceptors.LoadingHandler.StartLoading | src/utils/interceptors.js:59-64 | the new count and the deliveries are those `Step` gives for a start |
| Interceptors.LoadingHandler.EndLoading | src/utils/interceptors.js:69-74 | the new count is max(0, count-1) and the deliveries are those `Step` gives for an end |
| Interceptors.Invocations | src/utils/interceptors.js:15-18 | each queued entry is called once with the token, in queue order |
| Interceptors.InvocationsStep | src/utils/interceptors.js:16 | one more queued entry adds one invocation at the end |
| Interceptors.FirstThrowing | src/utils/interceptors.js:16 | the index of the first entry whose callback throws, or the queue length |
| Interceptors.CallQueued | src/utils/interceptors.js:15-30 | each entry calls its callback, then resolves its promise; a throwing callback stops the loop before its promise resolves |
| Interceptors.RefreshQueue.constructor | src/utils/interceptors.js:9 | the queue starts empty |
| Interceptors.RefreshQueue.SubscribeTokenRefresh | src/utils/interceptors.js:25-32 | queues exactly one entry at the end |
| Interceptors.RefreshQueue.OnRefreshSuccess | src/utils/interceptors.js:15-18 | without a throwing callback every entry is called and resolved once and the queue is emptied; otherwise the calls stop at the first throw and the queue stays |
| Interceptors.FormatResponse | src/utils/interceptors.js:122-130 | a nullish input throws; otherwise `success` is the input's unless nullish, then `true`; `message`, `data` and `timestamp` are the input's when truthy, otherwise `''`, the whole input and the current time |
| Interceptors.FormatResponseStable | src/utils/interceptors.js:122-130 | formatting a formatted response keeps its success, message and timestamp, and its data when truthy |
| Api.HandleApiError | src/utils/api.js:258-282 | always throws: the response's status and message or "Error: <status>"; status 0 with no response; status 500 with the error's message otherwise |
| Api.HandleApiErrorStatus | src/utils/api.js:266-278 | for HTTP status codes, status 0 means "no response", and status 500 means "no request" or a server 500 |
| Api.UnauthorizedDecision | src/utils/api.js:233-250 | the token is cleared exactly on a 401 from a non-authentication URL; the redirect happens exactly then and off "/login" |
| Api.IsAuthEndpoint | src/utils/api.js:236-240 | true exactly when the URL includes one of "/login", "/register", "/forgotPassword" and "/resetPassword" |
| Api.LoginUrlIsAuthEndpoint | src/utils/api.js:236-240 | a 401 from the login or register endpoint does not log out |
| Api.UsersEndpointIsNotAuth | src/utils/api.js:236-240 | a users URL whose remainder lacks the letters the auth paths need is not an auth endpoint |
| Api.LogoutUrlsAreNotAuthEndpoints | src/utils/api.js:236-240 | a 401 from either logout endpoint does clear the token |
| Api.LogoutRejectionRedirects | src/utils/api.js:233-250 | a rejected logout call clears the token exactly on a 401, and redirects exactly on a 401 while the browser is off "/login" |
| Api.StoredToken | src/utils/api.js:16 | `getAuthToken()` is the stored entry, absent when there is none |
| Api.IssuedToken | src/utils/api.js:40-55 | a token is issued exactly when `data`, `data.success`, `data.data` and `data.data.token` are all truthy |
| Api.IsAuthenticated | src/utils/api.js:285-303 | true only with a stored non-empty token of exactly three dot-separated parts whose middle part decodes to a payload with a truthy `exp` and `exp*1000 > now` |
| Api.ExpiryDecides | src/utils/api.js:292-298 | a three-part token whose payload has a non-zero numeric `exp`, whatever its other fields, authenticates exactly while `exp*1000 > now` |
| Api.SplitAfterPart | src/utils/api.js:292 | splitting a dot-free part, '.', and the rest gives the part and then the rest's parts |
| Api.SplitWhole | src/utils/api.js:292 | a dot-free string splits into itself |
| Api.SplitThree | src/utils/api.js:292-293 | `a.b.c` with dot-free parts splits into exactly `[a, b, c]` |
| Api.NotAJwtIsRejected | src/utils/api.js:293 | a token without two dots is rejected whatever the decoder says |
| Api.AuthenticationIsMonotoneInTime | src/utils/api.js:298 | a token accepted now was accepted at every earlier time |
| Api.GetCurrentUser | src/utils/api.js:309-317 | the parsed "user" entry, or `null` when it is missing, empty or does not parse |
| Api.ProfileOutlivesToken | src/utils/api.js:309-317 | removing the token leaves the stored profile readable |
| Api.Client.constructor | src/utils/api.js:28-32 | the header is set at start-up exactly when a token is already stored |
| Api.Client.SetAuthToken | src/utils/api.js:17-26 | a truthy token is stored and sent as "Bearer <token>"; a falsy one removes both; header and storage stay in step |
| Api.Client.OnResponseError | src/utils/api.js:230-255 | clears the token and navigates to "/login" exactly as `UnauthorizedDecision` says; otherwise nothing changes |
| Api.Client.Request | src/utils/api.js:230-255 | every call is recorded; an answer changes nothing; a rejection passes through the interceptor, which clears token and header and pushes "/login" exactly as `UnauthorizedDecision` says |
| Api.Client.Authenticate | src/utils/api.js:37-62 | an answer is returned and, only when a token is issued, stores it and sets the header to "Bearer <token>"; a rejection throws `handleApiError`'s error and leaves token and headers |
| Api.Client.Login | src/utils/api.js:51-62 | `login` calls the login endpoint and stores the issued token and its header only when the answer has the right shape; otherwise token and headers are unchanged |
| Api.Client.Register | src/utils/api.js:37-48 | `register` calls the register endpoint and stores the issued token and its header only when the answer has the right shape; otherwise token and headers are unchanged |
| Api.Client.Logout | src/utils/api.js:65-79 | the endpoint is called only when a token is stored; the token and the Authorization header are gone on every path, other headers kept; an answer or no call leaves the router alone, a rejection rethrows `handleApiError`'s error after the interceptor pushed "/login" or left the router as its decision says |
| Api.Client.LogoutAll | src/utils/api.js:82-91 | the endpoint is always called; the token and the Authorization header are gone on both paths, other headers kept; a rejection rethrows and moves the router exactly as the interceptor's decision says |
| Api.LoggedOutIsNotAuthenticated | src/utils/api.js:65-91 | after either logout the authentication check fails at every time |
| App.RenderPage | src/App.jsx:11-20 | "/login" shows Login, "/signup" shows Signup, every other path the home page |
| App.Router.constructor | src/App.jsx:8 | `currentPage` starts as the load-time pathname |
| App.Router.Navigate | src/App.jsx:23-26 | pushes the path (dropping forward entries) and shows it, with no check |
| App.Router.OnPopState | src/App.jsx:29-31 | shows the browser's current path and pushes nothing |
| App.Router.Back | src/App.jsx:29-31 | the back button moves one entry back and shows it when there is one; otherwise nothing changes |
| App.Router.Forward | src/App.jsx:29-31 | the forward button moves one entry forward and shows it when there is one; otherwise nothing changes |
| App.NavigateThenBack | src/App.jsx:23-31 | going back after `navigate` shows the page shown before it |
| Blockchain.StatusValue | src/utils/blockchain-service.js:7-12 | the status object is truthy, and its `hasWallet` and `connected` read back as the reported flags |
| Blockchain.RestoreAfterSave | src/utils/blockchain-service.js:21-45 | restoring what was saved gives back the saved `initialized` and status |
| Blockchain.RestoreFallbacks | src/utils/blockchain-service.js:26-27 | missing fields fall back to `false` and the current status |
| Blockchain.RestoreKeepsStatusTruthy | src/utils/blockchain-service.js:27 | restoring never leaves a falsy status when the current one is truthy |
| Blockchain.IndexOf | src/utils/blockchain-service.js:149 | `findIndex`: the first index with that id, or -1 exactly when none has it |
| Blockchain.FindIndex | src/utils/blockchain-service.js:149 | the search loop returns `IndexOf` |
| Blockchain.MockId | src/utils/blockchain-service.js:188 | a mock id starts with "TX-" |
| Blockchain.MockTransaction | src/utils/blockchain-service.js:185-197 | a mock record is scored 0 to 99, flagged exactly above 75, unverified, USD, of a listed type and source, and stamped within the last hour |
| Blockchain.MockTransactions | src/utils/blockchain-service.js:183-198 | one record per draw |
| Blockchain.MockTransactionsAt | src/utils/blockchain-service.js:184-198 | the i-th record is made from the i-th draw |
| Blockchain.MockTransactionsClassified | src/utils/blockchain-service.js:185-196 | every generated record is scored 0 to 99, flagged exactly above 75, and unverified |
| Blockchain.BuildMockTransactions | src/utils/blockchain-service.js:183-198 | the loop makes exactly max(count, 0) records, the i-th from the i-th draw |
| Blockchain.BlockchainService.constructor | src/utils/blockchain-service.js:4-18 | the defaults, then the restored state; empty history |
| Blockchain.BlockchainService.RestoreConnectionState | src/utils/blockchain-service.js:21-32 | the state becomes `Restored(saved, current)`; nothing else changes |
| Blockchain.BlockchainService.SaveConnectionState | src/utils/blockchain-service.js:35-45 | the saved document holds the current `initialized` and status |
| Blockchain.BlockchainService.DoInitialization | src/utils/blockchain-service.js:67-83 | `initialized` takes the connector's answer; on success the status is adopted and saved; the pending initialization is cleared on every path |
| Blockchain.BlockchainService.Initialize | src/utils/blockchain-service.js:47-64 | an initialized service answers true without calling the connector; otherwise the result is `_doInitialization`'s, and a success adopts and saves the connector's status |
| Blockchain.BlockchainService.ConnectWallet | src/utils/blockchain-service.js:85-100 | initializes first only when needed, `initialized` then becoming the initialization's answer and its status adopted and saved on success; a connected wallet's status is adopted and saved; the result is the connector's answer, false on an exception |
| Blockchain.BlockchainService.LogTransaction | src/utils/blockchain-service.js:106-129 | refused without a wallet, history unchanged; on success one verified record with hash and block is appended; on failure it throws and history is unchanged |
| Blockchain.BlockchainService.UpdateTransactionRisk | src/utils/blockchain-service.js:141-162 | refused without a wallet; otherwise only the score and flag of the first record with that id change, and the answer says whether there was one |
| Blockchain.BlockchainService.GetTransactions | src/utils/blockchain-service.js:164-166 | returns exactly the stored history |
| Blockchain.BlockchainService.GenerateMockTransactions | src/utils/blockchain-service.js:168-201 | the history is replaced by exactly max(count, 0) mock records, which are also returned |
| Blockchain.UpdateChangesOnlyFirstMatch | src/utils/blockchain-service.js:149-154 | after an update the found record has the new score and flag, all other records are unchanged, and it is still the first match |
| Signup.UpdateField | src/pages/Signup.jsx:42-48 | the named field takes the value and every other field is unchanged |
| Signup.UpdateFieldUndo | src/pages/Signup.jsx:42-48 | typing a field's old value back restores the form |
| Signup.EmailPatternHasShape | src/pages/Signup.jsx:55 | a string matching `^\S+@\S+\.\S+$` has no whitespace, an '@' at index 1 or later, and a later '.' that is neither next to it nor last |
| Signup.EmailShapeMatchesPattern | src/pages/Signup.jsx:55 | every string of that shape matches the pattern |
| Signup.EmailPatternIffShape | src/pages/Signup.jsx:55 | the pattern and the positional description accept the same strings |
| Signup.ValidateStep1 | src/pages/Signup.jsx:50-60 | a blank company name fails first; then an e-mail not of the pattern's shape; it passes exactly when neither |
| Signup.BlankEmailFailsPattern | src/pages/Signup.jsx:55 | a blank e-mail never matches the pattern, so the `trim()` test decides nothing alone |
| Signup.ValidateStep2 | src/pages/Signup.jsx:62-76 | short password, then mismatch, then missing industry; it passes exactly when none applies |
| Signup.SignupPage.constructor | src/pages/Signup.jsx:14-25 | the initial form (size "10-50"), step 1, no error, not loading |
| Signup.SignupPage.HandleChange | src/pages/Signup.jsx:42-48 | only the named field of the form changes |
| Signup.SignupPage.NextStep | src/pages/Signup.jsx:78-83 | from step 1 a valid first page moves to step 2 and clears the error; a failure sets its message and keeps the step |
| Signup.SignupPage.PrevStep | src/pages/Signup.jsx:85-88 | always step 1 with no error |
| Signup.SignupPage.HandleSubmit | src/pages/Signup.jsx:90-101 | a valid second page starts loading, clears the error and sets the timer; otherwise the first failure's message |
| Signup.SignupPage.SubmitTimerFires | src/pages/Signup.jsx:97-100 | the timer ends loading and sets success |
| Signup.SignupPage.Reload | src/pages/Signup.jsx:14-25 | a reloaded page is the freshly mounted wizard: initial form, step 1, no error, no timers |
| Signup.SubmitStepOneAsWritten | src/pages/Signup.jsx:155 | submitting step 1 through `nextStep`, which does not cancel the event, ends on an empty step 1 even for a valid first page |
| Signup.SampleFirstPageIsValid | src/pages/Signup.jsx:50-60 | company "Acme" with e-mail "a@b.co" passes the first page's validation |
| Signup.CompleteSignup | src/pages/Signup.jsx:78-101 | with the corrected `nextStep` (the event cancelled), two valid pages and the timer end in success on step 2 |
| Login.AnyMatches | src/pages/Login.jsx:48-50 | `some` is true exactly when an entry matches both e-mail and password |
| Login.ValidIffListed | src/pages/Login.jsx:41-50 | the check accepts exactly the three listed pairs |
| Login.PasswordsAreNotShared | src/pages/Login.jsx:41-50 | an e-mail is not accepted with another account's password |
| Login.LoginPage.constructor | src/pages/Login.jsx:14-18 | empty fields, no error, not loading, no success |
| Login.LoginPage.SetEmail | src/pages/Login.jsx:14 | only the e-mail changes |
| Login.LoginPage.SetPassword | src/pages/Login.jsx:15 | only the password changes |
| Login.LoginPage.HandleLogin | src/pages/Login.jsx:35-47 | clears the error, starts loading and sets a timer holding the credentials entered now |
| Login.LoginPage.CheckFires | src/pages/Login.jsx:47-61 | a listed pair sets success and clears the error; any other sets the invalid message and leaves success; loading ends either way |
| Login.LoginWithListedPair | src/pages/Login.jsx:35-61 | submitting a listed pair and letting the timer fire logs in |
| Dashboard.UpperAscii | src/pages/Dashboard.jsx:62 | `toUpperCase` on one ASCII character: lower-case letters map to upper case, everything else is kept |
| Dashboard.UpperAsciiString | src/pages/Dashboard.jsx:62 | upper-cases each character, keeping the length |
| Dashboard.FirstChar | src/pages/Dashboard.jsx:62 | `charAt(0)`: the first character, or `''` for the empty string |
| Dashboard.NameInitial | src/pages/Dashboard.jsx:59-62 | the first letter of a string name, `''` for a falsy one, and a throw for a truthy non-string |
| Dashboard.GetUserInitials | src/pages/Dashboard.jsx:56-63 | "?" without a user; otherwise at most two characters, none lower-case |
| Dashboard.InitialsOfFullName | src/pages/Dashboard.jsx:56-63 | "ada lovelace" gives "AL" |
| Dashboard.InitialsOfPartialNames | src/pages/Dashboard.jsx:56-63 | a missing last name contributes nothing; no names give `''`; no user gives "?" |
| Dashboard.InitialsOfNamedUser | src/pages/Dashboard.jsx:59-62 | for names that are strings or missing or falsy: one upper-cased letter per non-empty string name, first name first, nothing for a missing or falsy one |
| Dashboard.BandOf | src/pages/Dashboard.jsx:191-192 | above 80 is good, 61 to 80 needs attention, the rest at risk |
| Dashboard.LabelAndColourFollowBand | src/pages/Dashboard.jsx:191-192 | the label and the colour class use the same thresholds |
| Dashboard.ShownScoreIsGood | src/pages/Dashboard.jsx:191-192 | the shown score 87 is labelled "Good" |
| Dashboard.DashboardPage.constructor | src/pages/Dashboard.jsx:32-33 | no user and not logging out |
| Dashboard.DashboardPage.OnMount | src/pages/Dashboard.jsx:36-45 | without a stored user it pushes "/login" as the next history entry and never sets `user`; otherwise it shows the user and leaves the router alone |
| Dashboard.StartThenEnd | src/utils/interceptors.js:59-74 | a start immediately followed by an end restores the count and, exactly from 0, notifies every subscriber `true` then `false` |
| Dashboard.DashboardPage.HandleLogout | src/pages/Dashboard.jsx:65-79 | one start and one end of loading leave the count where it was and, from 0, notify every subscriber `true` then `false`; the logout endpoint is called only with a stored token; "/login" is pushed once, or twice when the call's 401 already redirected, and the token is gone whether or not the call throws; `isLoggingOut` ends false |
| Components.VerifiedOnes | src/components/dashboard/BlockchainCard.jsx:28 | exactly the verified transactions |
| Components.PendingOnes | src/components/dashboard/BlockchainCard.jsx:32 | exactly the unverified transactions |
| Components.HighRiskOnes | src/components/dashboard/BlockchainCard.jsx:36 | exactly the transactions scored above 70 |
| Components.VerifiedOnesAppend | src/components/dashboard/BlockchainCard.jsx:28 | the filter distributes over concatenation, which fixes it on every list, duplicates and order included |
| Components.PendingOnesAppend | src/components/dashboard/BlockchainCard.jsx:32 | the filter distributes over concatenation |
| Components.HighRiskOnesAppend | src/components/dashboard/BlockchainCard.jsx:36 | the filter distributes over concatenation |
| Components.VerifiedOnesCount | src/components/dashboard/BlockchainCard.jsx:28 | the verified count shown is the number of positions holding a verified transaction, duplicates counted |
| Components.PendingOnesCount | src/components/dashboard/BlockchainCard.jsx:32 | the pending count shown is the number of positions holding an unverified transaction |
| Components.HighRiskOnesCount | src/components/dashboard/BlockchainCard.jsx:36 | the high-risk count shown is the number of positions holding a transaction scored above 70 |
| Components.VerifiedPlusPendingIsTotal | src/components/dashboard/BlockchainCard.jsx:28-32 | verified plus pending counts equal the number of transactions |
| Components.HighRiskIsStrict | src/components/dashboard/BlockchainCard.jsx:36 | appended to any list, a transaction scored 70 leaves the high-risk count unchanged and one scored 71 raises it by one |
| Components.StatusLabel | src/components/dashboard/BlockchainCard.jsx:21-23 | "Connected" exactly when `connected` is truthy |
| Components.WalletControlFor | src/components/dashboard/BlockchainCard.jsx:39-53 | the connect button exactly without a wallet, disabled and labelled "Connecting..." exactly while connecting; the link otherwise |
| Components.ControlFollowsReportedWallet | src/components/dashboard/BlockchainCard.jsx:39-53 | for an adopted status, the link is shown exactly when the connector reported a wallet |
| Components.RiskBandOf | src/components/dashboard/TransactionModal.jsx:90-93 | above 75 is high, 51 to 75 medium, the rest low |
| Components.ModalShown | src/components/dashboard/TransactionModal.jsx:12 | the dialog renders exactly when it is open and has a transaction |
| Components.OnSliderChange | src/components/dashboard/TransactionModal.jsx:82-85 | the new score, the flag kept |
| Components.OnCheckboxChange | src/components/dashboard/TransactionModal.jsx:104-107 | the flag negated, the score kept |
| Components.AssessmentUpdatesUndo | src/components/dashboard/TransactionModal.jsx:82-107 | toggling twice restores the draft, and so does sliding back |
| Components.Truncated | src/components/dashboard/TransactionModal.jsx:38 | `substring(0, n) + "..."`: a prefix of at most n characters, then "..." |
| Components.ModalIdText | src/components/dashboard/TransactionModal.jsx:38 | the id's first 14 characters, then "..." |
| Components.ModalHashText | src/components/dashboard/TransactionModal.jsx:64-67 | the hash line appears exactly for a non-empty hash, as its first 22 characters |
| Components.VerifiedLabel | src/components/dashboard/TransactionModal.jsx:58-59 | "Verified" exactly when verified, otherwise "Pending Verification" |
| Components.RowFor | src/components/dashboard/BlockchainTransactions.jsx:43-77 | the row is keyed by the id, shows its first 10 characters, a bar `<score>%` wide, and "Flagged" exactly when flagged |
| Components.Rows | src/components/dashboard/BlockchainTransactions.jsx:42 | one row per transaction, in input order |
| Components.ColoursFollowRiskBand | src/components/dashboard/BlockchainTransactions.jsx:56-68 | bar colour, score colour and the dialog's colour all follow the same risk band |
| Components.MockRowsFlagRedBars | src/components/dashboard/BlockchainTransactions.jsx:56-77 | for a generated record the row is flagged exactly when its bar is red |

## Left out

- Floating point: `amount` is `Math.floor(random * 10000) / 100`, kept as an integer number of cents (`amountCents`); the random draws are already-scaled integers passed in.
- Unicode case mapping: `toUpperCase` is modelled for ASCII letters only; other characters are kept.
- `atob` and `JSON.parse`/`JSON.stringify` are an abstract partial decoder parameter; base64 itself is not modelled.
- Numeric `exp` values are integers; a string `exp` is treated as failing the comparison (`NaN` in JavaScript for non-numeric strings; numeric strings are not modelled).
- String lengths count Dafny characters, not UTF-16 code units.
- Async interleaving: each `await` completes before the next step; the timers of Login and Signup are separate steps. The promise caching of `initialize` is only the flag `initializing`; a second caller joining a pending initialization is not modelled.
- `isRefreshingAuth` is a constant the source never changes; it is not modelled.
- The unsubscribe closure is the method `LoadingHandler.Unsubscribe` taking the callback, not a returned function.
- `console.error`/`console.log` and `alert` have no effect on the modelled state and are left out. `e.preventDefault()` is modelled by its absence: see the finding on the sign-up wizard's first step.
- `Blockchain.BlockchainService.RestoreConnectionState`: a restored `initialized` is kept as the boolean of its truthiness, not the parsed value itself.
- `Blockchain.BlockchainService.GetTransactions`: the history is a sequence of values, so it returns a snapshot; aliasing between the returned array and later in-place updates is not captured.
- `Blockchain.BlockchainService.GenerateMockTransactions`: `Date.now()` is read once for the whole call, so every id and timestamp uses the same clock value.
- `Blockchain.BlockchainService.GenerateMockTransactions`: the default argument `count = 10` is not modelled; every caller passes `count`.
- `Api.IsAuthenticated`: returns `false` where the source returns the falsy `payload.exp` itself (`0`, `null`, `undefined`, `''`); both are falsy, so a caller that tests truthiness sees no difference.
- `verifyTransaction` and `getConnectionStatus` only forward to the connector or return a field; the connector itself (`src/utils/blockchain-connector.js`) is not part of this model.
- The non-authentication API wrappers (`forgotPassword`, `resetPassword`, `userAPI`, `apiRequest`) and the request timeout are not part of this model.
- Rendering, animation and the marketing and static-number components are not part of this model.

## Findings

| source | as written | input that shows it | evidently intended | confidence | as-written member | corrected member |
|---|---|---|---|---|---|---|
| src/pages/Signup.jsx:78-83 | on step 1 the form's `onSubmit` is `nextStep`, which never calls `e.preventDefault()`, so after it runs the browser submits the form by GET to the current address and the page reloads | step 1 with company "Acme" and e-mail "a@b.co", then the "Next" submit button: the wizard comes back on an empty step 1 | a valid first page moves the wizard to step 2 with the form kept, as `handleSubmit` does for step 2 by cancelling the event | not executed | Signup.SubmitStepOneAsWritten | Signup.SignupPage.NextStep |
